/**
 * The side navigation (src/components/Navigation/MainNavigation.tsx): a menu
 * that depends on the user's role, and a list of expanded entries that a
 * click on a parent entry toggles. A click on a leaf is reported to the page.
 */
module Navigation {
  import opened Wrappers
  import opened Selection

  /** Who is looking at the menu. */
  datatype Role = Admin | Customer | Guest

  /** A menu entry (its label is `caption`): a link, a parent of sub-entries, or neither. */
  datatype NavItem = NavItem(id: string, caption: string, href: Option<string>, children: Option<seq<NavItem>>)

  /** A sub-entry with neither link nor children. */
  function Leaf(id: string, caption: string): NavItem
  {
    NavItem(id, caption, None, None)
  }

  /** A parent entry. */
  function Parent(id: string, caption: string, children: seq<NavItem>): NavItem
  {
    NavItem(id, caption, None, Some(children))
  }

  const Home: NavItem := NavItem("home", "Inicio", Some("/"), None)

  const Catalog: NavItem := Parent("catalog", "Catálogo", [
    Leaf("all-products", "Todas las zapatillas"),
    Leaf("running", "Running"),
    Leaf("casual", "Casual"),
    Leaf("basketball", "Basketball"),
    Leaf("lifestyle", "Lifestyle")])

  const AdminMenu: NavItem := Parent("admin", "Administración", [
    Leaf("products-admin", "Gestión de productos"),
    Leaf("categories-admin", "Gestión de categorías"),
    Leaf("orders-admin", "Pedidos"),
    Leaf("customers-admin", "Clientes")])

  const Analytics: NavItem := Parent("analytics", "Reportes", [
    Leaf("sales-report", "Ventas"),
    Leaf("inventory-report", "Inventario"),
    Leaf("customers-report", "Clientes")])

  const Account: NavItem := Parent("account", "Mi cuenta", [
    Leaf("profile", "Perfil"),
    Leaf("orders", "Mis pedidos"),
    Leaf("wishlist", "Lista de deseos")])

  /** The menu for a role: home and catalog for all, the admin and report menus for admins, the account menu for customers. */
  function NavigationItems(role: Role): seq<NavItem>
  {
    [Home, Catalog]
    + (if role == Admin then [AdminMenu, Analytics] else [])
    + (if role == Customer then [Account] else [])
  }

  /** The ids of a list of entries, in order. */
  function Ids(items: seq<NavItem>): (r: seq<string>)
    ensures |r| == |items|
    ensures forall i :: 0 <= i < |items| ==> r[i] == items[i].id
  {
    seq(|items|, i requires 0 <= i < |items| => items[i].id)
  }

  /** The entry has a non-empty list of sub-entries. */
  predicate HasChildren(item: NavItem)
  {
    item.children.Some? && |item.children.value| > 0
  }

  /** The top-level ids per role: guests see home and catalog, customers also their account, admins also administration and reports. */
  lemma TopLevelIds(role: Role)
    ensures role == Guest ==> Ids(NavigationItems(role)) == ["home", "catalog"]
    ensures role == Customer ==> Ids(NavigationItems(role)) == ["home", "catalog", "account"]
    ensures role == Admin ==> Ids(NavigationItems(role)) == ["home", "catalog", "admin", "analytics"]
  {
  }

  /** Every role sees a linked home entry first, and every other top-level entry is a parent with sub-entries. */
  lemma MenuShape(role: Role)
    ensures NavigationItems(role)[0] == Home && Home.href == Some("/") && Home.children.None?
    ensures forall i :: 1 <= i < |NavigationItems(role)| ==> HasChildren(NavigationItems(role)[i])
  {
  }

  /** The menu's state: the role and the ids of the expanded entries. */
  class MainNavigation {
    const userRole: Role
    var expandedItems: seq<string>

    /** The role defaults to guest, whose menu is home and catalog only; nothing starts expanded. */
    constructor (role: Option<Role>)
      ensures userRole == (if role.Some? then role.value else Guest)
      ensures role.None? ==> Ids(Items()) == ["home", "catalog"]
      ensures expandedItems == []
    {
      var r := if role.Some? then role.value else Guest;
      TopLevelIds(r);
      userRole := r;
      expandedItems := [];
    }

    /** The menu this navigation shows. */
    function Items(): seq<NavItem>
    {
      NavigationItems(userRole)
    }

    /** The entry with this id is expanded. */
    predicate IsExpanded(item: NavItem)
      reads this
    {
      item.id in expandedItems
    }

    /** Sub-entries are shown only for an expanded entry that has some. */
    predicate ShowsChildren(item: NavItem)
      reads this
    {
      HasChildren(item) && IsExpanded(item)
    }

    /** Collapse the entry if it is expanded, otherwise expand it; no other entry changes. */
    method ToggleExpanded(itemId: string)
      modifies this
      ensures expandedItems == Toggle(old(expandedItems), itemId)
      ensures itemId in expandedItems <==> itemId !in old(expandedItems)
      ensures forall id :: id != itemId ==> (id in expandedItems <==> id in old(expandedItems))
    {
      forall id ensures id != itemId ==> (id in Toggle(expandedItems, itemId) <==> id in expandedItems) {
        ToggleMembership(expandedItems, itemId, id);
      }
      ToggleMembership(expandedItems, itemId, itemId);
      expandedItems := Toggle(expandedItems, itemId);
    }

    /**
     * A click on an entry that carries a children list (even an empty one)
     * toggles it and navigates nowhere; a click on any other entry leaves the
     * expansion alone and reports the entry to navigate to.
     */
    method HandleItemClick(item: NavItem) returns (navigateTo: Option<NavItem>)
      modifies this
      ensures item.children.Some? ==> navigateTo == None && expandedItems == Toggle(old(expandedItems), item.id)
      ensures item.children.None? ==> navigateTo == Some(item) && expandedItems == old(expandedItems)
      ensures HasChildren(item) ==> (ShowsChildren(item) <==> !old(IsExpanded(item)))
    {
      if item.children.Some? {
        ToggleExpanded(item.id);
        navigateTo := None;
      } else {
        navigateTo := Some(item);
      }
    }
  }
}
