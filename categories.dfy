/**
 * The product-category store of the admin panel (src/hooks/useCategories.ts):
 * a list of categories that is appended to, edited by id and filtered by id.
 *
 * New ids come from the clock in the source; here the caller passes the new id.
 */
module Categories {
  import opened Wrappers

  /** A managed category. */
  datatype Category = Category(id: string, name: string, description: Option<string>, isActive: bool)

  /** The fields of a new category, everything but the id. */
  datatype CategoryFields = CategoryFields(name: string, description: Option<string>, isActive: bool)

  /** A partial category: the fields present overwrite, the absent ones are kept. */
  datatype CategoryUpdate = CategoryUpdate(
    id: Option<string>,
    name: Option<string>,
    description: Option<string>,
    isActive: Option<bool>)

  /** The list the store starts with. */
  const InitialCategories: seq<Category> :=
    [Category("1", "Zapatillas", Some("Categoría principal de calzado deportivo"), true)]

  /** A new category from its fields and the id it is given. */
  function WithId(fields: CategoryFields, id: string): Category
  {
    Category(id, fields.name, fields.description, fields.isActive)
  }

  /** The category with the fields present in `u` written over it. */
  function Merge(c: Category, u: CategoryUpdate): Category
  {
    Category(
      if u.id.Some? then u.id.value else c.id,
      if u.name.Some? then u.name.value else c.name,
      if u.description.Some? then Some(u.description.value) else c.description,
      if u.isActive.Some? then u.isActive.value else c.isActive)
  }

  /** Merge `u` into every category with id `id`; the others are kept, and so are length and order. */
  function EditAll(cats: seq<Category>, id: string, u: CategoryUpdate): (r: seq<Category>)
    ensures |r| == |cats|
    ensures forall i :: 0 <= i < |cats| ==> r[i] == if cats[i].id == id then Merge(cats[i], u) else cats[i]
  {
    if cats == [] then []
    else [if cats[0].id == id then Merge(cats[0], u) else cats[0]] + EditAll(cats[1..], id, u)
  }

  /** The categories whose id is not `id`, in order. */
  function DeleteAll(cats: seq<Category>, id: string): seq<Category>
  {
    if cats == [] then []
    else (if cats[0].id == id then [] else [cats[0]]) + DeleteAll(cats[1..], id)
  }

  /** The active categories, in order. */
  function ActiveOnly(cats: seq<Category>): seq<Category>
  {
    if cats == [] then []
    else (if cats[0].isActive then [cats[0]] else []) + ActiveOnly(cats[1..])
  }

  // ----- Properties -----

  /** A merge overwrites exactly the fields the update carries. */
  lemma MergeOverwritesPresentFields(c: Category, u: CategoryUpdate)
    ensures u.id.None? ==> Merge(c, u).id == c.id
    ensures u.id.Some? ==> Merge(c, u).id == u.id.value
    ensures u.name.None? ==> Merge(c, u).name == c.name
    ensures u.name.Some? ==> Merge(c, u).name == u.name.value
    ensures u.description.None? ==> Merge(c, u).description == c.description
    ensures u.description.Some? ==> Merge(c, u).description == u.description
    ensures u.isActive.None? ==> Merge(c, u).isActive == c.isActive
    ensures u.isActive.Some? ==> Merge(c, u).isActive == u.isActive.value
  {
  }

  /** Editing an id no category has changes nothing. */
  lemma EditAbsent(cats: seq<Category>, id: string, u: CategoryUpdate)
    requires forall i :: 0 <= i < |cats| ==> cats[i].id != id
    ensures EditAll(cats, id, u) == cats
  {
  }

  /** After a delete no category has that id, and exactly the other categories remain. */
  lemma {:induction false} DeleteMembership(cats: seq<Category>, id: string, c: Category)
    ensures c in DeleteAll(cats, id) <==> c in cats && c.id != id
  {
    if cats != [] {
      DeleteMembership(cats[1..], id, c);
      assert cats == [cats[0]] + cats[1..];
    }
  }

  /** Deletion distributes over concatenation, so the remaining categories keep their order. */
  lemma {:induction false} DeleteConcat(a: seq<Category>, b: seq<Category>, id: string)
    ensures DeleteAll(a + b, id) == DeleteAll(a, id) + DeleteAll(b, id)
  {
    if a == [] {
      assert a + b == b;
    } else {
      var head := if a[0].id == id then [] else [a[0]];
      assert (a + b)[0] == a[0] && (a + b)[1..] == a[1..] + b;
      DeleteConcat(a[1..], b, id);
      calc {
        DeleteAll(a + b, id);
        head + DeleteAll(a[1..] + b, id);
        head + (DeleteAll(a[1..], id) + DeleteAll(b, id));
        (head + DeleteAll(a[1..], id)) + DeleteAll(b, id);
        DeleteAll(a, id) + DeleteAll(b, id);
      }
    }
  }

  /** Deleting an id no category has changes nothing. */
  lemma {:induction false} DeleteAbsent(cats: seq<Category>, id: string)
    requires forall i :: 0 <= i < |cats| ==> cats[i].id != id
    ensures DeleteAll(cats, id) == cats
  {
    if cats != [] {
      assert forall i :: 0 <= i < |cats[1..]| ==> cats[1..][i] == cats[i + 1];
      DeleteAbsent(cats[1..], id);
      assert cats == [cats[0]] + cats[1..];
    }
  }

  /** The active view holds exactly the active categories. */
  lemma {:induction false} ActiveMembership(cats: seq<Category>, c: Category)
    ensures c in ActiveOnly(cats) <==> c in cats && c.isActive
  {
    if cats != [] {
      ActiveMembership(cats[1..], c);
      assert cats == [cats[0]] + cats[1..];
    }
  }

  /** The active view distributes over concatenation, so it keeps the original order. */
  lemma {:induction false} ActiveConcat(a: seq<Category>, b: seq<Category>)
    ensures ActiveOnly(a + b) == ActiveOnly(a) + ActiveOnly(b)
  {
    if a == [] {
      assert a + b == b;
    } else {
      var head := if a[0].isActive then [a[0]] else [];
      assert (a + b)[0] == a[0] && (a + b)[1..] == a[1..] + b;
      ActiveConcat(a[1..], b);
      calc {
        ActiveOnly(a + b);
        head + ActiveOnly(a[1..] + b);
        head + (ActiveOnly(a[1..]) + ActiveOnly(b));
        (head + ActiveOnly(a[1..])) + ActiveOnly(b);
        ActiveOnly(a) + ActiveOnly(b);
      }
    }
  }

  /** Deleting and then taking the active view is the same as taking the view and then deleting. */
  lemma {:induction false} ActiveAfterDelete(cats: seq<Category>, id: string)
    ensures ActiveOnly(DeleteAll(cats, id)) == DeleteAll(ActiveOnly(cats), id)
  {
    if cats != [] {
      ActiveAfterDelete(cats[1..], id);
      var head := if cats[0].id == id then [] else [cats[0]];
      ActiveConcat(head, DeleteAll(cats[1..], id));
      var activeHead := if cats[0].isActive then [cats[0]] else [];
      DeleteConcat(activeHead, ActiveOnly(cats[1..]), id);
    }
  }

  /** The category store: the list the admin panel edits. */
  class CategoryStore {
    var categories: seq<Category>

    /** A new store holds the one initial category, active, with id "1". */
    constructor ()
      ensures categories == InitialCategories
      ensures |categories| == 1 && categories[0].id == "1" && categories[0].name == "Zapatillas" && categories[0].isActive
    {
      categories := InitialCategories;
    }

    /** Restore a stored list read on mount; `None` (missing or unparseable) keeps the current list. */
    method Restore(saved: Option<seq<Category>>)
      modifies this
      ensures categories == if saved.Some? then saved.value else old(categories)
    {
      if saved.Some? {
        categories := saved.value;
      }
    }

    /** Append one category built from `fields` with the id `newId`; the existing entries are kept. */
    method AddCategory(fields: CategoryFields, newId: string)
      modifies this
      ensures categories == old(categories) + [WithId(fields, newId)]
      ensures |categories| == |old(categories)| + 1 && categories[..|old(categories)|] == old(categories)
      ensures categories[|old(categories)|] == Category(newId, fields.name, fields.description, fields.isActive)
    {
      categories := categories + [WithId(fields, newId)];
    }

    /** Merge `updates` into the categories with id `id`. */
    method EditCategory(id: string, updates: CategoryUpdate)
      modifies this
      ensures categories == EditAll(old(categories), id, updates)
      ensures |categories| == |old(categories)|
      ensures forall i :: 0 <= i < |categories| && old(categories)[i].id != id ==> categories[i] == old(categories)[i]
    {
      categories := EditAll(categories, id, updates);
    }

    /** Drop the categories with id `id`. */
    method DeleteCategory(id: string)
      modifies this
      ensures categories == DeleteAll(old(categories), id)
      ensures forall c :: c in categories <==> c in old(categories) && c.id != id
    {
      forall c ensures c in DeleteAll(categories, id) <==> c in categories && c.id != id {
        DeleteMembership(categories, id, c);
      }
      categories := DeleteAll(categories, id);
    }

    /** The active categories, in their order in the list. */
    function GetActiveCategories(): (r: seq<Category>)
      reads this
      ensures forall c :: c in r <==> c in categories && c.isActive
    {
      assert forall c :: c in ActiveOnly(categories) <==> c in categories && c.isActive by {
        forall c ensures c in ActiveOnly(categories) <==> c in categories && c.isActive {
          ActiveMembership(categories, c);
        }
      }
      ActiveOnly(categories)
    }
  }
}
