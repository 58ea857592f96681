/**
 * The product card (src/components/Products/ProductCard.tsx): how a product's
 * availability, discount and original price are shown, when the add button is
 * enabled and what it says, and what a click on it does to the cart.
 */
module ProductCard {
  import opened Wrappers
  import opened Types
  import opened Cart
  import opened CatalogData
  import FilterSidebar

  /** The availability line's text; any unknown state reads as unknown. */
  function AvailabilityText(availability: string): string
  {
    if availability == InStock then "En stock"
    else if availability == Limited then "Stock limitado"
    else if availability == OutOfStock then "Agotado"
    else "Disponibilidad desconocida"
  }

  /** The availability line's colour class; any unknown state is muted. */
  function AvailabilityColor(availability: string): string
  {
    if availability == InStock then "text-success"
    else if availability == Limited then "text-warning"
    else if availability == OutOfStock then "text-destructive"
    else "text-muted-foreground"
  }

  /** The add button is disabled for a sold-out product and while an add is in progress. */
  predicate AddButtonDisabled(availability: string, isLoading: bool)
  {
    availability == OutOfStock || isLoading
  }

  /** The add button's caption: loading wins over sold out, which wins over the call to action. */
  function AddButtonLabel(availability: string, isLoading: bool): string
  {
    if isLoading then "Agregando..."
    else if availability == OutOfStock then "Agotado"
    else "Agregar al carrito"
  }

  /** The discount badge shows when there is a discount other than zero. */
  predicate ShowsDiscountBadge(p: Product)
  {
    p.discount.Some? && p.discount.value != 0
  }

  /** The struck-through original price shows when there is one other than zero. */
  predicate ShowsOriginalPrice(p: Product)
  {
    p.originalPrice.Some? && p.originalPrice.value != 0
  }

  // ----- Properties -----

  /** The card names each known availability state as the filter sidebar does. */
  lemma AvailabilityTextMatchesFilterLabels()
    ensures forall i :: 0 <= i < |FilterSidebar.AvailabilityOptions| ==>
      AvailabilityText(FilterSidebar.AvailabilityOptions[i].0) == FilterSidebar.AvailabilityOptions[i].1
  {
  }

  /** The three known states get three different texts and colours; every other state gets the unknown text and the muted colour. */
  lemma AvailabilityMappingsAgree(availability: string)
    ensures AvailabilityText(availability) == "Disponibilidad desconocida"
        <==> availability !in {InStock, Limited, OutOfStock}
    ensures AvailabilityColor(availability) == "text-muted-foreground"
        <==> availability !in {InStock, Limited, OutOfStock}
    ensures AvailabilityText(availability) == "En stock" <==> AvailabilityColor(availability) == "text-success"
    ensures AvailabilityText(availability) == "Stock limitado" <==> AvailabilityColor(availability) == "text-warning"
    ensures AvailabilityText(availability) == "Agotado" <==> AvailabilityColor(availability) == "text-destructive"
  {
  }

  /** The button invites to add exactly when it is enabled, and a disabled button says why. */
  lemma LabelMatchesDisabled(availability: string, isLoading: bool)
    ensures AddButtonLabel(availability, isLoading) == "Agregar al carrito" <==> !AddButtonDisabled(availability, isLoading)
    ensures AddButtonLabel(availability, isLoading) == "Agotado" <==> !isLoading && availability == OutOfStock
    ensures AddButtonLabel(availability, isLoading) == "Agregando..." <==> isLoading
  {
  }

  /** In the built-in catalog a product shows a discount badge exactly when it shows a struck-through original price. */
  lemma CatalogBadgesMatchOriginalPrices()
    ensures forall i :: 0 <= i < |MockProducts| ==>
      (ShowsDiscountBadge(MockProducts[i]) <==> ShowsOriginalPrice(MockProducts[i]))
  {
  }

  /** A card: its product, whether an add is in progress, and the cart it adds to. */
  class Card {
    const product: Product
    var isLoading: bool
    const cart: CartStore

    /** A card starts idle. */
    constructor (product: Product, cart: CartStore)
      ensures this.product == product && this.cart == cart && !isLoading
    {
      this.product := product;
      this.cart := cart;
      isLoading := false;
    }

    /**
     * Add one unit of the product (the default quantity) to the cart. The
     * loading flag is raised for the call and is down again afterwards; with
     * distinct product ids in the cart the unit count grows by exactly one.
     */
    method HandleAddToCart()
      modifies this, cart
      ensures cart.items == AddItems(old(cart.items), product, 1) && cart.Valid() && cart.tax == None
      ensures !isLoading
      ensures DistinctIds(old(cart.items)) ==> DistinctIds(cart.items) && ItemCount(cart.items) == ItemCount(old(cart.items)) + 1
    {
      isLoading := true;
      if DistinctIds(cart.items) {
        AddItemCount(cart.items, product, 1);
      }
      cart.AddToCart(product, 1);
      isLoading := false;
    }

    /** A click on the add button: a disabled button does nothing, an enabled one adds one unit. */
    method ClickAdd()
      modifies this, cart
      ensures old(AddButtonDisabled(product.availability, isLoading)) ==>
        && cart.items == old(cart.items) && cart.subtotal == old(cart.subtotal)
        && cart.total == old(cart.total) && cart.tax == old(cart.tax)
        && isLoading == old(isLoading)
      ensures !old(AddButtonDisabled(product.availability, isLoading)) ==>
        cart.items == AddItems(old(cart.items), product, 1) && cart.Valid() && cart.tax == None && !isLoading
      ensures product.availability == OutOfStock ==>
        cart.items == old(cart.items) && cart.subtotal == old(cart.subtotal) && cart.total == old(cart.total)
    {
      if !AddButtonDisabled(product.availability, isLoading) {
        HandleAddToCart();
      }
    }
  }
}
