/**
 * The records shared by the storefront: a catalog product and the shopper's
 * filter selection (src/types/index.ts).
 *
 * Money is counted in integer cents and ratings in integer tenths, so that
 * 129.99 becomes 12999 and a 4.8 rating becomes 48.
 */
module Types {
  import opened Wrappers

  /** The three availability states a catalog product is written with. */
  const InStock: string := "in-stock"
  const Limited: string := "limited"
  const OutOfStock: string := "out-of-stock"

  /**
   * A catalog product. `availability` is kept as a string: the product card
   * maps any string, and a restored snapshot is never checked against the
   * three known states. Images are presentation only and are not modelled.
   */
  datatype Product = Product(
    id: string,
    name: string,
    brand: string,
    category: string,
    productType: string,
    price: int,
    originalPrice: Option<int>,
    discount: Option<int>,
    description: string,
    availability: string,
    stock: int,
    rating: Option<int>,
    reviews: Option<int>)

  /** An inclusive price range, in cents. */
  datatype PriceRange = PriceRange(min: int, max: int)

  /** The shopper's selection: three facet lists and a price range. */
  datatype ActiveFilters = ActiveFilters(
    categories: seq<string>,
    brands: seq<string>,
    priceRange: PriceRange,
    availability: seq<string>)

  /** The upper end of the default price range: 2000 euros, in cents. */
  const MaxPrice: int := 200000
}
