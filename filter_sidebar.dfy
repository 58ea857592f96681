/**
 * The filter sidebar's handlers (src/components/Filters/FilterSidebar.tsx).
 * Each handler builds the next selection from the current one and hands it to
 * the page; here each is a function from the current selection to the next.
 */
module FilterSidebar {
  import opened Wrappers
  import opened Types
  import opened Selection
  import opened CatalogView

  /** Toggle a category checkbox; the other facets are carried over. */
  function HandleCategoryChange(f: ActiveFilters, category: string): (r: ActiveFilters)
    ensures category in r.categories <==> category !in f.categories
    ensures forall c :: c != category ==> (c in r.categories <==> c in f.categories)
    ensures r.brands == f.brands && r.priceRange == f.priceRange && r.availability == f.availability
  {
    ToggleMembership(f.categories, category, category);
    forall c | c != category ensures c in Toggle(f.categories, category) <==> c in f.categories {
      ToggleMembership(f.categories, category, c);
    }
    f.(categories := Toggle(f.categories, category))
  }

  /** Toggle a brand checkbox; the other facets are carried over. */
  function HandleBrandChange(f: ActiveFilters, brand: string): (r: ActiveFilters)
    ensures brand in r.brands <==> brand !in f.brands
    ensures forall b :: b != brand ==> (b in r.brands <==> b in f.brands)
    ensures r.categories == f.categories && r.priceRange == f.priceRange && r.availability == f.availability
  {
    ToggleMembership(f.brands, brand, brand);
    forall b | b != brand ensures b in Toggle(f.brands, brand) <==> b in f.brands {
      ToggleMembership(f.brands, brand, b);
    }
    f.(brands := Toggle(f.brands, brand))
  }

  /** Set the price range to exactly (min, max); min <= max is not checked. */
  function HandlePriceChange(f: ActiveFilters, min: int, max: int): ActiveFilters
  {
    f.(priceRange := PriceRange(min, max))
  }

  /** Toggle an availability checkbox; the other facets are carried over. */
  function HandleAvailabilityChange(f: ActiveFilters, availability: string): (r: ActiveFilters)
    ensures availability in r.availability <==> availability !in f.availability
    ensures forall a :: a != availability ==> (a in r.availability <==> a in f.availability)
    ensures r.categories == f.categories && r.brands == f.brands && r.priceRange == f.priceRange
  {
    ToggleMembership(f.availability, availability, availability);
    forall a | a != availability ensures a in Toggle(f.availability, availability) <==> a in f.availability {
      ToggleMembership(f.availability, availability, a);
    }
    f.(availability := Toggle(f.availability, availability))
  }

  /** The selection after "clear all": no facet and the range [0, 2000 euros]. */
  function ClearAllFilters(): ActiveFilters
  {
    ActiveFilters([], [], PriceRange(0, MaxPrice), [])
  }

  /** Some facet list is non-empty, or the price range is narrower than the default at either end. */
  predicate HasActiveFilters(f: ActiveFilters)
  {
    || |f.categories| > 0
    || |f.brands| > 0
    || |f.availability| > 0
    || f.priceRange.min > 0
    || f.priceRange.max < MaxPrice
  }

  /** The choices of the availability facet and their labels. */
  const AvailabilityOptions: seq<(string, string)> :=
    [(InStock, "En stock"), (Limited, "Stock limitado"), (OutOfStock, "Agotado")]

  // ----- Properties -----

  /** Checking a category and unchecking it again restores the selection. */
  lemma CategoryToggleTwice(f: ActiveFilters, category: string)
    requires category !in f.categories
    ensures HandleCategoryChange(HandleCategoryChange(f, category), category) == f
  {
    ToggleTwice(f.categories, category);
  }

  /** Checking a brand and unchecking it again restores the selection. */
  lemma BrandToggleTwice(f: ActiveFilters, brand: string)
    requires brand !in f.brands
    ensures HandleBrandChange(HandleBrandChange(f, brand), brand) == f
  {
    ToggleTwice(f.brands, brand);
  }

  /** Checking an availability state and unchecking it again restores the selection. */
  lemma AvailabilityToggleTwice(f: ActiveFilters, availability: string)
    requires availability !in f.availability
    ensures HandleAvailabilityChange(HandleAvailabilityChange(f, availability), availability) == f
  {
    ToggleTwice(f.availability, availability);
  }

  /** Unchecking a checked category removes every occurrence of it and keeps the other entries in order. */
  lemma CategoryUncheck(f: ActiveFilters, category: string)
    requires category in f.categories
    ensures HandleCategoryChange(f, category).categories == Without(f.categories, category)
    ensures category !in HandleCategoryChange(f, category).categories
  {
  }

  /** Checking an unchecked category appends it at the end. */
  lemma CategoryCheck(f: ActiveFilters, category: string)
    requires category !in f.categories
    ensures HandleCategoryChange(f, category).categories == f.categories + [category]
  {
  }

  /** Unchecking a checked brand removes every occurrence of it and keeps the other brands in order. */
  lemma BrandUncheck(f: ActiveFilters, brand: string)
    requires brand in f.brands
    ensures HandleBrandChange(f, brand).brands == Without(f.brands, brand)
    ensures brand !in HandleBrandChange(f, brand).brands
  {
  }

  /** Checking an unchecked brand appends it at the end. */
  lemma BrandCheck(f: ActiveFilters, brand: string)
    requires brand !in f.brands
    ensures HandleBrandChange(f, brand).brands == f.brands + [brand]
  {
  }

  /** Unchecking a checked availability state removes every occurrence of it and keeps the other states in order. */
  lemma AvailabilityUncheck(f: ActiveFilters, availability: string)
    requires availability in f.availability
    ensures HandleAvailabilityChange(f, availability).availability == Without(f.availability, availability)
    ensures availability !in HandleAvailabilityChange(f, availability).availability
  {
  }

  /** Checking an unchecked availability state appends it at the end. */
  lemma AvailabilityCheck(f: ActiveFilters, availability: string)
    requires availability !in f.availability
    ensures HandleAvailabilityChange(f, availability).availability == f.availability + [availability]
  {
  }

  /** The price handler sets exactly the given bounds and nothing else. */
  lemma PriceChangeSetsRange(f: ActiveFilters, min: int, max: int)
    ensures HandlePriceChange(f, min, max).priceRange.min == min
    ensures HandlePriceChange(f, min, max).priceRange.max == max
    ensures HandlePriceChange(f, min, max).categories == f.categories
    ensures HandlePriceChange(f, min, max).brands == f.brands
    ensures HandlePriceChange(f, min, max).availability == f.availability
  {
  }

  /** "Clear all" leaves nothing active, and it is the selection the catalog page starts with. */
  lemma ClearedIsInactive()
    ensures !HasActiveFilters(ClearAllFilters())
    ensures ClearAllFilters() == InitialFilters
  {
  }

  /** The concatenation of a list of strings, used to build a string none of them equals. */
  function Concat(s: seq<string>): string
  {
    if s == [] then [] else s[0] + Concat(s[1..])
  }

  /** A string longer than every entry of `s`, so not among them. */
  function Fresh(s: seq<string>): (r: string)
    ensures r !in s
  {
    ConcatCovers(s);
    Concat(s) + "?"
  }

  lemma {:induction false} ConcatCovers(s: seq<string>)
    ensures forall i :: 0 <= i < |s| ==> |s[i]| <= |Concat(s)|
  {
    if s != [] {
      ConcatCovers(s[1..]);
      forall i | 0 < i < |s| ensures |s[i]| <= |Concat(s)| {
        assert s[i] == s[1..][i - 1];
      }
    }
  }

  /**
   * The sidebar reports active filters exactly when the facets would hide
   * some product priced within the default range [0, 2000 euros].
   */
  lemma HasActiveFiltersMeansSomethingHidden(f: ActiveFilters)
    ensures HasActiveFilters(f) <==> exists p: Product :: 0 <= p.price <= MaxPrice && !FacetsPass(p, f)
  {
    var base := Product("", "", "", "", "", 0, None, None, "", "", 0, None, None);
    if HasActiveFilters(f) {
      var p :=
        if |f.categories| > 0 then base.(category := Fresh(f.categories))
        else if |f.brands| > 0 then base.(brand := Fresh(f.brands))
        else if |f.availability| > 0 then base.(availability := Fresh(f.availability))
        else if f.priceRange.min > 0 then base
        else base.(price := MaxPrice);
      assert 0 <= p.price <= MaxPrice && !FacetsPass(p, f);
    }
  }
}
