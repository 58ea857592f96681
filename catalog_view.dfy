/**
 * The catalog page's filter-and-sort pipeline (src/pages/Index.tsx): keep the
 * products that pass all five clauses of the shopper's query, then order them
 * by the chosen sort key.
 *
 * Lower-casing is ASCII only and names are ordered by plain character
 * comparison, standing in for the browser's locale collation.
 */
module CatalogView {
  import opened Wrappers
  import opened Types

  // ----- Search text -----

  /** ASCII lower-casing of one character. */
  function LowerChar(c: char): char
  {
    if 'A' <= c <= 'Z' then (c as int + 32) as char else c
  }

  /** ASCII lower-casing of a string. */
  function Lower(s: string): string
  {
    seq(|s|, i requires 0 <= i < |s| => LowerChar(s[i]))
  }

  /** `needle` occurs in `hay` as a contiguous run (the empty string occurs everywhere). */
  predicate Includes(hay: string, needle: string)
  {
    needle <= hay || (hay != [] && Includes(hay[1..], needle))
  }

  /** A run of `hay` starting at `i` is found in it. */
  lemma {:induction false} IncludesSlice(hay: string, i: int, j: int)
    requires 0 <= i <= j <= |hay|
    ensures Includes(hay, hay[i..j])
  {
    if i > 0 {
      assert hay[1..][i - 1..j - 1] == hay[i..j];
      IncludesSlice(hay[1..], i - 1, j - 1);
    }
  }

  /** The search clause: an empty query passes; otherwise it must occur, ignoring case, in the name, brand or category. */
  predicate MatchesSearch(p: Product, query: string)
  {
    query == []
    || Includes(Lower(p.name), Lower(query))
    || Includes(Lower(p.brand), Lower(query))
    || Includes(Lower(p.category), Lower(query))
  }

  /** `needle` sits in `hay` at position `k`. */
  predicate OccursAt(hay: string, needle: string, k: int)
  {
    0 <= k && k + |needle| <= |hay| && hay[k..k + |needle|] == needle
  }

  /** The substring test succeeds exactly when the needle sits at some position of the haystack. */
  lemma {:induction false} IncludesIffOccurs(hay: string, needle: string)
    ensures Includes(hay, needle) <==> exists k :: OccursAt(hay, needle, k)
  {
    if Includes(hay, needle) {
      if needle <= hay {
        assert OccursAt(hay, needle, 0);
      } else {
        IncludesIffOccurs(hay[1..], needle);
        var k :| OccursAt(hay[1..], needle, k);
        assert hay[k + 1..k + 1 + |needle|] == hay[1..][k..k + |needle|];
        assert OccursAt(hay, needle, k + 1);
      }
    }
    if exists k :: OccursAt(hay, needle, k) {
      var k :| OccursAt(hay, needle, k);
      IncludesSlice(hay, k, k + |needle|);
    }
  }

  /** Any query that lower-cases to a fragment of the lower-cased name finds the product. */
  lemma SearchFindsNameFragment(p: Product, query: string, i: int, j: int)
    requires 0 <= i <= j <= |p.name| && Lower(query) == Lower(p.name)[i..j]
    ensures MatchesSearch(p, query)
  {
    IncludesSlice(Lower(p.name), i, j);
  }

  /**
   * The search clause, both ways: a product passes exactly when the query is
   * empty or its lower-cased form sits at some position of the lower-cased
   * name, brand or category.
   */
  lemma SearchSpec(p: Product, query: string)
    ensures MatchesSearch(p, query) <==>
      || query == []
      || (exists k :: OccursAt(Lower(p.name), Lower(query), k))
      || (exists k :: OccursAt(Lower(p.brand), Lower(query), k))
      || (exists k :: OccursAt(Lower(p.category), Lower(query), k))
  {
    IncludesIffOccurs(Lower(p.name), Lower(query));
    IncludesIffOccurs(Lower(p.brand), Lower(query));
    IncludesIffOccurs(Lower(p.category), Lower(query));
  }

  // ----- The facet clauses -----

  /** An empty facet list imposes no constraint; a non-empty one requires membership. */
  predicate FacetAdmits(selected: seq<string>, value: string)
  {
    |selected| == 0 || value in selected
  }

  /** The price clause, inclusive at both ends. */
  predicate InPriceRange(p: Product, range: PriceRange)
  {
    range.min <= p.price <= range.max
  }

  /** The category, brand, price and availability clauses. */
  predicate FacetsPass(p: Product, f: ActiveFilters)
  {
    && FacetAdmits(f.categories, p.category)
    && FacetAdmits(f.brands, p.brand)
    && InPriceRange(p, f.priceRange)
    && FacetAdmits(f.availability, p.availability)
  }

  /** All five clauses of the query hold. */
  predicate Passes(p: Product, f: ActiveFilters, query: string)
  {
    MatchesSearch(p, query) && FacetsPass(p, f)
  }

  /** The catalog products that pass the query, in catalog order; never more than the catalog holds. */
  function FilterProducts(catalog: seq<Product>, f: ActiveFilters, query: string): (r: seq<Product>)
    ensures |r| <= |catalog|
    ensures forall i :: 0 <= i < |r| ==> Passes(r[i], f, query)
  {
    if catalog == [] then []
    else
      var rest := FilterProducts(catalog[1..], f, query);
      if Passes(catalog[0], f, query) then [catalog[0]] + rest else rest
  }

  /** Each passing product is kept as often as the catalog holds it, and every other product is dropped. */
  lemma {:induction false} FilterCount(catalog: seq<Product>, f: ActiveFilters, query: string)
    ensures forall p :: multiset(FilterProducts(catalog, f, query))[p] == if Passes(p, f, query) then multiset(catalog)[p] else 0
  {
    if catalog != [] {
      FilterCount(catalog[1..], f, query);
      assert catalog == [catalog[0]] + catalog[1..];
      assert multiset(catalog) == multiset{catalog[0]} + multiset(catalog[1..]);
    }
  }

  /** A product is in the filtered list exactly when it is in the catalog and passes. */
  lemma FilterMembership(catalog: seq<Product>, f: ActiveFilters, query: string)
    ensures forall p :: p in FilterProducts(catalog, f, query) <==> p in catalog && Passes(p, f, query)
  {
    FilterCount(catalog, f, query);
    forall p ensures p in FilterProducts(catalog, f, query) <==> p in catalog && Passes(p, f, query) {
      assert p in FilterProducts(catalog, f, query) <==> p in multiset(FilterProducts(catalog, f, query));
      assert p in catalog <==> p in multiset(catalog);
    }
  }

  /** Filtering distributes over concatenation, so the passing products keep their catalog order. */
  lemma {:induction false} FilterConcat(a: seq<Product>, b: seq<Product>, f: ActiveFilters, query: string)
    ensures FilterProducts(a + b, f, query) == FilterProducts(a, f, query) + FilterProducts(b, f, query)
  {
    if a == [] {
      assert a + b == b;
    } else {
      assert (a + b)[1..] == a[1..] + b;
      FilterConcat(a[1..], b, f, query);
    }
  }

  /** When every product passes, filtering hides nothing and keeps the order. */
  lemma {:induction false} FilterAllPass(catalog: seq<Product>, f: ActiveFilters, query: string)
    requires forall i :: 0 <= i < |catalog| ==> Passes(catalog[i], f, query)
    ensures FilterProducts(catalog, f, query) == catalog
  {
    if catalog != [] {
      var rest := catalog[1..];
      forall i | 0 <= i < |rest| ensures Passes(rest[i], f, query) {
        assert rest[i] == catalog[i + 1];
      }
      FilterAllPass(rest, f, query);
      assert Passes(catalog[0], f, query);
      assert FilterProducts(catalog, f, query) == [catalog[0]] + rest;
      assert catalog == [catalog[0]] + rest;
    }
  }

  // ----- Sorting -----

  /** The sort keys of the catalog page. */
  datatype SortKey = ByName | PriceLow | PriceHigh | ByRating

  /** The key selected by the sort menu's value; any other value falls back to name order. */
  function KeyOf(sortBy: string): (k: SortKey)
    ensures k == PriceLow <==> sortBy == "price-low"
    ensures k == PriceHigh <==> sortBy == "price-high"
    ensures k == ByRating <==> sortBy == "rating"
    ensures sortBy !in {"price-low", "price-high", "rating"} ==> k == ByName
  {
    if sortBy == "price-low" then PriceLow
    else if sortBy == "price-high" then PriceHigh
    else if sortBy == "rating" then ByRating
    else ByName
  }

  /** The rating used for ordering; a product without one counts as 0. */
  function RatingOrZero(p: Product): int
  {
    if p.rating.Some? then p.rating.value else 0
  }

  /** Lexicographic order on names, by character code. */
  predicate NameLeq(a: string, b: string)
  {
    if a == [] then true
    else if b == [] then false
    else if a[0] != b[0] then a[0] < b[0]
    else NameLeq(a[1..], b[1..])
  }

  lemma {:induction false} NameLeqTotal(a: string, b: string)
    ensures NameLeq(a, b) || NameLeq(b, a)
  {
    if a != [] && b != [] && a[0] == b[0] {
      NameLeqTotal(a[1..], b[1..]);
    }
  }

  lemma {:induction false} NameLeqTransitive(a: string, b: string, c: string)
    requires NameLeq(a, b) && NameLeq(b, c)
    ensures NameLeq(a, c)
  {
    if a != [] && b != [] && c != [] && a[0] == b[0] && b[0] == c[0] {
      NameLeqTransitive(a[1..], b[1..], c[1..]);
    }
  }

  /** `a` may come before `b` under the key (the comparator does not return a positive number). */
  predicate InOrder(key: SortKey, a: Product, b: Product)
  {
    match key
    case PriceLow => a.price <= b.price
    case PriceHigh => a.price >= b.price
    case ByRating => RatingOrZero(a) >= RatingOrZero(b)
    case ByName => NameLeq(a.name, b.name)
  }

  /** Any two products can be placed in some order. */
  lemma InOrderTotal(key: SortKey, a: Product, b: Product)
    ensures InOrder(key, a, b) || InOrder(key, b, a)
  {
    if key == ByName {
      NameLeqTotal(a.name, b.name);
    }
  }

  /** The order is transitive. */
  lemma InOrderTransitive(key: SortKey, a: Product, b: Product, c: Product)
    requires InOrder(key, a, b) && InOrder(key, b, c)
    ensures InOrder(key, a, c)
  {
    if key == ByName {
      NameLeqTransitive(a.name, b.name, c.name);
    }
  }

  /** Every earlier product may come before every later one. */
  predicate Sorted(key: SortKey, s: seq<Product>)
  {
    forall i, j :: 0 <= i < j < |s| ==> InOrder(key, s[i], s[j])
  }

  /** In a sorted list the first product may precede every other one. */
  lemma FirstPrecedesRest(key: SortKey, s: seq<Product>)
    requires Sorted(key, s) && s != []
    ensures forall y :: y in multiset(s[1..]) ==> InOrder(key, s[0], y)
  {
    forall y | y in multiset(s[1..]) ensures InOrder(key, s[0], y) {
      var j :| 0 <= j < |s[1..]| && s[1..][j] == y;
      assert s[j + 1] == y;
    }
  }

  /** A product that may precede every element of a sorted list can be put in front of it. */
  lemma SortedCons(key: SortKey, h: Product, t: seq<Product>)
    requires Sorted(key, t)
    requires forall y :: y in multiset(t) ==> InOrder(key, h, y)
    ensures Sorted(key, [h] + t)
  {
    var r := [h] + t;
    forall i, j | 0 <= i < j < |r| ensures InOrder(key, r[i], r[j]) {
      assert r[j] == t[j - 1] && t[j - 1] in multiset(t);
      if i > 0 {
        assert r[i] == t[i - 1];
      }
    }
  }

  /** Insert `x` into a sorted list, before the first element it may precede. */
  function Insert(key: SortKey, x: Product, s: seq<Product>): (r: seq<Product>)
    requires Sorted(key, s)
    ensures multiset(r) == multiset(s) + multiset{x}
    ensures Sorted(key, r)
  {
    if s == [] then [x]
    else
      assert s == [s[0]] + s[1..];
      FirstPrecedesRest(key, s);
      if InOrder(key, x, s[0]) then
        forall y | y in multiset(s) ensures InOrder(key, x, y) {
          if y != s[0] {
            InOrderTransitive(key, x, s[0], y);
          }
        }
        SortedCons(key, x, s);
        [x] + s
      else
        InOrderTotal(key, x, s[0]);
        var rest := Insert(key, x, s[1..]);
        SortedCons(key, s[0], rest);
        [s[0]] + rest
  }

  /** Insertion sort under the key: a permutation of the input, in order. Ties are left in no documented order. */
  function SortProducts(key: SortKey, s: seq<Product>): (r: seq<Product>)
    ensures multiset(r) == multiset(s)
    ensures Sorted(key, r)
  {
    if s == [] then []
    else
      assert s == [s[0]] + s[1..];
      Insert(key, s[0], SortProducts(key, s[1..]))
  }

  // ----- The two price orders -----

  /** `s` read backwards. */
  function Reverse(s: seq<Product>): (r: seq<Product>)
    ensures |r| == |s|
    ensures forall i :: 0 <= i < |s| ==> r[i] == s[|s| - 1 - i]
  {
    if s == [] then [] else Reverse(s[1..]) + [s[0]]
  }

  /** Reading backwards keeps the products. */
  lemma {:induction false} ReverseMultiset(s: seq<Product>)
    ensures multiset(Reverse(s)) == multiset(s)
  {
    if s != [] {
      ReverseMultiset(s[1..]);
      assert s == [s[0]] + s[1..];
    }
  }

  /** A list in descending price order, read backwards, is in ascending price order. */
  lemma ReverseSorted(s: seq<Product>)
    requires Sorted(PriceHigh, s)
    ensures Sorted(PriceLow, Reverse(s))
  {
    var r := Reverse(s);
    forall i, j | 0 <= i < j < |r| ensures r[i].price <= r[j].price {
      assert InOrder(PriceHigh, s[|s| - 1 - j], s[|s| - 1 - i]);
    }
  }

  /** No two different products of the list share a price. */
  predicate UniquePrices(s: seq<Product>)
  {
    forall x, y :: x in s && y in s && x.price == y.price ==> x == y
  }

  /** Dropping the first product keeps a list sorted. */
  lemma SortedTail(key: SortKey, s: seq<Product>)
    requires Sorted(key, s) && s != []
    ensures Sorted(key, s[1..])
  {
    forall i, j | 0 <= i < j < |s| - 1 ensures InOrder(key, s[1..][i], s[1..][j]) {
      assert s[1..][i] == s[i + 1] && s[1..][j] == s[j + 1];
    }
  }

  /** The first product of a list in ascending price order is among the cheapest. */
  lemma FirstIsCheapest(s: seq<Product>, x: Product)
    requires Sorted(PriceLow, s) && x in s
    ensures s[0].price <= x.price
  {
    var k :| 0 <= k < |s| && s[k] == x;
    if k > 0 {
      assert InOrder(PriceLow, s[0], s[k]);
    }
  }

  /** Without price ties there is only one ascending price order of a given set of products. */
  lemma {:induction false} AscendingPriceOrderUnique(a: seq<Product>, b: seq<Product>)
    requires multiset(a) == multiset(b) && UniquePrices(a)
    requires Sorted(PriceLow, a) && Sorted(PriceLow, b)
    ensures a == b
  {
    if a != [] {
      assert |b| == |multiset(b)| == |multiset(a)| == |a|;
      assert a[0] in multiset(b) && b[0] in multiset(a);
      FirstIsCheapest(a, b[0]);
      FirstIsCheapest(b, a[0]);
      assert a[0] == b[0];
      assert a == [a[0]] + a[1..] && b == [b[0]] + b[1..];
      assert multiset(a) == multiset{a[0]} + multiset(a[1..]);
      assert multiset(b) == multiset{a[0]} + multiset(b[1..]);
      forall x ensures multiset(a[1..])[x] == multiset(b[1..])[x] {
        assert multiset(a)[x] == multiset{a[0]}[x] + multiset(a[1..])[x];
        assert multiset(b)[x] == multiset{a[0]}[x] + multiset(b[1..])[x];
      }
      assert multiset(a[1..]) == multiset(b[1..]);
      SortedTail(PriceLow, a);
      SortedTail(PriceLow, b);
      assert forall x :: x in a[1..] ==> x in a;
      AscendingPriceOrderUnique(a[1..], b[1..]);
    }
  }

  /**
   * When no two different products share a price, the "price-high" order is
   * exactly the "price-low" order read backwards.
   */
  lemma PriceHighReversesPriceLow(s: seq<Product>)
    requires UniquePrices(s)
    ensures SortProducts(PriceHigh, s) == Reverse(SortProducts(PriceLow, s))
  {
    var low := SortProducts(PriceLow, s);
    var high := SortProducts(PriceHigh, s);
    ReverseSorted(high);
    ReverseMultiset(high);
    forall x | x in low ensures x in s {
      assert x in multiset(low);
    }
    AscendingPriceOrderUnique(low, Reverse(high));
    assert Reverse(Reverse(high)) == high;
  }

  /** The products the catalog page shows: the filtered catalog, sorted by the selected key. */
  function VisibleProducts(catalog: seq<Product>, f: ActiveFilters, query: string, sortBy: string): seq<Product>
  {
    SortProducts(KeyOf(sortBy), FilterProducts(catalog, f, query))
  }

  /**
   * The page shows exactly the passing catalog products, as a permutation of
   * them (so never more than the catalog holds), ordered by the selected key:
   * prices non-decreasing under "price-low", non-increasing under
   * "price-high", ratings non-increasing under "rating" and names ascending
   * otherwise.
   */
  lemma VisibleSpec(catalog: seq<Product>, f: ActiveFilters, query: string, sortBy: string)
    ensures var r := VisibleProducts(catalog, f, query, sortBy);
      && |r| <= |catalog|
      && (forall p :: p in r <==> p in catalog && Passes(p, f, query))
      && (forall p :: multiset(r)[p] == if Passes(p, f, query) then multiset(catalog)[p] else 0)
      && (sortBy == "price-low" ==> forall i, j :: 0 <= i < j < |r| ==> r[i].price <= r[j].price)
      && (sortBy == "price-high" ==> forall i, j :: 0 <= i < j < |r| ==> r[i].price >= r[j].price)
      && (sortBy == "rating" ==> forall i, j :: 0 <= i < j < |r| ==> RatingOrZero(r[i]) >= RatingOrZero(r[j]))
      && (sortBy !in {"price-low", "price-high", "rating"} ==> forall i, j :: 0 <= i < j < |r| ==> NameLeq(r[i].name, r[j].name))
  {
    var filtered := FilterProducts(catalog, f, query);
    var r := VisibleProducts(catalog, f, query, sortBy);
    FilterCount(catalog, f, query);
    FilterMembership(catalog, f, query);
    assert multiset(r) == multiset(filtered);
    assert |r| == |multiset(r)| == |multiset(filtered)| == |filtered|;
    forall p ensures p in r <==> p in filtered {
      assert p in r <==> p in multiset(r);
      assert p in filtered <==> p in multiset(filtered);
    }
  }

  /** The selection the catalog page starts with: no facet and the whole default price range. */
  const InitialFilters: ActiveFilters := ActiveFilters([], [], PriceRange(0, MaxPrice), [])

  /** With no search text and the initial selection, every product priced within the default range is shown. */
  lemma InitialFiltersAdmit(p: Product)
    requires 0 <= p.price <= MaxPrice
    ensures Passes(p, InitialFilters, "")
  {
  }
}
