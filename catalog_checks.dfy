/**
 * Facts about the built-in catalog and what the catalog page shows of it.
 */
module CatalogChecks {
  import opened Types
  import opened CatalogData
  import opened CatalogView

  /** The brands of the catalog in catalog order, repeats included. */
  lemma CatalogBrands()
    ensures BrandsOf(MockProducts) == ["Nike", "Nike", "Converse", "Jordan", "Clarks", "Adidas"]
  {
  }

  /** The categories of the catalog in catalog order, repeats included. */
  lemma CatalogCategories()
    ensures CategoriesOf(MockProducts) == ["Zapatillas", "Zapatillas", "Zapatillas", "Zapatillas", "Zapatillas", "Zapatillas"]
  {
  }

  /** Deduplicating the catalog brands keeps the first Nike and drops the second. */
  lemma DedupeBrands()
    ensures Dedupe(["Nike", "Nike", "Converse", "Jordan", "Clarks", "Adidas"]) == ["Nike", "Converse", "Jordan", "Clarks", "Adidas"]
  {
    var s0: seq<string> := [];
    var s1 := s0 + ["Nike"];
    var s2 := s1 + ["Nike"];
    var s3 := s2 + ["Converse"];
    var s4 := s3 + ["Jordan"];
    var s5 := s4 + ["Clarks"];
    var s6 := s5 + ["Adidas"];
    DedupeSnoc(s0, "Nike");
    DedupeSnoc(s1, "Nike");
    DedupeSnoc(s2, "Converse");
    DedupeSnoc(s3, "Jordan");
    DedupeSnoc(s4, "Clarks");
    DedupeSnoc(s5, "Adidas");
    assert s6 == ["Nike", "Nike", "Converse", "Jordan", "Clarks", "Adidas"];
  }

  /** Deduplicating six copies of one category leaves one. */
  lemma DedupeCategories()
    ensures Dedupe(["Zapatillas", "Zapatillas", "Zapatillas", "Zapatillas", "Zapatillas", "Zapatillas"]) == ["Zapatillas"]
  {
    var z := "Zapatillas";
    var s0: seq<string> := [];
    var s1 := s0 + [z];
    var s2 := s1 + [z];
    var s3 := s2 + [z];
    var s4 := s3 + [z];
    var s5 := s4 + [z];
    var s6 := s5 + [z];
    DedupeSnoc(s0, z);
    DedupeSnoc(s1, z);
    DedupeSnoc(s2, z);
    DedupeSnoc(s3, z);
    DedupeSnoc(s4, z);
    DedupeSnoc(s5, z);
    assert s6 == [z, z, z, z, z, z];
  }

  /** The brand options list each brand once, in order of first appearance in the catalog. */
  lemma BrandOptions()
    ensures Brands() == ["Nike", "Converse", "Jordan", "Clarks", "Adidas"]
  {
    CatalogBrands();
    DedupeBrands();
  }

  /** Every catalog product is a sneaker, so there is one category option. */
  lemma CategoryOptions()
    ensures Categories() == ["Zapatillas"]
  {
    CatalogCategories();
    DedupeCategories();
  }

  /** Catalog product ids are pairwise distinct. */
  lemma CatalogIdsDistinct()
    ensures forall i, j :: 0 <= i < j < |MockProducts| ==> MockProducts[i].id != MockProducts[j].id
  {
  }

  /** Every catalog price lies in the default range [0, 2000 euros]. */
  lemma CatalogPricesInDefaultRange()
    ensures forall i :: 0 <= i < |MockProducts| ==> 0 <= MockProducts[i].price <= MaxPrice
  {
  }

  /** Every discounted product carries an original price above its price. */
  lemma DiscountedHaveHigherOriginalPrice()
    ensures forall i :: 0 <= i < |MockProducts| && MockProducts[i].discount.Some? ==>
      MockProducts[i].originalPrice.Some? && MockProducts[i].originalPrice.value > MockProducts[i].price
  {
  }

  /** With no search text and the initial selection the whole catalog passes, in catalog order before sorting. */
  lemma InitialViewShowsWholeCatalog()
    ensures FilterProducts(MockProducts, InitialFilters, "") == MockProducts
  {
    CatalogPricesInDefaultRange();
    FilterAllPass(MockProducts, InitialFilters, "");
  }

  /** The part of a one-product list that passes. */
  function Kept(p: Product, f: ActiveFilters, query: string): seq<Product>
  {
    if Passes(p, f, query) then [p] else []
  }

  /** Filtering a non-empty list decides its first product, then filters the rest. */
  lemma FilterHead(ps: seq<Product>, f: ActiveFilters, query: string)
    requires ps != []
    ensures FilterProducts(ps, f, query) == Kept(ps[0], f, query) + FilterProducts(ps[1..], f, query)
  {
  }

  /** A price range of [100, 150] euros keeps exactly the three products priced inside it. */
  lemma PriceRangeExample()
    ensures FilterProducts(MockProducts, InitialFilters.(priceRange := PriceRange(10000, 15000)), "")
         == [MockProducts[0], MockProducts[4], MockProducts[5]]
  {
    var f := InitialFilters.(priceRange := PriceRange(10000, 15000));
    var c := MockProducts;
    assert Kept(c[0], f, "") == [c[0]] && Kept(c[1], f, "") == [] && Kept(c[2], f, "") == [];
    assert Kept(c[3], f, "") == [] && Kept(c[4], f, "") == [c[4]] && Kept(c[5], f, "") == [c[5]];
    var t1, t2, t3, t4, t5 := c[1..], c[2..], c[3..], c[4..], c[5..];
    assert t1[0] == c[1] && t1[1..] == t2;
    assert t2[0] == c[2] && t2[1..] == t3;
    assert t3[0] == c[3] && t3[1..] == t4;
    assert t4[0] == c[4] && t4[1..] == t5;
    assert t5[0] == c[5] && t5[1..] == [];
    FilterHead(t5, f, "");
    FilterHead(t4, f, "");
    FilterHead(t3, f, "");
    FilterHead(t2, f, "");
    FilterHead(t1, f, "");
    FilterHead(c, f, "");
  }
}
