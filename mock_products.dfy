/**
 * The built-in catalog (src/data/mockProducts.ts): six sneakers, and the
 * category and brand options derived from them by keeping each value's first
 * occurrence.
 */
module CatalogData {
  import opened Wrappers
  import opened Types

  const MockProducts: seq<Product> := [
    Product("1", "Air Max Classic White", "Nike", "Zapatillas", "Running", 12999, Some(14999), Some(13),
            "Zapatillas deportivas clásicas en color blanco con detalles azules. Perfectas para running y uso diario.",
            InStock, 25, Some(48), Some(234)),
    Product("2", "Revolution Pro Black", "Nike", "Zapatillas", "Running", 8999, Some(10999), Some(18),
            "Zapatillas de running negras con tecnología de amortiguación avanzada y detalles rojos.",
            InStock, 18, Some(46), Some(189)),
    Product("3", "Canvas High Top Navy", "Converse", "Zapatillas", "Casual", 7999, None, None,
            "Zapatillas altas de lona en color azul marino. Estilo clásico y atemporal.",
            InStock, 32, Some(45), Some(156)),
    Product("4", "Basketball Elite Pro", "Jordan", "Zapatillas", "Basketball", 19999, Some(22999), Some(13),
            "Zapatillas de basketball de alta gama con colores vibrantes y tecnología de máximo rendimiento.",
            Limited, 8, Some(49), Some(312)),
    Product("5", "Leather Casual Brown", "Clarks", "Zapatillas", "Casual", 14999, None, None,
            "Zapatillas elegantes de cuero marrón. Perfectas para uso casual y semi-formal.",
            InStock, 15, Some(47), Some(97)),
    Product("6", "Glam Pink Metallic", "Adidas", "Zapatillas", "Lifestyle", 11999, Some(13999), Some(14),
            "Zapatillas femeninas en rosa con detalles metálicos. Estilo moderno y llamativo.",
            InStock, 22, Some(48), Some(201))
  ]

  /** No value occurs twice. */
  predicate NoDuplicates<T(==)>(s: seq<T>)
  {
    forall i, j :: 0 <= i < j < |s| ==> s[i] != s[j]
  }

  /** The position of the first occurrence of `x` in `s`. */
  function FirstIndex<T(==)>(s: seq<T>, x: T): (k: nat)
    requires x in s
    ensures k < |s| && s[k] == x
    ensures forall j :: 0 <= j < k ==> s[j] != x
  {
    if s[0] == x then 0 else 1 + FirstIndex(s[1..], x)
  }

  /** The distinct values of `s`, each at the place of its first occurrence (a set built in insertion order). */
  function Dedupe<T(==)>(s: seq<T>): seq<T>
  {
    if s == [] then []
    else
      var r := Dedupe(s[..|s| - 1]);
      if s[|s| - 1] in r then r else r + [s[|s| - 1]]
  }

  /** The category of each product, in catalog order. */
  function CategoriesOf(ps: seq<Product>): seq<string>
  {
    seq(|ps|, i requires 0 <= i < |ps| => ps[i].category)
  }

  /** The brand of each product, in catalog order. */
  function BrandsOf(ps: seq<Product>): seq<string>
  {
    seq(|ps|, i requires 0 <= i < |ps| => ps[i].brand)
  }

  /** The category options: every catalog category, each once. */
  function Categories(): (r: seq<string>)
    ensures NoDuplicates(r)
    ensures forall c :: c in r <==> exists i :: 0 <= i < |MockProducts| && MockProducts[i].category == c
  {
    var all := CategoriesOf(MockProducts);
    DedupeSpec(all);
    assert forall c :: c in all <==> exists i :: 0 <= i < |MockProducts| && MockProducts[i].category == c by {
      forall c | c in all ensures exists i :: 0 <= i < |MockProducts| && MockProducts[i].category == c {
        var i :| 0 <= i < |all| && all[i] == c;
        assert MockProducts[i].category == c;
      }
      forall c | exists i :: 0 <= i < |MockProducts| && MockProducts[i].category == c ensures c in all {
        var i :| 0 <= i < |MockProducts| && MockProducts[i].category == c;
        assert all[i] == c;
      }
    }
    Dedupe(all)
  }

  /** The brand options: every catalog brand, each once. */
  function Brands(): (r: seq<string>)
    ensures NoDuplicates(r)
    ensures forall b :: b in r <==> exists i :: 0 <= i < |MockProducts| && MockProducts[i].brand == b
  {
    var all := BrandsOf(MockProducts);
    DedupeSpec(all);
    assert forall b :: b in all <==> exists i :: 0 <= i < |MockProducts| && MockProducts[i].brand == b by {
      forall b | b in all ensures exists i :: 0 <= i < |MockProducts| && MockProducts[i].brand == b {
        var i :| 0 <= i < |all| && all[i] == b;
        assert MockProducts[i].brand == b;
      }
      forall b | exists i :: 0 <= i < |MockProducts| && MockProducts[i].brand == b ensures b in all {
        var i :| 0 <= i < |MockProducts| && MockProducts[i].brand == b;
        assert all[i] == b;
      }
    }
    Dedupe(all)
  }

  // ----- Properties of the dedupe -----

  /** Deduplicating one more value appends it exactly when it is new. */
  lemma DedupeSnoc<T>(s: seq<T>, x: T)
    ensures Dedupe(s + [x]) == if x in Dedupe(s) then Dedupe(s) else Dedupe(s) + [x]
  {
    assert (s + [x])[..|s|] == s;
  }

  /** The first occurrence of a value in a prefix is its first occurrence in the whole list. */
  lemma FirstIndexPrefix<T>(s: seq<T>, n: nat, x: T)
    requires n <= |s| && x in s[..n]
    ensures FirstIndex(s[..n], x) == FirstIndex(s, x)
  {
    var k := FirstIndex(s[..n], x);
    var m := FirstIndex(s, x);
    assert s[k] == x;
    assert m <= k;
    assert s[..n][m] == x;
  }

  /**
   * The dedupe keeps exactly the values of the list, each once, ordered by
   * where they first occur.
   */
  lemma {:induction false} DedupeSpec<T>(s: seq<T>)
    ensures forall x :: x in Dedupe(s) <==> x in s
    ensures NoDuplicates(Dedupe(s))
    ensures forall i, j :: 0 <= i < j < |Dedupe(s)| ==> FirstIndex(s, Dedupe(s)[i]) < FirstIndex(s, Dedupe(s)[j])
  {
    if s != [] {
      var init, last := s[..|s| - 1], s[|s| - 1];
      assert s == init + [last];
      DedupeSpec(init);
      var r := Dedupe(init);
      forall x | x in init ensures FirstIndex(init, x) == FirstIndex(s, x) {
        FirstIndexPrefix(s, |s| - 1, x);
      }
      if last !in r {
        var r' := r + [last];
        assert FirstIndex(s, last) == |s| - 1;
        forall i, j | 0 <= i < j < |r'| ensures FirstIndex(s, r'[i]) < FirstIndex(s, r'[j]) {
          assert r'[i] == r[i] && r[i] in r;
          if j < |r| {
            assert r'[j] == r[j];
          }
        }
      }
    }
  }
}
