/**
 * The shopping cart store (src/hooks/useCart.ts): an ordered list of
 * (product, quantity) lines with a derived subtotal and total.
 *
 * The list transformations are pure functions on `seq<CartItem>`; the store
 * class owns the current cart and replaces its lines with their results,
 * recomputing the totals on every change.
 */
module Cart {
  import opened Wrappers
  import opened Types

  /** One cart line. The quantity is not validated by the store. */
  datatype CartItem = CartItem(product: Product, quantity: int)

  /** A stored cart, as read back from durable storage. */
  datatype CartSnapshot = CartSnapshot(items: seq<CartItem>, total: int, subtotal: int, tax: Option<int>)

  /** Price times quantity of one line, in cents. */
  function LineTotal(item: CartItem): int
  {
    item.product.price * item.quantity
  }

  /** Sum of the line totals. */
  function Subtotal(items: seq<CartItem>): int
  {
    if items == [] then 0 else LineTotal(items[0]) + Subtotal(items[1..])
  }

  /** Sum of the quantities (units, not lines). */
  function ItemCount(items: seq<CartItem>): int
  {
    if items == [] then 0 else items[0].quantity + ItemCount(items[1..])
  }

  /** Some line holds a product with this id. */
  predicate HasProduct(items: seq<CartItem>, id: string)
  {
    exists i :: 0 <= i < |items| && items[i].product.id == id
  }

  /** At most one line per product id. */
  predicate DistinctIds(items: seq<CartItem>)
  {
    forall i, j :: 0 <= i < j < |items| ==> items[i].product.id != items[j].product.id
  }

  /** Every line holds at least one unit. */
  predicate PositiveQuantities(items: seq<CartItem>)
  {
    forall i :: 0 <= i < |items| ==> items[i].quantity >= 1
  }

  /** Add `q` to the quantity of every line of product `id`; other lines are kept. */
  function Increase(items: seq<CartItem>, id: string, q: int): (r: seq<CartItem>)
    ensures |r| == |items|
    ensures forall i :: 0 <= i < |items| ==>
      r[i] == if items[i].product.id == id then items[i].(quantity := items[i].quantity + q) else items[i]
  {
    if items == [] then []
    else [if items[0].product.id == id then items[0].(quantity := items[0].quantity + q) else items[0]]
         + Increase(items[1..], id, q)
  }

  /** Set the quantity of every line of product `id` to `q`; other lines are kept. */
  function SetQuantity(items: seq<CartItem>, id: string, q: int): (r: seq<CartItem>)
    ensures |r| == |items|
    ensures forall i :: 0 <= i < |items| ==>
      r[i] == if items[i].product.id == id then items[i].(quantity := q) else items[i]
  {
    if items == [] then []
    else [if items[0].product.id == id then items[0].(quantity := q) else items[0]]
         + SetQuantity(items[1..], id, q)
  }

  /** The lines after adding `q` units of `p`: an existing line grows, otherwise a new line is appended. */
  function AddItems(items: seq<CartItem>, p: Product, q: int): seq<CartItem>
  {
    if HasProduct(items, p.id) then Increase(items, p.id, q) else items + [CartItem(p, q)]
  }

  /** The lines of every product other than `id`, in order. */
  function RemoveItems(items: seq<CartItem>, id: string): seq<CartItem>
  {
    if items == [] then []
    else (if items[0].product.id == id then [] else [items[0]]) + RemoveItems(items[1..], id)
  }

  /** The lines after setting product `id` to `q` units; zero or fewer removes the product. */
  function UpdateItems(items: seq<CartItem>, id: string, q: int): seq<CartItem>
  {
    if q <= 0 then RemoveItems(items, id) else SetQuantity(items, id, q)
  }

  // ----- Totals -----

  /** The subtotal of two runs of lines is the sum of their subtotals. */
  lemma {:induction false} SubtotalConcat(a: seq<CartItem>, b: seq<CartItem>)
    ensures Subtotal(a + b) == Subtotal(a) + Subtotal(b)
  {
    if a == [] {
      assert a + b == b;
    } else {
      assert (a + b)[1..] == a[1..] + b;
      SubtotalConcat(a[1..], b);
    }
  }

  /** The unit count of two runs of lines is the sum of their unit counts. */
  lemma {:induction false} ItemCountConcat(a: seq<CartItem>, b: seq<CartItem>)
    ensures ItemCount(a + b) == ItemCount(a) + ItemCount(b)
  {
    if a == [] {
      assert a + b == b;
    } else {
      assert (a + b)[1..] == a[1..] + b;
      ItemCountConcat(a[1..], b);
    }
  }

  /** With every quantity at least one, the unit count is at least the line count; it exceeds it as soon as one line holds two units or more. */
  lemma {:induction false} ItemCountAtLeastLines(items: seq<CartItem>)
    requires PositiveQuantities(items)
    ensures ItemCount(items) >= |items|
    ensures (exists i :: 0 <= i < |items| && items[i].quantity > 1) ==> ItemCount(items) > |items|
  {
    if items != [] {
      ItemCountAtLeastLines(items[1..]);
      if exists i :: 0 <= i < |items| && items[i].quantity > 1 {
        var i :| 0 <= i < |items| && items[i].quantity > 1;
        if i > 0 {
          assert items[1..][i - 1].quantity > 1;
        }
      }
    }
  }

  /** The sum of the unit prices stored on the lines of product `id`. */
  function MatchingPrices(items: seq<CartItem>, id: string): int
  {
    if items == [] then 0
    else (if items[0].product.id == id then items[0].product.price else 0) + MatchingPrices(items[1..], id)
  }

  /** Growing the lines of product `id` by `q` units raises the subtotal by `q` times each such line's own stored price. */
  lemma {:induction false} SubtotalIncrease(items: seq<CartItem>, id: string, q: int)
    ensures Subtotal(Increase(items, id, q)) == Subtotal(items) + q * MatchingPrices(items, id)
  {
    if items != [] {
      var r := Increase(items, id, q);
      assert r[1..] == Increase(items[1..], id, q);
      SubtotalIncrease(items[1..], id, q);
      if items[0].product.id == id {
        assert LineTotal(r[0]) == LineTotal(items[0]) + items[0].product.price * q;
      }
    }
  }

  /** No line of product `id`: nothing to sum. */
  lemma {:induction false} MatchingPricesAbsent(items: seq<CartItem>, id: string)
    requires forall i :: 0 <= i < |items| ==> items[i].product.id != id
    ensures MatchingPrices(items, id) == 0
  {
    if items != [] {
      assert forall i :: 0 <= i < |items[1..]| ==> items[1..][i] == items[i + 1];
      MatchingPricesAbsent(items[1..], id);
    }
  }

  /** Under distinct ids the prices of a product's lines sum to the price stored on its one line. */
  lemma {:induction false} MatchingPricesDistinct(items: seq<CartItem>, k: int)
    requires DistinctIds(items) && 0 <= k < |items|
    ensures MatchingPrices(items, items[k].product.id) == items[k].product.price
  {
    var id := items[k].product.id;
    assert forall i :: 0 <= i < |items[1..]| ==> items[1..][i] == items[i + 1];
    if k == 0 {
      MatchingPricesAbsent(items[1..], id);
    } else {
      assert items[0].product.id != id;
      assert items[1..][k - 1] == items[k];
      MatchingPricesDistinct(items[1..], k - 1);
    }
  }

  /** How many lines hold product `id`. */
  function Count(items: seq<CartItem>, id: string): nat
  {
    if items == [] then 0 else (if items[0].product.id == id then 1 else 0) + Count(items[1..], id)
  }

  /** Under distinct ids a product occupies one line if present and none if absent. */
  lemma {:induction false} CountDistinct(items: seq<CartItem>, id: string)
    requires DistinctIds(items)
    ensures Count(items, id) == if HasProduct(items, id) then 1 else 0
  {
    if items != [] {
      CountDistinct(items[1..], id);
      if items[0].product.id == id {
        forall j | 0 <= j < |items[1..]| ensures items[1..][j].product.id != id {
          assert items[1..][j] == items[j + 1];
        }
      } else {
        HasProductTail(items, id);
      }
    }
  }

  /** A product absent from the first line is present exactly when it is present in the rest. */
  lemma HasProductTail(items: seq<CartItem>, id: string)
    requires items != [] && items[0].product.id != id
    ensures HasProduct(items, id) <==> HasProduct(items[1..], id)
  {
    if HasProduct(items, id) {
      var j :| 0 <= j < |items| && items[j].product.id == id;
      assert items[1..][j - 1].product.id == id;
    }
    if HasProduct(items[1..], id) {
      var j :| 0 <= j < |items[1..]| && items[1..][j].product.id == id;
      assert items[j + 1].product.id == id;
    }
  }

  /**
   * Adding `q` units of a product already in the cart raises the subtotal by
   * `q` times the price stored on its line: the line keeps the product it was
   * first added with, whatever price `p` now carries.
   */
  lemma AddSubtotalPresent(items: seq<CartItem>, p: Product, q: int, k: int)
    requires DistinctIds(items) && 0 <= k < |items| && items[k].product.id == p.id
    ensures Subtotal(AddItems(items, p, q)) == Subtotal(items) + items[k].product.price * q
  {
    assert HasProduct(items, p.id);
    calc {
      Subtotal(AddItems(items, p, q));
      Subtotal(Increase(items, p.id, q));
      { SubtotalIncrease(items, p.id, q); }
      Subtotal(items) + q * MatchingPrices(items, p.id);
      { MatchingPricesDistinct(items, k); }
      Subtotal(items) + q * items[k].product.price;
    }
  }

  /** Adding `q` units of a product not yet in the cart raises the subtotal by its price times `q`. */
  lemma AddSubtotalAbsent(items: seq<CartItem>, p: Product, q: int)
    requires !HasProduct(items, p.id)
    ensures Subtotal(AddItems(items, p, q)) == Subtotal(items) + p.price * q
  {
    SubtotalConcat(items, [CartItem(p, q)]);
  }

  // ----- Adding -----

  /** Adding a product already present grows that line only; the line count and order are kept. */
  lemma AddPresent(items: seq<CartItem>, p: Product, q: int, k: int)
    requires 0 <= k < |items| && items[k].product.id == p.id
    ensures |AddItems(items, p, q)| == |items|
    ensures forall i :: 0 <= i < |items| && items[i].product.id != p.id ==> AddItems(items, p, q)[i] == items[i]
    ensures forall i :: 0 <= i < |items| && items[i].product.id == p.id ==>
      AddItems(items, p, q)[i] == CartItem(items[i].product, items[i].quantity + q)
  {
  }

  /** Adding an absent product appends exactly one line at the end and keeps the earlier lines. */
  lemma AddAbsent(items: seq<CartItem>, p: Product, q: int)
    requires forall i :: 0 <= i < |items| ==> items[i].product.id != p.id
    ensures |AddItems(items, p, q)| == |items| + 1
    ensures AddItems(items, p, q)[..|items|] == items
    ensures AddItems(items, p, q)[|items|] == CartItem(p, q)
  {
  }

  /** Adding keeps product ids pairwise distinct. */
  lemma AddKeepsDistinct(items: seq<CartItem>, p: Product, q: int)
    requires DistinctIds(items)
    ensures DistinctIds(AddItems(items, p, q))
  {
    var r := AddItems(items, p, q);
    if !HasProduct(items, p.id) {
      forall i, j | 0 <= i < j < |r| ensures r[i].product.id != r[j].product.id {
        if j == |items| {
          assert r[i] == items[i];
        }
      }
    }
  }

  /** Adding a positive quantity keeps every quantity at least one. */
  lemma AddKeepsPositive(items: seq<CartItem>, p: Product, q: int)
    requires PositiveQuantities(items) && q >= 1
    ensures PositiveQuantities(AddItems(items, p, q))
  {
  }

  /** Adding `q` units raises the unit count by `q`. */
  lemma AddItemCount(items: seq<CartItem>, p: Product, q: int)
    requires DistinctIds(items)
    ensures ItemCount(AddItems(items, p, q)) == ItemCount(items) + q
  {
    if HasProduct(items, p.id) {
      CountDistinct(items, p.id);
      IncreaseItemCount(items, p.id, q);
    } else {
      ItemCountConcat(items, [CartItem(p, q)]);
    }
  }

  lemma {:induction false} IncreaseItemCount(items: seq<CartItem>, id: string, q: int)
    ensures ItemCount(Increase(items, id, q)) == ItemCount(items) + q * Count(items, id)
  {
    if items != [] {
      assert Increase(items, id, q)[1..] == Increase(items[1..], id, q);
      IncreaseItemCount(items[1..], id, q);
    }
  }

  /** Adding the same product twice, with `q1` then `q2` units, gives one line with `q1 + q2` units, never two. */
  lemma AddTwice(items: seq<CartItem>, p: Product, q1: int, q2: int)
    requires forall i :: 0 <= i < |items| ==> items[i].product.id != p.id
    ensures AddItems(AddItems(items, p, q1), p, q2) == items + [CartItem(p, q1 + q2)]
  {
    var once := AddItems(items, p, q1);
    assert once == items + [CartItem(p, q1)];
    assert once[|items|].product.id == p.id;
    var twice := AddItems(once, p, q2);
    assert |twice| == |items| + 1;
    forall i | 0 <= i < |twice| ensures twice[i] == (items + [CartItem(p, q1 + q2)])[i] {
      if i < |items| {
        assert once[i] == items[i];
      }
    }
  }

  // ----- Removing -----

  /** Removing a product leaves no line of it and keeps exactly the lines of the others. */
  lemma {:induction false} RemoveMembership(items: seq<CartItem>, id: string, x: CartItem)
    ensures x in RemoveItems(items, id) <==> x in items && x.product.id != id
  {
    if items != [] {
      RemoveMembership(items[1..], id, x);
      assert items == [items[0]] + items[1..];
    }
  }

  /** Removing distributes over concatenation, so the remaining lines keep their order. */
  lemma {:induction false} RemoveConcat(a: seq<CartItem>, b: seq<CartItem>, id: string)
    ensures RemoveItems(a + b, id) == RemoveItems(a, id) + RemoveItems(b, id)
  {
    if a == [] {
      assert a + b == b;
    } else {
      assert (a + b)[1..] == a[1..] + b;
      RemoveConcat(a[1..], b, id);
    }
  }

  /** Removing an absent product is a no-op. */
  lemma {:induction false} RemoveAbsent(items: seq<CartItem>, id: string)
    requires !HasProduct(items, id)
    ensures RemoveItems(items, id) == items
  {
    if items != [] {
      assert items[0].product.id != id;
      HasProductTail(items, id);
      RemoveAbsent(items[1..], id);
      assert items == [items[0]] + items[1..];
    }
  }

  /** A line of `id` between two runs without it is the only line removal drops. */
  lemma RemoveBetween(before: seq<CartItem>, x: CartItem, after: seq<CartItem>)
    requires !HasProduct(before, x.product.id) && !HasProduct(after, x.product.id)
    ensures RemoveItems(before + [x] + after, x.product.id) == before + after
  {
    var id := x.product.id;
    RemoveConcat(before + [x], after, id);
    RemoveConcat(before, [x], id);
    RemoveAbsent(before, id);
    RemoveAbsent(after, id);
    assert RemoveItems([x], id) == [];
  }

  /** With distinct ids, no line before or after line `k` holds its product. */
  lemma DistinctElsewhere(items: seq<CartItem>, k: int)
    requires DistinctIds(items) && 0 <= k < |items|
    ensures !HasProduct(items[..k], items[k].product.id)
    ensures !HasProduct(items[k + 1..], items[k].product.id)
  {
    var id := items[k].product.id;
    var before, after := items[..k], items[k + 1..];
    forall j | 0 <= j < |before| ensures before[j].product.id != id {
      assert before[j] == items[j];
    }
    forall j | 0 <= j < |after| ensures after[j].product.id != id {
      assert after[j] == items[k + 1 + j];
    }
  }

  /** With distinct ids, removing the product of line `k` drops exactly that line. */
  lemma RemoveLine(items: seq<CartItem>, k: int)
    requires DistinctIds(items) && 0 <= k < |items|
    ensures RemoveItems(items, items[k].product.id) == items[..k] + items[k + 1..]
  {
    DistinctElsewhere(items, k);
    assert items == items[..k] + [items[k]] + items[k + 1..];
    RemoveBetween(items[..k], items[k], items[k + 1..]);
  }

  /** Removing keeps product ids pairwise distinct. */
  lemma RemoveKeepsDistinct(items: seq<CartItem>, id: string)
    requires DistinctIds(items)
    ensures DistinctIds(RemoveItems(items, id))
  {
    if HasProduct(items, id) {
      var k :| 0 <= k < |items| && items[k].product.id == id;
      RemoveLine(items, k);
    } else {
      RemoveAbsent(items, id);
    }
  }

  /** Removing keeps every remaining quantity at least one. */
  lemma RemoveKeepsPositive(items: seq<CartItem>, id: string)
    requires PositiveQuantities(items)
    ensures PositiveQuantities(RemoveItems(items, id))
  {
    var r := RemoveItems(items, id);
    forall i | 0 <= i < |r| ensures r[i].quantity >= 1 {
      RemoveMembership(items, id, r[i]);
    }
  }

  /** One line between two runs adds its own total to theirs. */
  lemma SubtotalBetween(before: seq<CartItem>, x: CartItem, after: seq<CartItem>)
    ensures Subtotal(before + [x] + after) == Subtotal(before + after) + LineTotal(x)
  {
    SubtotalConcat(before + [x], after);
    SubtotalConcat(before, [x]);
    SubtotalConcat(before, after);
    assert Subtotal([x]) == LineTotal(x);
  }

  /** With distinct ids, removing the product of line `k` lowers the subtotal by that line's total. */
  lemma RemoveSubtotal(items: seq<CartItem>, k: int)
    requires DistinctIds(items) && 0 <= k < |items|
    ensures Subtotal(RemoveItems(items, items[k].product.id)) == Subtotal(items) - LineTotal(items[k])
  {
    var before, x, after := items[..k], items[k], items[k + 1..];
    RemoveLine(items, k);
    assert items == before + [x] + after;
    SubtotalBetween(before, x, after);
    calc {
      Subtotal(RemoveItems(items, x.product.id));
      Subtotal(before + after);
      Subtotal(before + [x] + after) - LineTotal(x);
      Subtotal(items) - LineTotal(x);
    }
  }

  // ----- Setting a quantity -----

  /** Setting a quantity of zero or less is exactly a removal. */
  lemma UpdateNonPositiveIsRemove(items: seq<CartItem>, id: string, q: int)
    requires q <= 0
    ensures UpdateItems(items, id, q) == RemoveItems(items, id)
  {
  }

  /** A positive quantity replaces the quantity of the matching line only; the line count and order are kept. */
  lemma UpdatePositive(items: seq<CartItem>, id: string, q: int)
    requires q > 0
    ensures |UpdateItems(items, id, q)| == |items|
    ensures forall i :: 0 <= i < |items| ==>
      UpdateItems(items, id, q)[i] == (if items[i].product.id == id then CartItem(items[i].product, q) else items[i])
  {
  }

  /** Updating an absent product leaves the lines unchanged, whatever the quantity. */
  lemma UpdateAbsent(items: seq<CartItem>, id: string, q: int)
    requires !HasProduct(items, id)
    ensures UpdateItems(items, id, q) == items
  {
    if q <= 0 {
      RemoveAbsent(items, id);
    } else {
      var r := SetQuantity(items, id, q);
      forall i | 0 <= i < |items| ensures r[i] == items[i] {
        assert items[i].product.id != id;
      }
    }
  }

  /** Updating keeps product ids pairwise distinct. */
  lemma UpdateKeepsDistinct(items: seq<CartItem>, id: string, q: int)
    requires DistinctIds(items)
    ensures DistinctIds(UpdateItems(items, id, q))
  {
    if q <= 0 {
      RemoveKeepsDistinct(items, id);
    } else {
      var r := SetQuantity(items, id, q);
      forall i, j | 0 <= i < j < |r| ensures r[i].product.id != r[j].product.id {
        assert r[i].product == items[i].product && r[j].product == items[j].product;
      }
    }
  }

  /** Updating keeps every quantity at least one (a request of zero or less removes the line instead). */
  lemma UpdateKeepsPositive(items: seq<CartItem>, id: string, q: int)
    requires PositiveQuantities(items)
    ensures PositiveQuantities(UpdateItems(items, id, q))
  {
    if q <= 0 {
      RemoveKeepsPositive(items, id);
    }
  }

  /** The cart store: the current lines and the totals derived from them. */
  class CartStore {
    var items: seq<CartItem>
    var subtotal: int
    var total: int
    var tax: Option<int>

    /** The totals agree with the lines: the subtotal is the sum of price times quantity and the total equals it. */
    predicate Valid()
      reads this
    {
      subtotal == Subtotal(items) && total == subtotal
    }

    /** A new store holds the empty cart. */
    constructor ()
      ensures items == [] && subtotal == 0 && total == 0 && tax == None
      ensures Valid()
    {
      items, subtotal, total, tax := [], 0, 0, None;
    }

    /**
     * Restore a stored cart read on mount. `None` stands for a missing entry or
     * one that does not parse; the current cart is then kept. A snapshot is
     * taken as it is: its totals and lines are not checked.
     */
    method Restore(saved: Option<CartSnapshot>)
      modifies this
      ensures saved.None? ==> items == old(items) && subtotal == old(subtotal) && total == old(total) && tax == old(tax)
      ensures saved.Some? ==> items == saved.value.items && subtotal == saved.value.subtotal
                              && total == saved.value.total && tax == saved.value.tax
    {
      if saved.Some? {
        items, subtotal, total, tax := saved.value.items, saved.value.subtotal, saved.value.total, saved.value.tax;
      }
    }

    /** Replace the lines and recompute the totals from them, as every cart change does. */
    method SetLines(newItems: seq<CartItem>)
      modifies this
      ensures items == newItems && tax == None
      ensures Valid()
    {
      items := newItems;
      subtotal := Subtotal(newItems);
      total := subtotal;
      tax := None;
    }

    /** Add `quantity` units of `p`. */
    method AddToCart(p: Product, quantity: int)
      modifies this
      ensures items == AddItems(old(items), p, quantity) && tax == None
      ensures Valid()
      ensures DistinctIds(old(items)) ==> DistinctIds(items)
      ensures PositiveQuantities(old(items)) && quantity >= 1 ==> PositiveQuantities(items)
    {
      if DistinctIds(items) {
        AddKeepsDistinct(items, p, quantity);
      }
      if PositiveQuantities(items) && quantity >= 1 {
        AddKeepsPositive(items, p, quantity);
      }
      SetLines(AddItems(items, p, quantity));
    }

    /** Drop every line of product `productId`. */
    method RemoveFromCart(productId: string)
      modifies this
      ensures items == RemoveItems(old(items), productId) && tax == None
      ensures Valid()
      ensures DistinctIds(old(items)) ==> DistinctIds(items)
      ensures PositiveQuantities(old(items)) ==> PositiveQuantities(items)
    {
      if DistinctIds(items) {
        RemoveKeepsDistinct(items, productId);
      }
      if PositiveQuantities(items) {
        RemoveKeepsPositive(items, productId);
      }
      SetLines(RemoveItems(items, productId));
    }

    /** Set the quantity of product `productId`; zero or less removes it. */
    method UpdateQuantity(productId: string, quantity: int)
      modifies this
      ensures items == UpdateItems(old(items), productId, quantity) && tax == None
      ensures Valid()
      ensures DistinctIds(old(items)) ==> DistinctIds(items)
      ensures PositiveQuantities(old(items)) ==> PositiveQuantities(items)
    {
      if quantity <= 0 {
        RemoveFromCart(productId);
        return;
      }
      if DistinctIds(items) {
        UpdateKeepsDistinct(items, productId, quantity);
      }
      if PositiveQuantities(items) {
        UpdateKeepsPositive(items, productId, quantity);
      }
      SetLines(SetQuantity(items, productId, quantity));
    }

    /** Empty the cart. */
    method ClearCart()
      modifies this
      ensures items == [] && subtotal == 0 && total == 0 && tax == None
      ensures Valid()
    {
      items, subtotal, total, tax := [], 0, 0, None;
    }

    /** The number of units in the cart (the badge count), at least the number of lines when every quantity is positive. */
    function GetItemCount(): (n: int)
      reads this
      ensures PositiveQuantities(items) ==> n >= |items|
    {
      if PositiveQuantities(items) then ItemCountAtLeastLines(items); ItemCount(items)
      else ItemCount(items)
    }
  }
}
