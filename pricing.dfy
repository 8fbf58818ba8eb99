/** The totals shown under the cart: subtotal, 10% tax rounded to whole rupees, grand total. */
module Pricing {
  import opened Outcomes
  import opened Catalog
  import opened Cart

  datatype Totals = Totals(subtotal: int, tax: int, grand: int)

  /** `Math.round(subtotal * 0.10)` on an integer subtotal: the whole number nearest to a
      tenth of it, halves rounded up. */
  function Tax(subtotal: int): (t: int)
    ensures 10 * t - 5 <= subtotal < 10 * t + 5
  {
    (subtotal + 5) / 10
  }

  lemma TaxBounds(subtotal: int)
    requires subtotal >= 0
    ensures 0 <= Tax(subtotal) <= subtotal
  {
  }

  lemma TaxExamples()
    ensures Tax(4400) == 440 && Tax(1999) == 200 && Tax(2500) == 250
    ensures Tax(1) == 0 && Tax(5) == 1 && Tax(15) == 2
  {
  }

  /** Every line of the cart names a product of the catalog. */
  ghost predicate Resolvable(cart: seq<CartLine>, catalog: seq<Product>) {
    forall i :: 0 <= i < |cart| ==> Find(catalog, cart[i].productId).Some?
  }

  /** Every quantity in the cart is at least 1. */
  ghost predicate QtysPositive(cart: seq<CartLine>) {
    forall i :: 0 <= i < |cart| ==> cart[i].qty >= 1
  }

  /** The first line whose product is not in the catalog: where `p.price` throws. */
  function FirstUnresolved(cart: seq<CartLine>, catalog: seq<Product>): (r: Option<nat>)
    ensures r.Some? ==> r.value < |cart| && Find(catalog, cart[r.value].productId).None?
    ensures r.Some? ==> forall i :: 0 <= i < r.value ==> Find(catalog, cart[i].productId).Some?
    ensures r.None? <==> Resolvable(cart, catalog)
  {
    if cart == [] then None
    else if Find(catalog, cart[0].productId).None? then Some(0)
    else match FirstUnresolved(cart[1..], catalog)
      case None => None
      case Some(k) => Some(k + 1)
  }

  /** The amount one line adds: unit price times quantity. */
  function LineAmount(line: CartLine, p: Product): int {
    p.price * line.qty
  }

  /** A line's amount at its catalog price; only consulted when the line resolves. */
  function Amount(line: CartLine, catalog: seq<Product>): int {
    match Find(catalog, line.productId)
    case None => 0
    case Some(p) => LineAmount(line, p)
  }

  /** The running `subtotal += p.price * ci.qty`, line by line. */
  function Sum(cart: seq<CartLine>, catalog: seq<Product>): int
    decreases |cart|
  {
    if cart == [] then 0 else Sum(cart[..|cart| - 1], catalog) + Amount(cart[|cart| - 1], catalog)
  }

  /** The cart display's subtotal: the sum of the line amounts, or the failure of the first
      line whose product does not resolve. */
  function CartSubtotal(cart: seq<CartLine>, catalog: seq<Product>): (r: Result<int, LookupError>)
    ensures r.Ok? <==> Resolvable(cart, catalog)
    ensures r.Ok? ==> r.value == Sum(cart, catalog)
    ensures r.Err? ==> Find(catalog, r.error.productId).None?
  {
    match FirstUnresolved(cart, catalog)
    case Some(i) => Err(UnknownProduct(cart[i].productId))
    case None => Ok(Sum(cart, catalog))
  }

  /** The totals the cart display shows: tax on the subtotal, grand total = subtotal + tax. */
  function CartTotals(cart: seq<CartLine>, catalog: seq<Product>): (r: Result<Totals, LookupError>)
    ensures r.Ok? <==> Resolvable(cart, catalog)
    ensures r.Ok? ==> r.value.subtotal == Sum(cart, catalog)
    ensures r.Ok? ==> r.value.tax == Tax(r.value.subtotal) && r.value.grand == r.value.subtotal + r.value.tax
  {
    match CartSubtotal(cart, catalog)
    case Err(e) => Err(e)
    case Ok(s) => Ok(Totals(s, Tax(s), s + Tax(s)))
  }

  /** The subtotal can be computed exactly when every cart line resolves; otherwise the
      failure names the first line that does not. */
  lemma SubtotalOkIffResolvable(cart: seq<CartLine>, catalog: seq<Product>)
    ensures CartSubtotal(cart, catalog).Ok? <==> Resolvable(cart, catalog)
    ensures CartSubtotal(cart, catalog).Err? ==>
      (exists i :: 0 <= i < |cart| &&
        CartSubtotal(cart, catalog).error == UnknownProduct(cart[i].productId) &&
        Find(catalog, cart[i].productId).None? && Resolvable(cart[..i], catalog))
  {
  }

  /** A cart laid end to end with another resolves exactly when both halves do. */
  lemma ResolvableConcat(a: seq<CartLine>, b: seq<CartLine>, catalog: seq<Product>)
    ensures Resolvable(a + b, catalog) <==> Resolvable(a, catalog) && Resolvable(b, catalog)
  {
    assert forall i :: 0 <= i < |a| ==> (a + b)[i] == a[i];
    assert forall i :: 0 <= i < |b| ==> (a + b)[|a| + i] == b[i];
  }

  /** The first unresolved line is the first line that does not resolve after a resolvable
      prefix. */
  lemma FirstUnresolvedAt(cart: seq<CartLine>, catalog: seq<Product>, i: nat)
    requires i < |cart| && Resolvable(cart[..i], catalog) && Find(catalog, cart[i].productId).None?
    ensures FirstUnresolved(cart, catalog) == Some(i)
  {
    var f := FirstUnresolved(cart, catalog);
    assert forall j :: 0 <= j < i ==> cart[..i][j] == cart[j];
    assert f.Some?;
    assert forall j :: 0 <= j < f.value ==> cart[..f.value][j] == cart[j];
  }

  /** Carts with the same product ids at the same positions fail on the same line. */
  lemma FirstUnresolvedSameIds(a: seq<CartLine>, b: seq<CartLine>, catalog: seq<Product>)
    requires |a| == |b| && forall i :: 0 <= i < |a| ==> a[i].productId == b[i].productId
    ensures FirstUnresolved(a, catalog) == FirstUnresolved(b, catalog)
  {
    var fa, fb := FirstUnresolved(a, catalog), FirstUnresolved(b, catalog);
    if fa.Some? && fb.Some? {
      assert a[fb.value].productId == b[fb.value].productId;
      assert b[fa.value].productId == a[fa.value].productId;
    }
  }

  lemma PositiveProduct(a: int, b: int)
    requires a >= 1 && b >= 1
    ensures a * b >= 1
  {
    assert a * b == a * (b - 1) + a;
    assert a * (b - 1) >= 0;
  }

  /** The sum is at least the number of lines when every price and quantity is at least 1. */
  lemma {:induction false} SumAtLeastLines(cart: seq<CartLine>, catalog: seq<Product>)
    requires PricesPositive(catalog) && QtysPositive(cart) && Resolvable(cart, catalog)
    ensures Sum(cart, catalog) >= |cart|
    decreases |cart|
  {
    if cart != [] {
      var n := |cart| - 1;
      assert forall i :: 0 <= i < n ==> cart[..n][i] == cart[i];
      SumAtLeastLines(cart[..n], catalog);
      var p := Find(catalog, cart[n].productId).value;
      PositiveProduct(p.price, cart[n].qty);
    }
  }

  /** With prices and quantities of at least 1: subtotal >= 0, 0 <= tax <= subtotal and
      grand >= subtotal. */
  lemma TotalsBounds(cart: seq<CartLine>, catalog: seq<Product>)
    requires PricesPositive(catalog) && QtysPositive(cart) && Resolvable(cart, catalog)
    ensures CartTotals(cart, catalog).Ok?
    ensures var t := CartTotals(cart, catalog).value;
      0 <= t.subtotal && 0 <= t.tax <= t.subtotal && t.grand == t.subtotal + t.tax && t.grand >= t.subtotal
  {
    SumAtLeastLines(cart, catalog);
    TaxBounds(Sum(cart, catalog));
  }

  /** Two carts laid end to end sum to the sum of their sums. */
  lemma {:induction false} SumConcat(a: seq<CartLine>, b: seq<CartLine>, catalog: seq<Product>)
    ensures Sum(a + b, catalog) == Sum(a, catalog) + Sum(b, catalog)
    decreases |b|
  {
    if b == [] {
      assert a + b == a;
    } else {
      var n := |b| - 1;
      assert (a + b)[..|a + b| - 1] == a + b[..n];
      assert (a + b)[|a + b| - 1] == b[n];
      SumConcat(a, b[..n], catalog);
    }
  }

  /** Changing the quantity of line `k` swaps that line's amount in the sum and leaves the
      rest of the sum alone. */
  lemma {:induction false} SumAfterQtyChange(cart: seq<CartLine>, catalog: seq<Product>, k: nat, qty: int)
    requires k < |cart|
    ensures Sum(cart[k := cart[k].(qty := qty)], catalog) ==
      Sum(cart, catalog) - Amount(cart[k], catalog) + Amount(cart[k].(qty := qty), catalog)
    decreases |cart|
  {
    var c := cart[k := cart[k].(qty := qty)];
    var n := |cart| - 1;
    if k == n {
      assert c[..n] == cart[..n];
    } else {
      assert c[..n] == cart[..n][k := cart[k].(qty := qty)];
      assert c[n] == cart[n];
      assert cart[..n][k] == cart[k];
      SumAfterQtyChange(cart[..n], catalog, k, qty);
    }
  }

  /** Taking line `k` out lowers the sum by that line's amount. */
  lemma SumWithout(cart: seq<CartLine>, catalog: seq<Product>, k: nat)
    requires k < |cart|
    ensures Sum(cart[..k] + cart[k + 1..], catalog) == Sum(cart, catalog) - Amount(cart[k], catalog)
  {
    var front, line, back := cart[..k], cart[k], cart[k + 1..];
    assert cart == (front + [line]) + back;
    SumConcat(front + [line], back, catalog);
    assert (front + [line])[..k] == front;
    SumConcat(front, back, catalog);
  }

  /** One more of a product adds its unit price to the line's amount. */
  lemma LineAmountStep(line: CartLine, p: Product)
    ensures LineAmount(line.(qty := line.qty + 1), p) == LineAmount(line, p) + p.price
  {
    assert p.price * (line.qty + 1) == p.price * line.qty + p.price;
  }

  /** Changing a quantity changes the subtotal by the line's unit price times the change,
      and fails exactly where it failed before. */
  lemma SubtotalAfterQtyChange(cart: seq<CartLine>, catalog: seq<Product>, k: nat, qty: int)
    requires k < |cart|
    ensures var c := cart[k := cart[k].(qty := qty)];
      CartSubtotal(c, catalog).Ok? == CartSubtotal(cart, catalog).Ok?
    ensures var c := cart[k := cart[k].(qty := qty)];
      CartSubtotal(cart, catalog).Ok? ==>
        var p := Find(catalog, cart[k].productId).value;
        CartSubtotal(c, catalog).value == CartSubtotal(cart, catalog).value - LineAmount(cart[k], p) + LineAmount(c[k], p)
  {
    var c := cart[k := cart[k].(qty := qty)];
    FirstUnresolvedSameIds(c, cart, catalog);
    SumAfterQtyChange(cart, catalog, k, qty);
  }

  /** Adding a product of the catalog raises the subtotal by exactly its price. */
  lemma AddRaisesSubtotal(cart: seq<CartLine>, catalog: seq<Product>, productId: string, p: Product)
    requires CartSubtotal(cart, catalog).Ok? && Find(catalog, productId) == Some(p)
    ensures CartSubtotal(AddedTo(cart, productId), catalog).Ok?
    ensures CartSubtotal(AddedTo(cart, productId), catalog).value == CartSubtotal(cart, catalog).value + p.price
  {
    var c := AddedTo(cart, productId);
    match IndexOf(cart, productId)
    case Some(k) =>
      var line := cart[k];
      assert c == cart[k := line.(qty := line.qty + 1)];
      FirstUnresolvedSameIds(c, cart, catalog);
      SumAfterQtyChange(cart, catalog, k, line.qty + 1);
      LineAmountStep(line, p);
    case None =>
      assert c == cart + [CartLine(productId, 1)];
      assert c[..|cart|] == cart;
      assert Resolvable(c, catalog) by {
        assert forall i :: 0 <= i < |cart| ==> c[i] == cart[i];
      }
  }

  /** A cart whose every line resolves has its sum as subtotal. */
  lemma SubtotalOfResolvable(cart: seq<CartLine>, catalog: seq<Product>)
    requires Resolvable(cart, catalog)
    ensures CartSubtotal(cart, catalog).Ok? && CartSubtotal(cart, catalog).value == Sum(cart, catalog)
  {
  }

  /** Taking a line out of a resolvable cart leaves a resolvable cart. */
  lemma ResolvableWithout(cart: seq<CartLine>, catalog: seq<Product>, k: nat)
    requires k < |cart| && Resolvable(cart, catalog)
    ensures Resolvable(cart[..k] + cart[k + 1..], catalog)
  {
    var front, line, back := cart[..k], cart[k], cart[k + 1..];
    assert cart == (front + [line]) + back;
    ResolvableConcat(front + [line], back, catalog);
    ResolvableConcat(front, [line], catalog);
    ResolvableConcat(front, back, catalog);
  }

  /** Taking a resolvable line out of a resolvable cart lowers the subtotal by its amount. */
  lemma SubtotalWithout(cart: seq<CartLine>, catalog: seq<Product>, k: nat)
    requires k < |cart| && Resolvable(cart, catalog)
    ensures CartSubtotal(cart[..k] + cart[k + 1..], catalog).Ok?
    ensures CartSubtotal(cart[..k] + cart[k + 1..], catalog).value == Sum(cart, catalog) - Amount(cart[k], catalog)
  {
    ResolvableWithout(cart, catalog, k);
    SumWithout(cart, catalog, k);
    SubtotalOfResolvable(cart[..k] + cart[k + 1..], catalog);
  }

  /** Removing a line lowers the subtotal by exactly that line's amount. */
  lemma RemoveLowersSubtotal(cart: seq<CartLine>, catalog: seq<Product>, idx: int)
    requires CartSubtotal(cart, catalog).Ok? && SpliceStart(|cart|, idx) < |cart|
    ensures CartSubtotal(Removed(cart, idx), catalog).Ok?
    ensures var line := cart[SpliceStart(|cart|, idx)];
      CartSubtotal(Removed(cart, idx), catalog).value ==
        CartSubtotal(cart, catalog).value - LineAmount(line, Find(catalog, line.productId).value)
  {
    var k := SpliceStart(|cart|, idx);
    assert Removed(cart, idx) == cart[..k] + cart[k + 1..];
    SubtotalWithout(cart, catalog, k);
  }

  /** One more resolvable line extends a resolvable prefix and adds its amount to the sum. */
  lemma SumStep(cart: seq<CartLine>, catalog: seq<Product>, i: nat, p: Product)
    requires i < |cart| && Resolvable(cart[..i], catalog) && Find(catalog, cart[i].productId) == Some(p)
    ensures Resolvable(cart[..i + 1], catalog)
    ensures Sum(cart[..i + 1], catalog) == Sum(cart[..i], catalog) + p.price * cart[i].qty
  {
    assert cart[..i + 1][..i] == cart[..i];
  }

  /** The cart display's loop: `cart.forEach` accumulating `subtotal`, then tax and grand total. */
  method ComputeTotals(cart: seq<CartLine>, catalog: seq<Product>) returns (r: Result<Totals, LookupError>)
    ensures r == CartTotals(cart, catalog)
  {
    var subtotal := 0;
    var i := 0;
    while i < |cart|
      invariant 0 <= i <= |cart|
      invariant Resolvable(cart[..i], catalog)
      invariant subtotal == Sum(cart[..i], catalog)
    {
      var p := Find(catalog, cart[i].productId);
      if p.None? {
        FirstUnresolvedAt(cart, catalog, i);
        return Err(UnknownProduct(cart[i].productId));
      }
      SumStep(cart, catalog, i, p.value);
      subtotal := subtotal + p.value.price * cart[i].qty;
      i := i + 1;
    }
    assert cart[..i] == cart;
    var tax := Tax(subtotal);
    r := Ok(Totals(subtotal, tax, subtotal + tax));
  }
}
