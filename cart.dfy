/** A cart is an ordered sequence of lines, one per product, each with a quantity. These
    functions give the new cart each cart handler of the dashboard leaves behind. */
module Cart {
  import opened Outcomes

  datatype CartLine = CartLine(productId: string, qty: int)

  /** Raised where the quantity handler writes `cart[idx].qty` for an index the cart lacks. */
  datatype CartError = IndexOutOfRange(index: int)

  /** `cart.find(i => i.productId === productId)`, as a position: the first line of that product. */
  function IndexOf(cart: seq<CartLine>, productId: string): (r: Option<nat>)
    ensures r.Some? ==> r.value < |cart| && cart[r.value].productId == productId
    ensures r.Some? ==> forall j :: 0 <= j < r.value ==> cart[j].productId != productId
    ensures r.None? ==> forall j :: 0 <= j < |cart| ==> cart[j].productId != productId
  {
    if cart == [] then None
    else if cart[0].productId == productId then Some(0)
    else match IndexOf(cart[1..], productId)
      case None => None
      case Some(k) => Some(k + 1)
  }

  /** The quantity of a product in the cart, 0 when it has no line. */
  function QtyOf(cart: seq<CartLine>, productId: string): int {
    match IndexOf(cart, productId)
    case None => 0
    case Some(i) => cart[i].qty
  }

  ghost predicate DistinctIds(cart: seq<CartLine>) {
    forall i, j :: 0 <= i < j < |cart| ==> cart[i].productId != cart[j].productId
  }

  /** The shape every cart handler keeps: one line per product, every quantity at least 1. */
  ghost predicate WellFormed(cart: seq<CartLine>) {
    DistinctIds(cart) && forall i :: 0 <= i < |cart| ==> cart[i].qty >= 1
  }

  /** Carts with the same product ids at the same positions find the same line. */
  lemma IndexOfSameIds(a: seq<CartLine>, b: seq<CartLine>, productId: string)
    requires |a| == |b| && forall i :: 0 <= i < |a| ==> a[i].productId == b[i].productId
    ensures IndexOf(a, productId) == IndexOf(b, productId)
  {
  }

  /** Appending a line leaves the first line of every product already present in place. */
  lemma IndexOfAppend(cart: seq<CartLine>, line: CartLine, productId: string)
    ensures IndexOf(cart + [line], productId) ==
      if IndexOf(cart, productId).Some? then IndexOf(cart, productId)
      else if line.productId == productId then Some(|cart|)
      else None
  {
    var c := cart + [line];
    assert forall j :: 0 <= j < |cart| ==> c[j] == cart[j];
    assert c[|cart|] == line;
  }

  /** `addToCart(productId)`: one more of an existing line, or a new line of quantity 1 at the end. */
  function AddedTo(cart: seq<CartLine>, productId: string): (r: seq<CartLine>)
    ensures |r| == if IndexOf(cart, productId).Some? then |cart| else |cart| + 1
    ensures IndexOf(r, productId).Some?
  {
    match IndexOf(cart, productId)
    case Some(k) =>
      var r := cart[k := cart[k].(qty := cart[k].qty + 1)];
      assert r[k].productId == productId;
      r
    case None =>
      var r := cart + [CartLine(productId, 1)];
      assert r[|cart|].productId == productId;
      r
  }

  /** Adding a product the cart already holds raises the quantity of its first line by one
      and changes nothing else. */
  lemma AddMergesExisting(cart: seq<CartLine>, productId: string, k: nat)
    requires k < |cart| && cart[k].productId == productId
    requires forall j :: 0 <= j < k ==> cart[j].productId != productId
    ensures |AddedTo(cart, productId)| == |cart|
    ensures AddedTo(cart, productId)[k] == CartLine(productId, cart[k].qty + 1)
    ensures forall j :: 0 <= j < |cart| && j != k ==> AddedTo(cart, productId)[j] == cart[j]
  {
  }

  /** Adding a product the cart lacks appends exactly one line of quantity 1. */
  lemma AddAppendsNew(cart: seq<CartLine>, productId: string)
    requires forall j :: 0 <= j < |cart| ==> cart[j].productId != productId
    ensures AddedTo(cart, productId) == cart + [CartLine(productId, 1)]
  {
  }

  /** A cart with one line per product still has one line per product after an add. */
  lemma AddKeepsDistinct(cart: seq<CartLine>, productId: string)
    requires DistinctIds(cart)
    ensures DistinctIds(AddedTo(cart, productId))
  {
    var r := AddedTo(cart, productId);
    match IndexOf(cart, productId)
    case Some(k) =>
      assert forall i :: 0 <= i < |r| ==> r[i].productId == cart[i].productId;
    case None =>
      assert forall i :: 0 <= i < |cart| ==> r[i] == cart[i];
  }

  /** Adding keeps one line per product and every quantity at least 1. */
  lemma AddKeepsWellFormed(cart: seq<CartLine>, productId: string)
    requires WellFormed(cart)
    ensures WellFormed(AddedTo(cart, productId))
  {
    AddKeepsDistinct(cart, productId);
    var r := AddedTo(cart, productId);
    match IndexOf(cart, productId)
    case Some(k) =>
    case None =>
      assert forall i :: 0 <= i < |cart| ==> r[i] == cart[i];
  }

  /** Adding a product raises its quantity by one and leaves every other product's quantity alone. */
  lemma AddCountsOne(cart: seq<CartLine>, added: string, productId: string)
    ensures QtyOf(AddedTo(cart, added), productId) ==
      QtyOf(cart, productId) + if productId == added then 1 else 0
  {
    var r := AddedTo(cart, added);
    match IndexOf(cart, added)
    case Some(k) =>
      IndexOfSameIds(r, cart, productId);
      var i := IndexOf(cart, productId);
      if productId == added {
        assert i == Some(k);
      } else if i.Some? {
        assert i.value != k;
      }
    case None =>
      IndexOfAppend(cart, CartLine(added, 1), productId);
  }

  /** The cart after the products of `ids` were added one after another. */
  function AddAll(cart: seq<CartLine>, ids: seq<string>): seq<CartLine> {
    if ids == [] then cart
    else AddedTo(AddAll(cart, ids[..|ids| - 1]), ids[|ids| - 1])
  }

  /** After any sequence of adds, each product's quantity is the number of times it was added. */
  lemma {:induction false} AddAllCounts(cart: seq<CartLine>, ids: seq<string>, productId: string)
    ensures QtyOf(AddAll(cart, ids), productId) == QtyOf(cart, productId) + multiset(ids)[productId]
  {
    if ids != [] {
      var front, last := ids[..|ids| - 1], ids[|ids| - 1];
      assert ids == front + [last];
      AddAllCounts(cart, front, productId);
      AddCountsOne(AddAll(cart, front), last, productId);
    }
  }

  /** Any sequence of adds keeps the cart well formed. */
  lemma {:induction false} AddAllKeepsWellFormed(cart: seq<CartLine>, ids: seq<string>)
    requires WellFormed(cart)
    ensures WellFormed(AddAll(cart, ids))
  {
    if ids != [] {
      AddAllKeepsWellFormed(cart, ids[..|ids| - 1]);
      AddKeepsWellFormed(AddAll(cart, ids[..|ids| - 1]), ids[|ids| - 1]);
    }
  }

  /** Adding one product n times to an empty cart gives a single line of quantity n. */
  lemma {:induction false} RepeatedAdds(productId: string, n: nat)
    requires n >= 1
    ensures AddAll([], seq(n, _ => productId)) == [CartLine(productId, n)]
  {
    var ids := seq(n, _ => productId);
    if n > 1 {
      assert ids[..n - 1] == seq(n - 1, _ => productId);
      RepeatedAdds(productId, n - 1);
    } else {
      assert ids[..0] == [];
    }
  }

  /** The quantity input after `parseInt`: a missing, non-numeric or below-one value becomes 1. */
  function ClampQty(value: Option<int>): (r: int)
    ensures r >= 1
    ensures value.Some? && value.value >= 1 ==> r == value.value
    ensures value.None? || value.value < 1 ==> r == 1
  {
    if value.None? || value.value < 1 then 1 else value.value
  }

  /** The quantity handler: `cart[idx].qty = val`, failing when the cart has no line `idx`. */
  function SetQty(cart: seq<CartLine>, idx: int, value: Option<int>): (r: Result<seq<CartLine>, CartError>)
    ensures r.Err? <==> !(0 <= idx < |cart|)
    ensures r.Err? ==> r.error == IndexOutOfRange(idx)
    ensures r.Ok? ==> |r.value| == |cart|
    ensures r.Ok? ==> r.value[idx] == CartLine(cart[idx].productId, ClampQty(value))
    ensures r.Ok? ==> forall j :: 0 <= j < |cart| && j != idx ==> r.value[j] == cart[j]
  {
    if 0 <= idx < |cart| then Ok(cart[idx := cart[idx].(qty := ClampQty(value))])
    else Err(IndexOutOfRange(idx))
  }

  lemma SetQtyKeepsWellFormed(cart: seq<CartLine>, idx: int, value: Option<int>)
    requires WellFormed(cart) && SetQty(cart, idx, value).Ok?
    ensures WellFormed(SetQty(cart, idx, value).value)
  {
    var r := SetQty(cart, idx, value).value;
    assert forall i :: 0 <= i < |r| ==> r[i].productId == cart[i].productId;
  }

  /** Where `Array.prototype.splice` starts for a start argument `idx`: a negative one counts
      back from the end (but not past the front), one past the end is clamped to the end. */
  function SpliceStart(len: nat, idx: int): (k: nat)
    ensures k <= len
    ensures 0 <= idx <= len ==> k == idx
    ensures idx > len ==> k == len
    ensures -(len as int) <= idx < 0 ==> k == len + idx
    ensures idx < -(len as int) ==> k == 0
  {
    if idx < 0 then (if len + idx < 0 then 0 else len + idx)
    else if idx < len then idx
    else len
  }

  /** The remove handler: `cart.splice(idx, 1)`. */
  function Removed(cart: seq<CartLine>, idx: int): (r: seq<CartLine>)
    ensures SpliceStart(|cart|, idx) == |cart| ==> r == cart
    ensures SpliceStart(|cart|, idx) < |cart| ==> |r| == |cart| - 1
    ensures forall j :: 0 <= j < SpliceStart(|cart|, idx) && j < |r| ==> r[j] == cart[j]
    ensures forall j :: SpliceStart(|cart|, idx) <= j < |cart| - 1 ==> r[j] == cart[j + 1]
  {
    var k := SpliceStart(|cart|, idx);
    if k < |cart| then cart[..k] + cart[k + 1..] else cart
  }

  /** Removing takes out exactly the line at the splice position and no other. */
  lemma RemovedTakesOneLine(cart: seq<CartLine>, idx: int)
    requires SpliceStart(|cart|, idx) < |cart|
    ensures multiset(Removed(cart, idx)) + multiset{cart[SpliceStart(|cart|, idx)]} == multiset(cart)
  {
    var k := SpliceStart(|cart|, idx);
    assert cart == cart[..k] + [cart[k]] + cart[k + 1..];
  }

  lemma RemoveKeepsWellFormed(cart: seq<CartLine>, idx: int)
    requires WellFormed(cart)
    ensures WellFormed(Removed(cart, idx))
  {
    var r, k := Removed(cart, idx), SpliceStart(|cart|, idx);
    if k < |cart| {
      forall i, j | 0 <= i < j < |r|
        ensures r[i].productId != r[j].productId
      {
        var i', j' := if i < k then i else i + 1, if j < k then j else j + 1;
        assert r[i] == cart[i'] && r[j] == cart[j'];
      }
    }
  }
}
