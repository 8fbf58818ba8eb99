/** Checkout's pure part: the snapshot of the cart as order lines and the order record
    saved to the purchase history. */
module Orders {
  import opened Outcomes
  import opened Catalog
  import opened Cart
  import opened Pricing

  /** One purchased line, denormalised so that later catalog edits leave it alone. */
  datatype OrderLine = OrderLine(name: string, qty: int, price: int, subtotal: int)

  /** A saved order; `at` is the creation timestamp, kept opaque. */
  datatype Order = Order(at: string, items: seq<OrderLine>, subtotal: int, tax: int, grand: int)

  /** `{ name: p.name, qty: ci.qty, price: p.price, subtotal: p.price * ci.qty }`. */
  function LineOf(line: CartLine, p: Product): OrderLine {
    OrderLine(p.name, line.qty, p.price, LineAmount(line, p))
  }

  /** `cart.map(...)` over a cart whose every line resolves: one order line per cart line. */
  function Lines(cart: seq<CartLine>, catalog: seq<Product>): seq<OrderLine>
    requires Resolvable(cart, catalog)
  {
    seq(|cart|, i requires 0 <= i < |cart| && Find(catalog, cart[i].productId).Some? =>
      LineOf(cart[i], Find(catalog, cart[i].productId).value))
  }

  /** The snapshot checkout takes of the cart: the mapped lines, or the failure of the first
      line whose product does not resolve. */
  function Snapshot(cart: seq<CartLine>, catalog: seq<Product>): (r: Result<seq<OrderLine>, LookupError>)
    ensures r.Ok? <==> Resolvable(cart, catalog)
    ensures r.Ok? ==> |r.value| == |cart|
  {
    match FirstUnresolved(cart, catalog)
    case Some(i) => Err(UnknownProduct(cart[i].productId))
    case None => Ok(Lines(cart, catalog))
  }

  /** `lines.reduce((s, l) => s + l.subtotal, 0)`. */
  function LineSum(items: seq<OrderLine>): (s: int)
    ensures (forall i :: 0 <= i < |items| ==> items[i].subtotal >= 0) ==> s >= 0
    decreases |items|
  {
    if items == [] then 0 else LineSum(items[..|items| - 1]) + items[|items| - 1].subtotal
  }

  /** The order record built from the snapshot lines: their summed subtotal, tax on it and
      the grand total. */
  function OrderOf(at: string, items: seq<OrderLine>): Order {
    var subtotal := LineSum(items);
    var tax := Tax(subtotal);
    Order(at, items, subtotal, tax, subtotal + tax)
  }

  /** The order `checkout` records for a cart, stamped `at`. */
  function PlaceOrder(cart: seq<CartLine>, catalog: seq<Product>, at: string): (r: Result<Order, LookupError>)
    ensures r.Ok? <==> Resolvable(cart, catalog)
    ensures r.Ok? ==> r.value.at == at && |r.value.items| == |cart|
  {
    match Snapshot(cart, catalog)
    case Err(e) => Err(e)
    case Ok(items) => Ok(OrderOf(at, items))
  }

  /** The snapshot has one line per cart line, in cart order, each holding its product's
      name and price, the cart quantity and price times quantity. */
  lemma SnapshotLines(cart: seq<CartLine>, catalog: seq<Product>)
    requires Snapshot(cart, catalog).Ok?
    ensures |Snapshot(cart, catalog).value| == |cart|
    ensures forall i :: 0 <= i < |cart| ==> Find(catalog, cart[i].productId).Some?
    ensures forall i :: 0 <= i < |cart| ==>
      var p, item := Find(catalog, cart[i].productId).value, Snapshot(cart, catalog).value[i];
      item.name == p.name && item.qty == cart[i].qty && item.price == p.price && item.subtotal == item.price * item.qty
  {
  }

  /** The mapped lines of a cart are those of all but its last line, then the last line's. */
  lemma LinesSnoc(cart: seq<CartLine>, catalog: seq<Product>)
    requires cart != [] && Resolvable(cart, catalog)
    ensures Resolvable(cart[..|cart| - 1], catalog)
    ensures Lines(cart, catalog)[..|cart| - 1] == Lines(cart[..|cart| - 1], catalog)
    ensures Lines(cart, catalog)[|cart| - 1].subtotal == Amount(cart[|cart| - 1], catalog)
  {
    var n := |cart| - 1;
    assert forall i :: 0 <= i < n ==> cart[..n][i] == cart[i];
  }

  /** Summing the mapped lines' subtotals gives the display's running sum. */
  lemma {:induction false} LinesSum(cart: seq<CartLine>, catalog: seq<Product>)
    requires Resolvable(cart, catalog)
    ensures LineSum(Lines(cart, catalog)) == Sum(cart, catalog)
    decreases |cart|
  {
    if cart != [] {
      LinesSnoc(cart, catalog);
      LinesSum(cart[..|cart| - 1], catalog);
    }
  }

  /** Checkout's `reduce` over the snapshot gives the same subtotal as the cart display's
      loop, and both fail on the same line. */
  lemma SnapshotMatchesSubtotal(cart: seq<CartLine>, catalog: seq<Product>)
    ensures Snapshot(cart, catalog).Ok? <==> CartSubtotal(cart, catalog).Ok?
    ensures Snapshot(cart, catalog).Err? ==> Snapshot(cart, catalog).error == CartSubtotal(cart, catalog).error
    ensures Snapshot(cart, catalog).Ok? ==>
      LineSum(Snapshot(cart, catalog).value) == CartSubtotal(cart, catalog).value
  {
    if Resolvable(cart, catalog) {
      LinesSum(cart, catalog);
    }
  }

  /** The order checkout records carries the subtotal, tax and grand total the cart display
      shows for the same cart and catalog, and fails exactly when the display does. */
  lemma CheckoutMatchesDisplay(cart: seq<CartLine>, catalog: seq<Product>, at: string)
    ensures PlaceOrder(cart, catalog, at).Ok? <==> CartTotals(cart, catalog).Ok?
    ensures PlaceOrder(cart, catalog, at).Err? ==>
      PlaceOrder(cart, catalog, at).error == CartTotals(cart, catalog).error
    ensures PlaceOrder(cart, catalog, at).Ok? ==>
      var o, t := PlaceOrder(cart, catalog, at).value, CartTotals(cart, catalog).value;
      o.subtotal == t.subtotal && o.tax == t.tax && o.grand == t.grand
  {
    SnapshotMatchesSubtotal(cart, catalog);
  }

  /** What a recorded order holds: its timestamp, the snapshot lines, and totals that agree
      with its own lines (subtotal = sum of line subtotals, tax on it, grand = subtotal + tax). */
  lemma OrderConsistent(cart: seq<CartLine>, catalog: seq<Product>, at: string)
    requires Resolvable(cart, catalog)
    ensures PlaceOrder(cart, catalog, at).Ok?
    ensures var o := PlaceOrder(cart, catalog, at).value;
      o.at == at && |o.items| == |cart| && o.subtotal == LineSum(o.items)
      && o.tax == Tax(o.subtotal) && o.grand == o.subtotal + o.tax
      && forall i :: 0 <= i < |o.items| ==> o.items[i].subtotal == o.items[i].price * o.items[i].qty
  {
    SnapshotLines(cart, catalog);
  }

  /** Two adds of the 2200-rupee mouse: subtotal 4400, tax 440, grand total 4840, and an
      order with one line of quantity 2. */
  lemma MouseScenario(at: string)
    ensures AddAll([], ["p1", "p1"]) == [CartLine("p1", 2)]
    ensures CartTotals([CartLine("p1", 2)], DefaultCatalog) == Ok(Totals(4400, 440, 4840))
    ensures PlaceOrder([CartLine("p1", 2)], DefaultCatalog, at) ==
      Ok(Order(at, [OrderLine("Wireless Mouse", 2, 2200, 4400)], 4400, 440, 4840))
  {
    RepeatedAdds("p1", 2);
    assert seq(2, _ => "p1") == ["p1", "p1"];
    var cart := [CartLine("p1", 2)];
    assert cart[..0] == [];
    assert Find(DefaultCatalog, "p1") == Some(Product("p1", "Wireless Mouse", 2200));
    var items := [OrderLine("Wireless Mouse", 2, 2200, 4400)];
    assert Lines(cart, DefaultCatalog) == items;
    assert items[..0] == [];
  }

  /** An exception checkout throws. */
  datatype Thrown = ReferenceError | TypeError(productId: string)

  /** `PRODUCTS.find(pp => pp.id === id)` with `PRODUCTS` bound to a catalog (`Some`) or
      unbound (`None`); reading an unbound name throws a ReferenceError. */
  function FindIn(products: Option<seq<Product>>, id: string): Result<Option<Product>, Thrown> {
    match products
    case None => Err(ReferenceError)
    case Some(catalog) => Ok(Find(catalog, id))
  }

  /** `cart.map(ci => { const p = PRODUCTS.find(...); return { name: p.name, ... }; })` as
      written: the first lookup that throws, or that finds nothing so that `p.name` throws,
      ends the map. */
  function MapLines(cart: seq<CartLine>, products: Option<seq<Product>>): Result<seq<OrderLine>, Thrown>
    decreases |cart|
  {
    if cart == [] then Ok([])
    else match FindIn(products, cart[0].productId)
      case Err(e) => Err(e)
      case Ok(None) => Err(TypeError(cart[0].productId))
      case Ok(Some(p)) =>
        match MapLines(cart[1..], products)
        case Err(e) => Err(e)
        case Ok(rest) => Ok([LineOf(cart[0], p)] + rest)
  }

  /** `checkout()` as written: an empty cart returns before any lookup (`Ok(None)`); any
      other cart is mapped through the lookups and, when none throws, gives the order. */
  function CheckoutAsWritten(cart: seq<CartLine>, products: Option<seq<Product>>, at: string)
    : Result<Option<Order>, Thrown>
  {
    if cart == [] then Ok(None)
    else match MapLines(cart, products)
      case Err(e) => Err(e)
      case Ok(items) => Ok(Some(OrderOf(at, items)))
  }

  /** The cart display's totals as written: the same lookups, summed. */
  function DisplayAsWritten(cart: seq<CartLine>, products: Option<seq<Product>>): Result<Totals, Thrown> {
    match MapLines(cart, products)
    case Err(e) => Err(e)
    case Ok(items) => Ok(Totals(LineSum(items), Tax(LineSum(items)), LineSum(items) + Tax(LineSum(items))))
  }

  /** With `PRODUCTS` unbound, checkout throws a ReferenceError exactly when the cart is
      non-empty, so no order is ever recorded; the cart display throws on every non-empty
      cart as well. */
  lemma UndeclaredCatalogThrows(cart: seq<CartLine>, at: string)
    ensures CheckoutAsWritten(cart, None, at).Err? <==> cart != []
    ensures CheckoutAsWritten(cart, None, at).Err? ==> CheckoutAsWritten(cart, None, at).error == ReferenceError
    ensures CheckoutAsWritten(cart, None, at).Ok? ==> CheckoutAsWritten(cart, None, at).value.None?
    ensures DisplayAsWritten(cart, None).Err? <==> cart != []
  {
  }

  /** The as-written map, run against a catalog, is the snapshot: it succeeds on the same
      carts with the same lines, and otherwise fails on the same product. */
  lemma {:induction false} MapLinesMatchesSnapshot(cart: seq<CartLine>, catalog: seq<Product>)
    ensures MapLines(cart, Some(catalog)).Ok? <==> Snapshot(cart, catalog).Ok?
    ensures MapLines(cart, Some(catalog)).Ok? ==> MapLines(cart, Some(catalog)).value == Snapshot(cart, catalog).value
    ensures MapLines(cart, Some(catalog)).Err? ==>
      MapLines(cart, Some(catalog)).error == TypeError(Snapshot(cart, catalog).error.productId)
    decreases |cart|
  {
    if cart != [] {
      MapLinesMatchesSnapshot(cart[1..], catalog);
      var f := Find(catalog, cart[0].productId);
      if f.Some? {
        var tail := FirstUnresolved(cart[1..], catalog);
        if tail.None? {
          var items := Lines(cart, catalog);
          assert items == [LineOf(cart[0], f.value)] + Lines(cart[1..], catalog);
        } else {
          assert cart[tail.value + 1] == cart[1..][tail.value];
        }
      }
    }
  }

  /** With `PRODUCTS` bound to the catalog, checkout of a non-empty cart records exactly the
      order `PlaceOrder` gives, and throws exactly where it fails, on the same product. */
  lemma DeclaredCatalogMatchesPlaceOrder(cart: seq<CartLine>, catalog: seq<Product>, at: string)
    requires cart != []
    ensures CheckoutAsWritten(cart, Some(catalog), at).Ok? <==> PlaceOrder(cart, catalog, at).Ok?
    ensures CheckoutAsWritten(cart, Some(catalog), at).Ok? ==>
      CheckoutAsWritten(cart, Some(catalog), at).value == Some(PlaceOrder(cart, catalog, at).value)
    ensures CheckoutAsWritten(cart, Some(catalog), at).Err? ==>
      CheckoutAsWritten(cart, Some(catalog), at).error == TypeError(PlaceOrder(cart, catalog, at).error.productId)
  {
    MapLinesMatchesSnapshot(cart, catalog);
  }

  /** With `PRODUCTS` bound to the catalog, the display's totals are `CartTotals`. */
  lemma DeclaredCatalogMatchesDisplay(cart: seq<CartLine>, catalog: seq<Product>)
    ensures DisplayAsWritten(cart, Some(catalog)).Ok? <==> CartTotals(cart, catalog).Ok?
    ensures DisplayAsWritten(cart, Some(catalog)).Ok? ==>
      DisplayAsWritten(cart, Some(catalog)).value == CartTotals(cart, catalog).value
  {
    MapLinesMatchesSnapshot(cart, catalog);
    SnapshotMatchesSubtotal(cart, catalog);
  }

  /** A one-mouse cart: as written checkout throws, while against the catalog
      `getProducts()` supplies it records a 2200 + 220 = 2420 rupee order. */
  lemma UndeclaredCatalogCounterexample(at: string)
    ensures CheckoutAsWritten([CartLine("p1", 1)], None, at) == Err(ReferenceError)
    ensures CheckoutAsWritten([CartLine("p1", 1)], Some(DefaultCatalog), at) ==
      Ok(Some(Order(at, [OrderLine("Wireless Mouse", 1, 2200, 2200)], 2200, 220, 2420)))
  {
    var cart := [CartLine("p1", 1)];
    assert cart[1..] == [];
    assert Find(DefaultCatalog, "p1") == Some(Product("p1", "Wireless Mouse", 2200));
    var items := [OrderLine("Wireless Mouse", 1, 2200, 2200)];
    assert LineOf(cart[0], Product("p1", "Wireless Mouse", 2200)) == items[0];
    assert MapLines(cart, Some(DefaultCatalog)) == Ok([items[0]] + []);
    assert [items[0]] + [] == items;
    assert items[..0] == [];
  }
}
