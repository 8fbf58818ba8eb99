/** The per-user state the dashboard keeps in local storage, under `cart_<email>` and
    `purchaseHistory_<email>`, and the handlers that update it. */
module Store {
  import opened Outcomes
  import opened Catalog
  import opened Cart
  import opened Pricing
  import opened Orders

  datatype CheckoutResult = NothingToCheckout | Placed(order: Order) | Failed(error: LookupError)

  class PosStore {
    var carts: map<string, seq<CartLine>>
    var histories: map<string, seq<Order>>

    constructor ()
      ensures carts == map[] && histories == map[]
    {
      carts := map[];
      histories := map[];
    }

    /** `getCart(email)`: the stored cart, or the empty cart when none is stored. */
    function CartOf(email: string): seq<CartLine>
      reads this
    {
      if email in carts then carts[email] else []
    }

    /** `getHistory(email)`: the stored orders, oldest first, or none. */
    function HistoryOf(email: string): seq<Order>
      reads this
    {
      if email in histories then histories[email] else []
    }

    /** Every stored cart has one line per product and quantities of at least 1. */
    ghost predicate Valid()
      reads this
    {
      forall e :: e in carts ==> WellFormed(carts[e])
    }

    /** In a valid store, the totals of any user's cart are within the bounds `TotalsBounds`
        gives: every stored quantity is at least 1. */
    lemma CartTotalsBounded(email: string, catalog: seq<Product>)
      requires Valid() && PricesPositive(catalog) && Resolvable(CartOf(email), catalog)
      ensures CartTotals(CartOf(email), catalog).Ok?
      ensures var t := CartTotals(CartOf(email), catalog).value;
        0 <= t.tax <= t.subtotal && t.grand == t.subtotal + t.tax && t.subtotal >= |CartOf(email)|
    {
      var cart := CartOf(email);
      assert QtysPositive(cart);
      TotalsBounds(cart, catalog);
      SumAtLeastLines(cart, catalog);
    }

    /** `addToCart(productId)` for the logged-in user `email`; without one it changes nothing. */
    method AddToCart(email: Option<string>, productId: string)
      modifies this
      ensures email.None? || email.value == "" ==> carts == old(carts)
      ensures email.Some? && email.value != "" ==>
        carts == old(carts)[email.value := AddedTo(old(CartOf(email.value)), productId)]
      ensures histories == old(histories)
      ensures old(Valid()) ==> Valid()
    {
      if email.None? || email.value == "" {
        return;
      }
      var cart := CartOf(email.value);
      if Valid() {
        AddKeepsWellFormed(cart, productId);
      }
      var item := IndexOf(cart, productId);
      if item.Some? {
        var k := item.value;
        cart := cart[k := cart[k].(qty := cart[k].qty + 1)];
      } else {
        cart := cart + [CartLine(productId, 1)];
      }
      carts := carts[email.value := cart];
    }

    /** The quantity input's change handler: the clamped value replaces the quantity of line
        `idx`; when the cart has no such line the handler fails before writing anything. */
    method ChangeQty(email: string, idx: int, value: Option<int>) returns (r: Result<(), CartError>)
      modifies this
      ensures r.Err? <==> !(0 <= idx < |old(CartOf(email))|)
      ensures r.Err? ==> r.error == IndexOutOfRange(idx) && carts == old(carts)
      ensures r.Ok? ==> carts == old(carts)[email := SetQty(old(CartOf(email)), idx, value).value]
      ensures histories == old(histories)
      ensures old(Valid()) ==> Valid()
    {
      var cart := CartOf(email);
      if !(0 <= idx < |cart|) {
        return Err(IndexOutOfRange(idx));
      }
      if Valid() {
        SetQtyKeepsWellFormed(cart, idx, value);
      }
      cart := cart[idx := cart[idx].(qty := ClampQty(value))];
      carts := carts[email := cart];
      r := Ok(());
    }

    /** The remove button's handler: `cart.splice(idx, 1)`. */
    method RemoveLine(email: string, idx: int)
      modifies this
      ensures carts == old(carts)[email := Removed(old(CartOf(email)), idx)]
      ensures histories == old(histories)
      ensures old(Valid()) ==> Valid()
    {
      var cart := CartOf(email);
      if Valid() {
        RemoveKeepsWellFormed(cart, idx);
      }
      var k := SpliceStart(|cart|, idx);
      if k < |cart| {
        cart := cart[..k] + cart[k + 1..];
      }
      carts := carts[email := cart];
    }

    /** `clearCart(email)`: the stored cart is removed, so the user's cart reads as empty. */
    method ClearCart(email: string)
      modifies this
      ensures carts == old(carts) - {email}
      ensures CartOf(email) == []
      ensures histories == old(histories)
      ensures old(Valid()) ==> Valid()
    {
      carts := carts - {email};
    }

    /** `addHistory(email, order)`: the order goes after every earlier one. */
    method AddHistory(email: string, order: Order)
      modifies this
      ensures histories == old(histories)[email := old(HistoryOf(email)) + [order]]
      ensures carts == old(carts)
    {
      histories := histories[email := HistoryOf(email) + [order]];
    }

    /** `checkout()` for `email` at time `at`: nothing happens on an empty cart; a cart with a
        line that does not resolve fails before anything is written; otherwise the order is
        appended to the user's history and the cart is cleared. */
    method Checkout(email: string, catalog: seq<Product>, at: string) returns (r: CheckoutResult)
      modifies this
      ensures r.NothingToCheckout? <==> old(CartOf(email)) == []
      ensures old(CartOf(email)) != [] ==>
        r == match PlaceOrder(old(CartOf(email)), catalog, at)
          case Ok(o) => Placed(o)
          case Err(e) => Failed(e)
      ensures !r.Placed? ==> carts == old(carts) && histories == old(histories)
      ensures r.Placed? ==> histories == old(histories)[email := old(HistoryOf(email)) + [r.order]]
      ensures r.Placed? ==> carts == old(carts) - {email} && CartOf(email) == []
      ensures old(Valid()) ==> Valid()
    {
      var cart := CartOf(email);
      if |cart| == 0 {
        return NothingToCheckout;
      }
      var order := PlaceOrder(cart, catalog, at);
      if order.Err? {
        return Failed(order.error);
      }
      AddHistory(email, order.value);
      ClearCart(email);
      r := Placed(order.value);
    }
  }

  /** A session on the default catalog: two adds of the mouse give one line of quantity 2,
      and checking it out records the 4840-rupee order. */
  method MouseSession(at: string) {
    var store := new PosStore();
    store.AddToCart(Some("a@b.pk"), "p1");
    store.AddToCart(Some("a@b.pk"), "p1");
    assert store.CartOf("a@b.pk") == [CartLine("p1", 2)];
    CheckoutMice(store, at);
  }

  /** Checking out two mice records one order of 4400 + 440 = 4840 rupees as the user's only
      order and empties the cart. */
  method CheckoutMice(store: PosStore, at: string)
    requires store.CartOf("a@b.pk") == [CartLine("p1", 2)] && store.HistoryOf("a@b.pk") == []
    modifies store
    ensures store.HistoryOf("a@b.pk") == [Order(at, [OrderLine("Wireless Mouse", 2, 2200, 4400)], 4400, 440, 4840)]
    ensures store.CartOf("a@b.pk") == []
  {
    MouseScenario(at);
    var r := store.Checkout("a@b.pk", DefaultCatalog, at);
    assert r.order == Order(at, [OrderLine("Wireless Mouse", 2, 2200, 4400)], 4400, 440, 4840);
  }

  /** Removing the only line of a cart leaves nothing to check out, and no order is recorded. */
  method RemoveSession(at: string) {
    var store := new PosStore();
    store.AddToCart(Some("a@b.pk"), "p2");
    store.RemoveLine("a@b.pk", 0);
    assert store.CartOf("a@b.pk") == [];
    var r := store.Checkout("a@b.pk", DefaultCatalog, at);
    assert r == NothingToCheckout && store.HistoryOf("a@b.pk") == [];
  }
}
