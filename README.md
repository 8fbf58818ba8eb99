# Point-of-sale cart, pricing and order history

This project models the core of a small browser point-of-sale application (`app.js`)
with the DOM and local-storage code removed. It covers:

- the per-user **cart**, a sequence of `{productId, qty}` lines. `addToCart` merges into an
  existing line or appends a new one. The quantity input's change handler clamps its value.
  The remove button calls `splice`.
- the **totals** shown under the cart. The subtotal is the sum of price × quantity. Tax is
  10% rounded to whole rupees. The grand total is subtotal + tax.
- **checkout**. It snapshots every cart line as `{name, qty, price, subtotal}` and appends
  the order to the user's append-only purchase history. Then it clears the cart. An empty
  cart makes it do nothing.
- the smaller checks in the same file: case-insensitive user lookup, sign-up and log-in,
  validation of the add-product form, and the name search over the catalog.

Modules, leaf first:

- `Outcomes`: `Option` and `Result`.
- `Text`: ASCII lower-casing and substring containment.
- `Catalog`: the `Product` record, lookup by id, search, the default catalog and the
  add-product form.
- `Users`: user lookup, sign-up and log-in.
- `Cart`: the cart handlers, as functions from the old cart to the new one, with their
  lemmas.
- `Pricing`: tax, subtotal and totals, the cart display's summing loop (`ComputeTotals`)
  and how each handler moves the subtotal.
- `Orders`: the checkout snapshot, the order record, agreement with the display totals,
  and the finding below.
- `Store`: the class `PosStore`. It holds the carts and histories keyed by email. Its
  methods update them in place as the handlers do, and each one keeps every cart well
  formed: one line per product, and every quantity at least 1.

Where a stricter behaviour was possible, this model follows `app.js`:

- `addToCart` adds any product id. It does not check that the id is in the catalog.
- The remove handler never fails. `splice` with an index past the end removes nothing. A
  negative index counts back from the end.
- Checkout on an empty cart simply returns. It reports no error.
- `Math.round` rounds halves up, toward +∞. For non-negative subtotals that is the same as
  rounding halves away from zero. For every integer subtotal it equals `(s + 5) / 10` with
  floor division.

`app.js` looks products up in `PRODUCTS`, a name it never declares (app.js:177, 234). The
as-written behaviour is modelled once, with `PRODUCTS` either bound to a catalog or unbound
(`Orders.MapLines`), and is described under "## Findings". The rest of the model passes the
catalog in as a parameter. A failed lookup (`p` undefined, then
`p.price` throws) is an `Err(UnknownProduct(id))` result. Because the source throws before
it writes anything, a failed checkout or quantity change leaves every stored value as it
was.

## Model

| member | source | states |
|---|---|---|
| Text.Lower | app.js:16 | lower-casing keeps the length, leaves no upper-case ASCII letter, and changes only upper-case letters, each to its lower-case form |
| Text.Contains | app.js:127 | `includes` holds only when the query is no longer than the name, and always holds for the empty query |
| Text.ContainsAt | app.js:127 | `includes` finds every occurrence of the query in the name |
| Text.ContainsWitness | app.js:127 | `includes` holds only where the query really occurs, at a position it returns |
| Catalog.FindIndex | app.js:177 | the position found is the first product with that id; none is found only when no product has it |
| Catalog.Find | app.js:234 | the product found has the id and is the first product of the catalog that has it; none is found exactly when no product has that id |
| Catalog.DefaultCatalogPricesPositive | app.js:106-113 | every price of the built-in catalog is at least 1 |
| Catalog.Search | app.js:126-127 | a product is in the result exactly when it is in the catalog and its lower-cased name contains the lower-cased query; the result is no longer than the catalog |
| Catalog.SearchSingle | app.js:127 | a one-product catalog keeps its product exactly when the product matches |
| Catalog.SearchConcat | app.js:127 | the search over two catalogs end to end is the search over the first followed by the search over the second: the filter keeps catalog order and repeats, and adds or drops nothing |
| Catalog.SearchEmptyQuery | app.js:126-127 | an empty search box lists the whole catalog in catalog order |
| Catalog.SearchFindsOwnName | app.js:126-127 | searching for a product's own name, in any letter case, finds it |
| Catalog.AddProduct | app.js:375-387 | the form is accepted exactly when the name is non-empty and the price parsed to an integer of at least 1; the product is then appended after the existing ones |
| Catalog.AddProductKeepsPricesPositive | app.js:377-386 | products added through the form never bring a price below 1 into the catalog |
| Users.FindUserIndex | app.js:16 | the position found is the first user whose email matches up to letter case; none is found only when no user matches |
| Users.FindUser | app.js:16 | the user found has a matching email and is the first user of the list whose email matches; none is found exactly when no email matches |
| Users.Signup | app.js:64-76 | the result is "missing field" exactly when a field is empty, "email taken" exactly when all fields are filled and the email is registered in any letter case; otherwise the new account is appended |
| Users.Login | app.js:90-91 | log-in succeeds only when some account has the email (in any letter case) and that password, and never when no account has the email |
| Users.SignupKeepsEmailsUnique | app.js:69-76 | sign-up never creates two accounts whose emails differ only in letter case |
| Users.LoginIffAccount | app.js:90-91 | with unique emails, log-in succeeds exactly when some account has that email (in any letter case) and that password |
| Users.SignupThenLogin | app.js:74-76 | a freshly registered account can log in with its password under any letter case of its email |
| Cart.IndexOf | app.js:155 | the line found is the first line of that product; none is found only when no line has it |
| Cart.AddedTo | app.js:151-160 | an add keeps the length when the product has a line and grows it by one otherwise; afterwards the product has a line |
| Cart.AddMergesExisting | app.js:155-156 | adding a product that has a line raises that line's quantity by 1; the length and all other lines are unchanged |
| Cart.AddAppendsNew | app.js:157 | adding a product with no line appends exactly `{productId, qty: 1}` at the end |
| Cart.AddKeepsDistinct | app.js:154-157 | if product ids are distinct before an add, they are distinct after it |
| Cart.AddKeepsWellFormed | app.js:154-157 | an add keeps one line per product and every quantity at least 1 |
| Cart.AddCountsOne | app.js:155-157 | an add raises the added product's quantity by one and leaves every other product's quantity unchanged |
| Cart.AddAllCounts | app.js:151-160 | after any sequence of adds, each product's quantity is its old quantity plus the number of times it was added |
| Cart.AddAllKeepsWellFormed | app.js:151-160 | any sequence of adds keeps the cart well formed |
| Cart.RepeatedAdds | app.js:155-157 | n adds of one product to an empty cart give a single line of quantity n |
| Cart.ClampQty | app.js:205-206 | the stored quantity is at least 1: a missing or non-numeric value, or one below 1, becomes 1; any other value is kept |
| Cart.SetQty | app.js:203-211 | the edit fails exactly when the index is not a line of the cart; otherwise only line `idx` changes, to the clamped quantity, and the length is kept |
| Cart.SetQtyKeepsWellFormed | app.js:205-208 | a quantity edit keeps the cart well formed |
| Cart.SpliceStart | app.js:217 | where `splice` starts: an index in range as given, one past the end at the end, a negative index counted back from the end but not past the front |
| Cart.Removed | app.js:214-220 | `splice(idx, 1)` removes the line at the start position; the length drops by one; lines before it stay in place and lines after it move down by one; from the end position nothing changes |
| Cart.RemovedTakesOneLine | app.js:217 | the removed cart plus the removed line is, as a multiset, the old cart |
| Cart.RemoveKeepsWellFormed | app.js:214-218 | a removal keeps the cart well formed |
| Pricing.Tax | app.js:194 | the tax is the whole number nearest to a tenth of the subtotal, with halves rounded up |
| Pricing.TaxBounds | app.js:194 | for a non-negative subtotal, 0 <= tax <= subtotal |
| Pricing.TaxExamples | app.js:194 | 4400 gives 440, 1999 gives 200, 2500 gives 250, 1 gives 0, 5 gives 1, 15 gives 2 |
| Pricing.FirstUnresolved | app.js:176-178 | the line where the summing loop throws is the first line whose product is not in the catalog: every earlier line resolves; there is none exactly when every line resolves |
| Pricing.CartSubtotal | app.js:175-179 | the subtotal exists exactly when every line resolves and is then the sum of the line amounts; a failure names a product the catalog does not have |
| Pricing.CartTotals | app.js:175-195 | the totals exist exactly when every line resolves; the subtotal is the sum of line amounts, the tax is computed from it, and grand = subtotal + tax |
| Pricing.SubtotalOkIffResolvable | app.js:176-179 | the subtotal can be computed exactly when every cart line's product is in the catalog; otherwise the failure names a line that does not resolve, after lines that all do |
| Pricing.ResolvableConcat | app.js:176-177 | two carts end to end resolve exactly when both do |
| Pricing.FirstUnresolvedAt | app.js:176-178 | a line that does not resolve after lines that all do is where the loop throws |
| Pricing.FirstUnresolvedSameIds | app.js:176-177 | carts with the same product at every position fail on the same line, whatever their quantities |
| Pricing.SumAtLeastLines | app.js:175-179 | with prices and quantities of at least 1, the sum of line amounts is at least the number of lines |
| Pricing.TotalsBounds | app.js:175-195 | with prices and quantities of at least 1 and every line resolvable: subtotal >= 0, 0 <= tax <= subtotal, grand = subtotal + tax >= subtotal |
| Pricing.SumConcat | app.js:175-179 | the sum over two carts end to end is the sum of their sums |
| Pricing.SumAfterQtyChange | app.js:203-211 | changing one line's quantity swaps that line's amount in the sum and leaves the rest of the sum alone |
| Pricing.SumWithout | app.js:214-220 | taking one line out lowers the sum by that line's amount |
| Pricing.SubtotalAfterQtyChange | app.js:203-211 | a quantity edit fails to total exactly when the old cart did; otherwise the subtotal changes by the line's old amount out and its new amount in |
| Pricing.AddRaisesSubtotal | app.js:151-160 | adding a catalog product raises the subtotal by exactly its price |
| Pricing.SubtotalOfResolvable | app.js:175-179 | a cart whose every line resolves has the sum of its line amounts as subtotal |
| Pricing.ResolvableWithout | app.js:214-220 | taking a line out of a resolvable cart leaves a resolvable cart |
| Pricing.SubtotalWithout | app.js:214-220 | taking one line out of a resolvable cart lowers the subtotal by that line's amount |
| Pricing.RemoveLowersSubtotal | app.js:214-220 | the remove handler lowers the subtotal by exactly the removed line's price × quantity |
| Pricing.ComputeTotals | app.js:175-195 | the display loop returns the subtotal, tax and grand total of the cart, or the first line that fails to resolve |
| Orders.Snapshot | app.js:233-236 | the snapshot succeeds exactly when every cart line resolves and then has one line per cart line |
| Orders.LineSum | app.js:237 | the summed subtotal is non-negative when every line subtotal is |
| Orders.PlaceOrder | app.js:233-246 | an order is built exactly when every cart line resolves; it carries the checkout timestamp and one item per cart line |
| Orders.SnapshotLines | app.js:233-236 | the snapshot has one order line per cart line, in cart order, with the product's name and price, the cart quantity, and subtotal = price × qty |
| Orders.LinesSnoc | app.js:233-236 | the mapped lines of a cart are those of all but its last line followed by the last line's, whose subtotal is its amount |
| Orders.LinesSum | app.js:233-237 | the `reduce` over the mapped lines equals the display loop's running sum |
| Orders.SnapshotMatchesSubtotal | app.js:237 | the `reduce` over the snapshot gives the subtotal of the display loop, and both fail on the same line |
| Orders.CheckoutMatchesDisplay | app.js:233-239 | the order's subtotal, tax and grand total equal the display totals for the same cart and catalog; the order fails exactly when the display fails, with the same error |
| Orders.OrderConsistent | app.js:242-246 | when every cart line resolves an order is recorded; it carries its timestamp and one item per cart line; its subtotal is the sum of item subtotals, its tax is computed from that subtotal, and grand = subtotal + tax |
| Orders.MouseScenario | app.js:228-246 | two adds of the 2200 mouse give one line of qty 2, totals 4400 / 440 / 4840, and the matching order |
| Orders.UndeclaredCatalogThrows | app.js:228-236 | with `PRODUCTS` unbound, checkout throws a ReferenceError exactly when the cart is non-empty and otherwise records nothing; the cart display throws on every non-empty cart |
| Orders.MapLinesMatchesSnapshot | app.js:233-236 | the as-written `map` against a catalog succeeds exactly when the snapshot does, with the same lines, and otherwise fails on the same product |
| Orders.DeclaredCatalogMatchesPlaceOrder | app.js:228-246 | with `PRODUCTS` bound to the catalog, checkout of a non-empty cart records exactly the order `PlaceOrder` builds, and fails exactly when it does, on the same product |
| Orders.DeclaredCatalogMatchesDisplay | app.js:175-195 | with `PRODUCTS` bound to the catalog, the as-written display totals are the cart totals |
| Orders.UndeclaredCatalogCounterexample | app.js:234 | a one-mouse cart throws as written but gives a 2200 / 220 / 2420 order once `PRODUCTS` is the catalog |
| Store.PosStore.CartTotalsBounded | app.js:175-195 | in a store whose carts are well formed, any user's resolvable cart totals with 0 <= tax <= subtotal, grand = subtotal + tax and a subtotal of at least one rupee per line |
| Store.PosStore.AddToCart | app.js:151-160 | with no logged-in user nothing changes; otherwise only that user's cart changes, to the cart after the add; histories are untouched and carts stay well formed |
| Store.PosStore.ChangeQty | app.js:203-211 | fails with no write exactly when the index is out of range; otherwise only that user's cart changes, to the quantity-edited cart |
| Store.PosStore.RemoveLine | app.js:213-220 | only that user's cart changes, to the spliced cart; histories are untouched and carts stay well formed |
| Store.PosStore.ClearCart | app.js:27 | that user's stored cart is removed, so it reads as empty; nothing else changes |
| Store.PosStore.AddHistory | app.js:30-34 | the order is appended after that user's earlier orders; other users' histories and all carts are unchanged |
| Store.CheckoutMice | app.js:228-246 | checking out a cart of two mice records the 4400 / 440 / 4840 order as the user's only order and empties the cart |
| Store.PosStore.Checkout | app.js:228-253 | an empty cart changes nothing; a cart with an unresolvable line fails and changes nothing; otherwise the user's history grows by exactly the order built from the old cart, placed last, and the cart is cleared |

## Left out

- Local storage and JSON (`lsGet`, `lsSet`, app.js:7-12) are not modelled. Carts and histories are maps keyed by email inside `PosStore`. The user list and the catalog are values passed in and returned.
- Rendering, theme toggling, page redirects and page bootstrap wiring (app.js:37-51, 123-125, 128-148, 162-174, 180-192, 196-199, 324-374, 388-442) are presentation, so they are not modelled.
- The receipt text, its download, the modal and `alert` (app.js:248-252, 254-320) are browser output, so they are not modelled.
- `Pricing.Tax` uses integer round-half-up. Floating-point error in `subtotal * 0.10` is not modelled, and neither is `toLocaleString` formatting.
- `Catalog.AddProduct` takes the generated id as a parameter, because `Date.now()` and `Math.random()` are not deterministic. The order timestamp is an opaque string parameter for the same reason.
- `Text.Lower` lower-cases ASCII letters only, not the full Unicode mapping of `toLowerCase`.
- Form fields arrive already trimmed. Numbers arrive already parsed by `parseInt`, as an optional integer. String parsing is not modelled.
- Passwords are opaque strings compared for equality.
- The current user is not stored. Cart handlers and checkout take the email as a parameter: the dashboard redirects when no one is logged in (app.js:415-416), and the handlers are closures over a non-empty email (app.js:163-164). Only `Store.PosStore.AddToCart` has its own "no user" check (app.js:153), and it takes an optional email.
- Sign-up and log-in do not record the current user or redirect (app.js:77-78, 96-97). That is session and navigation state.
- The history page shows orders newest first (app.js:328). That is display order only. The model keeps insertion order.
- JavaScript numbers are treated as unbounded integers. Precision loss above 2^53 and non-integer data read back from storage are not modelled.

## Findings

| source | as written | input that shows it | evidently intended | confidence | as-written member | corrected member |
|---|---|---|---|---|---|---|
| app.js:177, 234 | the cart display and `checkout` look products up in `PRODUCTS`, which app.js never declares; the first lookup throws a ReferenceError, so no order is ever saved, and the cart display stops before it attaches the quantity and remove handlers (app.js:202-221) to a non-empty cart | a cart `[{productId: "p1", qty: 1}]` at checkout | look up the catalog returned by `getProducts()` (app.js:116) | not executed; medium, because another script on the page could define `PRODUCTS` | Orders.UndeclaredCatalogThrows, Orders.UndeclaredCatalogCounterexample | Orders.DeclaredCatalogMatchesPlaceOrder, Orders.CheckoutMatchesDisplay |
