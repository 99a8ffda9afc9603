# Storefront cart and checkout, modelled in Dafny

This project models the cart and checkout logic of a small Express storefront (`index.js`).
Each browser session holds a cart: an ordered list of lines `{id, name, price, qty, image_url}`.
The request handlers add to the cart, remove a product, or lower a quantity by one.
Every page shows the cart's item count (the sum of the quantities); the cart page shows its
total (the sum of price times quantity).

Confirming the order runs one database transaction. It walks the cart in order and, for each line:

- reads the product's stock row;
- fails if there is no row, or if the row holds fewer units than the line asks for;
- lowers the stock;
- writes one payment row under a shared checkout id.

If every line succeeds, the transaction commits and the cart is cleared. If any line fails,
it rolls back: stock, payments and cart stay as they were.

The model has six modules:

- `Wrappers`: `Option` and `Result`.
- `Ids`: checkout ids (`"CK"` + 8 zero-padded digits) and payment ids (`"PM"` + `padStart(6)`
  of a number below 10^8). Includes a decimal reader, used to prove that the formatting can be
  reversed.
- `Redirect`: the URL a request is sent to after an add.
- `Cart`: the cart as a value. It defines `Find` (the `find` lookup), the count and total
  reductions, the add/remove/decrement rebuilds, and lemmas about each.
- `Checkout`: the transaction as a pure specification (`StockAfter`, `PaymentsFor`, `Settle`)
  with lemmas about it, plus `Stage`, the imperative loop proved against it.
- `Storefront`: class `Shop`. It holds the product table, the inventory table, the payment
  table and the session cart, and its methods update them in place the way the handlers do.
  `Confirm` commits what `Stage` staged, or discards it.

Randomness becomes a parameter. Each `Math.floor(Math.random() * 1e8)` is a `Draw`, a natural
number below 10^8. `Confirm` takes one draw for the checkout id and one draw per line for the
payment ids. Prices and quantities are integers in minor currency units.

Three facts about the code shape the model:

- No loyalty points are read or written anywhere in the checkout.
- Payment ids are `padStart(6)` of a number that can be as large as 99999999, so they carry 6 to
  8 digits. `Ids.PaymentIdFormat` proves this: the id is 8 characters long exactly when the draw
  is below 10^6.
- Stock rows are locked and read in cart order; they are not sorted by product id first.

## Model

| member | source | states |
|---|---|---|
| `Cart.Find` | index.js:178 | the result is the index of the first line with the id; it is absent exactly when no line has the id |
| `Cart.CountAppend` | index.js:53 | the item count of two carts put together is the sum of their counts |
| `Cart.TotalAppend` | index.js:194 | the total of two carts put together is the sum of their totals |
| `Cart.CountBounds` | index.js:53 | a well-formed cart counts at least as many items as it has lines, so its count is 0 exactly when it is empty |
| `Cart.AddToCartEffect` | index.js:177-183 | adding a product already in the cart raises only that line's qty by the added amount (same length, same order); otherwise exactly one line is appended at the end |
| `Cart.AddToCartWellFormed` | index.js:177-183 | adding a line with qty at least 1 keeps product ids unique and every qty at least 1 |
| `Cart.AddToCartCount` | index.js:177-183 | adding raises the item count by exactly the added quantity |
| `Cart.RemoveIdMembers` | index.js:202 | a line stays after a remove exactly when it was in the cart and has another id |
| `Cart.RemoveIdAbsent` | index.js:202 | removing an id that no line has leaves the cart unchanged |
| `Cart.RemoveIdDeletes` | index.js:202 | with unique ids, removing line k's id gives the cart without line k, the other lines in their original order |
| `Cart.RemoveIdGone` | index.js:202 | no line with the removed id is left |
| `Cart.RemoveIdWellFormed` | index.js:199-203 | removing keeps the cart well formed and lowers the count by the removed line's qty (by 0 when the id is absent) |
| `Cart.DecrementAbsent` | index.js:207-216 | decrementing an id that no line has leaves the cart unchanged |
| `Cart.DecrementEffect` | index.js:207-216 | decrementing lowers the line's qty by exactly 1 and changes nothing else; a line at qty 1 is removed instead, the rest kept in order |
| `Cart.DecrementWellFormed` | index.js:207-216 | decrementing keeps the cart well formed and lowers the count by exactly 1 when the id is present, by 0 otherwise |
| `Ids.Digits` | index.js:229 | `toString` of a natural number is a non-empty string of decimal digits with no leading zero |
| `Ids.PadStart` | index.js:229 | `padStart` gives length max(len, width); the original string is the suffix and every character before it is the fill |
| `Ids.DigitsValue` | index.js:229 | reading back the decimal digits of n gives n |
| `Ids.ValueSkipsZeros` | index.js:229 | leading zero padding does not change the number a digit string denotes |
| `Ids.DigitsAtMost` | index.js:229 | a number below 10^k has at most k digits, so `padStart(8)` of a draw never grows past 8 |
| `Ids.DigitsMoreThan` | index.js:248 | a number of at least 10^k has more than k digits, so `padStart(6)` does not bound the payment id |
| `Ids.CheckoutIdFormat` | index.js:229 | for every draw in [0, 10^8), the checkout id is "CK" followed by exactly 8 digits (length 10) that read back as the draw |
| `Ids.CheckoutIdInjective` | index.js:229 | distinct draws give distinct checkout ids |
| `Ids.PaymentIdFormat` | index.js:248 | the payment id is "PM" followed by 6 to 8 digits that read back as the draw; it has length 8 exactly when the draw is below 10^6 |
| `Ids.PaymentIdInjective` | index.js:248 | distinct draws give distinct payment ids |
| `Redirect.AfterAddNeverCart` | index.js:185-187 | the redirect after an add never contains "/cart" |
| `Redirect.AfterAddShape` | index.js:185-187 | the redirect is the referer, or "/" if it is absent, empty or contains "/cart"; then exactly 8 more characters follow: "&added=1" if that page already has a "?", else "?added=1"; it always contains "?" |
| `Checkout.MemberName` | index.js:231 | the member name is never empty: the display name if non-empty, else the email if non-empty, else "Guest" |
| `Checkout.StockAfterOk` | index.js:233-246 | after a successful walk each product's stock has dropped by exactly the total qty of its lines, no row is added or lost, and every line had a row |
| `Checkout.StockStaysNonNegative` | index.js:239-246 | a successful walk over non-negative stock leaves every stock non-negative |
| `Checkout.StockAfterErr` | index.js:235-240 | a failure is decided by the first line that does not fit: every earlier line fits, and the error is "no inventory record" when that line has no row, otherwise "not enough stock" naming that line's product |
| `Checkout.ErrorMessageInjective` | index.js:239-240 | the two error messages never coincide, and "Not enough stock for <id>" determines the id, so the 400 answer tells which error occurred |
| `Checkout.StockAfterOkIffFeasible` | index.js:233-246 | the walk succeeds if and only if every line has a row holding at least its qty after the earlier lines' qty is taken out |
| `Checkout.StockAfterOkUnique` | index.js:239-240 | for a cart with unique ids, checkout succeeds if and only if every line's product has a row whose stock is at least the line's qty |
| `Checkout.PaymentsLineByLine` | index.js:248-258 | one payment row per line, in cart order, with that line's payment id, member, product, amount qty*price, qty and the checkout id |
| `Checkout.AmountsSumToTotal` | index.js:249 | the payment amounts sum to the cart total |
| `Checkout.SettleCommitted` | index.js:233-262 | a committed checkout lowers stock per product by the qty ordered and keeps it non-negative; it appends one payment per line, in order, under the one checkout id; the amounts sum to the cart total |
| `Checkout.NoOversell` | index.js:235-246 | two checkouts committed one after the other never take more units of a product than its starting stock |
| `Checkout.Stage` | index.js:233-259 | the in-order loop over a staged copy of the stock and payment rows returns exactly the settlement `Settle` gives, or its first error |
| `Storefront.ClampQty` | index.js:161 | the requested quantity is at least 1: an absent or sub-1 request means 1, otherwise the request itself |
| `Storefront.Shop.constructor` | index.js:44-47 | a session starts with an empty cart over the given tables |
| `Storefront.Shop.Add` | index.js:159-188 | unknown product gives "Product not found"; stock below the requested qty (not the accumulated qty) gives "Not enough stock"; both leave the cart unchanged; otherwise the line is merged or appended, the cart badge rises by the requested qty, and the redirect is returned |
| `Storefront.Shop.Remove` | index.js:199-204 | the cart becomes the filter that drops the product and stays well formed; the cart badge drops by the removed line's qty |
| `Storefront.Shop.Decrement` | index.js:207-218 | the cart becomes the decremented cart and stays well formed; the cart badge drops by exactly 1 when the product is in the cart, by 0 otherwise |
| `Storefront.Shop.Confirm` | index.js:221-271 | an empty cart changes nothing; a successful walk installs the staged stock, appends the staged payments, whose amounts sum to the cart page's total, and clears the cart; a failing line answers with its error's message and leaves stock, payments and cart exactly as before; stock that was non-negative stays so |

## Left out

- Express plumbing is not modelled: routing, the `ensureAuth` gate, sessions, EJS rendering, static files, the health check, the 404/500 handlers and the home and success pages. `Shop.Confirm` therefore accepts an absent user; with that gate in place the "Guest" name cannot occur.
- Signup, signin and logout are not modelled. They consist of bcrypt calls, a `Date.now()` member id and plain queries.
- The pg pool and the SQL text are not modelled. The product, inventory and payment tables are a map, a map and a sequence held by `Shop`. Database failures other than the two errors the loop throws are not modelled. In the code, an error thrown by a query on a live connection (a constraint violation, say) also rolls back and answers with its message. A lost connection does not: `pool.connect()` sits outside the `try`, and after a drop the `ROLLBACK` in the `catch` fails too, so no 400 answer is sent.
- Row locks (`FOR UPDATE`) and concurrent requests are not modelled. One checkout is one atomic step. `Checkout.NoOversell` covers two checkouts committed one after the other, not interleavings.
- `Math.random` is replaced by `Draw` parameters. `Shop.Confirm` requires one payment draw per cart line. Nothing claims that draws, and so ids, are unique across checkouts; the code does not ensure it.
- JavaScript number coercion is not modelled: `Number(...)` of the price and qty, `Math.max(1, NaN)`, fractional quantities and floating-point amounts. Prices and quantities are integers.
- `Shop.Add` looks the cart line up by the requested id. The code looks it up by the id the product query returns. The model assumes product ids are text, so that id equals the requested string whenever the row is found; with an `integer` `product_id` column, pg would return a number, and the `===`/`!==` comparisons with `String(req.params.id)` in remove and decrement would never match.
- `encodeURIComponent` of the success URL is not modelled. `Shop.Confirm` returns the checkout id itself.
- When a merged add raises a line's qty, the code keeps that line's original name and price. The model keeps them too, so the total uses the price from when the product was first added.
