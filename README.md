# Restaurant ordering client: cart and staging quantities

This project models the order-quantity logic of a single-restaurant ordering
client (a React app in `src/App.js`) and proves its properties in Dafny.

- **Cart store** (`CartProvider`). The cart is a list of order lines. Each line
  holds a dish id, a snapshot of the dish's name, price, currency and image,
  and a quantity. The provider offers five operations: merge-add, clear,
  remove one dish, increment one line and decrement one line. Decrement also
  drops every line whose quantity is no longer above zero.
- **Staging-quantity tracker** (`localQty` in the menu view). This is a
  per-dish count that the user adjusts before committing it. A menu load seeds
  it with 0 for every dish. `+` adds one. `-` subtracts one but never goes
  below 0. "Add to cart" commits the staged amount only when it is above zero.
  It does not reset the staged amount afterwards.

Layout:

- `wrappers.dfy`: `Option`. It stands for the `__qtyToAdd` field, which may be
  absent.
- `menu.dfy`: the catalog data (`Dish`, `Category`) and the set of dish ids in
  a menu. Dish ids are integers here. The code only compares them for
  equality and uses them as keys, so any single id type behaves the same
  (mixing ids such as 1 and "1" would not, since object keys become strings).
- `cart.dfy`: every cart operation as a pure previous-list to next-list
  function. The lemmas state merge, removal, no-op and invariant behaviour.
  The invariant `Cart.Valid` means one line per dish id and every quantity
  ≥ 1.
- `cart_context.dfy`: the class `CartProvider`. It holds the `cartList` state
  cell, and each of its methods replaces the list with the matching pure
  transition.
- `staging.dfy`: the seeding loop, written as an imperative nested loop like
  the source's nested `forEach`. Also the increment and the clamped decrement
  of a staged value.
- `home.dfy`: the commit rule (`Commit`) and the class `Home`. `Home` holds
  `localQty`, the active category, and the shared cart provider.

In these places the code accepts more than a caller might expect, and the
model follows the code:

- `addCartItem` accepts any attached quantity. It does not require ≥ 1.
  Validity is therefore proved only for quantities ≥ 1, and the commit gate
  guarantees them.
- `incrementCartItemQuantity` on an absent id is a no-op, not a precondition
  violation.
- A menu with no categories makes the first-category lookup throw. The load
  then ends in failure and changes no staged state.

## Model

| member | source | states |
|---|---|---|
| Cart.AdjustQuantity | src/App.js:40-42 | the shared `map` step: the length is kept, and at every index a line of the given dish has its quantity raised by `delta` while any other line is kept as it was |
| Cart.Filter | src/App.js:71-73 | the shared `filter` step: a line is in the result exactly when it is in the input and the criterion keeps it, the result is no longer than the input, and it is a subsequence of the input (the order is kept) |
| Cart.AddKeepsOtherLines | src/App.js:33-57 | after adding, the dish has a line; the length stays the same if the dish was present and grows by one otherwise; every earlier position keeps its dish id; every line of another dish is unchanged |
| Cart.AddMergesExisting | src/App.js:36-43 | for a dish already in a one-line-per-dish cart, the result is the cart with exactly that line's quantity raised by the attached amount (1 when none is attached); nothing else changes |
| Cart.AddAppendsNew | src/App.js:34-55 | for a dish not in the cart, the old lines are kept as a prefix and exactly one line is appended at the end, carrying the dish's id, name, price, currency and image and the attached quantity, which is 1 when no amount is attached |
| Cart.AddPreservesValid | src/App.js:33-56 | with a quantity of at least 1, adding keeps one line per dish and every quantity at least 1 |
| Cart.AddTwiceMerges | src/App.js:36-56 | adding the same dish with q1 and then q2 equals adding it once with their sum `total`, so lines merge and are never duplicated; the line keeps the snapshot taken at the first add |
| Cart.RemoveAllCartItems | src/App.js:59 | clearing yields the empty list whatever the cart held |
| Cart.RemoveAllIdempotent | src/App.js:59 | clearing twice equals clearing once, and the cleared cart satisfies the invariant |
| Cart.RemoveCartItem | src/App.js:61-62 | a line is kept exactly when it was in the cart and belongs to another dish; no line of the removed dish survives; the order of the kept lines is preserved |
| Cart.RemoveAbsentIsNoOp | src/App.js:61-62 | removing an id that has no line leaves the cart unchanged |
| Cart.RemoveDeletesLine | src/App.js:61-62 | in a one-line-per-dish cart, removing the dish at index k gives exactly the lines before k followed by the lines after k |
| Cart.RemovePreservesValid | src/App.js:61-62 | removal keeps one line per dish and every quantity at least 1 |
| Cart.IncrementRaisesLine | src/App.js:64-67 | in a one-line-per-dish cart, incrementing raises exactly the matching line by 1 and leaves every other line unchanged |
| Cart.IncrementAbsentIsNoOp | src/App.js:64-67 | incrementing an id that has no line leaves the cart unchanged |
| Cart.IncrementPreservesValid | src/App.js:64-67 | incrementing keeps one line per dish and every quantity at least 1 |
| Cart.DecrementCartItemQuantity | src/App.js:69-74 | after decrementing, every line has a quantity above zero, and the cart is no longer than before |
| Cart.DecrementLowersOrDeletes | src/App.js:69-74 | in a valid cart, decrementing the line at index k lowers it by 1 when it held more than 1, and deletes it when it held 1; every other line keeps its value and its order |
| Cart.DecrementAbsentIsNoOp | src/App.js:69-74 | on a cart of positive lines with no line for the id, decrementing returns the input unchanged |
| Cart.DecrementPreservesValid | src/App.js:69-74 | from any cart with one line per dish, decrementing yields a valid cart |
| Cart.BadgeCountsDistinctDishes | src/App.js:187 | with one line per dish, the header badge (the list length) equals the number of distinct dishes in the cart |
| Cart.BadgeAtMostTotalQuantity | src/App.js:187 | with every quantity at least 1, the badge never exceeds the total number of items ordered, so it counts lines, not items |
| Cart.IncrementRaisesLineTotal | src/App.js:361 | incrementing a line raises its displayed amount `quantity * price` by exactly the line's price |
| CartContext.CartProvider.constructor | src/App.js:31 | the cart state cell starts as the empty list, which is valid |
| CartContext.CartProvider.AddCartItem | src/App.js:33-57 | the state becomes `Cart.AddCartItem` of the previous list; the invariant is kept when the quantity is at least 1 |
| CartContext.CartProvider.RemoveAllCartItems | src/App.js:59 | the state becomes the empty list |
| CartContext.CartProvider.RemoveCartItem | src/App.js:61-62 | the state becomes `Cart.RemoveCartItem` of the previous list; the invariant is kept |
| CartContext.CartProvider.IncrementCartItemQuantity | src/App.js:64-67 | the state becomes `Cart.IncrementCartItemQuantity` of the previous list; the invariant is kept |
| CartContext.CartProvider.DecrementCartItemQuantity | src/App.js:69-74 | the state becomes `Cart.DecrementCartItemQuantity` of the previous list; the result is valid whenever the previous list had one line per dish |
| Staging.InitialQuantities | src/App.js:218-225 | the seeded map tracks exactly the dish ids of every category of the menu, each with 0, whatever was tracked before |
| Staging.IncLocal | src/App.js:237 | the tracked ids are unchanged; the given id's value goes up by 1; every other id keeps its value |
| Staging.DecLocal | src/App.js:240-241 | the tracked ids are unchanged; the given id's value is never negative afterwards; it drops by 1 from a value of at least 1 and becomes 0 otherwise; every other id keeps its value |
| Staging.AdjustKeepsNonNegative | src/App.js:236-241 | neither increment nor decrement ever makes a staged value negative |
| Staging.DecUndoesInc | src/App.js:236-241 | from a non-negative value, a decrement undoes an increment and restores the whole map |
| Staging.IncUndoesDec | src/App.js:236-241 | an increment undoes a decrement of a positive value, and a decrement at 0 leaves the map unchanged |
| HomeRoute.CommitPreservesValid | src/App.js:243-249 | whatever the staged values are, committing keeps one line per dish and every quantity at least 1, and a staged value of 0 or less commits nothing |
| HomeRoute.CommitTwiceAddsTwice | src/App.js:243-249 | because the staged value `q` is not reset, committing twice without adjusting equals adding `twice` = `q + q` in one step |
| HomeRoute.Home.constructor | src/App.js:201-202 | the view starts with no staged ids and an empty active category, and shares the given cart provider |
| HomeRoute.Home.LoadMenu | src/App.js:213-229 | the load succeeds exactly when the menu has a category; on success the first category becomes active and the staged map tracks every menu dish at 0; on failure nothing changes |
| HomeRoute.Home.IncLocal | src/App.js:237 | the staged map becomes `Staging.IncLocal` of the previous one; the active category and the cart are untouched |
| HomeRoute.Home.DecLocal | src/App.js:240-241 | the staged map becomes `Staging.DecLocal` of the previous one; the active category and the cart are untouched |
| HomeRoute.Home.OnAddToCart | src/App.js:244-249 | the cart becomes `Commit` of the previous cart (it adds the staged amount only when it is above zero); the staged map is not touched; the cart invariant is kept |
| HomeRoute.Home.SelectCategory | src/App.js:266 | switching category sets the active category and changes neither the staged quantities nor the cart |

## Left out

- Login, the session cookie, route guarding and the router (src/App.js:94-139, 388-399). These are network I/O and browser storage.
- The menu fetch and the LOADING/SUCCESS/FAILURE status flag (src/App.js:205-234). Only their successful result is modelled: `Home.LoadMenu` receives the decoded category list as a parameter. A failed fetch is not modelled.
- All rendering (JSX), including availability gating, customization notices, and the cart view's undefined `restaurantName` (src/App.js:345).
- `toFixed(2)` formatting of line totals (src/App.js:361). Prices are JavaScript numbers in the source and integers here.
- Dish fields that the cart never reads (description, calories, availability, add-on categories).
- The `useMemo` context value (src/App.js:76-86). It caches values and has no behavioural content.
- The React state cells are modelled as class fields updated in sequence. Deferred updater callbacks and re-render batching are not modelled.
- Staging.IncLocal and Staging.DecLocal require a tracked id. In the source, an untracked id would store NaN (`undefined + 1`). The view only passes ids that the menu load seeded, so the model does not represent NaN.
- HomeRoute.Home.IncLocal and HomeRoute.Home.DecLocal carry the same requirement, for the same reason.
- CartContext.CartProvider.AddCartItem promises the invariant only for quantities of at least 1. The source adds whatever quantity is attached, and its only caller attaches a positive one.
