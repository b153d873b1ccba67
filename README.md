# Food ordering app: cart, order log and screen handlers

This project models the client-side state logic of a React Native food-ordering
app and proves properties about it in Dafny.

- **Cart store.** `src/context/CartContext.js` keeps one session-wide list of
  line items. It supports add (merge by id), remove, set quantity, total and
  clear. Here it is the class `Cart.CartStore`, with a `seq<FoodItem>` field,
  with one method per state change and the function `CalculateTotal` for
  the total. Each method keeps the ids pairwise distinct.
- **Order log.** `src/context/OrdersContext.js` is an append-only list of
  placed orders: the class `Orders.OrderLog`.
- **Screen handlers.** Each screen's state cells become the fields of a class,
  and each handler becomes a method on it. The screens covered are:
  - the user cart screen: steppers and checkout;
  - the staff orders screen: fetch and sort, status update, search over the
    full list, and the pending-only actions;
  - the user menu screen: availability filter, clamped stepper, focus reset
    and cart badge;
  - the user orders screen: per-user filter and narrowing search;
  - the staff menu screen: availability toggle.

  What the server replies, whether a fetched list, a success flag with an
  order id, an HTTP status, or a rejected request, is an input datatype of
  the handler. Every method's `ensures` ties the new state to a specification
  function of the old state, except the staff order fetch, whose sort fixes
  the new lists only up to permutation. The properties are proved about those
  functions as lemmas.

Prices and totals are integer cents, so totals are exact. JavaScript's
`filter`, `map` and `reduce` are the generic `Seqs.Filter`, `Seqs.Map` and
`Seqs.Sum`. Lower-casing and substring search are in `Text`.

Four behaviours of the code worth knowing (the model follows the code):

- `updateQuantity` stores a zero or negative quantity as given. Only the cart
  screen's decrease stepper removes an entry, at one or below.
- `removeFromCart` drops every entry with the id, not only the first one.
- A success reply to checkout that lacks an `orderId` appends the order to
  the log. Converting the missing id to text then throws. The user sees the
  generic error, and the cart is not cleared.
- The checkout alerts are: placed, failed (an unsuccessful reply), and error
  (anything thrown).

## Model

| member | source | states |
|---|---|---|
| Cart.IndexOf | src/context/CartContext.js:10 | The first position whose entry has the id, and -1 exactly when no entry has it. |
| Cart.CartStore.constructor | src/context/CartContext.js:6 | The cart starts empty, with distinct ids. |
| Cart.CartStore.AddToCart | src/context/CartContext.js:8-19 | The new cart is the merge-or-append of the item. Ids stay distinct. The total rises by the price of the entry merged into (or the item's own price) times the incoming quantity. An add with a positive quantity keeps every quantity positive. |
| Cart.AddFreshAppends | src/context/CartContext.js:10-16 | For an absent id, the item is appended at the end. Every earlier entry is unchanged. |
| Cart.AddExistingMerges | src/context/CartContext.js:10-14 | For a present id, length and positions are kept. Only the first matching entry changes: its quantity rises by the incoming quantity and its other fields, including the price, stay. |
| Cart.AddKeepsIdsDistinct | src/context/CartContext.js:10-17 | Pairwise distinct ids before an add remain pairwise distinct after it. |
| Cart.AddIds | src/context/CartContext.js:10-17 | The set of ids after an add is the old set plus the item's id. |
| Cart.AddRaisesTotal | src/context/CartContext.js:8-35 | The total rises by item.price × item.quantity for a fresh id. For a merge it rises by the existing entry's price × the incoming quantity. |
| Cart.AddRaisesQuantitySum | src/context/CartContext.js:10-17 | The sum of quantities rises by exactly the incoming quantity. |
| Cart.AddQuantityOf | src/context/CartContext.js:10-17 | The quantity recorded under an id rises by the incoming quantity if the item has that id. Otherwise it is unchanged. |
| Cart.AddAllQuantityOf | src/context/CartContext.js:8-19 | After any sequence of adds, the quantity under each id is the old quantity plus the sum of the quantities submitted under it. |
| Cart.AddAllIds | src/context/CartContext.js:8-19 | After any sequence of adds, the id set is the old set plus the ids submitted. |
| Cart.AddAllKeepsIdsDistinct | src/context/CartContext.js:8-19 | Any sequence of adds keeps the ids distinct. |
| Cart.AddAllFromEmpty | src/context/CartContext.js:8-19 | From an empty cart, the entry count equals the number of distinct ids added. Each entry's quantity is the sum of all quantities submitted under its id. |
| Cart.AddKeepsPositive | src/context/CartContext.js:10-17 | If every quantity is at least 1 and the incoming quantity is at least 1, every quantity is still at least 1 after the add. |
| Cart.AddAllKeepsPositive | src/context/CartContext.js:8-19 | Any sequence of adds with positive quantities keeps every quantity positive, so a cart built from empty this way holds no zero or negative entry. |
| Cart.CartStore.RemoveFromCart | src/context/CartContext.js:21-23 | The new cart is the old one with every entry of that id dropped. Nothing else is added or lost. Ids stay distinct, and positive quantities stay positive. |
| Cart.RemoveDropsOnlyThatId | src/context/CartContext.js:22 | The remaining entries are exactly the old entries with another id, in their old order (a subsequence), each as often as before. Distinct ids stay distinct. |
| Cart.RemoveKeepsPositive | src/context/CartContext.js:22 | Removal keeps every quantity positive. |
| Cart.RemoveAbsentIsNoop | src/context/CartContext.js:22 | Removing an absent id leaves the cart and its total unchanged. |
| Cart.RemoveIdempotent | src/context/CartContext.js:22 | Removing twice equals removing once. |
| Cart.RemoveDistinct | src/context/CartContext.js:22 | With distinct ids, removing a present id cuts out exactly the entry at its index and keeps both sides. |
| Cart.CartStore.UpdateQuantity | src/context/CartContext.js:25-31 | The new cart is the quantity rewrite of the entries with that id. Length and id set are unchanged, and ids stay distinct. Setting a positive quantity keeps every quantity positive. |
| Cart.UpdateQuantityTouchesOnlyThatId | src/context/CartContext.js:27-29 | Only the quantity of entries with that id changes, to the given value, which may be zero or negative. All other fields, all other entries, the length and the id set are unchanged. |
| Cart.UpdateKeepsPositive | src/context/CartContext.js:27-29 | Setting a quantity of at least 1 keeps every quantity positive. |
| Cart.UpdateQuantityDistinct | src/context/CartContext.js:27-29 | With distinct ids, updating a present id rewrites that single entry's quantity. |
| Cart.CartStore.CalculateTotal | src/context/CartContext.js:33-35 | The total is 0 for an empty cart. Around any entry it splits into the total before it, plus price × quantity of the entry, plus the total after it. |
| Cart.TotalSplit | src/context/CartContext.js:34 | The sum of price × quantity splits around every position of the list. |
| Cart.CartStore.ClearCart | src/context/CartContext.js:37-39 | The cart is empty afterwards and its total is 0. |
| Orders.OrDefault | src/screens/UserCartScreen.js:36-38 | A present, non-empty field is kept. A missing or empty field is replaced by the fallback. |
| Orders.OrderLog.constructor | src/context/OrdersContext.js:6 | The order log starts empty. |
| Orders.OrderLog.AddOrder | src/context/OrdersContext.js:8-10 | The log grows by exactly one, the new order is last, and the old log is a prefix of the new one. |
| Orders.AfterAddsConcatenates | src/context/OrdersContext.js:9 | Any sequence of appends yields the old log followed by the added orders in call order. |
| Orders.AppendsFromEmpty | src/context/OrdersContext.js:6-10 | N appends from empty yield exactly the N orders in call order. Each shorter run of appends yields a prefix of it. |
| Orders.NoDeduplication | src/context/OrdersContext.js:9 | Appending the same order twice yields two entries. |
| Text.LowerChar | src/screens/StaffOrdersScreen.js:79-81 | An ASCII capital maps to its small letter. Every other character is unchanged. |
| Text.Lower | src/screens/StaffOrdersScreen.js:79-81 | Lower-casing keeps the length and maps each character separately. |
| Text.IncludesIff | src/screens/StaffOrdersScreen.js:79-81 | The substring test holds exactly when some position of the text starts a copy of the term. |
| Text.IncludesEmpty | src/screens/StaffOrdersScreen.js:79-81 | Every text includes the empty term. |
| Text.JoinSnoc | src/screens/UserCartScreen.js:39 | Joining one more part appends the separator and that part; a single part is joined without a separator. |
| Text.NatToString | src/screens/UserCartScreen.js:39 | A non-negative number renders as at least one decimal digit, with no leading zero. |
| Text.IntToString | src/screens/UserCartScreen.js:39 | The rendering starts with a minus sign exactly when the number is negative. The digits (after the sign, for a negative number) read back as the number's magnitude. |
| Text.NatToStringValue | src/screens/UserCartScreen.js:39 | The decimal rendering of a non-negative number reads back as that number. |
| OrderSearch.MatchesIff | src/screens/StaffOrdersScreen.js:78-82 | An order matches exactly when the lower-cased term occurs in the lower-cased email, name or phone. |
| OrderSearch.MatchesIgnoresTermCase | src/screens/StaffOrdersScreen.js:79-81 | Matching does not depend on the case of the term. |
| OrderSearch.SearchKeepsExactlyMatches | src/screens/StaffOrdersScreen.js:78-82 | The search result holds exactly the matching orders, each as often as in the list, in their original order (a subsequence). |
| OrderSearch.SearchEmptyTermKeepsAll | src/screens/StaffOrdersScreen.js:78-82 | An empty term keeps the whole list. |
| UserCartScreen.SnapshotFreezesCart | src/screens/UserCartScreen.js:35-42 | The order snapshot carries the cart total at placement and status 'pending', and has no id yet. An empty cart gives total 0 and empty item text. |
| UserCartScreen.SnapshotProfileDefaults | src/screens/UserCartScreen.js:36-38 | A missing or empty email, name or phone becomes 'user@example.com', 'Anonymous' or '0000000000'. Present values are copied. |
| UserCartScreen.ItemsTextSnoc | src/screens/UserCartScreen.js:39 | The item text lists one line per entry, in cart order, separated by ", ". |
| UserCartScreen.LineTextLayout | src/screens/UserCartScreen.js:39 | Each line is the name, " x ", then the quantity in decimal. A non-negative quantity's digits read back as the quantity. A negative one is a minus sign followed by digits that read back as its magnitude. |
| UserCartScreen.IncreaseQuantity | src/screens/UserCartScreen.js:21-23 | The row's entry gets its old quantity plus one and nothing else changes. Distinct ids and positive quantities are preserved. |
| UserCartScreen.DecreaseQuantity | src/screens/UserCartScreen.js:25-32 | Above one, the quantity drops by one and the entry stays. At one or below, exactly that entry is removed, so no entry with that id is left below one. Distinct ids and positive quantities are preserved. |
| UserCartScreen.PlaceOrder | src/screens/UserCartScreen.js:34-68 | A success reply with an order id appends the snapshot with that id, clears the cart and reports success. Success without an id appends the snapshot, keeps the cart and reports an error. An unsuccessful reply or a thrown error changes neither the cart nor the log. |
| StaffOrdersScreen.Compare | src/screens/StaffOrdersScreen.js:29 | The comparator is negative exactly when its first argument is pending, and is always ±1. |
| StaffOrdersScreen.SortByStatus | src/screens/StaffOrdersScreen.js:29 | The in-place sort leaves a permutation of the fetched array. |
| StaffOrdersScreen.StatusUpdateTouchesOnlyStatus | src/screens/StaffOrdersScreen.js:43-52 | Only the status of orders with that id changes, to the new status. Length and every other field are unchanged. |
| StaffOrdersScreen.StatusActions | src/screens/StaffOrdersScreen.js:111-126 | Actions are offered exactly for pending orders, and they target only 'accepted' or 'rejected'. |
| StaffOrdersScreen.DecidedOrderOffersNothing | src/screens/StaffOrdersScreen.js:111-126 | After an offered action is applied to an order, that order offers no further action. |
| StaffOrdersScreen.Screen.constructor | src/screens/StaffOrdersScreen.js:7-9 | Both lists and the search text start empty. |
| StaffOrdersScreen.Screen.FetchOrders | src/screens/StaffOrdersScreen.js:26-35 | On success, both lists become the same permutation of the server list, and the search text is not re-applied. A failed fetch changes nothing. |
| StaffOrdersScreen.Screen.HandleOrderStatus | src/screens/StaffOrdersScreen.js:37-67 | An HTTP 200 reply applies the status update to both lists. Any other status or an error changes neither list. Lengths never change. |
| StaffOrdersScreen.Screen.HandleSearch | src/screens/StaffOrdersScreen.js:76-84 | The displayed list becomes exactly the matching orders of the full list, whatever was displayed before. An empty term shows the full list. |
| UserFoodItemsScreen.FetchedIsAvailableAtZero | src/screens/UserFoodItemsScreen.js:16-22 | The menu holds exactly the server items whose flag is the number 1, in server order, each at quantity 0. |
| UserFoodItemsScreen.ResetKeepsEverythingElse | src/screens/UserFoodItemsScreen.js:37-39 | The focus reset sets every quantity to 0 and keeps the other fields and the order. |
| UserFoodItemsScreen.ClampedStep | src/screens/UserFoodItemsScreen.js:47 | The stepped quantity is never negative. It is q + increment, or 0 when that sum is not positive. |
| UserFoodItemsScreen.StepTouchesOnlyThatItem | src/screens/UserFoodItemsScreen.js:44-50 | Only the quantity of the matching item changes, to the clamped value. A list without negative quantities keeps none. |
| UserFoodItemsScreen.CartBadge | src/screens/UserFoodItemsScreen.js:98-100 | The badge is hidden exactly for an empty cart. Otherwise it shows the sum of cart quantities. |
| UserFoodItemsScreen.BadgeAfterAdd | src/screens/UserFoodItemsScreen.js:98-100 | After an add, the badge is shown and has risen by the incoming quantity. |
| UserFoodItemsScreen.Screen.constructor | src/screens/UserFoodItemsScreen.js:8-11 | The menu starts empty and the screen shares the session cart. |
| UserFoodItemsScreen.Screen.FetchFoodItems | src/screens/UserFoodItemsScreen.js:13-28 | A successful fetch shows the available items at quantity 0. A failed one leaves the list. |
| UserFoodItemsScreen.Screen.OnFocus | src/screens/UserFoodItemsScreen.js:34-41 | On focus, every displayed quantity is reset to 0. |
| UserFoodItemsScreen.Screen.UpdateQuantity | src/screens/UserFoodItemsScreen.js:43-58 | The stepper moves with clamping. A positive step adds the row's item to the cart, with the increment as quantity, and raises the cart's quantity sum by it. Any other step leaves the cart alone. A cart whose quantities are all positive stays so. |
| UserFoodItemsScreen.Screen.Badge | src/screens/UserFoodItemsScreen.js:98-100 | The badge is hidden exactly when the cart is empty. |
| OrdersScreen.ForUserKeepsExactlyOwn | src/screens/OrdersScreen.js:23-25 | The fetched list keeps exactly the orders whose email and name both equal the profile's, each as often as sent, in server order. |
| OrdersScreen.NarrowedIsFilter | src/screens/OrdersScreen.js:32-40 | Successive searches equal one filter by all their terms together. |
| OrdersScreen.NarrowedSnoc | src/screens/OrdersScreen.js:34-38 | One more search filters the list currently displayed. |
| OrdersScreen.SearchesOnlyNarrow | src/screens/OrdersScreen.js:20-40 | Each search result is a subsequence of the list displayed before it. An order dropped by a search never returns through later searches. |
| OrdersScreen.Screen.constructor | src/screens/OrdersScreen.js:11-14 | A missing or empty profile email or name becomes the empty string. The list starts empty. |
| OrdersScreen.Screen.FetchOrders | src/screens/OrdersScreen.js:20-30 | A successful fetch shows the user's own orders. A failed fetch changes nothing. |
| OrdersScreen.Screen.HandleSearch | src/screens/OrdersScreen.js:32-40 | The displayed list becomes its own matching orders, which form a subsequence of it. An empty term leaves it unchanged. |
| StaffFoodItemsScreen.Negated | src/screens/StaffFoodItemsScreen.js:27 | Negating a flag always gives a boolean of the opposite truthiness. |
| StaffFoodItemsScreen.ToggleTouchesOnlyTheFlag | src/screens/StaffFoodItemsScreen.js:29-35 | Only the flag of items with that id is negated. Other items, every other field, the length and the order are unchanged. |
| StaffFoodItemsScreen.ToggleTwice | src/screens/StaffFoodItemsScreen.js:29-35 | Toggling twice restores every flag's truthiness. It restores the list itself when those flags were already boolean. |
| StaffFoodItemsScreen.Screen.constructor | src/screens/StaffFoodItemsScreen.js:7 | The menu starts empty. |
| StaffFoodItemsScreen.Screen.FetchFoodItems | src/screens/StaffFoodItemsScreen.js:11-22 | A successful fetch shows the server list as sent. A failed one leaves the list. |
| StaffFoodItemsScreen.Screen.ToggleAvailability | src/screens/StaffFoodItemsScreen.js:24-41 | An absent id sends no request and changes nothing. For a present id, the request carries the negation of the first match's flag. A resolved request toggles the list, and a rejected one leaves it. |

## Left out

- HTTP calls: each reply is an input value. These cover a fetched list or a failed fetch, a success flag with an optional order id, an HTTP status, and a resolved or rejected PUT.
- Firebase messaging: the staff notification after checkout, the push to the user after a status change, and the refetch when a message arrives. The push and the notification are external. The notification catches its own errors, so it changes no modelled state. A refetch is another `FetchOrders`.
- Rendering, styles, navigation, alerts and console output: the checkout result is an `Alert` value. The loading and refreshing flags are not modelled.
- App.js, AuthScreen.js, HomeScreen.js, AccountScreen.js and SignUpScreen.js are not part of this model. They hold navigation, forms and HTTP calls only.
- Floating point: prices and totals are integer cents. `parseFloat` on fetched prices and the `toFixed` formatting of amounts are not modelled.
- Text.Lower: lower-cases ASCII only, not the full Unicode case mapping of `toLowerCase`.
- React's asynchronous state batching and stale closures: each handler is one atomic step on the current state. The stepper reads the row's item from the menu before the step, as the source's closure does.
- Cart.CartStore.AddToCart: value semantics. The source's merge mutates the entry object in place, so a previous state that still refers to that entry sees the new quantity too.
- The global user profile: the profile is a parameter (`Orders.Profile`).
- StaffOrdersScreen.SortByStatus: claims only that the result is a permutation. The comparator ignores its second argument, so the engine's result order is unspecified. An insertion sort stands for the engine's algorithm.
- UserCartScreen.IncreaseQuantity: requires the id to be in the cart. Only rendered cart rows call it; with an absent id the source throws.
- UserCartScreen.DecreaseQuantity: requires the id to be in the cart, for the same reason.
- UserFoodItemsScreen.Screen.UpdateQuantity: requires the id to be in the menu. Only rendered menu rows call it; with an absent id the source would add an entry with no id to the cart.
- Field names: the server's snake-case fields (for example `user_email`, `total_amount`) and the checkout's camel-case fields are one `Orders.Order` record.
- Ids are integers compared by value. JavaScript's strict equality between a numeric and a string id is always false; that case is not modelled.
- OrdersScreen.js reads `orders` from the order log but never uses it; it is not modelled.
- Logout on the staff menu screen only clears the global profile and navigates away; it is not modelled.
