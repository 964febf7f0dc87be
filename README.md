# Adjei-Caffination order bookkeeping, in Dafny

A model of the order bookkeeping of the Adjei-Caffination café app, with
proofs about it. Customers pick a drink from a menu read out of a Google
Sheet and place an order with toppings. They then follow their orders and
may cancel one. Staff see every order grouped by status and move orders
between Brewing, On Hold and Delivered.

The model covers the following parts of the app:

- **Data model** (`types.dfy`): the records of the app, with `Option` for
  the optional fields and integers for timestamps.
- **Server** (`server.dfy`): the request handlers. The orders JSON file is
  the `orders` field of `Server.OrderStore`. Each handler is one method on
  that field, and its JSON answer is the method's result.
- **Client services** (`orders_service.dfy`, `customer_service.dfy`,
  `google_sheets.dfy`):
  - the `cust_…` id kept in local storage;
  - the `customerUUID` cookie, both its lookup and the attribute string the
    app writes;
  - the save payload;
  - the case-insensitive name filter;
  - the value each request gives back when it fails;
  - the mapping of sheet rows to drinks and toppings.
- **Screens** (`drink_menu.dfy`, `order_form.dfy`, `my_orders.dfy`,
  `barista_view.dfy`, `feedback_form.dfy`, with the list update shared by
  two screens in `order_views.dfy`):
  - the hot/cold menu columns;
  - the order draft and topping checkboxes;
  - the customer's sorted list and its Cancel button;
  - the staff board's status sections and status buttons;
  - the feedback dialog's submit sequence.
- **Shared helpers**:
  - `lists.dfy` holds `Array.prototype.filter` and what it keeps.
  - `text.dfy` holds number-to-text conversion, ASCII lowercasing,
    `split`/`join` and `startsWith`.

Nothing the code does is closed to the model's caller except through
parameters:

- **Randomness and clock.** Each `uuidv4()`, `Date.now()`/`new Date()`
  reading and `Math.random()` digit string is a parameter.
- **HTTP answers.** The answer of each HTTP request is a `Reply`: either
  `Received(data)` or `Failed(reason)`.
- **Async callbacks.** How an awaited callback settles is a parameter.

The code enforces no order lifecycle, and neither does the model:

- The PATCH handler merges any status over any order.
- The staff buttons offer the same three targets for every order.
- The customer's Cancel button is only disabled for Delivered and Cancelled
  orders.

Two `catch` blocks can never run, because the service functions they call
never throw:

- `loadData` of src/components/BaristaView.tsx:164-165.
- `loadOrders` of src/components/MyOrders.tsx:119-120.

`getOrders`, `getUserOrders` and `getOrderStats` catch every failure and
return `[]` or zero counters instead. So a failed reload of the staff
board replaces the list with `[]` and the counters with zeros; it does not
keep the old ones. A failed load of the customer's list shows an empty
list. The model follows the code here.

## Model

| member | source | states |
|---|---|---|
| Server.OrderStats | server/index.ts:37-43 | the five counters of `getOrderStats`; what they mean is stated by `StatsMissOnlyOnHold`, `CountStatusIsNumberOfPositions` and `StatusCountsPartition` |
| Server.StatsMissOnlyOnHold | server/index.ts:37-43 | `total` is the number of stored orders; new + brewing + completed + cancelled is at most `total`, and the gap is exactly the number of On Hold orders |
| Server.CountStatusIsNumberOfPositions | server/index.ts:39-42 | each counter is the number of stored positions holding an order of that status (`completed` counts Delivered) |
| Server.StatusCountsPartition | server/index.ts:37-43 | every stored order is counted under exactly one of the five statuses |
| Server.OrdersOfCustomer | server/index.ts:90-92 | an order is in the answer iff it is stored and has the requested customer id; each such order is kept as many times as it is stored, every other order not at all |
| Server.FindIndex | server/index.ts:125 | the first position holding the id, or -1 when no order has it |
| Server.Merge | server/index.ts:131 | `{ ...order, ...body }`, field by field; its laws are `MergeLaws` and `StatusPatchSetsAnyStatus` |
| Server.MergeLaws | server/index.ts:131 | merging an empty body changes nothing; merging the same body twice equals merging it once |
| Server.StatusPatchSetsAnyStatus | server/index.ts:131 | a status-only body sets the requested status from any prior status, Delivered and Cancelled included, and leaves every other field, the timestamp among them, unchanged |
| Server.NewOrder | server/index.ts:104-108 | the created order carries the body's fields, with the fresh id and timestamp in place of any the body sent, and no feedback fields |
| Server.OrderStore.GetStats | server/index.ts:64-68 | the answer is the statistics of the stored orders |
| Server.OrderStore.GetAll | server/index.ts:75-79 | the answer is the stored list |
| Server.OrderStore.GetByCustomer | server/index.ts:86-93 | the answer is exactly the stored orders with that customer id, in stored order |
| Server.OrderStore.Create | server/index.ts:100-111 | appends exactly the new order at the end, leaving every earlier order in place, and answers with it |
| Server.OrderStore.Update | server/index.ts:118-133 | an unknown id gives 404 "Order not found" and leaves the store unchanged; a known id replaces only its first position with the body merged over it, keeps the length, and answers with that entry |
| OrdersService.StoredCustomerId | src/services/ordersService.ts:8-9 | a stored id counts iff the key is present with a non-empty value |
| OrdersService.GeneratedCustomerId | src/services/ordersService.ts:10 | a generated id starts with `cust_` and is longer than the prefix |
| OrdersService.LookupOrCreate | src/services/ordersService.ts:7-14 | a stored id is returned with the storage unchanged; otherwise a `cust_` id is generated, stored under `customerId` and returned |
| OrdersService.LookupOrCreateIdempotent | src/services/ordersService.ts:7-14 | a second call returns the id of the first and writes nothing, whatever clock and random digits it sees |
| OrdersService.LocalStorage.GetCustomerId | src/services/ordersService.ts:7-14 | the step-by-step read and write give exactly the lookup-or-create result |
| OrdersService.SavePayload | src/services/ordersService.ts:19-22 | the payload is the draft with `customerId` set to the given id, whatever the draft carried |
| OrdersService.SaveOrderResult | src/services/ordersService.ts:17-28 | a received answer is returned; a failed request is rethrown with its reason, and only then |
| OrdersService.SaveOrder | src/services/ordersService.ts:17-28 | posts the draft under the lookup-or-create id, leaving storage as lookup-or-create leaves it, and returns or rethrows |
| OrdersService.GetOrdersResult | src/services/ordersService.ts:31-39 | the answer, or `[]` when the request fails |
| OrdersService.OrdersNamed | src/services/ordersService.ts:46-48 | an order is kept iff its customer name equals the argument ignoring ASCII case; a kept order keeps every copy, any other order loses all of them |
| OrdersService.GetUserOrdersResult | src/services/ordersService.ts:42-53 | exactly the answered orders with that name ignoring case, in answer order and with every copy; `[]` on failure |
| OrdersService.GetUserOrders | src/services/ordersService.ts:42-53 | asks under the lookup-or-create id and returns the name-filtered answer |
| OrdersService.UpdateOrderStatusResult | src/services/ordersService.ts:56-66 | the updated order, or null exactly when the request fails |
| OrdersService.StatsResult | src/services/ordersService.ts:69-83 | the answer, or all counters zero when the request fails |
| OrdersService.PatchReply | server/index.ts:127-133 | a 404 answer makes the client's request fail; an updated order is received as it is |
| OrdersService.UpdateOrderStatusEndToEnd | src/services/ordersService.ts:56-66 | asking for an id the server does not hold gives null; asking for one it holds gives that order with the requested status |
| CustomerService.FirstStartingWith | src/services/customerService.ts:12 | the first segment starting with the prefix, or -1 when none does |
| CustomerService.CookieValue | src/services/customerService.ts:10-13 | the text after the first `=` of the first `; `-separated segment starting with `customerUUID`, up to the next `=`; its contract says that value holds no `=`, and the lookups it answers are stated by `CookieValueOfFirstPair`, `CookieValueAmongOtherCookies` and `CookieValueAfterThemeCookie` |
| CustomerService.SplitPiecesAvoidSeparator | src/services/customerService.ts:13 | no piece of a split on `=` contains `=` |
| CustomerService.PairSplitsAtEquals | src/services/customerService.ts:13 | `customerUUID=<id>` with no `=` in the id splits on `=` into the name and the id |
| CustomerService.CookieOptions | src/services/customerService.ts:21-26 | the five-entry `cookieOptions` array, the last one empty unless https; its pieces are stated by `CookiePartsForm` |
| CustomerService.CookieParts | src/services/customerService.ts:21-27 | `cookieOptions.filter(Boolean)`; `CookiePartsForm` states which pieces remain |
| CustomerService.CookieAttributes | src/services/customerService.ts:21-27 | the joined string assigned to `document.cookie`; `CookieAttributesForm` states its text and `CookieRoundTrip` that reading it back gives the id |
| CustomerService.CookiePartsForm | src/services/customerService.ts:21-27 | the joined pieces are the pair, `path=/`, `max-age=31536000`, `SameSite=Strict` and, over https only, `Secure`; none of them is empty |
| CustomerService.CookieAttributesForm | src/services/customerService.ts:18-27 | the written string is `customerUUID=<id>; path=/; max-age=31536000; SameSite=Strict`, with `; Secure` appended iff the protocol is `https:` |
| CustomerService.JoinAttributeParts | src/services/customerService.ts:23-27 | the attributes after the pair join to the fixed suffix, with `; Secure` iff https |
| CustomerService.CookieValueOfFirstPair | src/services/customerService.ts:10-13 | a cookie string that starts with `customerUUID=<id>` yields that id, whatever follows the next `; ` |
| CustomerService.CookieValueAmongOtherCookies | src/services/customerService.ts:10-13 | with any cookies before the pair that hold no `;` and do not start with `customerUUID`, and anything after it, the lookup yields the id |
| CustomerService.CookieValueAfterThemeCookie | src/services/customerService.ts:10-13 | `theme=dark; customerUUID=<id>` yields the id |
| CustomerService.CookieRoundTrip | src/services/customerService.ts:10-30 | for an id without `=` or `;`, looking up the string just written returns that id |
| CustomerService.LookupOrCreateCookie | src/services/customerService.ts:10-33 | a present, non-empty value is returned with no write; otherwise the fresh id is returned and its attribute string written |
| CustomerService.CookieIdentityIdempotent | src/services/customerService.ts:5-34 | after a call, a second call returns the same id and writes nothing |
| CustomerService.Document.GetCustomerId | src/services/customerService.ts:5-34 | the id returned and the cookie left are those of the lookup-or-create |
| GoogleSheets.StripWrapper | src/services/googleSheets.ts:15 | the text is the first 47 characters, the result and the last 2 characters; shorter texts give "" |
| GoogleSheets.TextCell | src/services/googleSheets.ts:20 | the cell's value as text (a number in decimal), or "" when the cell is missing |
| GoogleSheets.ValueOrEmpty | src/services/googleSheets.ts:21-25 | the text of the cell's value when that value is truthy, and "" otherwise (missing, empty text or 0) |
| GoogleSheets.TemperatureCell | src/services/googleSheets.ts:26 | cell 4 lowercased, or `warm` when that is missing or empty; never empty, never upper case |
| GoogleSheets.RowToDrink | src/services/googleSheets.ts:19-26 | the id is the text of cell 0, the name and description the values of cells 1 and 3 or "", the price the raw cell 2, the temperature cell 4 lowercased or `warm`; so the id is non-empty iff cell 0 has non-empty text, name and description are non-empty iff their cell is truthy, and the temperature is never empty |
| GoogleSheets.RowToTopping | src/services/googleSheets.ts:43-48 | the id is the text of cell 0 and the name the value of cell 1 or "", the price the raw cell 2; so the id is non-empty iff cell 0 has non-empty text and the name iff cell 1 is truthy |
| GoogleSheets.DrinkRows | src/services/googleSheets.ts:19-26 | one drink per row, in row order |
| GoogleSheets.ToppingRows | src/services/googleSheets.ts:43-48 | one topping per row, in row order |
| GoogleSheets.DrinkMenu | src/services/googleSheets.ts:19-27 | exactly the mapped drinks with non-empty id and name, in row order, at most one per row, each kept drink with every copy |
| GoogleSheets.Toppings | src/services/googleSheets.ts:43-49 | exactly the mapped toppings with non-empty id and name, in row order, at most one per row, each kept topping with every copy |
| GoogleSheets.FetchDrinkMenu | src/services/googleSheets.ts:8-32 | the menu of the rows, or `[]` when the request fails |
| GoogleSheets.FetchToppings | src/services/googleSheets.ts:34-54 | the toppings of the rows, or `[]` when the request fails |
| GoogleSheets.RowListedWhen | src/services/googleSheets.ts:19-27 | a row is kept iff its id cell has a value with non-empty text and its name cell a truthy value; toppings (lines 44-49) are kept by the same test |
| GoogleSheets.NumericIdIsDecimal | src/services/googleSheets.ts:20 | a numeric id becomes its decimal text, so even 0 gives a kept id |
| DrinkMenu.HotDrinks | src/components/DrinkMenu.tsx:54 | exactly the drinks whose temperature is `warm`, in input order and with every copy |
| DrinkMenu.ColdDrinks | src/components/DrinkMenu.tsx:55 | exactly the drinks whose temperature is `iced`, in input order and with every copy |
| DrinkMenu.ColumnsPartitionMenu | src/components/DrinkMenu.tsx:54-55 | the columns are disjoint and together no longer than the menu; any other temperature is in neither |
| DrinkMenu.Entries | src/components/DrinkMenu.tsx:61-69 | one entry per drink of a column |
| DrinkMenu.HotOrderButtonsOrderListedDrink | src/components/DrinkMenu.tsx:61-66 | each hot entry's Order button passes that warm menu drink itself, and the entry shows its name |
| DrinkMenu.ColdOrderButtonsOrderListedDrink | src/components/DrinkMenu.tsx:74-79 | each cold entry's Order button passes that iced menu drink itself, and the entry shows its name |
| DrinkMenu.SheetTemperatureDecidesColumn | src/services/googleSheets.ts:26 | a kept row without temperature lands in the hot column; one reading `ICED` in any case lands in the cold column |
| OrderForm.InitialCustomerName | src/components/OrderForm.tsx:102 | the stored `customerName`, or "" if absent |
| OrderForm.CheckTopping | src/components/OrderForm.tsx:169-170 | the selection with the name appended at the end |
| OrderForm.UncheckTopping | src/components/OrderForm.tsx:172 | the selection without the name, the other names kept in order and as often as before |
| OrderForm.IsChecked | src/components/OrderForm.tsx:167 | `selectedToppings.includes(name)`; `ToggleShowsNewState` states that it shows the state last set |
| OrderForm.ToggleTopping | src/components/OrderForm.tsx:168-174 | after a change the name is in the selection iff the box was checked, and every other name is in it iff it was before |
| OrderForm.UncheckRemovesEveryCopy | src/components/OrderForm.tsx:172 | no copy of the name is left, and every other name occurs as often as before |
| OrderForm.CheckThenUncheck | src/components/OrderForm.tsx:168-173 | checking a name not yet selected and unchecking it restores the selection |
| OrderForm.ToggleShowsNewState | src/components/OrderForm.tsx:167-174 | after a change the box shows checked iff its name is in the selection, which is the state it was set to |
| OrderForm.BuildDraft | src/components/OrderForm.tsx:119-128 | the draft is New, copies the drink's name and temperature, carries the current selection and form fields, and has no customer id |
| OrderForm.SubmittedDraftIsSavedAsNew | src/components/OrderForm.tsx:119-130 | what reaches the server is a New order for the chosen drink and selected toppings under this browser's id |
| OrderViews.ReplaceById | src/components/MyOrders.tsx:133-135 | same length; every entry with the id becomes the answer, every other entry is unchanged |
| OrderViews.ReplaceMissingIdKeepsList | src/components/BaristaView.tsx:182-184 | a list holding no order with the id is unchanged |
| OrderViews.ReplaceByIdIdempotent | src/components/BaristaView.tsx:182-184 | applying the same answer twice is applying it once, whether or not the answer keeps the requested id |
| OrderViews.ScreenFollowsStore | server/index.ts:125-131 | with distinct ids, the screen's replace-by-id after a status change yields the server's new list |
| MyOrders.StatusPriority | src/components/MyOrders.tsx:104-110 | a priority between 0 and 4; the ranking is stated by `StatusPriorityOrder` |
| MyOrders.StatusPriorityOrder | src/components/MyOrders.tsx:104-110 | the priorities rank New below On Hold below Brewing below Delivered below Cancelled, and distinct statuses never tie |
| MyOrders.Compare | src/components/MyOrders.tsx:112-115 | the priority difference, or the newer timestamp first; stated by `CompareIsTotalPreorder` and `SortedMeansStatusThenNewest` |
| MyOrders.CompareIsTotalPreorder | src/components/MyOrders.tsx:112-115 | the comparator is antisymmetric, total and transitive |
| MyOrders.SortedMeansStatusThenNewest | src/components/MyOrders.tsx:103-116 | in the sorted list priorities never decrease, and within a status timestamps never increase |
| MyOrders.SortForDisplay | src/components/MyOrders.tsx:103-116 | sorts in place into comparator order, as a permutation of the fetched orders |
| MyOrders.CancelDisabled | src/components/MyOrders.tsx:160 | the button's `disabled` test; `CancelOfferedUnlessFinished` states for which statuses it holds |
| MyOrders.CancelOfferedUnlessFinished | src/components/MyOrders.tsx:160 | Cancel is enabled iff the status is neither Delivered nor Cancelled |
| MyOrders.MyOrdersView.LoadOrders | src/components/MyOrders.tsx:97-124 | with an empty name nothing happens; otherwise the list becomes a sorted permutation of the name-filtered answer and loading ends |
| MyOrders.MyOrdersView.HandleCancel | src/components/MyOrders.tsx:129-140 | asks for Cancelled; an answer replaces the entries with that id, a failed request leaves the list as it is |
| BaristaView.GroupByStatus | src/components/BaristaView.tsx:195-200 | each status with orders has a group holding exactly its orders in list order; no other status has a group |
| BaristaView.DisplayedStatuses | src/components/BaristaView.tsx:225 | the sections New, Brewing, On Hold and Delivered; `BoardShowsAllButCancelled` states that Cancelled orders are therefore never shown |
| BaristaView.Section | src/components/BaristaView.tsx:229 | a status's group, or empty; `SectionIsStatusFilter` states that it lists exactly the orders with that status |
| BaristaView.Board | src/components/BaristaView.tsx:225-238 | four sections, New, Brewing, On Hold and Delivered, each that status's group or empty |
| BaristaView.SectionIsStatusFilter | src/components/BaristaView.tsx:195-229 | a section lists exactly the orders with its status, in list order |
| BaristaView.BoardShowsAllButCancelled | src/components/BaristaView.tsx:225 | an order appears in a section iff that section is its status's, so Cancelled orders are never shown |
| BaristaView.GroupSizesSumToOrders | src/components/BaristaView.tsx:195-200 | the five group sizes sum to the number of orders |
| BaristaView.StaffStatusButtons | src/components/BaristaView.tsx:256 | the three buttons Brewing, On Hold and Delivered; `StaffButtonsSetTheirStatus` states what each requests |
| BaristaView.StaffButtonsSetTheirStatus | src/components/BaristaView.tsx:256-260 | from any current status each button's request sets exactly its status (Brewing, On Hold or Delivered), and no button asks for New or Cancelled |
| BaristaView.Dashboard.LoadData | src/components/BaristaView.tsx:155-169 | list and counters become the fetched ones or their fallbacks, and loading ends false |
| BaristaView.Dashboard.SelectOrder | src/components/BaristaView.tsx:230-242 | the selection becomes the clicked order, or none |
| BaristaView.Dashboard.ApplyStatusUpdate | src/components/BaristaView.tsx:182-185 | the entries with the id become the answer, which is selected |
| BaristaView.Dashboard.HandleStatusUpdate | src/components/BaristaView.tsx:178-191 | an answer is selected and everything reloaded; a failed request changes nothing |
| FeedbackForm.StarSelected | src/components/FeedbackForm.tsx:57 | `star <= rating`; `SelectedStarCount` and `LitStarsShowRating` state which stars are lit |
| FeedbackForm.SelectedStarCount | src/components/FeedbackForm.tsx:53-57 | among the first n stars, exactly min(rating, n) are lit |
| FeedbackForm.LitStarsShowRating | src/components/FeedbackForm.tsx:53-57 | star k is lit iff 1 <= k <= rating, so a rating of r lights r stars |
| FeedbackForm.FeedbackDialog.constructor | src/components/FeedbackForm.tsx:18-21 | the dialog starts with rating 0, empty comment, not submitting and no error |
| FeedbackForm.FeedbackDialog.ClickStar | src/components/FeedbackForm.tsx:53-58 | clicking star k sets the rating to k, between 1 and 5 |
| FeedbackForm.FeedbackDialog.EditComment | src/components/FeedbackForm.tsx:64-69 | the comment becomes the typed text |
| FeedbackForm.FeedbackDialog.ClickCancel | src/components/FeedbackForm.tsx:74 | Cancel calls `onClose` once |
| FeedbackForm.FeedbackDialog.HandleSubmit | src/components/FeedbackForm.tsx:23-45 | rating 0 sets "Please select a rating" with no submit and no close; otherwise orderId, rating and comment are submitted unchanged and the dialog closes only on success, the error being the thrown message or "Failed to submit feedback"; the error is this submit's alone and `isSubmitting` ends false |
| Text.ToLower | src/services/ordersService.ts:47 | same length, every character lowercased (ASCII letters only) |
| Text.Split | src/services/customerService.ts:11 | `split` on a separator, left to right: at least one piece; `JoinSplit`, `SplitWithoutSeparator`, `SplitAtFirstSeparator` and `SplitJoinedPrefix` state its pieces |
| Text.Join | src/services/customerService.ts:27 | `join` with a separator between consecutive pieces; `JoinSplit` states that it undoes `Split` |
| Text.JoinSplit | src/services/customerService.ts:11 | joining the pieces of a split with the same separator gives back the text |
| Text.SplitWithoutSeparator | src/services/customerService.ts:13 | a text without the separator's first character splits into itself alone |
| Text.SplitAtFirstSeparator | src/services/customerService.ts:11 | a piece without the separator's first character, the separator and the rest split into that piece followed by the pieces of the rest |
| Text.SplitJoinedPrefix | src/services/customerService.ts:11 | splitting a join gives back each leading piece that holds no separator character, followed by the pieces of the rest |
| Lists.Filter | src/services/ordersService.ts:46-48 | `Array.prototype.filter`: no longer than the list, and an element is kept iff it is in the list and satisfies the predicate |
| Lists.FilterIsSubsequence | src/services/ordersService.ts:46-48 | the kept elements appear in the list's order |
| Lists.FilterCounts | src/services/ordersService.ts:46-48 | every element satisfying the predicate is kept as often as it occurs, every other element not at all |
| Types.StatusNamesDistinct | src/types/types.ts:15 | the five wire spellings of the statuses are distinct |

## Left out

- File and network I/O are left out: Express routing, `fs` reads and writes, axios, `JSON.parse`/`stringify`, the sheet URLs and `console` logging. The 500 answers belong to this I/O and are not modelled.
- Concurrent requests rewriting the orders file are not modelled; each handler runs alone on the store.
- Sheet cells are text or whole numbers only. Fractional numbers, exponent forms and booleans have no form in the model. A name or description cell holding a number stays a number in the app but is shown as its decimal text here.
- Prices are kept as the raw price cell. `Number(...)`, the `$` stripping and `toFixed` are floating point and not modelled.
- Timestamps are integers. The ISO text written by the app and `new Date(...).getTime()` in the comparator are not modelled.
- `toLowerCase` is ASCII only; other Unicode letters are left as they are.
- Server.StatsMissOnlyOnHold: a stored status is always one of the five values, and a PATCH body carries only `Order` fields with non-null values. The server checks neither: a POST without `orderStatus` or a PATCH with `orderStatus: "Done"` would store an order counted in `total` but in none of the four counters, and a `null` or unknown field in a body would be copied by the spread. The gap statement holds only under this limit.
- Server.NewOrder: keeps only the `Order` fields of the body. Extra fields the client sends, such as the drink's `temperature`, are dropped, though the server would store them. The server never checks the body; a body missing fields is not represented.
- OrdersService.SavePayload: drops the draft's `temperature` when it builds the body, because the body type has no such field; src/services/ordersService.ts:19-22 posts it with the rest of the draft.
- MyOrders.SortForDisplay: is an insertion sort standing for the engine's `sort`. It promises order and permutation but not stability.
- CustomerService.Document.GetCustomerId: assigning `document.cookie` replaces the modelled string. The browser's way of merging one assignment into its cookie jar is not modelled.
- FeedbackForm.FeedbackDialog.HandleSubmit: states the state after the awaited callback settles. The render between `setIsSubmitting(true)` and the end, with its disabled button, is not modelled.
- Polling every 30 seconds, React effects and batching, the `loading` screens, styling and colour maps are not modelled. The App, Navigation and CurvedHeader components and env.d.ts are not part of this model.
- Lifecycle rules that no line of the code implements are not modelled:
  - the allowed status transitions;
  - the `current` marker;
  - feedback only for Delivered orders, or only once;
  - validation of a new order;
  - a new timestamp on a status change.
- The toppings list the order form loads only feeds the checkboxes and is not modelled apart from `GoogleSheets.FetchToppings`.
