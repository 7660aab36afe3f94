# Canteen order engine — a Dafny model

This project models the order engine of a campus canteen ordering app. Students fill a cart,
pick a pickup slot and pay from a wallet. Canteen staff accept, prepare, ready or reject
orders and adjust stock.

The engine (`lib/canteen-context.tsx`) holds five pieces of state:

- the food catalog, with integer stock;
- the orders;
- the wallet balance;
- an append-only transaction ledger;
- the per-canteen pickup slots, each with `capacity` and `filled`.

The model follows the source file by file.

- **CanteenTypes** (`types.dfy`): the records of the engine as datatypes, and the `find` by id.
- **Engine** (`engine.dfy`): each command of the store as a pure transition on a `Store` snapshot (`CreateOrderSpec`, `UpdateStatusSpec`), with the lemmas about them.
- **StoreClass** (`store.dfy`): the provider as a class whose `seq` fields the commands reassign. Each command is a method proved to perform the Engine transition. Every method keeps the invariant that the wallet equals what the ledger adds up to.
- **Analytics** (`analytics.dfy`): the read-only views of the engine (slot filter, stock and slot impact, waiting count, delayed orders, sellout prediction).
- **Login** (`login.dfy`): the staff credential match (ASCII trim and lower-casing).
- **Dashboard** (`dashboard.dfy`): the staff order board (`app/canteen/page.tsx`): the accept gate, the status columns, the buttons each status offers, and the guarded commands.
- **Menu** (`menu.dfy`): the student menu (`app/student/menu/page.tsx`). Its cart, slot and filter state is a class; the cart is an insertion-ordered association list.
- **Suggestions** (`suggestions.dfy`): the rule list of the staff advice page. It is built by `push` inside loops, with the nested `orderCounts` tally, and stably sorted by priority.
- **Inventory** (`inventory.dfy`), **StudentOrders** (`student_orders.dfy`) and **Slots** (`slots.dfy`): the stock page, the student's order history and the slot board.
- **SeqUtil** (`seqs.dfy`): `Array.prototype.filter` and the stable `Array.prototype.sort` with a numeric comparator, defined once and shared.

The engine's known gaps are stated as properties rather than repaired:

- a booking bumps a full slot past its capacity (`Engine.CreateOrderOverbooks`, `Slots.BookingTakesASpot`);
- rejecting an order refunds it but keeps its slot booking (`Engine.PlaceThenRejectKeepsBooking`);
- the engine stamps any status transition, and only the board restricts them (`Dashboard.EngineAcceptsAnyTransition`);
- rejecting twice refunds twice (`Engine.RejectTwiceRefundsTwice`);
- the accept gate checks each line alone, so an order naming one food twice can empty its stock (`Dashboard.GateChecksLinesSeparately`).

Where JavaScript divides, the model uses integer cross-multiplication. Each such test is proved equal to the source's real-number ratio wherever the divisor is positive. A zero divisor follows JavaScript's `Infinity`/`NaN` comparisons explicitly.

The congestion rule fires for a fill strictly above 85 % (`s.filled / s.capacity > 0.85`).

## Model

| member | source | states |
|---|---|---|
| CanteenTypes.FindFood | lib/canteen-context.tsx:444 | `foodItems.find` by id: a found item is in the catalog with that id; none exactly when no entry has the id |
| CanteenTypes.FindFoodUnique | lib/canteen-context.tsx:444 | with unique ids, the find returns the entry at the id's position |
| Engine.OrderTotalAppend | lib/canteen-context.tsx:527 | the `reduce` total of price × quantity is additive over concatenated lines |
| Engine.OrderTotalNonNegative | lib/canteen-context.tsx:527 | with non-negative prices and quantities the order total is non-negative |
| Engine.LedgerAppend | lib/canteen-context.tsx:366-368 | the ledger's signed sum (credits and refunds minus debits) is additive over appended entries |
| Engine.CreateOrderSpec | lib/canteen-context.tsx:519-568 | success iff total ≤ balance; on failure nothing changes; on success exactly one New order with that total and slot is appended, the wallet drops by the total, one debit entry is appended, the catalog is kept, and every slot matching (time, canteen) gains exactly 1 booking, every other field and slot unchanged |
| Engine.CreateOrderKeepsLedger | lib/canteen-context.tsx:545-556 | createOrder keeps the wallet equal to the ledger's signed sum |
| Engine.CreateOrderOverbooks | lib/canteen-context.tsx:559-563 | a booking on a slot already at capacity succeeds and leaves it with more bookings than places |
| Engine.StampAllAt | lib/canteen-context.tsx:571-611 | the `orders.map` changes position k exactly when its id matches, stamping it; other orders are kept |
| Engine.UpdateStatusSpec | lib/canteen-context.tsx:570-614 | slots never change and the number of orders is kept; a non-Rejected status keeps wallet and ledger; a non-Accepted status keeps the catalog |
| Engine.UpdateStatusOrders | lib/canteen-context.tsx:572-609 | orders with other ids are unchanged; a matching order gets the new status and keeps id, lines, total, slot, canteen and creation time; Rejected records `reason` or "Insufficient stock"; Accepted stamps `acceptedAt` |
| Engine.UnknownOrderIsNoOp | lib/canteen-context.tsx:570-614 | an unknown order id leaves the whole store unchanged |
| Engine.RefundsBalance | lib/canteen-context.tsx:580-592 | the refund entries added by a rejection sum to the refunded totals |
| Engine.UpdateStatusKeepsLedger | lib/canteen-context.tsx:580-592 | updateOrderStatus keeps the wallet equal to the ledger's signed sum |
| Engine.UniqueMatch | lib/canteen-context.tsx:572-609 | with one matching order, the refund total is its total, one refund entry is added, and its lines are the ones deducted |
| Engine.RejectRefundsOnce | lib/canteen-context.tsx:580-592 | rejecting a uniquely named order raises the wallet by its total, appends exactly one refund entry, records the reason, and keeps catalog and slots |
| Engine.StampKeepsRefundTotal | lib/canteen-context.tsx:572-609 | stamping a status does not change the totals that a later rejection refunds |
| Engine.RejectTwiceRefundsTwice | lib/canteen-context.tsx:570-614 | no current-status check: rejecting twice refunds the matching totals twice |
| Engine.PrefixStep | lib/canteen-context.tsx:572-609 | one more order of the map adds exactly its own stamp, refund and deducted lines |
| Engine.DeductAllShape | lib/canteen-context.tsx:597-607 | stock deduction keeps every field but quantity, floors at 0 unless the stock was already negative, and keeps items no line names |
| Engine.AcceptKeepsStockNonNegative | lib/canteen-context.tsx:597-607 | accepting from non-negative stock leaves every stock non-negative and every other field of the catalog unchanged |
| Engine.DeductAllAppend | lib/canteen-context.tsx:598-606 | the per-line `forEach` deduction composes over concatenated lines |
| Engine.DeductAllIds | lib/canteen-context.tsx:598-606 | stock deduction keeps catalog ids unique |
| Engine.PlaceThenRejectKeepsBooking | lib/canteen-context.tsx:519-614 | placing then rejecting an order restores the wallet, leaves a debit and a refund in the ledger, and keeps the slot booking |
| StoreClass.CanteenStore.constructor | lib/canteen-context.tsx:362-372 | a fresh store has the seed catalog and slots, no orders, a wallet of 500 recorded by one "Initial balance" credit, canteen-1 selected and nobody logged in |
| StoreClass.CanteenStore.CreateOrder | lib/canteen-context.tsx:519-568 | performs exactly the `CreateOrderSpec` transition and keeps the ledger invariant |
| StoreClass.CanteenStore.UpdateOrderStatus | lib/canteen-context.tsx:570-614 | the order loop, with its inner per-line stock loop, performs exactly the `UpdateStatusSpec` transition and keeps the ledger invariant |
| StoreClass.CanteenStore.DeductLines | lib/canteen-context.tsx:598-606 | the per-line `forEach` leaves the catalog as `DeductAll` of the lines |
| StoreClass.CanteenStore.UpdateFoodStock | lib/canteen-context.tsx:437-439 | every item with the id takes the new quantity, nothing else changes |
| StoreClass.CanteenStore.AddMoney | lib/canteen-context.tsx:616-628 | the wallet rises by the amount and exactly one "Added to wallet" credit is appended |
| StoreClass.CanteenStore.LoginCanteen | lib/canteen-context.tsx:408-423 | succeeds iff some canteen's credentials match; on success records that canteen's id and name; on failure keeps the session |
| StoreClass.CanteenStore.LogoutCanteen | lib/canteen-context.tsx:425-428 | clears the logged-in canteen |
| StoreClass.CanteenStore.SetSelectedCanteen | lib/canteen-context.tsx:371 | records the selected canteen |
| Login.TrimStart | lib/canteen-context.tsx:411 | drops exactly the leading white space |
| Login.TrimEnd | lib/canteen-context.tsx:411 | drops exactly the trailing white space |
| Login.FindLogin | lib/canteen-context.tsx:410-412 | a found canteen matches the lower-cased trimmed staff id and the trimmed password; none iff no canteen matches |
| Login.LowerOfUpper | lib/canteen-context.tsx:411 | lower-casing forgets any upper-casing |
| Login.LoginIgnoresIdCase | lib/canteen-context.tsx:411 | the staff id is matched case-insensitively |
| Login.TrimPadded | lib/canteen-context.tsx:411 | trimming ignores surrounding spaces |
| Login.LoginIgnoresPadding | lib/canteen-context.tsx:411 | spaces around staff id and password do not change the login |
| Analytics.GetSlotsByCanteen | lib/canteen-context.tsx:430-435 | exactly the canteen's slots |
| Analytics.GetStockImpact | lib/canteen-context.tsx:441-456 | one row per line, named after the line's food, with the food's current stock (0 for a food no longer in the catalog), the stock after the line (current − quantity), and flagged low iff that is under 10 |
| Analytics.FindSlot | lib/canteen-context.tsx:460 | a found slot matches (time, canteen); none iff no slot matches |
| Analytics.GetSlotImpact | lib/canteen-context.tsx:458-471 | no matching slot gives all zeros and no overload; otherwise the fill now, the fill after one more booking and the capacity |
| Analytics.SlotImpactMatchesRatio | lib/canteen-context.tsx:466 | the overload flag is `afterFill / capacity > 0.9`, a zero capacity being an overload |
| Analytics.SlotImpactPredictsBooking | lib/canteen-context.tsx:458-471 | the preview's afterFill is what a booking then leaves in the first matching slot |
| Analytics.GetWaitingStudents | lib/canteen-context.tsx:473-480 | the waiting count never exceeds the number of orders; its exact value, the size of the New, Accepted and Preparing columns, is `Dashboard.WaitingIsFirstThreeColumns` |
| Analytics.GetDelayedOrders | lib/canteen-context.tsx:482-500 | exactly the canteen's orders that are late for their status |
| Analytics.DelayMatchesMinutes | lib/canteen-context.tsx:489-496 | the integer test is the minute-based test: New > 3, Accepted > 5, Preparing > 10 minutes |
| Analytics.DelayIsMonotone | lib/canteen-context.tsx:482-500 | a late order stays late as time passes |
| Analytics.SelloutWindow | lib/canteen-context.tsx:508-516 | a prediction is made only when stock lasts less than two hours (3q < d) |
| Analytics.PredictSelloutTime | lib/canteen-context.tsx:502-517 | no prediction for an unknown item or at 20 or more in stock; below 20 the window of stock against daily demand |
| Analytics.PredictionIsHoursLeft | lib/canteen-context.tsx:505-516 | with positive demand, the prediction is the 0.5 / 1 / 2 hour bucket of `quantity / (dailyDemand / 6)` |
| Analytics.HoursLeftBelow | lib/canteen-context.tsx:508-509 | `hoursLeft < 6/n` with hoursLeft = q / (d/6) is n·q < d |
| Analytics.SelloutMatchesHours | lib/canteen-context.tsx:508-516 | the integer buckets are the source's 0.5 / 1 / 2 hour buckets of `hoursLeft` |
| Analytics.SelloutWithoutDemand | lib/canteen-context.tsx:508-516 | with no daily demand a prediction ("30 minutes") is made only for negative stock, as the Infinity/NaN arithmetic does |
| Dashboard.CanAcceptIffPreview | app/canteen/page.tsx:55-60 | the gate passes iff every line's food exists and its stock covers the line |
| Dashboard.DeductOneLine | lib/canteen-context.tsx:597-607 | with one line naming a food and enough stock, acceptance deducts exactly that line |
| Dashboard.GatedAcceptMatchesPreview | app/canteen/page.tsx:55-74 | behind the gate, with distinct foods per order, acceptance leaves each stock at the preview's afterStock |
| Dashboard.GateChecksLinesSeparately | app/canteen/page.tsx:55-60 | an order naming one food twice passes the gate and empties that stock |
| Dashboard.Bucket | app/canteen/page.tsx:43-53 | a column holds exactly the canteen's orders of one status |
| Dashboard.OrdersByStatus | app/canteen/page.tsx:48-53 | each of the four columns holds exactly the canteen's orders of its status; rejected orders are in none |
| Dashboard.StatusSplit | app/canteen/page.tsx:48-53 | the five status filters split any order list |
| Dashboard.BucketsCoverCanteen | app/canteen/page.tsx:43-53 | the four columns and the rejected orders together count the canteen's orders |
| Dashboard.WaitingIsFirstThreeColumns | lib/canteen-context.tsx:473-480 | the waiting count is the size of the New, Accepted and Preparing columns |
| Dashboard.OfferedActions | app/canteen/page.tsx:181-218 | Ready and Rejected orders offer no button |
| Dashboard.OfferedIffDeskTransition | app/canteen/page.tsx:181-218 | the buttons offer exactly New→Rejected, New→Accepted, Accepted→Preparing and Preparing→Ready |
| Dashboard.EngineAcceptsAnyTransition | lib/canteen-context.tsx:570-614 | the engine stamps even a transition no button offers |
| Dashboard.FindOrder | app/canteen/page.tsx:63 | a found order has the id; none iff no order has it |
| Dashboard.HandleStatusUpdate | app/canteen/page.tsx:62-79 | the update is skipped iff accepting a known order that fails the gate; Preparing and Ready always go through; when it goes through the store performs the engine's status transition, otherwise nothing changes |
| Dashboard.HandleRejectOrder | app/canteen/page.tsx:81-88 | the engine's Rejected transition with the desk's fixed reason |
| Dashboard.DeskRejectRecordsReason | app/canteen/page.tsx:81-82 | the desk's rejection records "Insufficient stock or capacity", refunds the total and writes one refund entry naming the reason |
| Dashboard.FindImpact | app/canteen/page.tsx:130 | a found preview row has the name; none iff no row has it |
| Dashboard.FlagIffShort | app/canteen/page.tsx:129-131 | with distinct names per order, a line is flagged iff the order is New and the stock is below the line's quantity |
| Dashboard.AcceptableShowsNoShortage | app/canteen/page.tsx:93-131 | an order that passes the gate shows no flagged line |
| Menu.SetEntry | app/student/menu/page.tsx:71 | an existing key keeps its place, a new key is appended |
| Menu.SetEntryReads | app/student/menu/page.tsx:69-71 | the written key reads back its count; every other key reads as before |
| Menu.SetEntryKeys | app/student/menu/page.tsx:71 | writing a catalog key keeps the keys unique and in the catalog |
| Menu.Clamp | app/student/menu/page.tsx:70 | the new count is at least 0 and, for non-negative stock, at most the stock |
| Menu.UpdateCartClamps | app/student/menu/page.tsx:64-73 | an unknown item leaves the cart unchanged; otherwise the item reads max(0, min(current + delta, stock)), within [0, stock]; other items read as before |
| Menu.CartItems | app/student/menu/page.tsx:49-54 | only positive counts, each of a catalog food |
| Menu.CartItemsExact | app/student/menu/page.tsx:49-54 | an item is in `cartItems` iff its cart count is positive, and then with exactly that count and its catalog entry |
| Menu.CartTotalNonNegative | app/student/menu/page.tsx:56 | with non-negative prices the cart total is non-negative |
| Menu.FilteredItems | app/student/menu/page.tsx:41-47 | exactly the selected canteen's items, kept by the veg / non-veg / all choice |
| Menu.VegSplitsMenu | app/student/menu/page.tsx:41-47 | "all" is the canteen filter, and the veg and non-veg lists split it |
| Menu.FillingFastIsRatio | app/student/menu/page.tsx:284-290 | "Filling fast" shows only on a slot with places left, exactly when `filled / capacity > 0.85` |
| Menu.SelectableSlotStaysWithinCapacity | app/student/menu/page.tsx:284-287 | booking a selectable (not full) slot never passes its capacity |
| Menu.MenuPage.constructor | app/student/menu/page.tsx:34-37 | an empty cart, no checkout dialog, no slot, filter "all" |
| Menu.MenuPage.UpdateCart | app/student/menu/page.tsx:64-73 | the cart becomes the clamped update |
| Menu.MenuPage.HandleCanteenChange | app/student/menu/page.tsx:58-62 | selects the canteen and clears cart and slot |
| Menu.MenuPage.HandleOrder | app/student/menu/page.tsx:75-96 | no slot iff none selected; low balance iff a slot is chosen and the cart total exceeds the wallet; both change nothing; otherwise the store performs createOrder on the cart's items and the cart, slot and dialog are cleared; the failure branch is unreachable |
| Menu.MenuPage.Checkout | app/student/menu/page.tsx:86-92 | with a slot and enough balance the order is placed by the engine and the page is reset |
| Suggestions.OrderIds | app/canteen/suggestions/page.tsx:46 | the ids of the delayed orders, in order |
| Suggestions.SelloutFor | app/canteen/suggestions/page.tsx:54-72 | one sellout advice exactly when the item sells out soon |
| Suggestions.SelloutRules | app/canteen/suggestions/page.tsx:54-72 | every sellout advice is for stock under 15, asks at least 20 extra portions and counts at most the canteen's orders |
| Suggestions.SellsOutSoonWhen | app/canteen/suggestions/page.tsx:54-72 | an item gets advice iff q < 15 and 3q < d, and the advice carries the predicted window, q, the pending New orders holding it, and max(20, d − q) |
| Suggestions.SelloutCount | app/canteen/suggestions/page.tsx:54-72 | one sellout advice per canteen item that passes the test |
| Suggestions.CongestionRules | app/canteen/suggestions/page.tsx:75-93 | one congestion advice per overloaded slot, in slot order |
| Suggestions.CongestionCountsPending | app/canteen/suggestions/page.tsx:78-80 | the orders counted for a slot are those the slot board counts as pending |
| Suggestions.CongestedIsRatio | app/canteen/suggestions/page.tsx:75 | the integer test is `filled / capacity > 0.85`, leaving fewer than 15 % of the places; at no capacity any booking counts |
| Suggestions.CongestionCountsPendingAll | app/canteen/suggestions/page.tsx:76-93 | each congestion advice carries its slot's time, the slot board's pending count and the places left |
| Suggestions.FastRules | app/canteen/suggestions/page.tsx:96-108 | one fast-moving advice per fast-moving item, in catalog order |
| Suggestions.FastAlertsShortfall | app/canteen/suggestions/page.tsx:96-104 | every fast-moving advice has a shortfall above half its demand, so above 20 |
| Suggestions.AddCountReads | app/canteen/suggestions/page.tsx:114 | adding to a name adds to its count and to no other |
| Suggestions.AddCountNames | app/canteen/suggestions/page.tsx:114 | after adding, the tally knows the old names and the new one |
| Suggestions.AddCountUnique | app/canteen/suggestions/page.tsx:114 | adding keeps each name once |
| Suggestions.TallyLinesReads | app/canteen/suggestions/page.tsx:113-115 | the inner loop adds each line's portions to its name |
| Suggestions.TallyCountsPortions | app/canteen/suggestions/page.tsx:111-116 | `orderCounts` holds under each name exactly the portions ordered of it, each name once, and only names some line carries |
| Suggestions.EntryIsItsCount | app/canteen/suggestions/page.tsx:117 | with unique names an entry's count is what the name reads |
| Suggestions.TopItems | app/canteen/suggestions/page.tsx:117-119 | min(3, names) entries of the tally, in non-increasing count |
| Suggestions.TopItemsBeatTheRest | app/canteen/suggestions/page.tsx:117-119 | a name left out means three were kept, each counting at least as much |
| Suggestions.TrendingIffSold | app/canteen/suggestions/page.tsx:111-132 | the trending advice appears iff some canteen order has a line, and names foods with their summed portions |
| Suggestions.VegSplitsPortions | app/canteen/suggestions/page.tsx:135-142 | veg and non-veg portions add up to all portions |
| Suggestions.LowLoadIsHalfFull | app/canteen/suggestions/page.tsx:159-162 | the load advice fires iff the canteen has places and fewer than half are booked |
| Suggestions.SortKeepsRuleOrder | app/canteen/suggestions/page.tsx:190-191 | the rules are pushed already in priority order, so the stable sort returns them unchanged |
| Suggestions.DelayRule | app/canteen/suggestions/page.tsx:39-51 | the delay rule gives only delay advice |
| Suggestions.DelayFirst | app/canteen/suggestions/page.tsx:39-51 | the delay advice, when pushed, is the first on the list; otherwise the list has none |
| Suggestions.DelayAlertLeads | app/canteen/suggestions/page.tsx:39-51 | with late orders the first advice lists their ids in store order; without, no delay advice is shown |
| Suggestions.FiredSorted | app/canteen/suggestions/page.tsx:39-191 | the rules, pushed in page order and followed by the reminder, are already sorted by priority |
| Suggestions.ReminderOnlyAtEnd | app/canteen/suggestions/page.tsx:175-187 | the reminder is present iff fewer than three rules fired; no rule produces it |
| Suggestions.ReminderOnlyWhenFewRules | app/canteen/suggestions/page.tsx:175-187 | the reminder appears iff fewer than three rules fired, the page is never empty, and with the reminder it holds at most three |
| Suggestions.GroupsOfPage | app/canteen/suggestions/page.tsx:39-187 | each kind of advice on the list is exactly what its rule pushed |
| Suggestions.AdvicePerItemAndSlot | app/canteen/suggestions/page.tsx:54-108 | the page shows one sellout advice per qualifying item, one congestion advice per congested slot with its pending count, and the fast-moving advice of the fast movers |
| Suggestions.TrendingInPage | app/canteen/suggestions/page.tsx:121-132 | the trending advice is shown iff some canteen order has a line |
| Suggestions.VegShiftInPage | app/canteen/suggestions/page.tsx:144-155 | the veg advice is shown iff veg portions exceed 1.5 times the non-veg portions |
| Suggestions.LowLoadInPage | app/canteen/suggestions/page.tsx:159-173 | the load advice is shown iff fewer than half the canteen's places are booked |
| Suggestions.BuildSuggestions | app/canteen/suggestions/page.tsx:23-191 | the page's pushes, reminder and sort produce the specified list |
| Suggestions.PushRules | app/canteen/suggestions/page.tsx:39-173 | the rule pushes produce the fired rules in page order |
| Suggestions.PushSellouts | app/canteen/suggestions/page.tsx:54-72 | the `forEach` loop appends the sellout advice of the items |
| Suggestions.PushCongestion | app/canteen/suggestions/page.tsx:76-93 | the `forEach` loop appends one advice per overloaded slot |
| Suggestions.PushFastMoving | app/canteen/suggestions/page.tsx:97-108 | the `forEach` loop appends one advice per fast-moving item |
| Suggestions.CountOrders | app/canteen/suggestions/page.tsx:111-116 | the nested loop builds the tally specified by `TallyOrders` |
| Inventory.StockChange | app/canteen/inventory/page.tsx:26-31 | the catalog keeps its length |
| Inventory.HandleStockChange | app/canteen/inventory/page.tsx:26-31 | the catalog becomes the clamped stock change |
| Inventory.StockChangeAt | app/canteen/inventory/page.tsx:26-31 | with unique ids only the item's entry changes, to max(0, stock + delta) |
| Inventory.StockChangeNonNegative | app/canteen/inventory/page.tsx:29 | a button never leaves negative stock |
| Inventory.UnknownItemUnchanged | app/canteen/inventory/page.tsx:27-28 | an unknown id changes nothing |
| Inventory.PlusThenMinusRestores | app/canteen/inventory/page.tsx:98-117 | +5 then −5 restores a non-negative stock |
| Inventory.MinusOnLowStockEmpties | app/canteen/inventory/page.tsx:98 | −5 on fewer than 5 leaves 0 |
| Inventory.LowStock | app/canteen/inventory/page.tsx:41-52 | the alert names exactly the canteen's items under 10 in stock |
| Inventory.AlertShownIffLowStock | app/canteen/inventory/page.tsx:41 | the alert shows iff it has something to name |
| StudentOrders.StudentDelayIsStoreDelay | app/student/orders/page.tsx:25-34 | the student's late marker is the store's delay rule |
| StudentOrders.DelayedOrdersAreLateOrders | app/student/orders/page.tsx:25-34 | the desk's delayed list is the student page's late orders of one canteen |
| StudentOrders.MyOrders | app/student/orders/page.tsx:21-23 | exactly the student's orders (a permutation of them), newest first |
| StudentOrders.MyOrdersTiesKeepStoreOrder | app/student/orders/page.tsx:23 | orders created at the same instant keep the store's order |
| StudentOrders.IndexOf | app/student/orders/page.tsx:57 | the first position of the status, or −1 iff it is absent |
| StudentOrders.ProgressIndexNamesStep | app/student/orders/page.tsx:56-57 | the index is −1 iff Rejected, and otherwise names the order's own step |
| StudentOrders.ActiveStepsArePrefix | app/student/orders/page.tsx:122-123 | the lit steps are the first index + 1; all four when Ready, none when Rejected |
| StudentOrders.DeskStepsAdvanceOneStep | app/student/orders/page.tsx:16 | every desk button moves the tracker one step, except Reject, offered only on New |
| Slots.AlmostFullIsEightyPercent | app/canteen/slots/page.tsx:36-37 | with places, the integer test is `fillPercent >= 80` |
| Slots.BadgeOnlyBetweenEightyAndFull | app/canteen/slots/page.tsx:54 | the "Almost Full" badge shows only between 80 % and full |
| Slots.ProgressColour | app/canteen/slots/page.tsx:76-83 | a full slot with bookings is red; an almost-full one is never green |
| Slots.ColourFollowsPercent | app/canteen/slots/page.tsx:76-83 | red from 90 %, yellow from 70 %, green below |
| Slots.PendingIsWaitingForSlot | app/canteen/slots/page.tsx:24-41 | the pending count is the canteen's New, Accepted and Preparing orders for the slot |
| Slots.SummaryAddsUp | app/canteen/slots/page.tsx:113-118 | bookings plus available spots are the canteen's places |
| Slots.NoOverbookingNoDeficit | app/canteen/slots/page.tsx:118 | without an overbooked slot the available spots are never negative |
| Slots.BookingTakesASpot | app/canteen/slots/page.tsx:113-118 | each booking, even on a full slot, takes one available spot and adds one booking |
| SeqUtil.FilterIn | app/canteen/page.tsx:43 | `filter` keeps exactly the elements satisfying the predicate |
| SeqUtil.SortBy | app/student/orders/page.tsx:23 | the numeric-comparator sort returns a sorted permutation |
| SeqUtil.SortByStable | app/canteen/suggestions/page.tsx:191 | the sort is stable: elements of one key keep their order |
| SeqUtil.SortBySorted | app/canteen/suggestions/page.tsx:191 | an already sorted list is returned unchanged |

## Left out

- Persistence: the localStorage load and save of the state blob and of the logged-in canteen are I/O and are not modelled. The store starts from the seed catalog and slots it is given.
- The clock and id generation: `Date.now()` ids and ISO timestamps are parameters (`orderId`, `txId`, `now` in milliseconds). The source derives the order id and the ledger entry id from the same clock, so they can coincide; the model does not relate them.
- React scheduling: each command runs atomically. The stale `walletBalance` closure of `createOrder` and strict-mode double invocation of state updaters are not modelled.
- Floating-point display is left out: `Math.ceil(dailyDemand * 0.3)` students, `Math.ceil(gap * 1.2)` portions, `Math.round` percentages, the slot page's overall fill `toFixed` and the progress-bar width. Ratio tests are modelled through integer cross-multiplication, proved equal to the real-number ratio.
- Text: advice titles, descriptions and toasts are not modelled, only the values they carry. Lower-casing and trimming cover ASCII letters and ASCII white space, not full Unicode.
- Menu.CartItems: the cart is an insertion-ordered association list. JavaScript enumerates integer-like object keys in numeric order first, so `cartItems` may list lines in a different order; the lines and the total are the same.
- `dailyDemand`, `capacity` and `filled` are natural numbers where the source types them as `number`: the seed values are non-negative, and no operation lowers them (`filled` only grows by one per booking).
- The `image` and `avgPrepTime` fields of a food item are carried but never read.
- SeqUtil.SortBy: a functional stable insertion sort stands in for the in-place `Array.prototype.sort`; only the result is modelled.
- The trivial setters `setFilter` and `setSelectedSlot` of the menu page are plain field writes and are not modelled separately.
- The staff pages redirect to the landing page when nobody is logged in; the model takes the logged-in canteen's id as a parameter.
- Menu.MenuPage.HandleOrder: the "Order failed" branch is proved unreachable, because the page checks the balance before calling `createOrder`.
- The student assistant, wallet, landing and layout pages and the sidebars are not part of this model.
