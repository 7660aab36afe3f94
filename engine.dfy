/** The order engine of lib/canteen-context.tsx as pure transitions on a snapshot of the
    five pieces of state. The class in store.dfy is proved to perform exactly these
    transitions; the lemmas here say what they promise. */
module Engine {
  import opened CanteenTypes

  /** The persisted part of the store: catalog, orders, wallet, ledger and slots. */
  datatype Store = Store(
    foodItems: seq<FoodItem>,
    orders: seq<Order>,
    walletBalance: int,
    transactions: seq<Transaction>,
    timeSlots: seq<TimeSlot>)

  // ---------------------------------------------------------------- money

  function LineCost(line: LineItem): int {
    line.foodItem.price * line.quantity
  }

  /** `items.reduce((sum, item) => sum + item.foodItem.price * item.quantity, 0)`. */
  function OrderTotal(lines: seq<LineItem>): int
    decreases |lines|
  {
    if lines == [] then 0 else OrderTotal(lines[..|lines| - 1]) + LineCost(lines[|lines| - 1])
  }

  lemma {:induction false} OrderTotalAppend(a: seq<LineItem>, b: seq<LineItem>)
    ensures OrderTotal(a + b) == OrderTotal(a) + OrderTotal(b)
    decreases |b|
  {
    if b == [] {
      assert a + b == a;
    } else {
      assert (a + b)[..|a + b| - 1] == a + b[..|b| - 1];
      OrderTotalAppend(a, b[..|b| - 1]);
    }
  }

  /** With non-negative prices and counts an order never costs less than nothing. */
  lemma {:induction false} OrderTotalNonNegative(lines: seq<LineItem>)
    requires forall k :: 0 <= k < |lines| ==> lines[k].foodItem.price >= 0 && lines[k].quantity >= 0
    ensures OrderTotal(lines) >= 0
    decreases |lines|
  {
    if lines != [] {
      OrderTotalNonNegative(lines[..|lines| - 1]);
    }
  }

  /** What a ledger entry does to the balance. */
  function Signed(t: Transaction): int {
    match t.kind
    case Debit => -t.amount
    case Credit => t.amount
    case Refund => t.amount
  }

  /** The balance the ledger accounts for: credits and refunds minus debits. */
  function LedgerBalance(txs: seq<Transaction>): int
    decreases |txs|
  {
    if txs == [] then 0 else LedgerBalance(txs[..|txs| - 1]) + Signed(txs[|txs| - 1])
  }

  lemma {:induction false} LedgerAppend(a: seq<Transaction>, b: seq<Transaction>)
    ensures LedgerBalance(a + b) == LedgerBalance(a) + LedgerBalance(b)
    decreases |b|
  {
    if b == [] {
      assert a + b == a;
    } else {
      assert (a + b)[..|a + b| - 1] == a + b[..|b| - 1];
      LedgerAppend(a, b[..|b| - 1]);
    }
  }

  /** The wallet balance is what its append-only ledger adds up to. */
  ghost predicate LedgerConsistent(st: Store) {
    st.walletBalance == LedgerBalance(st.transactions)
  }

  // ---------------------------------------------------------------- createOrder

  predicate SlotMatches(slot: TimeSlot, slotTime: string, canteenId: string) {
    slot.time == slotTime && slot.canteenId == canteenId
  }

  /** The slots map at lines 559-563: one more booking on every matching slot, capacity unchecked. */
  function BookSlot(slots: seq<TimeSlot>, slotTime: string, canteenId: string): seq<TimeSlot> {
    seq(|slots|, i requires 0 <= i < |slots| =>
      if SlotMatches(slots[i], slotTime, canteenId) then slots[i].(filled := slots[i].filled + 1) else slots[i])
  }

  function NewOrder(studentId: string, studentName: string, items: seq<LineItem>, canteenId: string,
                    slotTime: string, orderId: string, now: int): Order
  {
    Order(orderId, studentId, studentName, items, OrderTotal(items), New, canteenId, now,
          None, None, None, slotTime, None)
  }

  function DebitEntry(orderId: string, amount: int, txId: string, now: int): Transaction {
    Transaction(txId, Debit, amount, "Order " + orderId, now)
  }

  /** `createOrder`: the total is checked against the balance, and only then are the order,
      the debit, the ledger entry and the slot booking made. The id, the ledger entry id and
      the clock are inputs. */
  function CreateOrderSpec(st: Store, studentId: string, studentName: string, items: seq<LineItem>,
                           canteenId: string, slotTime: string, orderId: string, txId: string,
                           now: int): (r: (Store, bool))
    ensures r.1 <==> OrderTotal(items) <= st.walletBalance
    ensures !r.1 ==> r.0 == st
    ensures r.1 ==>
      && r.0.orders == st.orders + [NewOrder(studentId, studentName, items, canteenId, slotTime, orderId, now)]
      && r.0.walletBalance == st.walletBalance - OrderTotal(items)
      && r.0.transactions == st.transactions + [DebitEntry(orderId, OrderTotal(items), txId, now)]
      && r.0.foodItems == st.foodItems
    ensures r.1 ==> |r.0.timeSlots| == |st.timeSlots|
    ensures r.1 ==> forall i :: 0 <= i < |st.timeSlots| ==>
      && r.0.timeSlots[i].filled == st.timeSlots[i].filled + (if SlotMatches(st.timeSlots[i], slotTime, canteenId) then 1 else 0)
      && r.0.timeSlots[i].(filled := 0) == st.timeSlots[i].(filled := 0)
  {
    var total := OrderTotal(items);
    if total > st.walletBalance then (st, false)
    else
      (st.(orders := st.orders + [NewOrder(studentId, studentName, items, canteenId, slotTime, orderId, now)],
           walletBalance := st.walletBalance - total,
           transactions := st.transactions + [DebitEntry(orderId, total, txId, now)],
           timeSlots := BookSlot(st.timeSlots, slotTime, canteenId)),
       true)
  }

  /** A successful order keeps the wallet equal to what the ledger adds up to. */
  lemma CreateOrderKeepsLedger(st: Store, studentId: string, studentName: string, items: seq<LineItem>,
                               canteenId: string, slotTime: string, orderId: string, txId: string, now: int)
    requires LedgerConsistent(st)
    ensures LedgerConsistent(CreateOrderSpec(st, studentId, studentName, items, canteenId, slotTime, orderId, txId, now).0)
  {
    var total := OrderTotal(items);
    if total <= st.walletBalance {
      LedgerAppend(st.transactions, [DebitEntry(orderId, total, txId, now)]);
      assert [DebitEntry(orderId, total, txId, now)][..0] == [];
    }
  }

  /** Nothing stops a booking on a slot that is already full: it ends up overbooked. */
  lemma CreateOrderOverbooks(st: Store, studentId: string, studentName: string, items: seq<LineItem>,
                             canteenId: string, slotTime: string, orderId: string, txId: string,
                             now: int, i: int)
    requires 0 <= i < |st.timeSlots| && SlotMatches(st.timeSlots[i], slotTime, canteenId)
    requires st.timeSlots[i].filled >= st.timeSlots[i].capacity
    requires OrderTotal(items) <= st.walletBalance
    ensures CreateOrderSpec(st, studentId, studentName, items, canteenId, slotTime, orderId, txId, now).1
    ensures CreateOrderSpec(st, studentId, studentName, items, canteenId, slotTime, orderId, txId, now).0.timeSlots[i].filled
            > st.timeSlots[i].capacity
  {
  }

  // ---------------------------------------------------------------- updateOrderStatus

  /** The fields `{ ...order, ...updates }` sets: the status, the stamp of that status, and for a
      rejection the reason, "Insufficient stock" when none (or an empty one) is given. */
  function Stamp(o: Order, status: Status, reason: Option<string>, now: int): Order {
    o.(status := status,
       acceptedAt := if status == Accepted then Some(now) else o.acceptedAt,
       preparingAt := if status == Preparing then Some(now) else o.preparingAt,
       readyAt := if status == Ready then Some(now) else o.readyAt,
       rejectionReason := if status == Rejected then Some(OrElse(reason, "Insufficient stock")) else o.rejectionReason)
  }

  /** `prev.map(order => order.id === orderId ? stamped : order)`. */
  function StampAll(orders: seq<Order>, orderId: string, status: Status, reason: Option<string>, now: int): (r: seq<Order>)
    ensures |r| == |orders|
    decreases |orders|
  {
    if orders == [] then []
    else
      var o := orders[|orders| - 1];
      StampAll(orders[..|orders| - 1], orderId, status, reason, now) + [if o.id == orderId then Stamp(o, status, reason, now) else o]
  }

  lemma {:induction false} StampAllAt(orders: seq<Order>, orderId: string, status: Status, reason: Option<string>, now: int, k: int)
    requires 0 <= k < |orders|
    ensures StampAll(orders, orderId, status, reason, now)[k] ==
            if orders[k].id == orderId then Stamp(orders[k], status, reason, now) else orders[k]
    decreases |orders|
  {
    if k < |orders| - 1 {
      StampAllAt(orders[..|orders| - 1], orderId, status, reason, now, k);
    }
  }

  function RefundEntry(o: Order, reason: Option<string>, txId: string, now: int): Transaction {
    Transaction(txId, Refund, o.totalAmount, "Refund for " + o.id + " - " + OrElse(reason, "Order rejected"), now)
  }

  /** One refund entry per order carrying the id, in order. */
  function Refunds(orders: seq<Order>, orderId: string, reason: Option<string>, txId: string, now: int): seq<Transaction>
    decreases |orders|
  {
    if orders == [] then []
    else
      var o := orders[|orders| - 1];
      Refunds(orders[..|orders| - 1], orderId, reason, txId, now) + (if o.id == orderId then [RefundEntry(o, reason, txId, now)] else [])
  }

  /** The sum of the totals of the orders carrying the id. */
  function RefundTotal(orders: seq<Order>, orderId: string): int
    decreases |orders|
  {
    if orders == [] then 0
    else
      var o := orders[|orders| - 1];
      RefundTotal(orders[..|orders| - 1], orderId) + (if o.id == orderId then o.totalAmount else 0)
  }

  /** The line items of the orders carrying the id, in order: what acceptance deducts. */
  function AcceptedLines(orders: seq<Order>, orderId: string): seq<LineItem>
    decreases |orders|
  {
    if orders == [] then []
    else
      var o := orders[|orders| - 1];
      AcceptedLines(orders[..|orders| - 1], orderId) + (if o.id == orderId then o.items else [])
  }

  /** One `prevItems.map(...)` of the accept path: the stock of every entry with the line's id
      drops by the line's count, floored at 0. */
  function DeductLine(items: seq<FoodItem>, line: LineItem): seq<FoodItem> {
    seq(|items|, i requires 0 <= i < |items| =>
      if items[i].id == line.foodItem.id then items[i].(quantity := Max(0, items[i].quantity - line.quantity))
      else items[i])
  }

  /** The `order.items.forEach` at lines 598-606: one DeductLine per line, in order. */
  function DeductAll(items: seq<FoodItem>, lines: seq<LineItem>): (r: seq<FoodItem>)
    ensures |r| == |items|
    decreases |lines|
  {
    if lines == [] then items else DeductLine(DeductAll(items, lines[..|lines| - 1]), lines[|lines| - 1])
  }

  /** `updateOrderStatus(orderId, status, reason)`: every order with the id is stamped; a rejection
      refunds each of them, an acceptance deducts each one's lines from the catalog. Nothing is
      checked about the current status. */
  function UpdateStatusSpec(st: Store, orderId: string, status: Status, reason: Option<string>,
                            txId: string, now: int): (r: Store)
    ensures r.timeSlots == st.timeSlots
    ensures |r.orders| == |st.orders|
    ensures status != Rejected ==> r.walletBalance == st.walletBalance && r.transactions == st.transactions
    ensures status != Accepted ==> r.foodItems == st.foodItems
  {
    st.(orders := StampAll(st.orders, orderId, status, reason, now),
        walletBalance := if status == Rejected then st.walletBalance + RefundTotal(st.orders, orderId) else st.walletBalance,
        transactions := if status == Rejected then st.transactions + Refunds(st.orders, orderId, reason, txId, now) else st.transactions,
        foodItems := if status == Accepted then DeductAll(st.foodItems, AcceptedLines(st.orders, orderId)) else st.foodItems)
  }

  /** Only the orders carrying the id change, and of them only the status, its stamp and the
      rejection reason: the items, the total, the slot and the creation time stay as created. */
  lemma UpdateStatusOrders(st: Store, orderId: string, status: Status, reason: Option<string>, txId: string, now: int, k: int)
    requires 0 <= k < |st.orders|
    ensures var o := st.orders[k];
            var o' := UpdateStatusSpec(st, orderId, status, reason, txId, now).orders[k];
            && (o.id != orderId ==> o' == o)
            && (o.id == orderId ==>
                  && o'.status == status && o'.id == o.id && o'.items == o.items
                  && o'.totalAmount == o.totalAmount && o'.slotTime == o.slotTime && o'.canteenId == o.canteenId
                  && o'.createdAt == o.createdAt)
            && (o.id == orderId && status == Rejected ==> o'.rejectionReason == Some(OrElse(reason, "Insufficient stock")))
            && (o.id == orderId && status == Accepted ==> o'.acceptedAt == Some(now))
  {
    StampAllAt(st.orders, orderId, status, reason, now, k);
  }

  lemma {:induction false} NoMatchNothing(orders: seq<Order>, orderId: string, status: Status, reason: Option<string>, txId: string, now: int)
    requires forall k :: 0 <= k < |orders| ==> orders[k].id != orderId
    ensures StampAll(orders, orderId, status, reason, now) == orders
    ensures RefundTotal(orders, orderId) == 0
    ensures Refunds(orders, orderId, reason, txId, now) == []
    ensures AcceptedLines(orders, orderId) == []
    decreases |orders|
  {
    if orders != [] {
      NoMatchNothing(orders[..|orders| - 1], orderId, status, reason, txId, now);
    }
  }

  /** An unknown order id changes nothing at all. */
  lemma UnknownOrderIsNoOp(st: Store, orderId: string, status: Status, reason: Option<string>, txId: string, now: int)
    requires forall k :: 0 <= k < |st.orders| ==> st.orders[k].id != orderId
    ensures UpdateStatusSpec(st, orderId, status, reason, txId, now) == st
  {
    NoMatchNothing(st.orders, orderId, status, reason, txId, now);
  }

  lemma {:induction false} RefundsBalance(orders: seq<Order>, orderId: string, reason: Option<string>, txId: string, now: int)
    ensures LedgerBalance(Refunds(orders, orderId, reason, txId, now)) == RefundTotal(orders, orderId)
    decreases |orders|
  {
    if orders != [] {
      var n := |orders| - 1;
      var o := orders[n];
      RefundsBalance(orders[..n], orderId, reason, txId, now);
      var extra := if o.id == orderId then [RefundEntry(o, reason, txId, now)] else [];
      LedgerAppend(Refunds(orders[..n], orderId, reason, txId, now), extra);
      if o.id == orderId {
        assert extra[..0] == [];
      }
    }
  }

  /** Every transition keeps the wallet equal to what the ledger adds up to. */
  lemma UpdateStatusKeepsLedger(st: Store, orderId: string, status: Status, reason: Option<string>, txId: string, now: int)
    requires LedgerConsistent(st)
    ensures LedgerConsistent(UpdateStatusSpec(st, orderId, status, reason, txId, now))
  {
    if status == Rejected {
      RefundsBalance(st.orders, orderId, reason, txId, now);
      LedgerAppend(st.transactions, Refunds(st.orders, orderId, reason, txId, now));
    }
  }

  lemma {:induction false} UniqueMatch(orders: seq<Order>, orderId: string, reason: Option<string>, txId: string, now: int, k: int)
    requires 0 <= k < |orders| && orders[k].id == orderId
    requires forall j :: 0 <= j < |orders| && j != k ==> orders[j].id != orderId
    ensures RefundTotal(orders, orderId) == orders[k].totalAmount
    ensures Refunds(orders, orderId, reason, txId, now) == [RefundEntry(orders[k], reason, txId, now)]
    ensures AcceptedLines(orders, orderId) == orders[k].items
    decreases |orders|
  {
    var n := |orders| - 1;
    if k < n {
      UniqueMatch(orders[..n], orderId, reason, txId, now, k);
    } else {
      NoMatchNothing(orders[..n], orderId, Rejected, reason, txId, now);
    }
  }

  /** Rejecting the one order with a given id refunds exactly its total, with one refund entry. */
  lemma RejectRefundsOnce(st: Store, orderId: string, reason: Option<string>, txId: string, now: int, k: int)
    requires 0 <= k < |st.orders| && st.orders[k].id == orderId
    requires forall j :: 0 <= j < |st.orders| && j != k ==> st.orders[j].id != orderId
    ensures var r := UpdateStatusSpec(st, orderId, Rejected, reason, txId, now);
            && r.walletBalance == st.walletBalance + st.orders[k].totalAmount
            && r.transactions == st.transactions + [RefundEntry(st.orders[k], reason, txId, now)]
            && r.foodItems == st.foodItems && r.timeSlots == st.timeSlots
            && r.orders[k].status == Rejected
            && r.orders[k].rejectionReason == Some(OrElse(reason, "Insufficient stock"))
  {
    UniqueMatch(st.orders, orderId, reason, txId, now, k);
    StampAllAt(st.orders, orderId, Rejected, reason, now, k);
  }

  lemma {:induction false} StampKeepsRefundTotal(orders: seq<Order>, orderId: string, status: Status, reason: Option<string>, now: int)
    ensures RefundTotal(StampAll(orders, orderId, status, reason, now), orderId) == RefundTotal(orders, orderId)
    decreases |orders|
  {
    if orders != [] {
      var n := |orders| - 1;
      StampKeepsRefundTotal(orders[..n], orderId, status, reason, now);
      var r := StampAll(orders, orderId, status, reason, now);
      assert r[..n] == StampAll(orders[..n], orderId, status, reason, now);
    }
  }

  /** The engine does not look at the current status: rejecting twice refunds twice. */
  lemma RejectTwiceRefundsTwice(st: Store, orderId: string, reason: Option<string>, txId: string, now: int)
    ensures var once := UpdateStatusSpec(st, orderId, Rejected, reason, txId, now);
            var twice := UpdateStatusSpec(once, orderId, Rejected, reason, txId, now);
            twice.walletBalance == st.walletBalance + 2 * RefundTotal(st.orders, orderId)
  {
    StampKeepsRefundTotal(st.orders, orderId, Rejected, reason, now);
  }

  /** The four folds over a prefix one order longer: what one step of the walk over the orders adds. */
  lemma PrefixStep(orders: seq<Order>, i: int, orderId: string, status: Status, reason: Option<string>, txId: string, now: int)
    requires 0 <= i < |orders|
    ensures var o := orders[i];
            && StampAll(orders[..i + 1], orderId, status, reason, now)
               == StampAll(orders[..i], orderId, status, reason, now) + [if o.id == orderId then Stamp(o, status, reason, now) else o]
            && RefundTotal(orders[..i + 1], orderId) == RefundTotal(orders[..i], orderId) + (if o.id == orderId then o.totalAmount else 0)
            && Refunds(orders[..i + 1], orderId, reason, txId, now)
               == Refunds(orders[..i], orderId, reason, txId, now) + (if o.id == orderId then [RefundEntry(o, reason, txId, now)] else [])
            && AcceptedLines(orders[..i + 1], orderId) == AcceptedLines(orders[..i], orderId) + (if o.id == orderId then o.items else [])
  {
    assert orders[..i + 1][..i] == orders[..i];
  }

  // ---------------------------------------------------------------- stock deduction

  lemma {:induction false} DeductAllShape(items: seq<FoodItem>, lines: seq<LineItem>, i: int)
    requires 0 <= i < |items|
    ensures |DeductAll(items, lines)| == |items|
    ensures DeductAll(items, lines)[i].(quantity := 0) == items[i].(quantity := 0)
    ensures DeductAll(items, lines)[i].quantity >= 0 || DeductAll(items, lines)[i].quantity == items[i].quantity
    ensures (forall k :: 0 <= k < |lines| ==> lines[k].foodItem.id != items[i].id) ==>
              DeductAll(items, lines)[i] == items[i]
    decreases |lines|
  {
    if lines != [] {
      DeductAllShape(items, lines[..|lines| - 1], i);
    }
  }

  /** Accepting never drives stock below zero, changes only quantities, and leaves every entry
      that no line mentions exactly as it was. */
  lemma AcceptKeepsStockNonNegative(st: Store, orderId: string, txId: string, now: int)
    requires forall i :: 0 <= i < |st.foodItems| ==> st.foodItems[i].quantity >= 0
    ensures var r := UpdateStatusSpec(st, orderId, Accepted, None, txId, now);
            && |r.foodItems| == |st.foodItems|
            && (forall i :: 0 <= i < |r.foodItems| ==> r.foodItems[i].quantity >= 0)
            && (forall i :: 0 <= i < |r.foodItems| ==> r.foodItems[i].(quantity := 0) == st.foodItems[i].(quantity := 0))
  {
    var r := UpdateStatusSpec(st, orderId, Accepted, None, txId, now);
    var lines := AcceptedLines(st.orders, orderId);
    forall i | 0 <= i < |st.foodItems|
      ensures |r.foodItems| == |st.foodItems| && r.foodItems[i].quantity >= 0
      ensures r.foodItems[i].(quantity := 0) == st.foodItems[i].(quantity := 0)
    {
      DeductAllShape(st.foodItems, lines, i);
    }
  }

  /** Deducting two runs of lines is deducting the first run and then the second. */
  lemma {:induction false} DeductAllAppend(items: seq<FoodItem>, a: seq<LineItem>, b: seq<LineItem>)
    ensures DeductAll(items, a + b) == DeductAll(DeductAll(items, a), b)
    decreases |b|
  {
    if b == [] {
      assert a + b == a;
    } else {
      assert (a + b)[..|a + b| - 1] == a + b[..|b| - 1];
      DeductAllAppend(items, a, b[..|b| - 1]);
    }
  }

  lemma {:induction false} DeductAllIds(items: seq<FoodItem>, lines: seq<LineItem>)
    requires UniqueIds(items)
    ensures UniqueIds(DeductAll(items, lines))
    decreases |lines|
  {
    if lines != [] {
      DeductAllIds(items, lines[..|lines| - 1]);
    }
  }

  // ---------------------------------------------------------------- updateFoodStock

  /** `updateFoodStock(itemId, quantity)`: every entry with the id gets that quantity, unclamped. */
  function SetStock(items: seq<FoodItem>, itemId: string, quantity: int): seq<FoodItem> {
    seq(|items|, i requires 0 <= i < |items| => if items[i].id == itemId then items[i].(quantity := quantity) else items[i])
  }

  // ---------------------------------------------------------------- a whole scenario

  /** An order placed and then rejected: the wallet is back where it started, the ledger holds the
      debit and the refund, but the slot keeps the booking the order made. */
  lemma PlaceThenRejectKeepsBooking(st: Store, studentId: string, studentName: string, items: seq<LineItem>,
                                    canteenId: string, slotTime: string, orderId: string,
                                    txId: string, now: int, reason: Option<string>, txId2: string, later: int)
    requires forall k :: 0 <= k < |st.orders| ==> st.orders[k].id != orderId
    requires OrderTotal(items) <= st.walletBalance
    ensures var placed := CreateOrderSpec(st, studentId, studentName, items, canteenId, slotTime, orderId, txId, now).0;
            var rejected := UpdateStatusSpec(placed, orderId, Rejected, reason, txId2, later);
            && rejected.walletBalance == st.walletBalance
            && rejected.transactions == st.transactions + [DebitEntry(orderId, OrderTotal(items), txId, now),
                                                          RefundEntry(placed.orders[|st.orders|], reason, txId2, later)]
            && rejected.orders[|st.orders|].status == Rejected
            && rejected.timeSlots == BookSlot(st.timeSlots, slotTime, canteenId)
  {
    var placed := CreateOrderSpec(st, studentId, studentName, items, canteenId, slotTime, orderId, txId, now).0;
    var k := |st.orders|;
    assert placed.orders[k].id == orderId;
    RejectRefundsOnce(placed, orderId, reason, txId2, later, k);
  }
}
