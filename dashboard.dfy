/** The order desk of a canteen (app/canteen/page.tsx): the stock gate in front of Accept, the
    commands behind the status buttons, the status columns, which buttons each status shows, and
    the per-line shortage flag of a New order. */
module Dashboard {
  import opened CanteenTypes
  import opened SeqUtil
  import opened Engine
  import opened Analytics
  import StoreClass

  // ---------------------------------------------------------------- canAcceptOrder

  /** The line's item is in the catalog with at least the requested stock. */
  predicate LineCovered(items: seq<FoodItem>, line: LineItem) {
    FindFood(items, line.foodItem.id).Some? && FindFood(items, line.foodItem.id).value.quantity >= line.quantity
  }

  /** `canAcceptOrder(order)`: every line is covered by the current catalog. */
  predicate CanAcceptOrder(items: seq<FoodItem>, order: Order) {
    forall k :: 0 <= k < |order.items| ==> LineCovered(items, order.items[k])
  }

  /** The gate and the stock preview agree: an order passes exactly when every line's item is in
      the catalog and its previewed stock after acceptance is not negative. */
  lemma CanAcceptIffPreview(items: seq<FoodItem>, order: Order)
    ensures CanAcceptOrder(items, order) <==>
            forall k :: 0 <= k < |order.items| ==>
              FindFood(items, order.items[k].foodItem.id).Some? && GetStockImpact(items, order)[k].afterStock >= 0
  {
    var r := GetStockImpact(items, order);
    forall k | 0 <= k < |order.items|
      ensures LineCovered(items, order.items[k]) <==>
              FindFood(items, order.items[k].foodItem.id).Some? && r[k].afterStock >= 0
    {
      assert r[k] == LineImpact(items, order.items[k]);
    }
  }

  /** Each line lowers only its own item's entry; with one line per item and enough stock, that
      entry drops by exactly the line's count. */
  lemma {:induction false} DeductOneLine(items: seq<FoodItem>, lines: seq<LineItem>, i: int, m: int)
    requires 0 <= i < |items| && 0 <= m < |lines|
    requires lines[m].foodItem.id == items[i].id
    requires forall j :: 0 <= j < |lines| && j != m ==> lines[j].foodItem.id != items[i].id
    requires items[i].quantity >= lines[m].quantity
    ensures DeductAll(items, lines)[i].quantity == items[i].quantity - lines[m].quantity
    decreases |lines|
  {
    var n := |lines| - 1;
    if m == n {
      var before := lines[..n];
      assert forall j :: 0 <= j < |before| ==> before[j].foodItem.id != items[i].id by {
        forall j | 0 <= j < |before| ensures before[j].foodItem.id != items[i].id {
          assert before[j] == lines[j];
        }
      }
      DeductAllShape(items, before, i);
    } else {
      var before := lines[..n];
      assert before[m] == lines[m];
      assert forall j :: 0 <= j < |before| && j != m ==> before[j].foodItem.id != items[i].id by {
        forall j | 0 <= j < |before| && j != m ensures before[j].foodItem.id != items[i].id {
          assert before[j] == lines[j];
        }
      }
      DeductOneLine(items, before, i, m);
      DeductAllShape(items, before, i);
    }
  }

  /** What the preview promises is what acceptance does: for the only order with the id, whose
      lines name distinct items that pass the gate, the stock of a line's item after acceptance is
      the previewed `afterStock` (the floor at 0 never bites). */
  lemma GatedAcceptMatchesPreview(st: Store, orderId: string, m: int, k: int, i: int, txId: string, now: int)
    requires UniqueIds(st.foodItems)
    requires 0 <= m < |st.orders| && st.orders[m].id == orderId
    requires forall j :: 0 <= j < |st.orders| && j != m ==> st.orders[j].id != orderId
    requires var lines := st.orders[m].items;
             forall a, b :: 0 <= a < b < |lines| ==> lines[a].foodItem.id != lines[b].foodItem.id
    requires CanAcceptOrder(st.foodItems, st.orders[m])
    requires 0 <= k < |st.orders[m].items| && 0 <= i < |st.foodItems|
    requires st.foodItems[i].id == st.orders[m].items[k].foodItem.id
    ensures UpdateStatusSpec(st, orderId, Accepted, None, txId, now).foodItems[i].quantity
            == GetStockImpact(st.foodItems, st.orders[m])[k].afterStock
  {
    var order := st.orders[m];
    UniqueMatch(st.orders, orderId, None, txId, now, m);
    FindFoodUnique(st.foodItems, i);
    assert LineCovered(st.foodItems, order.items[k]);
    DeductOneLine(st.foodItems, order.items, i, k);
  }

  /** The gate looks at each line on its own: two lines of the same item, each within the stock
      but not together, pass it, and acceptance then floors the stock at 0 instead of going short. */
  lemma GateChecksLinesSeparately()
    ensures var dosa := FoodItem("1", "Masala Dosa", 50, "", true, 5, "canteen-1", 10, 30);
            var order := Order("ORD-1", "student-1", "Rahul Kumar", [LineItem(dosa, 3), LineItem(dosa, 3)], 300,
                               New, "canteen-1", 0, None, None, None, "12:00 PM", None);
            var st := Store([dosa], [order], 0, [], []);
            && CanAcceptOrder(st.foodItems, order)
            && UpdateStatusSpec(st, "ORD-1", Accepted, None, "t-1", 0).foodItems[0].quantity == 0
  {
    var dosa := FoodItem("1", "Masala Dosa", 50, "", true, 5, "canteen-1", 10, 30);
    var lines := [LineItem(dosa, 3), LineItem(dosa, 3)];
    var order := Order("ORD-1", "student-1", "Rahul Kumar", lines, 300,
                       New, "canteen-1", 0, None, None, None, "12:00 PM", None);
    assert [order][..0] == [];
    assert AcceptedLines([order], "ORD-1") == lines;
    assert lines[..1][..0] == [];
    assert DeductAll([dosa], lines[..1])[0].quantity == 2;
  }

  // ---------------------------------------------------------------- ordersByStatus

  function StatusIs(s: Status): Order -> bool {
    (o: Order) => o.status == s
  }

  /** The four columns of the board. */
  datatype Buckets = Buckets(newOrders: seq<Order>, accepted: seq<Order>, preparing: seq<Order>, ready: seq<Order>)

  function Bucket(orders: seq<Order>, canteenId: string, s: Status): (r: seq<Order>)
    ensures forall o :: o in r <==> o in orders && o.canteenId == canteenId && o.status == s
  {
    var mine := Filter(orders, OrderInCanteen(canteenId));
    FilterIn(orders, OrderInCanteen(canteenId));
    FilterIn(mine, StatusIs(s));
    Filter(mine, StatusIs(s))
  }

  /** `ordersByStatus`: each column holds exactly the canteen's orders of that status. */
  function OrdersByStatus(orders: seq<Order>, canteenId: string): (r: Buckets)
    ensures forall o :: o in r.newOrders <==> o in orders && o.canteenId == canteenId && o.status == New
    ensures forall o :: o in r.accepted <==> o in orders && o.canteenId == canteenId && o.status == Accepted
    ensures forall o :: o in r.preparing <==> o in orders && o.canteenId == canteenId && o.status == Preparing
    ensures forall o :: o in r.ready <==> o in orders && o.canteenId == canteenId && o.status == Ready
    ensures forall o: Order :: o.status == Rejected ==>
              o !in r.newOrders && o !in r.accepted && o !in r.preparing && o !in r.ready
  {
    Buckets(Bucket(orders, canteenId, New), Bucket(orders, canteenId, Accepted),
            Bucket(orders, canteenId, Preparing), Bucket(orders, canteenId, Ready))
  }

  /** The five status filters split any list of orders. */
  lemma {:induction false} StatusSplit(s: seq<Order>)
    ensures |Filter(s, StatusIs(New))| + |Filter(s, StatusIs(Accepted))| + |Filter(s, StatusIs(Preparing))|
            + |Filter(s, StatusIs(Ready))| + |Filter(s, StatusIs(Rejected))| == |s|
    decreases |s|
  {
    if s != [] {
      StatusSplit(s[..|s| - 1]);
    }
  }

  /** The columns hold every order of the canteen except the rejected ones, each once. */
  lemma BucketsCoverCanteen(orders: seq<Order>, canteenId: string)
    ensures var b := OrdersByStatus(orders, canteenId);
            var mine := Filter(orders, OrderInCanteen(canteenId));
            |b.newOrders| + |b.accepted| + |b.preparing| + |b.ready| + |Filter(mine, StatusIs(Rejected))| == |mine|
  {
    StatusSplit(Filter(orders, OrderInCanteen(canteenId)));
  }

  /** The waiting count of the store is the size of the first three columns. */
  lemma WaitingIsFirstThreeColumns(orders: seq<Order>, canteenId: string)
    ensures var b := OrdersByStatus(orders, canteenId);
            GetWaitingStudents(orders, canteenId) == |b.newOrders| + |b.accepted| + |b.preparing|
  {
    var mine := Filter(orders, OrderInCanteen(canteenId));
    FilterTwice(orders, OrderInCanteen(canteenId), StillWaiting(), WaitingIn(canteenId));
    WaitingSplit(mine);
  }

  function StillWaiting(): Order -> bool {
    (o: Order) => Waiting(o.status)
  }

  /** The waiting orders of a list are its New, Accepted and Preparing ones. */
  lemma {:induction false} WaitingSplit(s: seq<Order>)
    ensures |Filter(s, StillWaiting())|
            == |Filter(s, StatusIs(New))| + |Filter(s, StatusIs(Accepted))| + |Filter(s, StatusIs(Preparing))|
    decreases |s|
  {
    if s != [] {
      WaitingSplit(s[..|s| - 1]);
    }
  }

  // ---------------------------------------------------------------- the buttons

  /** The buttons of an order card. */
  datatype Action = Reject | Accept | StartPreparing | MarkReady

  /** The status each button asks the store for. */
  function Target(a: Action): Status {
    match a
    case Reject => Rejected
    case Accept => Accepted
    case StartPreparing => Preparing
    case MarkReady => Ready
  }

  /** The buttons a card shows for each status (lines 181-218): Reject and Accept on a New order,
      Start Preparing on an Accepted one, Mark Ready on a Preparing one, none afterwards. */
  function OfferedActions(s: Status): (r: seq<Action>)
    ensures s == Ready || s == Rejected ==> r == []
  {
    match s
    case New => [Reject, Accept]
    case Accepted => [StartPreparing]
    case Preparing => [MarkReady]
    case Ready => []
    case Rejected => []
  }

  /** Accept is disabled while the order fails the gate; every other button is always enabled. */
  predicate Enabled(a: Action, items: seq<FoodItem>, order: Order) {
    a == Accept ==> CanAcceptOrder(items, order)
  }

  /** The lifecycle the desk follows: New to Accepted or Rejected, then Preparing, then Ready. */
  predicate DeskTransition(from: Status, to: Status) {
    || (from == New && to == Accepted)
    || (from == New && to == Rejected)
    || (from == Accepted && to == Preparing)
    || (from == Preparing && to == Ready)
  }

  /** The buttons offer exactly the desk's transitions. */
  lemma OfferedIffDeskTransition(from: Status, to: Status)
    ensures (exists a :: a in OfferedActions(from) && Target(a) == to) <==> DeskTransition(from, to)
  {
    if DeskTransition(from, to) {
      match from
      case New => if to == Accepted { assert Accept in OfferedActions(from); } else { assert Reject in OfferedActions(from); }
      case Accepted => assert StartPreparing in OfferedActions(from);
      case Preparing => assert MarkReady in OfferedActions(from);
    }
  }

  /** The store itself does not look at the current status: any order, whatever its status, takes
      whatever status it is sent, also one the desk would never offer. */
  lemma EngineAcceptsAnyTransition(st: Store, k: int, to: Status, reason: Option<string>, txId: string, now: int)
    requires 0 <= k < |st.orders| && !DeskTransition(st.orders[k].status, to)
    ensures UpdateStatusSpec(st, st.orders[k].id, to, reason, txId, now).orders[k].status == to
  {
    UpdateStatusOrders(st, st.orders[k].id, to, reason, txId, now, k);
  }

  // ---------------------------------------------------------------- handleStatusUpdate / handleRejectOrder

  /** `orders.find(o => o.id === orderId)`. */
  function FindOrder(orders: seq<Order>, orderId: string): (r: Option<Order>)
    ensures r.Some? ==> r.value in orders && r.value.id == orderId
    ensures r.None? <==> forall k :: 0 <= k < |orders| ==> orders[k].id != orderId
  {
    if orders == [] then None
    else if orders[0].id == orderId then Some(orders[0])
    else FindOrder(orders[1..], orderId)
  }

  /** The one case `handleStatusUpdate` refuses: an Accept of a known order that fails the gate. */
  predicate AcceptBlocked(st: Store, orderId: string, newStatus: Status) {
    newStatus == Accepted && FindOrder(st.orders, orderId).Some?
    && !CanAcceptOrder(st.foodItems, FindOrder(st.orders, orderId).value)
  }

  /** `handleStatusUpdate(orderId, newStatus)`: forwards Accepted, Preparing or Ready to the store,
      except an Accept the gate refuses, which changes nothing. */
  method HandleStatusUpdate(store: StoreClass.CanteenStore, orderId: string, newStatus: Status, txId: string, now: int)
    returns (updated: bool)
    requires newStatus == Accepted || newStatus == Preparing || newStatus == Ready
    requires store.Valid()
    modifies store`orders, store`walletBalance, store`transactions, store`foodItems
    ensures store.Valid()
    ensures updated <==> !AcceptBlocked(old(store.State()), orderId, newStatus)
    ensures newStatus != Accepted ==> updated
    ensures updated ==> store.State() == UpdateStatusSpec(old(store.State()), orderId, newStatus, None, txId, now)
    ensures !updated ==> store.State() == old(store.State())
  {
    var order := FindOrder(store.orders, orderId);
    if newStatus == Accepted && order.Some? && !CanAcceptOrder(store.foodItems, order.value) {
      return false;
    }
    store.UpdateOrderStatus(orderId, newStatus, None, txId, now);
    return true;
  }

  const RejectReason: string := "Insufficient stock or capacity"

  /** `handleRejectOrder`, as the Reject button calls it: always with the desk's fixed reason. */
  method HandleRejectOrder(store: StoreClass.CanteenStore, orderId: string, txId: string, now: int)
    requires store.Valid()
    modifies store`orders, store`walletBalance, store`transactions, store`foodItems
    ensures store.Valid()
    ensures store.State() == UpdateStatusSpec(old(store.State()), orderId, Rejected, Some(RejectReason), txId, now)
  {
    store.UpdateOrderStatus(orderId, Rejected, Some(RejectReason), txId, now);
  }

  /** A rejection from the desk records the desk's reason on the order and in the refund entry,
      and refunds the order's total. */
  lemma DeskRejectRecordsReason(st: Store, m: int, txId: string, now: int)
    requires 0 <= m < |st.orders|
    requires forall j :: 0 <= j < |st.orders| && j != m ==> st.orders[j].id != st.orders[m].id
    ensures var o := st.orders[m];
            var r := UpdateStatusSpec(st, o.id, Rejected, Some(RejectReason), txId, now);
            && r.orders[m].rejectionReason == Some(RejectReason)
            && r.walletBalance == st.walletBalance + o.totalAmount
            && r.transactions == st.transactions
                 + [Transaction(txId, Refund, o.totalAmount, "Refund for " + o.id + " - " + RejectReason, now)]
  {
    RejectRefundsOnce(st, st.orders[m].id, Some(RejectReason), txId, now, m);
    assert RejectReason != "";
  }

  // ---------------------------------------------------------------- the shortage flag

  /** `stockImpact.find(s => s.itemName === name)`. */
  function FindImpact(impacts: seq<StockImpact>, name: string): (r: Option<StockImpact>)
    ensures r.Some? ==> r.value in impacts && r.value.itemName == name
    ensures r.None? <==> forall k :: 0 <= k < |impacts| ==> impacts[k].itemName != name
  {
    if impacts == [] then None
    else if impacts[0].itemName == name then Some(impacts[0])
    else FindImpact(impacts[1..], name)
  }

  /** A line row is marked short when the order is New and the preview found under the line's
      item name would leave a negative stock. */
  predicate LineFlagged(items: seq<FoodItem>, order: Order, line: LineItem) {
    var impact := FindImpact(GetStockImpact(items, order), line.foodItem.name);
    order.status == New && impact.Some? && impact.value.afterStock < 0
  }

  /** With distinct item names in the order, a line is marked short exactly when the order is New
      and the catalog holds less than the line asks for (nothing, if the item is gone). */
  lemma FlagIffShort(items: seq<FoodItem>, order: Order, k: int)
    requires 0 <= k < |order.items|
    requires forall a, b :: 0 <= a < b < |order.items| ==> order.items[a].foodItem.name != order.items[b].foodItem.name
    ensures LineFlagged(items, order, order.items[k]) <==>
            order.status == New && StockOf(items, order.items[k].foodItem.id) < order.items[k].quantity
  {
    var impacts := GetStockImpact(items, order);
    var name := order.items[k].foodItem.name;
    var found := FindImpact(impacts, name);
    assert impacts[k].itemName == name;
    var j :| 0 <= j < |impacts| && impacts[j] == found.value;
    assert j == k;
  }

  /** An order that passes the gate shows no line as short. */
  lemma AcceptableShowsNoShortage(items: seq<FoodItem>, order: Order, k: int)
    requires CanAcceptOrder(items, order) && 0 <= k < |order.items|
    ensures !LineFlagged(items, order, order.items[k])
  {
    var impacts := GetStockImpact(items, order);
    var found := FindImpact(impacts, order.items[k].foodItem.name);
    if found.Some? {
      var j :| 0 <= j < |impacts| && impacts[j] == found.value;
      assert LineCovered(items, order.items[j]);
    }
  }
}
