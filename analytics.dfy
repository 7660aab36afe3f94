/** The read-only queries the store offers its pages (lib/canteen-context.tsx, lines 430-517):
    slots of a canteen, stock and slot previews of an order, the waiting count, delayed orders
    and the sellout prediction. The clock is the input `now`, in milliseconds. */
module Analytics {
  import opened CanteenTypes
  import opened SeqUtil
  import opened Engine

  // ---------------------------------------------------------------- selections

  function SlotInCanteen(canteenId: string): TimeSlot -> bool {
    (s: TimeSlot) => s.canteenId == canteenId
  }

  function OrderInCanteen(canteenId: string): Order -> bool {
    (o: Order) => o.canteenId == canteenId
  }

  function ItemInCanteen(canteenId: string): FoodItem -> bool {
    (f: FoodItem) => f.canteenId == canteenId
  }

  /** `getSlotsByCanteen`: the canteen's slots, in the order the store keeps them. */
  function GetSlotsByCanteen(slots: seq<TimeSlot>, canteenId: string): (r: seq<TimeSlot>)
    ensures forall s :: s in r <==> s in slots && s.canteenId == canteenId
  {
    FilterIn(slots, SlotInCanteen(canteenId));
    Filter(slots, SlotInCanteen(canteenId))
  }

  // ---------------------------------------------------------------- getStockImpact

  /** What one line of an order would do to the stock if accepted. */
  datatype StockImpact = StockImpact(itemName: string, currentStock: int, afterStock: int, isLow: bool)

  function LineImpact(items: seq<FoodItem>, line: LineItem): StockImpact {
    var current := StockOf(items, line.foodItem.id);
    StockImpact(line.foodItem.name, current, current - line.quantity, current - line.quantity < 10)
  }

  /** `getStockImpact(order)`: one preview per line, in line order; a line whose item is no longer
      in the catalog is previewed against a stock of 0. */
  function GetStockImpact(items: seq<FoodItem>, order: Order): (r: seq<StockImpact>)
    ensures |r| == |order.items|
    ensures forall k :: 0 <= k < |r| ==> r[k].itemName == order.items[k].foodItem.name
    ensures forall k :: 0 <= k < |r| ==> (r[k].isLow <==> r[k].afterStock < 10)
    ensures forall k :: 0 <= k < |r| ==>
      && r[k].currentStock == StockOf(items, order.items[k].foodItem.id)
      && r[k].afterStock == r[k].currentStock - order.items[k].quantity
    ensures forall k :: 0 <= k < |r| ==>
      FindFood(items, order.items[k].foodItem.id).None? ==> r[k].afterStock == -order.items[k].quantity
  {
    seq(|order.items|, k requires 0 <= k < |order.items| => LineImpact(items, order.items[k]))
  }

  // ---------------------------------------------------------------- getSlotImpact

  datatype SlotImpact = SlotImpact(currentFill: int, afterFill: int, capacity: int, isOverload: bool)

  /** `timeSlots.find(...)`: the first slot with that time label at that canteen. */
  function FindSlot(slots: seq<TimeSlot>, slotTime: string, canteenId: string): (r: Option<TimeSlot>)
    ensures r.Some? ==> r.value in slots && SlotMatches(r.value, slotTime, canteenId)
    ensures r.None? <==> forall k :: 0 <= k < |slots| ==> !SlotMatches(slots[k], slotTime, canteenId)
  {
    if slots == [] then None
    else if SlotMatches(slots[0], slotTime, canteenId) then Some(slots[0])
    else FindSlot(slots[1..], slotTime, canteenId)
  }

  /** `afterFill / capacity > 0.9` over the integers: with capacity 0 the quotient is +Infinity
      (afterFill is at least 1), and the cross-multiplied form is true there as well. */
  predicate Overloaded(afterFill: nat, capacity: nat) {
    10 * afterFill > 9 * capacity
  }

  /** `getSlotImpact(slotTime, canteenId)`: the slot's fill now and after one more booking. */
  function GetSlotImpact(slots: seq<TimeSlot>, slotTime: string, canteenId: string): (r: SlotImpact)
    ensures FindSlot(slots, slotTime, canteenId).None? ==> r == SlotImpact(0, 0, 0, false)
    ensures FindSlot(slots, slotTime, canteenId).Some? ==>
      var s := FindSlot(slots, slotTime, canteenId).value;
      r.currentFill == s.filled && r.afterFill == s.filled + 1 && r.capacity == s.capacity
  {
    match FindSlot(slots, slotTime, canteenId)
    case None => SlotImpact(0, 0, 0, false)
    case Some(s) => SlotImpact(s.filled, s.filled + 1, s.capacity, Overloaded(s.filled + 1, s.capacity))
  }

  /** The overload flag is the source's ratio test, `afterFill / capacity > 0.9`, read over the
      reals, with a zero capacity counting as an overload (the quotient is +Infinity). */
  lemma SlotImpactMatchesRatio(slots: seq<TimeSlot>, slotTime: string, canteenId: string)
    requires FindSlot(slots, slotTime, canteenId).Some?
    ensures var r := GetSlotImpact(slots, slotTime, canteenId);
            r.isOverload <==> r.capacity == 0 || (r.afterFill as real) / (r.capacity as real) > 0.9
  {
    var r := GetSlotImpact(slots, slotTime, canteenId);
    if r.capacity > 0 {
      QuotientAbove(r.afterFill as real, r.capacity as real, 9.0, 10.0);
    }
  }

  /** a / c > n / m, for positive c and m, is a * m > n * c. */
  lemma QuotientAbove(a: real, c: real, n: real, m: real)
    requires c > 0.0 && m > 0.0
    ensures a / c > n / m <==> a * m > n * c
  {
    var q := a / c;
    var t := n / m;
    assert a == q * c;
    assert n == t * m;
    assert a * m - n * c == (q - t) * (c * m);
    assert c * m > 0.0;
  }

  /** The preview is what a booking does: after a successful createOrder for that slot, the first
      matching slot holds `afterFill` bookings. */
  lemma SlotImpactPredictsBooking(slots: seq<TimeSlot>, slotTime: string, canteenId: string)
    requires FindSlot(slots, slotTime, canteenId).Some?
    ensures exists k :: 0 <= k < |slots| && slots[k] == FindSlot(slots, slotTime, canteenId).value
              && BookSlot(slots, slotTime, canteenId)[k].filled == GetSlotImpact(slots, slotTime, canteenId).afterFill
              && forall j :: 0 <= j < k ==> !SlotMatches(slots[j], slotTime, canteenId)
  {
    var k := FindSlotAt(slots, slotTime, canteenId);
    assert BookSlot(slots, slotTime, canteenId)[k].filled == slots[k].filled + 1;
  }

  /** The slot `find` returns sits at the first matching position. */
  lemma {:induction false} FindSlotAt(slots: seq<TimeSlot>, slotTime: string, canteenId: string) returns (k: int)
    requires FindSlot(slots, slotTime, canteenId).Some?
    ensures 0 <= k < |slots| && slots[k] == FindSlot(slots, slotTime, canteenId).value
    ensures SlotMatches(slots[k], slotTime, canteenId)
    ensures forall j :: 0 <= j < k ==> !SlotMatches(slots[j], slotTime, canteenId)
    decreases |slots|
  {
    if SlotMatches(slots[0], slotTime, canteenId) {
      k := 0;
    } else {
      var t := FindSlotAt(slots[1..], slotTime, canteenId);
      k := t + 1;
      assert forall j :: 1 <= j < k ==> slots[j] == slots[1..][j - 1];
    }
  }

  // ---------------------------------------------------------------- getWaitingStudents

  /** Waiting means placed and not yet ready: New, Accepted or Preparing. */
  predicate Waiting(s: Status) {
    s == New || s == Accepted || s == Preparing
  }

  function WaitingIn(canteenId: string): Order -> bool {
    (o: Order) => o.canteenId == canteenId && Waiting(o.status)
  }

  /** `getWaitingStudents(canteenId)`: how many of the canteen's orders are still waiting. */
  function GetWaitingStudents(orders: seq<Order>, canteenId: string): (r: nat)
    ensures r <= |orders|
  {
    |Filter(orders, WaitingIn(canteenId))|
  }

  // ---------------------------------------------------------------- getDelayedOrders

  const MinuteMs: int := 60000

  /** The per-order test of `getDelayedOrders`: New for more than 3 minutes, Accepted for more
      than 5 or Preparing for more than 10 (counted from creation); Ready and Rejected never. */
  predicate IsDelayedAt(o: Order, now: int) {
    match o.status
    case New => now - o.createdAt > 3 * MinuteMs
    case Accepted => now - o.createdAt > 5 * MinuteMs
    case Preparing => now - o.createdAt > 10 * MinuteMs
    case Ready => false
    case Rejected => false
  }

  function DelayedIn(canteenId: string, now: int): Order -> bool {
    (o: Order) => o.canteenId == canteenId && IsDelayedAt(o, now)
  }

  /** `getDelayedOrders(canteenId)` at time `now`: the canteen's delayed orders, in store order. */
  function GetDelayedOrders(orders: seq<Order>, canteenId: string, now: int): (r: seq<Order>)
    ensures forall o :: o in r <==> o in orders && o.canteenId == canteenId && IsDelayedAt(o, now)
  {
    FilterIn(orders, DelayedIn(canteenId, now));
    Filter(orders, DelayedIn(canteenId, now))
  }

  /** The millisecond thresholds are the source's minute comparisons,
      `(now - createdAt) / (1000 * 60) > 3` and so on, read over the reals. */
  lemma DelayMatchesMinutes(o: Order, now: int)
    ensures var minutes := ((now - o.createdAt) as real) / 60000.0;
            IsDelayedAt(o, now) <==>
              || (o.status == New && minutes > 3.0)
              || (o.status == Accepted && minutes > 5.0)
              || (o.status == Preparing && minutes > 10.0)
  {
  }

  /** An order that is late stays late while its status does not change. */
  lemma DelayIsMonotone(o: Order, now: int, later: int)
    requires now <= later && IsDelayedAt(o, now)
    ensures IsDelayedAt(o, later)
  {
  }

  // ---------------------------------------------------------------- predictSelloutTime

  /** `hoursLeft = quantity / (dailyDemand / 6)` compared with 0.5, 1 and 2, over the integers:
      12q < d, 6q < d and 3q < d. The forms agree with the JavaScript quotient also when
      dailyDemand is 0 (+Infinity, NaN or -Infinity according to the sign of q). */
  function SelloutWindow(q: int, d: nat): (r: Option<string>)
    ensures r.Some? ==> q * 3 < d
  {
    if 12 * q < d then Some("30 minutes")
    else if 6 * q < d then Some("1 hour")
    else if 3 * q < d then Some("2 hours")
    else None
  }

  /** `predictSelloutTime(itemId)`: nothing for an unknown item or one with 20 or more in stock;
      below 20, the window of the item's stock against its daily demand. */
  function PredictSelloutTime(items: seq<FoodItem>, itemId: string): (r: Option<string>)
    ensures FindFood(items, itemId).None? ==> r.None?
    ensures r.Some? ==> FindFood(items, itemId).value.quantity < 20
    ensures FindFood(items, itemId).Some? && FindFood(items, itemId).value.quantity < 20 ==>
              r == SelloutWindow(FindFood(items, itemId).value.quantity, FindFood(items, itemId).value.dailyDemand)
  {
    match FindFood(items, itemId)
    case None => None
    case Some(f) => if f.quantity >= 20 then None else SelloutWindow(f.quantity, f.dailyDemand)
  }

  /** The three windows, stated on the hours left as the source computes them. */
  ghost function WindowOfHours(hoursLeft: real): Option<string> {
    if hoursLeft < 0.5 then Some("30 minutes")
    else if hoursLeft < 1.0 then Some("1 hour")
    else if hoursLeft < 2.0 then Some("2 hours")
    else None
  }

  lemma HoursLeftBelow(q: int, d: nat, bound: real, n: int)
    requires d > 0 && n > 0 && bound == 1.0 / (n as real)
    ensures (q as real) / ((d as real) / 6.0) < 6.0 * bound <==> n * q < d
  {
    var dr := d as real;
    var h := (q as real) / (dr / 6.0);
    assert h == 6.0 * (q as real) / dr;
    var nr := n as real;
    assert h * dr == 6.0 * (q as real);
    if h < 6.0 * bound {
      assert h * dr * nr < 6.0 * bound * dr * nr;
      assert 6.0 * bound * nr == 6.0;
    } else {
      assert h * dr * nr >= 6.0 * bound * dr * nr;
      assert 6.0 * bound * nr == 6.0;
    }
  }

  /** With a positive daily demand the integer comparisons are the source's comparisons of the
      hours left, `quantity / (dailyDemand / 6)`, with 0.5, 1 and 2. */
  lemma SelloutMatchesHours(q: int, d: nat)
    requires d > 0
    ensures SelloutWindow(q, d) == WindowOfHours((q as real) / ((d as real) / 6.0))
  {
    HoursLeftBelow(q, d, 1.0 / 12.0, 12);
    HoursLeftBelow(q, d, 1.0 / 6.0, 6);
    HoursLeftBelow(q, d, 1.0 / 3.0, 3);
  }

  /** For a known item under 20 in stock with a positive daily demand, the prediction is the
      bucket of the hours left, `quantity / (dailyDemand / 6)`, against 0.5, 1 and 2 hours. */
  lemma PredictionIsHoursLeft(items: seq<FoodItem>, itemId: string)
    requires FindFood(items, itemId).Some?
    requires FindFood(items, itemId).value.quantity < 20 && FindFood(items, itemId).value.dailyDemand > 0
    ensures var f := FindFood(items, itemId).value;
            PredictSelloutTime(items, itemId) == WindowOfHours((f.quantity as real) / ((f.dailyDemand as real) / 6.0))
  {
    var f := FindFood(items, itemId).value;
    SelloutMatchesHours(f.quantity, f.dailyDemand);
  }

  /** With no daily demand an item in stock is never predicted to sell out (the hours left are
      +Infinity, or NaN at zero stock); only a negative stock gives "30 minutes" (-Infinity). */
  lemma SelloutWithoutDemand(items: seq<FoodItem>, itemId: string)
    requires FindFood(items, itemId).Some? && FindFood(items, itemId).value.dailyDemand == 0
    ensures PredictSelloutTime(items, itemId).Some? <==> FindFood(items, itemId).value.quantity < 0
    ensures FindFood(items, itemId).value.quantity < 0 ==> PredictSelloutTime(items, itemId) == Some("30 minutes")
  {
  }
}
