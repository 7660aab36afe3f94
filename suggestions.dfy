/** The advice page of a canteen (app/canteen/suggestions/page.tsx). Eight rules read the
    logged-in canteen's items, orders and slots and push advice into a list, which is then sorted
    by priority. The canteen is `canteenId` and the clock is `now`, in milliseconds. */
module Suggestions {
  import opened CanteenTypes
  import opened SeqUtil
  import opened Analytics
  import Slots

  /** The four priorities of a suggestion. */
  datatype Priority = Critical | High | Medium | Low

  /** `priorityOrder`: critical 0, high 1, medium 2, low 3. */
  function Rank(p: Priority): int {
    match p
    case Critical => 0
    case High => 1
    case Medium => 2
    case Low => 3
  }

  /** One entry of `orderCounts`: a food name and the portions ordered under it. */
  datatype Tally = Tally(name: string, count: int)

  /** One piece of advice, with the figures its text is built from. */
  datatype Suggestion =
    | DelayAlert(orderIds: seq<string>)
    | SelloutAlert(itemName: string, window: string, quantity: int, pendingOrders: nat, extraPortions: int)
    | SlotCongestion(time: string, ordersInSlot: nat, spotsLeft: int)
    | FastMoving(itemName: string, dailyDemand: nat, quantity: int, shortfall: int)
    | Trending(top: seq<Tally>)
    | VegShift(vegPortions: int, nonVegPortions: int)
    | LowLoad(filled: int, capacity: int)
    | PrepReminder

  function PriorityOf(s: Suggestion): Priority {
    match s
    case DelayAlert(_) => Priority.Critical
    case SelloutAlert(_, _, _, _, _) => Priority.Critical
    case SlotCongestion(_, _, _) => Priority.High
    case FastMoving(_, _, _, _) => Priority.High
    case Trending(_) => Priority.Medium
    case VegShift(_, _) => Priority.Low
    case LowLoad(_, _) => Priority.Low
    case PrepReminder => Priority.Low
  }

  /** The key of `sort((a, b) => priorityOrder[a.priority] - priorityOrder[b.priority])`. */
  function ByPriority(): Suggestion -> int {
    (s: Suggestion) => Rank(PriorityOf(s))
  }

  // ---------------------------------------------------------------- delayed orders

  /** `delayedOrders.map((o) => o.id)`. */
  function OrderIds(orders: seq<Order>): (r: seq<string>)
    ensures |r| == |orders| && forall k :: 0 <= k < |r| ==> r[k] == orders[k].id
  {
    seq(|orders|, k requires 0 <= k < |orders| => orders[k].id)
  }

  function DelayRule(delayed: seq<Order>): (r: seq<Suggestion>)
    ensures forall k :: 0 <= k < |r| ==> r[k].DelayAlert?
  {
    if |delayed| > 0 then [DelayAlert(OrderIds(delayed))] else []
  }

  // ---------------------------------------------------------------- items about to sell out

  /** The stock under which a predicted sellout is reported. */
  const SelloutStockLimit: int := 15

  /** The fewest extra portions the sellout advice asks for. */
  const MinExtraPortions: int := 20

  /** The sellout rule's test on a canteen item: a prediction, and fewer than 15 in stock. */
  function SellsOutSoon(foodItems: seq<FoodItem>): FoodItem -> bool {
    (f: FoodItem) => PredictSelloutTime(foodItems, f.id).Some? && f.quantity < SelloutStockLimit
  }

  /** The "pending orders" of the sellout advice: New orders with a line for the item. */
  function PendingWith(itemId: string): Order -> bool {
    (o: Order) => o.status == New && exists j :: 0 <= j < |o.items| && o.items[j].foodItem.id == itemId
  }

  /** What the sellout rule pushes for one canteen item. */
  function SelloutFor(item: FoodItem, foodItems: seq<FoodItem>, canteenOrders: seq<Order>): (r: seq<Suggestion>)
    ensures |r| == if SellsOutSoon(foodItems)(item) then 1 else 0
  {
    match PredictSelloutTime(foodItems, item.id)
    case Some(window) =>
      if item.quantity < SelloutStockLimit then
        [SelloutAlert(item.name, window, item.quantity, |Filter(canteenOrders, PendingWith(item.id))|,
                      Max(MinExtraPortions, item.dailyDemand - item.quantity))]
      else []
    case None => []
  }

  /** `canteenItems.forEach(...)` of the sellout rule. */
  function SelloutRules(items: seq<FoodItem>, foodItems: seq<FoodItem>, canteenOrders: seq<Order>): (r: seq<Suggestion>)
    ensures forall k :: 0 <= k < |r| ==>
              && r[k].SelloutAlert? && r[k].quantity < SelloutStockLimit
              && r[k].extraPortions >= MinExtraPortions && r[k].pendingOrders <= |canteenOrders|
    decreases |items|
  {
    if items == [] then []
    else
      SelloutRules(items[..|items| - 1], foodItems, canteenOrders)
        + SelloutFor(items[|items| - 1], foodItems, canteenOrders)
  }

  // ---------------------------------------------------------------- congested slots

  /** `s.filled / s.capacity > 0.85`: 20 filled > 17 capacity; at no capacity +Infinity when
      something is booked, NaN otherwise. */
  function Congested(): TimeSlot -> bool {
    (s: TimeSlot) => 20 * s.filled > 17 * s.capacity
  }

  /** The orders the congestion advice counts for a slot: for it, neither Ready nor Rejected. */
  function OpenAtTime(time: string): Order -> bool {
    (o: Order) => o.slotTime == time && o.status != Ready && o.status != Rejected
  }

  function CongestionAlert(slot: TimeSlot, canteenOrders: seq<Order>): Suggestion {
    SlotCongestion(slot.time, |Filter(canteenOrders, OpenAtTime(slot.time))|, slot.capacity - slot.filled)
  }

  /** `overloadedSlots.forEach(...)`. */
  function CongestionRules(overloaded: seq<TimeSlot>, canteenOrders: seq<Order>): (r: seq<Suggestion>)
    ensures |r| == |overloaded|
    ensures forall k :: 0 <= k < |r| ==> r[k] == CongestionAlert(overloaded[k], canteenOrders)
    decreases |overloaded|
  {
    if overloaded == [] then []
    else
      CongestionRules(overloaded[..|overloaded| - 1], canteenOrders)
        + [CongestionAlert(overloaded[|overloaded| - 1], canteenOrders)]
  }

  // ---------------------------------------------------------------- fast-moving items

  /** `i.dailyDemand > 40 && i.quantity < i.dailyDemand * 0.5`. */
  function FastMovingItem(): FoodItem -> bool {
    (f: FoodItem) => f.dailyDemand > 40 && 2 * f.quantity < f.dailyDemand
  }

  function FastAlert(item: FoodItem): Suggestion {
    FastMoving(item.name, item.dailyDemand, item.quantity, item.dailyDemand - item.quantity)
  }

  /** `fastMovingItems.forEach(...)`. */
  function FastRules(fast: seq<FoodItem>): (r: seq<Suggestion>)
    ensures |r| == |fast|
    ensures forall k :: 0 <= k < |r| ==> r[k] == FastAlert(fast[k])
    decreases |fast|
  {
    if fast == [] then [] else FastRules(fast[..|fast| - 1]) + [FastAlert(fast[|fast| - 1])]
  }

  // ---------------------------------------------------------------- orderCounts and topItems

  predicate HasName(t: seq<Tally>, name: string) {
    exists k :: 0 <= k < |t| && t[k].name == name
  }

  /** Each name at most once, as in a JavaScript object. */
  ghost predicate UniqueNames(t: seq<Tally>) {
    forall a, b :: 0 <= a < b < |t| ==> t[a].name != t[b].name
  }

  /** `orderCounts[name] || 0`. */
  function CountOf(t: seq<Tally>, name: string): int {
    if t == [] then 0
    else if t[0].name == name then t[0].count
    else CountOf(t[1..], name)
  }

  /** `orderCounts[name] = (orderCounts[name] || 0) + qty`: an existing name keeps its place, a new
      one goes last. */
  function AddCount(t: seq<Tally>, name: string, qty: int): seq<Tally> {
    if t == [] then [Tally(name, qty)]
    else if t[0].name == name then [Tally(name, t[0].count + qty)] + t[1..]
    else [t[0]] + AddCount(t[1..], name, qty)
  }

  /** The inner `order.items.forEach(...)`. */
  function TallyLines(t: seq<Tally>, lines: seq<LineItem>): seq<Tally>
    decreases |lines|
  {
    if lines == [] then t
    else
      var l := lines[|lines| - 1];
      AddCount(TallyLines(t, lines[..|lines| - 1]), l.foodItem.name, l.quantity)
  }

  /** `orderCounts` after `canteenOrders.forEach(...)`. */
  function TallyOrders(orders: seq<Order>): seq<Tally>
    decreases |orders|
  {
    if orders == [] then []
    else TallyLines(TallyOrders(orders[..|orders| - 1]), orders[|orders| - 1].items)
  }

  /** The portions of `lines` under a food name: the independent reference for the tally. */
  function LinesQty(lines: seq<LineItem>, name: string): int
    decreases |lines|
  {
    if lines == [] then 0
    else
      var l := lines[|lines| - 1];
      LinesQty(lines[..|lines| - 1], name) + (if l.foodItem.name == name then l.quantity else 0)
  }

  function NameQty(orders: seq<Order>, name: string): int
    decreases |orders|
  {
    if orders == [] then 0
    else NameQty(orders[..|orders| - 1], name) + LinesQty(orders[|orders| - 1].items, name)
  }

  /** Adding to a name adds to its count and to no other. */
  lemma {:induction false} AddCountReads(t: seq<Tally>, name: string, qty: int, m: string)
    ensures CountOf(AddCount(t, name, qty), m) == CountOf(t, m) + (if m == name then qty else 0)
    decreases |t|
  {
    if t != [] && t[0].name != name {
      AddCountReads(t[1..], name, qty, m);
      assert AddCount(t, name, qty)[1..] == AddCount(t[1..], name, qty);
    }
  }

  /** After adding to a name the tally knows the names it knew and the new one. */
  lemma {:induction false} AddCountNames(t: seq<Tally>, name: string, qty: int, m: string)
    ensures HasName(AddCount(t, name, qty), m) <==> HasName(t, m) || m == name
    decreases |t|
  {
    var r := AddCount(t, name, qty);
    if t == [] {
      assert r[0].name == name;
    } else if t[0].name == name {
      assert r[0].name == name && t[0].name == name;
      assert forall k :: 1 <= k < |t| ==> r[k] == t[k];
      if HasName(t, m) {
        var k :| 0 <= k < |t| && t[k].name == m;
        assert r[k].name == m;
      }
    } else {
      AddCountNames(t[1..], name, qty, m);
      var rest := AddCount(t[1..], name, qty);
      assert r == [t[0]] + rest;
      assert r[0] == t[0];
      if HasName(t, m) && m != t[0].name {
        var k :| 0 <= k < |t| && t[k].name == m;
        assert t[1..][k - 1].name == m;
        var j :| 0 <= j < |rest| && rest[j].name == m;
        assert r[j + 1].name == m;
      }
      if HasName(r, m) && m != t[0].name {
        var k :| 0 <= k < |r| && r[k].name == m;
        assert rest[k - 1].name == m;
        if HasName(t[1..], m) {
          var j :| 0 <= j < |t[1..]| && t[1..][j].name == m;
          assert t[j + 1].name == m;
        }
      }
      if m == name {
        var j :| 0 <= j < |rest| && rest[j].name == m;
        assert r[j + 1].name == m;
      }
    }
  }

  lemma UniqueTail(t: seq<Tally>)
    requires UniqueNames(t) && t != []
    ensures UniqueNames(t[1..]) && !HasName(t[1..], t[0].name)
  {
    forall a, b | 0 <= a < b < |t[1..]| ensures t[1..][a].name != t[1..][b].name {
      assert t[1..][a] == t[a + 1] && t[1..][b] == t[b + 1];
    }
  }

  /** Adding to a name keeps every name once. */
  lemma {:induction false} AddCountUnique(t: seq<Tally>, name: string, qty: int)
    requires UniqueNames(t)
    ensures UniqueNames(AddCount(t, name, qty))
    decreases |t|
  {
    var r := AddCount(t, name, qty);
    if t != [] {
      UniqueTail(t);
      if t[0].name == name {
        assert forall k :: 1 <= k < |t| ==> r[k] == t[k];
      } else {
        AddCountUnique(t[1..], name, qty);
        var rest := AddCount(t[1..], name, qty);
        assert r == [t[0]] + rest;
        AddCountNames(t[1..], name, qty, t[0].name);
        forall a, b | 0 <= a < b < |r| ensures r[a].name != r[b].name {
          if a == 0 {
            assert r[b] == rest[b - 1];
          } else {
            assert r[a] == rest[a - 1] && r[b] == rest[b - 1];
          }
        }
      }
    }
  }

  /** The tally of some lines adds each line to its name. */
  lemma TallyLinesReads(t: seq<Tally>, lines: seq<LineItem>, m: string)
    ensures CountOf(TallyLines(t, lines), m) == CountOf(t, m) + LinesQty(lines, m)
    ensures HasName(TallyLines(t, lines), m) <==>
              HasName(t, m) || exists j :: 0 <= j < |lines| && lines[j].foodItem.name == m
    ensures UniqueNames(t) ==> UniqueNames(TallyLines(t, lines))
  {
    TallyLinesCounts(t, lines, m);
    TallyLinesNames(t, lines, m);
    if UniqueNames(t) {
      TallyLinesUnique(t, lines);
    }
  }

  lemma {:induction false} TallyLinesCounts(t: seq<Tally>, lines: seq<LineItem>, m: string)
    ensures CountOf(TallyLines(t, lines), m) == CountOf(t, m) + LinesQty(lines, m)
    decreases |lines|
  {
    if lines != [] {
      var n := |lines| - 1;
      TallyLinesCounts(t, lines[..n], m);
      AddCountReads(TallyLines(t, lines[..n]), lines[n].foodItem.name, lines[n].quantity, m);
    }
  }

  lemma {:induction false} TallyLinesNames(t: seq<Tally>, lines: seq<LineItem>, m: string)
    ensures HasName(TallyLines(t, lines), m) <==>
              HasName(t, m) || exists j :: 0 <= j < |lines| && lines[j].foodItem.name == m
    decreases |lines|
  {
    if lines != [] {
      var n := |lines| - 1;
      TallyLinesNames(t, lines[..n], m);
      AddCountNames(TallyLines(t, lines[..n]), lines[n].foodItem.name, lines[n].quantity, m);
      assert forall j :: 0 <= j < n ==> lines[..n][j] == lines[j];
    }
  }

  lemma {:induction false} TallyLinesUnique(t: seq<Tally>, lines: seq<LineItem>)
    requires UniqueNames(t)
    ensures UniqueNames(TallyLines(t, lines))
    decreases |lines|
  {
    if lines != [] {
      var n := |lines| - 1;
      TallyLinesUnique(t, lines[..n]);
      AddCountUnique(TallyLines(t, lines[..n]), lines[n].foodItem.name, lines[n].quantity);
    }
  }

  /** `orderCounts` holds, under each name, exactly the portions the orders hold of it, each name
      once, and only names some line carries. */
  lemma {:induction false} TallyCountsPortions(orders: seq<Order>, m: string)
    ensures CountOf(TallyOrders(orders), m) == NameQty(orders, m)
    ensures HasName(TallyOrders(orders), m) <==>
              exists i, j :: 0 <= i < |orders| && 0 <= j < |orders[i].items| && orders[i].items[j].foodItem.name == m
    ensures UniqueNames(TallyOrders(orders))
    decreases |orders|
  {
    if orders != [] {
      var n := |orders| - 1;
      var prev := orders[..n];
      TallyCountsPortions(prev, m);
      TallyLinesReads(TallyOrders(prev), orders[n].items, m);
      assert forall i :: 0 <= i < n ==> prev[i] == orders[i];
      if HasName(TallyOrders(orders), m) && !HasName(TallyOrders(prev), m) {
        var j :| 0 <= j < |orders[n].items| && orders[n].items[j].foodItem.name == m;
        assert orders[n].items[j].foodItem.name == m;
      }
    }
  }

  /** With unique names, an entry's count is what the tally reads for its name. */
  lemma {:induction false} EntryIsItsCount(t: seq<Tally>, k: int)
    requires UniqueNames(t) && 0 <= k < |t|
    ensures CountOf(t, t[k].name) == t[k].count
    decreases |t|
  {
    if k > 0 {
      assert t[0].name != t[k].name;
      assert t[1..][k - 1] == t[k];
      assert UniqueNames(t[1..]) by {
        forall a, b | 0 <= a < b < |t[1..]| ensures t[1..][a].name != t[1..][b].name {
          assert t[1..][a] == t[a + 1] && t[1..][b] == t[b + 1];
        }
      }
      EntryIsItsCount(t[1..], k - 1);
    }
  }

  /** The key of `sort((a, b) => b[1] - a[1])`: ascending in it is most portions first. */
  function MostFirst(): Tally -> int {
    (e: Tally) => -e.count
  }

  /** `topItems`: the entries sorted by count, most first (ties keep their order), cut to three. */
  function TopItems(tally: seq<Tally>): (r: seq<Tally>)
    ensures |r| == Min(3, |tally|)
    ensures forall i, j :: 0 <= i < j < |r| ==> r[i].count >= r[j].count
    ensures forall e :: e in r ==> e in tally
  {
    var sorted := SortBy(tally, MostFirst());
    var r := if |sorted| <= 3 then sorted else sorted[..3];
    forall i, j | 0 <= i < j < |r| ensures r[i].count >= r[j].count {
      assert r[i] == sorted[i] && r[j] == sorted[j];
      assert MostFirst()(sorted[i]) <= MostFirst()(sorted[j]);
    }
    forall e | e in r ensures e in tally {
      assert e in multiset(sorted);
    }
    r
  }

  /** An entry left out of the top three has no more portions than any entry in it. */
  lemma TopItemsBeatTheRest(tally: seq<Tally>, e: Tally)
    requires e in tally && e !in TopItems(tally)
    ensures |TopItems(tally)| == 3
    ensures forall t :: t in TopItems(tally) ==> t.count >= e.count
  {
    var sorted := SortBy(tally, MostFirst());
    assert e in multiset(sorted);
    var k :| 0 <= k < |sorted| && sorted[k] == e;
    var top := TopItems(tally);
    assert |sorted| > 3;
    assert top == sorted[..3];
    assert k >= 3;
    forall t | t in top ensures t.count >= e.count {
      var i :| 0 <= i < 3 && top[i] == t;
      assert sorted[i] == t;
      assert MostFirst()(sorted[i]) <= MostFirst()(sorted[k]);
    }
  }

  function TrendingRule(top: seq<Tally>): (r: seq<Suggestion>)
    ensures forall k :: 0 <= k < |r| ==> r[k].Trending?
  {
    if |top| > 0 then [Trending(top)] else []
  }

  /** The trending advice appears exactly when some canteen order has a line, and then names up to
      three foods with the portions ordered of each. */
  lemma TrendingIffSold(canteenOrders: seq<Order>)
    ensures TrendingRule(TopItems(TallyOrders(canteenOrders))) != [] <==>
              exists i :: 0 <= i < |canteenOrders| && canteenOrders[i].items != []
    ensures forall e :: e in TopItems(TallyOrders(canteenOrders)) ==> e.count == NameQty(canteenOrders, e.name)
  {
    var tally := TallyOrders(canteenOrders);
    if exists i :: 0 <= i < |canteenOrders| && canteenOrders[i].items != [] {
      var i :| 0 <= i < |canteenOrders| && canteenOrders[i].items != [];
      TallyCountsPortions(canteenOrders, canteenOrders[i].items[0].foodItem.name);
    }
    if tally != [] {
      TallyCountsPortions(canteenOrders, tally[0].name);
      var i, j :| 0 <= i < |canteenOrders| && 0 <= j < |canteenOrders[i].items|
                  && canteenOrders[i].items[j].foodItem.name == tally[0].name;
    }
    forall e | e in TopItems(tally) ensures e.count == NameQty(canteenOrders, e.name) {
      var k :| 0 <= k < |tally| && tally[k] == e;
      TallyCountsPortions(canteenOrders, e.name);
      EntryIsItsCount(tally, k);
    }
  }

  // ---------------------------------------------------------------- veg and non-veg

  /** The portions of `lines` whose food is (or is not) vegetarian. */
  function LinesPortions(lines: seq<LineItem>, veg: bool): int
    decreases |lines|
  {
    if lines == [] then 0
    else
      var l := lines[|lines| - 1];
      LinesPortions(lines[..|lines| - 1], veg) + (if l.foodItem.isVeg == veg then l.quantity else 0)
  }

  /** `vegOrders` (veg true) and `nonVegOrders` (veg false). */
  function Portions(orders: seq<Order>, veg: bool): int
    decreases |orders|
  {
    if orders == [] then 0
    else Portions(orders[..|orders| - 1], veg) + LinesPortions(orders[|orders| - 1].items, veg)
  }

  function LinesTotal(lines: seq<LineItem>): int
    decreases |lines|
  {
    if lines == [] then 0 else LinesTotal(lines[..|lines| - 1]) + lines[|lines| - 1].quantity
  }

  function AllPortions(orders: seq<Order>): int
    decreases |orders|
  {
    if orders == [] then 0 else AllPortions(orders[..|orders| - 1]) + LinesTotal(orders[|orders| - 1].items)
  }

  lemma {:induction false} LinesSplit(lines: seq<LineItem>)
    ensures LinesPortions(lines, true) + LinesPortions(lines, false) == LinesTotal(lines)
    decreases |lines|
  {
    if lines != [] {
      LinesSplit(lines[..|lines| - 1]);
    }
  }

  /** Every portion is counted once, as veg or as non-veg. */
  lemma {:induction false} VegSplitsPortions(orders: seq<Order>)
    ensures Portions(orders, true) + Portions(orders, false) == AllPortions(orders)
    decreases |orders|
  {
    if orders != [] {
      VegSplitsPortions(orders[..|orders| - 1]);
      LinesSplit(orders[|orders| - 1].items);
    }
  }

  /** `vegOrders > nonVegOrders * 1.5`, over the integers. */
  function VegRule(veg: int, nonVeg: int): (r: seq<Suggestion>)
    ensures forall k :: 0 <= k < |r| ==> r[k].VegShift?
  {
    if 2 * veg > 3 * nonVeg then [VegShift(veg, nonVeg)] else []
  }

  // ---------------------------------------------------------------- canteen load

  /** `thisCanteenLoad < 0.5`, the load being the booked places over all places of the canteen. */
  function LoadRule(canteenSlots: seq<TimeSlot>): (r: seq<Suggestion>)
    ensures forall k :: 0 <= k < |r| ==> r[k].LowLoad?
  {
    var filled := Slots.TotalBookings(canteenSlots);
    var capacity := Slots.TotalCapacity(canteenSlots);
    if 2 * filled < capacity then [LowLoad(filled, capacity)] else []
  }

  lemma {:induction false} CapacityNonNegative(slots: seq<TimeSlot>)
    ensures Slots.TotalCapacity(slots) >= 0
    decreases |slots|
  {
    if slots != [] {
      CapacityNonNegative(slots[..|slots| - 1]);
    }
  }

  /** The advice appears exactly when the canteen has places and under half of them are booked;
      with no places the quotient is NaN or +Infinity and never below one half. */
  lemma LowLoadIsHalfFull(canteenSlots: seq<TimeSlot>)
    ensures var filled := Slots.TotalBookings(canteenSlots);
            var capacity := Slots.TotalCapacity(canteenSlots);
            LoadRule(canteenSlots) != [] <==> capacity > 0 && (filled as real) / (capacity as real) < 0.5
  {
    var filled := Slots.TotalBookings(canteenSlots);
    var capacity := Slots.TotalCapacity(canteenSlots);
    Slots.SummaryAddsUp(canteenSlots);
    CapacityNonNegative(canteenSlots);
    if capacity > 0 {
      Slots.QuotientAtLeast(filled as real, capacity as real, 1.0, 2.0);
    }
  }

  // ---------------------------------------------------------------- the page

  function ReminderRule(before: seq<Suggestion>): seq<Suggestion> {
    if |before| < 3 then [PrepReminder] else []
  }

  /** What each rule pushes, rule by rule. */
  datatype Groups = Groups(
    delay: seq<Suggestion>,
    sellout: seq<Suggestion>,
    congestion: seq<Suggestion>,
    fast: seq<Suggestion>,
    trending: seq<Suggestion>,
    veg: seq<Suggestion>,
    load: seq<Suggestion>)

  /** Each rule pushes only its own kind of advice. */
  ghost predicate Kinds(g: Groups) {
    && (forall x :: x in g.delay ==> x.DelayAlert?)
    && (forall x :: x in g.sellout ==> x.SelloutAlert?)
    && (forall x :: x in g.congestion ==> x.SlotCongestion?)
    && (forall x :: x in g.fast ==> x.FastMoving?)
    && (forall x :: x in g.trending ==> x.Trending?)
    && (forall x :: x in g.veg ==> x.VegShift?)
    && (forall x :: x in g.load ==> x.LowLoad?)
  }

  /** The rules run over the canteen's items, orders and slots. */
  function RuleGroups(foodItems: seq<FoodItem>, orders: seq<Order>, slots: seq<TimeSlot>, canteenId: string, now: int): (g: Groups)
    ensures Kinds(g)
  {
    var canteenItems := Filter(foodItems, ItemInCanteen(canteenId));
    var canteenOrders := Filter(orders, OrderInCanteen(canteenId));
    var canteenSlots := GetSlotsByCanteen(slots, canteenId);
    var g := Groups(
      DelayRule(GetDelayedOrders(orders, canteenId, now)),
      SelloutRules(canteenItems, foodItems, canteenOrders),
      CongestionRules(Filter(canteenSlots, Congested()), canteenOrders),
      FastRules(Filter(canteenItems, FastMovingItem())),
      TrendingRule(TopItems(TallyOrders(canteenOrders))),
      VegRule(Portions(canteenOrders, true), Portions(canteenOrders, false)),
      LoadRule(canteenSlots));
    assert forall x :: x in g.congestion ==> x.SlotCongestion? by {
      forall x | x in g.congestion ensures x.SlotCongestion? {
        var k :| 0 <= k < |g.congestion| && g.congestion[k] == x;
      }
    }
    assert forall x :: x in g.fast ==> x.FastMoving? by {
      forall x | x in g.fast ensures x.FastMoving? {
        var k :| 0 <= k < |g.fast| && g.fast[k] == x;
      }
    }
    g
  }

  /** Every rule but the reminder, in the order the page runs them. */
  function Fired(g: Groups): seq<Suggestion> {
    g.delay + g.sellout + g.congestion + g.fast + g.trending + g.veg + g.load
  }

  function FiredRules(foodItems: seq<FoodItem>, orders: seq<Order>, slots: seq<TimeSlot>, canteenId: string, now: int): seq<Suggestion> {
    Fired(RuleGroups(foodItems, orders, slots, canteenId, now))
  }

  /** The list before the sort: the rules, then the reminder when fewer than three fired. */
  function Rules(foodItems: seq<FoodItem>, orders: seq<Order>, slots: seq<TimeSlot>, canteenId: string, now: int): seq<Suggestion> {
    var fired := FiredRules(foodItems, orders, slots, canteenId, now);
    fired + ReminderRule(fired)
  }

  /** The list the page shows. */
  function PageSuggestions(foodItems: seq<FoodItem>, orders: seq<Order>, slots: seq<TimeSlot>, canteenId: string, now: int): seq<Suggestion> {
    SortBy(Rules(foodItems, orders, slots, canteenId, now), ByPriority())
  }

  // ---------------------------------------------------------------- what the page promises

  /** The ranks of `s` lie between `lo` and `hi`. */
  ghost predicate RanksIn(s: seq<Suggestion>, lo: int, hi: int) {
    forall k :: 0 <= k < |s| ==> lo <= ByPriority()(s[k]) <= hi
  }

  lemma SameRankSorted(s: seq<Suggestion>, rank: int)
    requires forall x :: x in s ==> ByPriority()(x) == rank
    ensures SortedBy(s, ByPriority()) && RanksIn(s, rank, rank)
  {
    assert forall k :: 0 <= k < |s| ==> s[k] in s;
  }

  /** Glues a sorted list of ranks up to `m` to a sorted list of ranks from `m` on. */
  lemma Glue(a: seq<Suggestion>, b: seq<Suggestion>, lo: int, m: int, hi: int)
    requires SortedBy(a, ByPriority()) && SortedBy(b, ByPriority())
    requires lo <= m <= hi && RanksIn(a, lo, m) && RanksIn(b, m, hi)
    ensures SortedBy(a + b, ByPriority()) && RanksIn(a + b, lo, hi)
  {
    SortedAppend(a, b, ByPriority(), m);
    forall k | 0 <= k < |a + b| ensures lo <= ByPriority()((a + b)[k]) <= hi {
      if k < |a| {
        assert (a + b)[k] == a[k];
      } else {
        assert (a + b)[k] == b[k - |a|];
      }
    }
  }

  /** Rules that push only their own kind of advice push it in priority order, the reminder
      last of all. */
  lemma {:induction false} FiredSorted(g: Groups)
    requires Kinds(g)
    ensures SortedBy(Fired(g) + ReminderRule(Fired(g)), ByPriority())
  {
    SameRankSorted(g.delay, 0);
    SameRankSorted(g.sellout, 0);
    Glue(g.delay, g.sellout, 0, 0, 0);
    var s := g.delay + g.sellout;
    SameRankSorted(g.congestion, 1);
    Glue(s, g.congestion, 0, 1, 1);
    s := s + g.congestion;
    SameRankSorted(g.fast, 1);
    Glue(s, g.fast, 0, 1, 1);
    s := s + g.fast;
    SameRankSorted(g.trending, 2);
    Glue(s, g.trending, 0, 2, 2);
    s := s + g.trending;
    SameRankSorted(g.veg, 3);
    Glue(s, g.veg, 0, 3, 3);
    s := s + g.veg;
    SameRankSorted(g.load, 3);
    Glue(s, g.load, 0, 3, 3);
    s := s + g.load;
    assert s == Fired(g);
    var p := ReminderRule(s);
    SameRankSorted(p, 3);
    Glue(s, p, 0, 3, 3);
  }

  /** The rules run in priority order, so the list is sorted before the sort, which therefore
      changes nothing: the page shows the advice in the order the rules pushed it. */
  lemma SortKeepsRuleOrder(foodItems: seq<FoodItem>, orders: seq<Order>, slots: seq<TimeSlot>, canteenId: string, now: int)
    ensures SortedBy(Rules(foodItems, orders, slots, canteenId, now), ByPriority())
    ensures PageSuggestions(foodItems, orders, slots, canteenId, now) == Rules(foodItems, orders, slots, canteenId, now)
  {
    FiredSorted(RuleGroups(foodItems, orders, slots, canteenId, now));
    SortBySorted(Rules(foodItems, orders, slots, canteenId, now), ByPriority());
  }

  /** Only the delay rule pushes delay advice, and it pushes first. */
  lemma DelayFirst(g: Groups)
    requires Kinds(g)
    ensures var r := Fired(g) + ReminderRule(Fired(g));
            && (g.delay != [] ==> r[0] == g.delay[0])
            && (g.delay == [] ==> forall x :: x in r ==> !x.DelayAlert?)
  {
    var rest := g.sellout + g.congestion + g.fast + g.trending + g.veg + g.load;
    assert Fired(g) == g.delay + rest;
  }

  /** The delay advice leads the list exactly when some order of the canteen is late, and lists
      the late orders' ids in store order; otherwise no delay advice is given. */
  lemma DelayAlertLeads(foodItems: seq<FoodItem>, orders: seq<Order>, slots: seq<TimeSlot>, canteenId: string, now: int)
    ensures var r := PageSuggestions(foodItems, orders, slots, canteenId, now);
            var delayed := GetDelayedOrders(orders, canteenId, now);
            && (|delayed| > 0 ==> r[0] == DelayAlert(OrderIds(delayed)))
            && (|delayed| == 0 ==> forall x :: x in r ==> !x.DelayAlert?)
  {
    SortKeepsRuleOrder(foodItems, orders, slots, canteenId, now);
    var g := RuleGroups(foodItems, orders, slots, canteenId, now);
    DelayFirst(g);
  }

  /** The reminder never comes from a rule. */
  lemma ReminderOnlyAtEnd(g: Groups)
    requires Kinds(g)
    ensures var r := Fired(g) + ReminderRule(Fired(g));
            && (PrepReminder in r <==> |Fired(g)| < 3)
            && |r| >= 1
            && (PrepReminder in r ==> |r| <= 3)
  {
    assert forall x :: x in Fired(g) ==> x != PrepReminder;
  }

  /** The reminder is added exactly when fewer than three rules fired, so the page always has
      something to show and a reminder never stands beside more than two other pieces of advice. */
  lemma ReminderOnlyWhenFewRules(foodItems: seq<FoodItem>, orders: seq<Order>, slots: seq<TimeSlot>, canteenId: string, now: int)
    ensures var r := PageSuggestions(foodItems, orders, slots, canteenId, now);
            var fired := FiredRules(foodItems, orders, slots, canteenId, now);
            && (PrepReminder in r <==> |fired| < 3)
            && |r| >= 1
            && (PrepReminder in r ==> |r| <= 3)
  {
    SortKeepsRuleOrder(foodItems, orders, slots, canteenId, now);
    ReminderOnlyAtEnd(RuleGroups(foodItems, orders, slots, canteenId, now));
  }

  /** With unique ids a canteen item draws the sellout advice exactly when fewer than 15 are in
      stock and three times the stock is under the daily demand (under two hours left), and the
      advice names the window the store predicts for it. */
  lemma SellsOutSoonWhen(foodItems: seq<FoodItem>, k: int, canteenOrders: seq<Order>)
    requires UniqueIds(foodItems) && 0 <= k < |foodItems|
    ensures var f := foodItems[k];
            && (SellsOutSoon(foodItems)(f) <==> f.quantity < SelloutStockLimit && 3 * f.quantity < f.dailyDemand)
            && SelloutFor(f, foodItems, canteenOrders) ==
                 if f.quantity < SelloutStockLimit && 3 * f.quantity < f.dailyDemand then
                   [SelloutAlert(f.name, SelloutWindow(f.quantity, f.dailyDemand).value, f.quantity,
                                 |Filter(canteenOrders, PendingWith(f.id))|, Max(MinExtraPortions, f.dailyDemand - f.quantity))]
                 else []
  {
    FindFoodUnique(foodItems, k);
  }

  /** One sellout advice per canteen item that passes the test, in catalog order. */
  lemma {:induction false} SelloutCount(items: seq<FoodItem>, foodItems: seq<FoodItem>, canteenOrders: seq<Order>)
    ensures |SelloutRules(items, foodItems, canteenOrders)| == |Filter(items, SellsOutSoon(foodItems))|
    decreases |items|
  {
    if items != [] {
      var n := |items| - 1;
      SelloutCount(items[..n], foodItems, canteenOrders);
      assert items == items[..n] + [items[n]];
      FilterAppend(items[..n], [items[n]], SellsOutSoon(foodItems));
    }
  }

  /** The congestion advice counts, for its slot, the orders the slot board counts as pending. */
  lemma CongestionCountsPending(orders: seq<Order>, canteenId: string, time: string)
    ensures |Filter(Filter(orders, OrderInCanteen(canteenId)), OpenAtTime(time))| == Slots.PendingInSlot(orders, canteenId, time)
  {
    FilterTwice(orders, OrderInCanteen(canteenId), OpenAtTime(time), Slots.WaitingForSlot(canteenId, time));
    Slots.PendingIsWaitingForSlot(orders, canteenId, time);
  }

  /** With places, the integer test is the ratio test above 0.85, and fewer than 15 % of the places
      are left; with none, a slot is congested as soon as something is booked. */
  lemma CongestedIsRatio(s: TimeSlot)
    ensures s.capacity > 0 ==> (Congested()(s) <==> (s.filled as real) / (s.capacity as real) > 0.85)
    ensures s.capacity > 0 && Congested()(s) ==> 20 * (s.capacity - s.filled) < 3 * s.capacity
    ensures s.capacity == 0 ==> (Congested()(s) <==> s.filled > 0)
  {
    if s.capacity > 0 {
      QuotientAbove(s.filled as real, s.capacity as real, 17.0, 20.0);
    }
  }

  /** Every fast-moving advice reports a shortfall of more than half the daily demand, so more
      than 20 portions. */
  lemma FastAlertsShortfall(canteenItems: seq<FoodItem>)
    ensures forall s :: s in FastRules(Filter(canteenItems, FastMovingItem())) ==>
              s.FastMoving? && 2 * s.shortfall > s.dailyDemand && s.shortfall > 20
  {
    var fast := Filter(canteenItems, FastMovingItem());
    FilterIn(canteenItems, FastMovingItem());
    forall s | s in FastRules(fast) ensures s.FastMoving? && 2 * s.shortfall > s.dailyDemand && s.shortfall > 20 {
      var k :| 0 <= k < |FastRules(fast)| && FastRules(fast)[k] == s;
      assert fast[k] in fast;
    }
  }

  /** The lists joined left to right. */
  function Join(parts: seq<seq<Suggestion>>): seq<Suggestion>
    decreases |parts|
  {
    if parts == [] then [] else Join(parts[..|parts| - 1]) + parts[|parts| - 1]
  }

  /** The list of the page, part by part: the seven rules, then the reminder. */
  function Parts(g: Groups): seq<seq<Suggestion>> {
    [g.delay, g.sellout, g.congestion, g.fast, g.trending, g.veg, g.load, ReminderRule(Fired(g))]
  }

  lemma JoinParts(g: Groups)
    ensures Join(Parts(g)) == Fired(g) + ReminderRule(Fired(g))
  {
    var ps := Parts(g);
    assert ps[..0] == [];
    assert ps[..1][..0] == ps[..0];
    assert ps[..2][..1] == ps[..1];
    assert ps[..3][..2] == ps[..2];
    assert ps[..4][..3] == ps[..3];
    assert ps[..5][..4] == ps[..4];
    assert ps[..6][..5] == ps[..5];
    assert ps[..7][..6] == ps[..6];
    assert ps[..8] == ps;
    assert Join(ps[..1]) == g.delay;
    assert Join(ps[..2]) == g.delay + g.sellout;
    assert Join(ps[..3]) == g.delay + g.sellout + g.congestion;
    assert Join(ps[..4]) == g.delay + g.sellout + g.congestion + g.fast;
    assert Join(ps[..5]) == g.delay + g.sellout + g.congestion + g.fast + g.trending;
    assert Join(ps[..6]) == g.delay + g.sellout + g.congestion + g.fast + g.trending + g.veg;
    assert Join(ps[..7]) == Fired(g);
  }

  /** When only the part at `i` holds advice of the kind `p`, filtering the joined list by `p`
      gives that part back. */
  lemma {:induction false} PickPart(parts: seq<seq<Suggestion>>, i: int, p: Suggestion -> bool)
    requires forall j, x :: 0 <= j < |parts| && x in parts[j] ==> (p(x) <==> j == i)
    ensures Filter(Join(parts), p) == if 0 <= i < |parts| then parts[i] else []
    decreases |parts|
  {
    if parts != [] {
      var n := |parts| - 1;
      var pre := parts[..n];
      assert forall j :: 0 <= j < n ==> pre[j] == parts[j];
      PickPart(pre, i, p);
      FilterAppend(Join(pre), parts[n], p);
      if i == n {
        FilterKeepsAll(parts[n], p);
      } else {
        FilterNone(parts[n], p);
      }
    }
  }

  function IsSellout(): Suggestion -> bool {
    (x: Suggestion) => x.SelloutAlert?
  }

  function IsCongestion(): Suggestion -> bool {
    (x: Suggestion) => x.SlotCongestion?
  }

  function IsFastMoving(): Suggestion -> bool {
    (x: Suggestion) => x.FastMoving?
  }

  function IsTrending(): Suggestion -> bool {
    (x: Suggestion) => x.Trending?
  }

  function IsVegShift(): Suggestion -> bool {
    (x: Suggestion) => x.VegShift?
  }

  function IsLowLoad(): Suggestion -> bool {
    (x: Suggestion) => x.LowLoad?
  }

  /** The kind of advice the part at `j` of the page holds. */
  predicate KindAt(j: int, x: Suggestion) {
    if j == 0 then x.DelayAlert?
    else if j == 1 then x.SelloutAlert?
    else if j == 2 then x.SlotCongestion?
    else if j == 3 then x.FastMoving?
    else if j == 4 then x.Trending?
    else if j == 5 then x.VegShift?
    else if j == 6 then x.LowLoad?
    else x.PrepReminder?
  }

  lemma PartsKinds(g: Groups)
    requires Kinds(g)
    ensures forall j, x :: 0 <= j < |Parts(g)| && x in Parts(g)[j] ==> KindAt(j, x)
  {
  }

  /** A kind of advice that only the part at `i` holds is, on the page, exactly that part. */
  lemma PickKind(g: Groups, i: int, p: Suggestion -> bool)
    requires Kinds(g) && 0 <= i < 8
    requires forall j, x :: 0 <= j < 8 && KindAt(j, x) ==> (p(x) <==> j == i)
    ensures Filter(Fired(g) + ReminderRule(Fired(g)), p) == Parts(g)[i]
  {
    JoinParts(g);
    PartsKinds(g);
    PickPart(Parts(g), i, p);
  }

  /** Every kind of advice but the delay advice and the reminder is, on the page, exactly what its
      rule pushed. */
  lemma GroupsOfPage(g: Groups)
    requires Kinds(g)
    ensures var r := Fired(g) + ReminderRule(Fired(g));
            && Filter(r, IsSellout()) == g.sellout
            && Filter(r, IsCongestion()) == g.congestion
            && Filter(r, IsFastMoving()) == g.fast
            && Filter(r, IsTrending()) == g.trending
            && Filter(r, IsVegShift()) == g.veg
            && Filter(r, IsLowLoad()) == g.load
  {
    PickKind(g, 1, IsSellout());
    PickKind(g, 2, IsCongestion());
    PickKind(g, 3, IsFastMoving());
    PickKind(g, 4, IsTrending());
    PickKind(g, 5, IsVegShift());
    PickKind(g, 6, IsLowLoad());
  }

  /** The page gives one sellout advice per canteen item that passes the test, one congestion
      advice per congested canteen slot (in slot order, counting the orders the slot board counts
      as pending), and one fast-moving advice per canteen item that sells twice its stock a day. */
  lemma AdvicePerItemAndSlot(foodItems: seq<FoodItem>, orders: seq<Order>, slots: seq<TimeSlot>, canteenId: string, now: int)
    ensures var r := PageSuggestions(foodItems, orders, slots, canteenId, now);
            var canteenItems := Filter(foodItems, ItemInCanteen(canteenId));
            var congested := Filter(GetSlotsByCanteen(slots, canteenId), Congested());
            && |Filter(r, IsSellout())| == |Filter(canteenItems, SellsOutSoon(foodItems))|
            && |Filter(r, IsCongestion())| == |congested|
            && (forall k :: 0 <= k < |congested| ==>
                  Filter(r, IsCongestion())[k] ==
                    SlotCongestion(congested[k].time, Slots.PendingInSlot(orders, canteenId, congested[k].time),
                                   congested[k].capacity - congested[k].filled))
            && Filter(r, IsFastMoving()) == FastRules(Filter(canteenItems, FastMovingItem()))
  {
    SortKeepsRuleOrder(foodItems, orders, slots, canteenId, now);
    var g := RuleGroups(foodItems, orders, slots, canteenId, now);
    GroupsOfPage(g);
    var canteenItems := Filter(foodItems, ItemInCanteen(canteenId));
    var canteenOrders := Filter(orders, OrderInCanteen(canteenId));
    SelloutCount(canteenItems, foodItems, canteenOrders);
    CongestionCountsPendingAll(Filter(GetSlotsByCanteen(slots, canteenId), Congested()), orders, canteenId);
  }

  /** Each congestion advice counts the orders the slot board counts as pending for its slot. */
  lemma CongestionCountsPendingAll(congested: seq<TimeSlot>, orders: seq<Order>, canteenId: string)
    ensures var rules := CongestionRules(congested, Filter(orders, OrderInCanteen(canteenId)));
            forall k :: 0 <= k < |congested| ==>
              rules[k] == SlotCongestion(congested[k].time, Slots.PendingInSlot(orders, canteenId, congested[k].time),
                                         congested[k].capacity - congested[k].filled)
  {
    var canteenOrders := Filter(orders, OrderInCanteen(canteenId));
    var rules := CongestionRules(congested, canteenOrders);
    forall k | 0 <= k < |congested|
      ensures rules[k] == SlotCongestion(congested[k].time, Slots.PendingInSlot(orders, canteenId, congested[k].time),
                                         congested[k].capacity - congested[k].filled)
    {
      assert rules[k] == CongestionAlert(congested[k], canteenOrders);
      CongestionCountsPending(orders, canteenId, congested[k].time);
    }
  }

  /** A kind of advice is on the page exactly when its part of the page is not empty. */
  lemma OnPageIffPushed(r: seq<Suggestion>, p: Suggestion -> bool, group: seq<Suggestion>)
    requires Filter(r, p) == group
    ensures (exists x :: x in r && p(x)) <==> group != []
  {
    FilterIn(r, p);
    if group != [] {
      assert group[0] in Filter(r, p);
    }
  }

  /** The trending advice is on the page exactly when some order of the canteen has a line. */
  lemma TrendingInPage(foodItems: seq<FoodItem>, orders: seq<Order>, slots: seq<TimeSlot>, canteenId: string, now: int)
    ensures var canteenOrders := Filter(orders, OrderInCanteen(canteenId));
            (exists x :: x in PageSuggestions(foodItems, orders, slots, canteenId, now) && IsTrending()(x)) <==>
              exists i :: 0 <= i < |canteenOrders| && canteenOrders[i].items != []
  {
    SortKeepsRuleOrder(foodItems, orders, slots, canteenId, now);
    var g := RuleGroups(foodItems, orders, slots, canteenId, now);
    GroupsOfPage(g);
    var canteenOrders := Filter(orders, OrderInCanteen(canteenId));
    TrendingGroup(foodItems, orders, slots, canteenId, now);
    OnPageIffPushed(PageSuggestions(foodItems, orders, slots, canteenId, now), IsTrending(), g.trending);
    TrendingIffSold(canteenOrders);
  }

  lemma TrendingGroup(foodItems: seq<FoodItem>, orders: seq<Order>, slots: seq<TimeSlot>, canteenId: string, now: int)
    ensures RuleGroups(foodItems, orders, slots, canteenId, now).trending
              == TrendingRule(TopItems(TallyOrders(Filter(orders, OrderInCanteen(canteenId)))))
  {
  }

  /** The veg advice is on the page exactly when the canteen's orders hold more than one and a half
      times as many veg portions as non-veg ones. */
  lemma VegShiftInPage(foodItems: seq<FoodItem>, orders: seq<Order>, slots: seq<TimeSlot>, canteenId: string, now: int)
    ensures var canteenOrders := Filter(orders, OrderInCanteen(canteenId));
            (exists x :: x in PageSuggestions(foodItems, orders, slots, canteenId, now) && IsVegShift()(x)) <==>
              2 * Portions(canteenOrders, true) > 3 * Portions(canteenOrders, false)
  {
    SortKeepsRuleOrder(foodItems, orders, slots, canteenId, now);
    var g := RuleGroups(foodItems, orders, slots, canteenId, now);
    GroupsOfPage(g);
    OnPageIffPushed(PageSuggestions(foodItems, orders, slots, canteenId, now), IsVegShift(), g.veg);
  }

  /** The load advice is on the page exactly when the canteen has places and fewer than half of
      them are booked. */
  lemma LowLoadInPage(foodItems: seq<FoodItem>, orders: seq<Order>, slots: seq<TimeSlot>, canteenId: string, now: int)
    ensures var canteenSlots := GetSlotsByCanteen(slots, canteenId);
            var filled := Slots.TotalBookings(canteenSlots);
            var capacity := Slots.TotalCapacity(canteenSlots);
            (exists x :: x in PageSuggestions(foodItems, orders, slots, canteenId, now) && IsLowLoad()(x)) <==>
              capacity > 0 && (filled as real) / (capacity as real) < 0.5
  {
    SortKeepsRuleOrder(foodItems, orders, slots, canteenId, now);
    var g := RuleGroups(foodItems, orders, slots, canteenId, now);
    GroupsOfPage(g);
    OnPageIffPushed(PageSuggestions(foodItems, orders, slots, canteenId, now), IsLowLoad(), g.load);
    LowLoadIsHalfFull(GetSlotsByCanteen(slots, canteenId));
  }

  // ---------------------------------------------------------------- the page's loops

  /** The rules, one after the other, over the canteen's items, orders and slots. */
  lemma FiredRulesInOrder(foodItems: seq<FoodItem>, orders: seq<Order>, slots: seq<TimeSlot>, canteenId: string, now: int)
    ensures var canteenItems := Filter(foodItems, ItemInCanteen(canteenId));
            var canteenOrders := Filter(orders, OrderInCanteen(canteenId));
            var canteenSlots := GetSlotsByCanteen(slots, canteenId);
            FiredRules(foodItems, orders, slots, canteenId, now)
              == DelayRule(GetDelayedOrders(orders, canteenId, now))
                 + SelloutRules(canteenItems, foodItems, canteenOrders)
                 + CongestionRules(Filter(canteenSlots, Congested()), canteenOrders)
                 + FastRules(Filter(canteenItems, FastMovingItem()))
                 + TrendingRule(TopItems(TallyOrders(canteenOrders)))
                 + VegRule(Portions(canteenOrders, true), Portions(canteenOrders, false))
                 + LoadRule(canteenSlots)
  {
  }

  /** The page body: the rules push their advice, the reminder follows when fewer than three
      fired, and the list is sorted by priority at the end. */
  method BuildSuggestions(foodItems: seq<FoodItem>, orders: seq<Order>, slots: seq<TimeSlot>, canteenId: string, now: int)
    returns (r: seq<Suggestion>)
    ensures r == PageSuggestions(foodItems, orders, slots, canteenId, now)
  {
    var suggestions := PushRules(foodItems, orders, slots, canteenId, now);
    ghost var fired := suggestions;
    if |suggestions| < 3 {
      suggestions := suggestions + [PrepReminder];
    }
    assert suggestions == fired + ReminderRule(fired);
    r := SortBy(suggestions, ByPriority());
  }

  /** Each rule in turn pushes its advice; `orderCounts` is filled by a loop over the orders and
      their lines. */
  method PushRules(foodItems: seq<FoodItem>, orders: seq<Order>, slots: seq<TimeSlot>, canteenId: string, now: int)
    returns (suggestions: seq<Suggestion>)
    ensures suggestions == FiredRules(foodItems, orders, slots, canteenId, now)
  {
    var canteenItems := Filter(foodItems, ItemInCanteen(canteenId));
    var canteenOrders := Filter(orders, OrderInCanteen(canteenId));
    var canteenSlots := GetSlotsByCanteen(slots, canteenId);
    var delayedOrders := GetDelayedOrders(orders, canteenId, now);

    suggestions := PushItemAndSlotRules(canteenItems, foodItems, canteenOrders, canteenSlots, delayedOrders);
    suggestions := PushSalesRules(suggestions, canteenOrders, canteenSlots);
    FiredRulesInOrder(foodItems, orders, slots, canteenId, now);
  }

  /** The first four rules of the page: delayed orders, sellouts, congested slots, fast movers. */
  method PushItemAndSlotRules(canteenItems: seq<FoodItem>, foodItems: seq<FoodItem>, canteenOrders: seq<Order>,
                              canteenSlots: seq<TimeSlot>, delayedOrders: seq<Order>)
    returns (suggestions: seq<Suggestion>)
    ensures suggestions == DelayRule(delayedOrders)
                           + SelloutRules(canteenItems, foodItems, canteenOrders)
                           + CongestionRules(Filter(canteenSlots, Congested()), canteenOrders)
                           + FastRules(Filter(canteenItems, FastMovingItem()))
  {
    suggestions := [];
    if |delayedOrders| > 0 {
      suggestions := suggestions + [DelayAlert(OrderIds(delayedOrders))];
    }
    suggestions := PushSellouts(suggestions, canteenItems, foodItems, canteenOrders);
    suggestions := PushCongestion(suggestions, Filter(canteenSlots, Congested()), canteenOrders);
    suggestions := PushFastMoving(suggestions, Filter(canteenItems, FastMovingItem()));
  }

  /** The last three rules of the page, pushed after `before`: the trending items, the veg shift
      and the low load. */
  method PushSalesRules(before: seq<Suggestion>, canteenOrders: seq<Order>, canteenSlots: seq<TimeSlot>)
    returns (suggestions: seq<Suggestion>)
    ensures suggestions == before
                           + TrendingRule(TopItems(TallyOrders(canteenOrders)))
                           + VegRule(Portions(canteenOrders, true), Portions(canteenOrders, false))
                           + LoadRule(canteenSlots)
  {
    suggestions := before;
    var orderCounts := CountOrders(canteenOrders);
    var topItems := TopItems(orderCounts);
    if |topItems| > 0 {
      suggestions := suggestions + [Trending(topItems)];
    }
    assert suggestions == before + TrendingRule(topItems);
    ghost var trended := suggestions;
    var vegOrders := Portions(canteenOrders, true);
    var nonVegOrders := Portions(canteenOrders, false);
    if 2 * vegOrders > 3 * nonVegOrders {
      suggestions := suggestions + [VegShift(vegOrders, nonVegOrders)];
    }
    assert suggestions == trended + VegRule(vegOrders, nonVegOrders);
    ghost var shifted := suggestions;
    var filled := Slots.TotalBookings(canteenSlots);
    var capacity := Slots.TotalCapacity(canteenSlots);
    if 2 * filled < capacity {
      suggestions := suggestions + [LowLoad(filled, capacity)];
    }
    assert suggestions == shifted + LoadRule(canteenSlots);
  }

  /** `canteenItems.forEach(...)` of the sellout rule, pushing onto `suggestions`. */
  method PushSellouts(suggestions: seq<Suggestion>, canteenItems: seq<FoodItem>, foodItems: seq<FoodItem>, canteenOrders: seq<Order>)
    returns (out: seq<Suggestion>)
    ensures out == suggestions + SelloutRules(canteenItems, foodItems, canteenOrders)
  {
    out := suggestions;
    var i := 0;
    while i < |canteenItems|
      invariant 0 <= i <= |canteenItems|
      invariant out == suggestions + SelloutRules(canteenItems[..i], foodItems, canteenOrders)
    {
      var item := canteenItems[i];
      var selloutTime := PredictSelloutTime(foodItems, item.id);
      if selloutTime.Some? && item.quantity < SelloutStockLimit {
        var pendingOrders := |Filter(canteenOrders, PendingWith(item.id))|;
        out := out + [SelloutAlert(item.name, selloutTime.value, item.quantity, pendingOrders,
                                   Max(MinExtraPortions, item.dailyDemand - item.quantity))];
      }
      assert canteenItems[..i + 1][..i] == canteenItems[..i];
      i := i + 1;
    }
    assert canteenItems[..i] == canteenItems;
  }

  /** `overloadedSlots.forEach(...)`, pushing onto `suggestions`. */
  method PushCongestion(suggestions: seq<Suggestion>, overloadedSlots: seq<TimeSlot>, canteenOrders: seq<Order>)
    returns (out: seq<Suggestion>)
    ensures out == suggestions + CongestionRules(overloadedSlots, canteenOrders)
  {
    out := suggestions;
    var i := 0;
    while i < |overloadedSlots|
      invariant 0 <= i <= |overloadedSlots|
      invariant out == suggestions + CongestionRules(overloadedSlots[..i], canteenOrders)
    {
      var slot := overloadedSlots[i];
      var ordersInSlot := |Filter(canteenOrders, OpenAtTime(slot.time))|;
      out := out + [SlotCongestion(slot.time, ordersInSlot, slot.capacity - slot.filled)];
      assert overloadedSlots[..i + 1][..i] == overloadedSlots[..i];
      i := i + 1;
    }
    assert overloadedSlots[..i] == overloadedSlots;
  }

  /** `fastMovingItems.forEach(...)`, pushing onto `suggestions`. */
  method PushFastMoving(suggestions: seq<Suggestion>, fastMovingItems: seq<FoodItem>)
    returns (out: seq<Suggestion>)
    ensures out == suggestions + FastRules(fastMovingItems)
  {
    out := suggestions;
    var i := 0;
    while i < |fastMovingItems|
      invariant 0 <= i <= |fastMovingItems|
      invariant out == suggestions + FastRules(fastMovingItems[..i])
    {
      var item := fastMovingItems[i];
      out := out + [FastMoving(item.name, item.dailyDemand, item.quantity, item.dailyDemand - item.quantity)];
      assert fastMovingItems[..i + 1][..i] == fastMovingItems[..i];
      i := i + 1;
    }
    assert fastMovingItems[..i] == fastMovingItems;
  }

  /** `canteenOrders.forEach((order) => order.items.forEach(...))` filling `orderCounts`. */
  method CountOrders(canteenOrders: seq<Order>) returns (orderCounts: seq<Tally>)
    ensures orderCounts == TallyOrders(canteenOrders)
  {
    orderCounts := [];
    var i := 0;
    while i < |canteenOrders|
      invariant 0 <= i <= |canteenOrders|
      invariant orderCounts == TallyOrders(canteenOrders[..i])
    {
      var lines := canteenOrders[i].items;
      var j := 0;
      while j < |lines|
        invariant 0 <= j <= |lines|
        invariant orderCounts == TallyLines(TallyOrders(canteenOrders[..i]), lines[..j])
      {
        orderCounts := AddCount(orderCounts, lines[j].foodItem.name, lines[j].quantity);
        assert lines[..j + 1][..j] == lines[..j];
        j := j + 1;
      }
      assert lines[..j] == lines;
      assert canteenOrders[..i + 1][..i] == canteenOrders[..i];
      i := i + 1;
    }
    assert canteenOrders[..i] == canteenOrders;
  }
}
