/** The records the canteen store keeps (lib/canteen-context.tsx, lines 7-63),
    and the catalog lookups every page shares. */
module CanteenTypes {

  datatype Option<T> = None | Some(value: T)

  /** The order lifecycle; the engine itself accepts any of these as a new status. */
  datatype Status = New | Accepted | Preparing | Ready | Rejected

  datatype TxKind = Credit | Debit | Refund

  /** A catalog entry. `quantity` is the current stock; the store does not clamp it,
      its callers do. `dailyDemand` is a count of portions per day, never negative. */
  datatype FoodItem = FoodItem(
    id: string,
    name: string,
    price: int,
    image: string,
    isVeg: bool,
    quantity: int,
    canteenId: string,
    avgPrepTime: nat,
    dailyDemand: nat)

  /** One line of an order: a snapshot of the catalog entry taken at checkout, and a count. */
  datatype LineItem = LineItem(foodItem: FoodItem, quantity: int)

  /** Timestamps are milliseconds since the epoch; the stamps of later transitions are
      absent until the transition happens. */
  datatype Order = Order(
    id: string,
    studentId: string,
    studentName: string,
    items: seq<LineItem>,
    totalAmount: int,
    status: Status,
    canteenId: string,
    createdAt: int,
    acceptedAt: Option<int>,
    preparingAt: Option<int>,
    readyAt: Option<int>,
    slotTime: string,
    rejectionReason: Option<string>)

  datatype Transaction = Transaction(
    id: string,
    kind: TxKind,
    amount: int,
    description: string,
    createdAt: int)

  /** A pickup slot is identified by its time label together with its canteen. */
  datatype TimeSlot = TimeSlot(time: string, capacity: nat, filled: nat, canteenId: string)

  datatype CanteenKind = Main | Juice | Snack

  datatype CrowdLevel = Low | Medium | High

  datatype Canteen = Canteen(
    id: string,
    name: string,
    kind: CanteenKind,
    crowdLevel: CrowdLevel,
    staffId: string,
    staffPassword: string)

  datatype LoggedInCanteen = LoggedInCanteen(id: string, name: string)

  function Max(a: int, b: int): int { if a >= b then a else b }

  function Min(a: int, b: int): int { if a <= b then a else b }

  /** JavaScript's `s || fallback` on an optional string: absent and empty both fall back. */
  function OrElse(s: Option<string>, fallback: string): (r: string)
    ensures s.Some? && s.value != "" ==> r == s.value
    ensures s.None? || s.value == "" ==> r == fallback
  {
    if s.Some? && s.value != "" then s.value else fallback
  }

  /** No two catalog entries share an id (true of the seed catalog, and kept by every command). */
  ghost predicate UniqueIds(items: seq<FoodItem>) {
    forall i, j :: 0 <= i < j < |items| ==> items[i].id != items[j].id
  }

  /** `foodItems.find(f => f.id === id)`: the first catalog entry with that id. */
  function FindFood(items: seq<FoodItem>, id: string): (r: Option<FoodItem>)
    ensures r.Some? ==> r.value in items && r.value.id == id
    ensures r.None? <==> forall k :: 0 <= k < |items| ==> items[k].id != id
  {
    if items == [] then None
    else if items[0].id == id then Some(items[0])
    else FindFood(items[1..], id)
  }

  lemma {:induction false} FindFoodUnique(items: seq<FoodItem>, k: int)
    requires UniqueIds(items) && 0 <= k < |items|
    ensures FindFood(items, items[k].id) == Some(items[k])
  {
    if k > 0 {
      assert items[0].id != items[k].id;
      FindFoodUnique(items[1..], k - 1);
    }
  }

  /** `currentItem?.quantity || 0`: the stock of the first entry with that id, 0 when absent. */
  function StockOf(items: seq<FoodItem>, id: string): int
  {
    match FindFood(items, id)
    case Some(f) => f.quantity
    case None => 0
  }
}
