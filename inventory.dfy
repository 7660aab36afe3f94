/** The stock page of a canteen (app/canteen/inventory/page.tsx): the -5 / +5 buttons, which
    clamp at 0 before writing the stock, and the low-stock alert. */
module Inventory {
  import opened CanteenTypes
  import opened SeqUtil
  import opened Engine
  import opened Analytics
  import StoreClass

  /** The step of the two stock buttons. */
  const Step: int := 5

  /** The alert threshold. */
  const LowStockLevel: int := 10

  /** What `handleStockChange(itemId, delta)` leaves in the catalog: nothing changes for an unknown
      id; otherwise every entry with the id gets the first entry's stock plus `delta`, floored at 0. */
  function StockChange(items: seq<FoodItem>, itemId: string, delta: int): (r: seq<FoodItem>)
    ensures |r| == |items|
  {
    match FindFood(items, itemId)
    case None => items
    case Some(f) => SetStock(items, itemId, Max(0, f.quantity + delta))
  }

  /** `handleStockChange(itemId, delta)`: looks the item up and, when it exists, writes the clamped
      stock through the store's `updateFoodStock`. */
  method HandleStockChange(store: StoreClass.CanteenStore, itemId: string, delta: int)
    requires store.Valid()
    modifies store`foodItems
    ensures store.Valid()
    ensures store.foodItems == StockChange(old(store.foodItems), itemId, delta)
  {
    var item := FindFood(store.foodItems, itemId);
    if item.Some? {
      store.UpdateFoodStock(itemId, Max(0, item.value.quantity + delta));
    }
  }

  /** With unique ids the button changes exactly the item's entry, to its stock plus `delta`
      floored at 0, and every other entry stays as it was. */
  lemma StockChangeAt(items: seq<FoodItem>, k: int, delta: int)
    requires UniqueIds(items) && 0 <= k < |items|
    ensures var r := StockChange(items, items[k].id, delta);
            && r[k] == items[k].(quantity := Max(0, items[k].quantity + delta))
            && forall j :: 0 <= j < |items| && j != k ==> r[j] == items[j]
  {
    FindFoodUnique(items, k);
  }

  /** A button never leaves the changed item with negative stock, and keeps every stock that was
      not negative so. */
  lemma StockChangeNonNegative(items: seq<FoodItem>, itemId: string, delta: int)
    requires forall j :: 0 <= j < |items| ==> items[j].quantity >= 0
    ensures forall j :: 0 <= j < |StockChange(items, itemId, delta)| ==> StockChange(items, itemId, delta)[j].quantity >= 0
  {
  }

  /** An unknown id changes nothing. */
  lemma UnknownItemUnchanged(items: seq<FoodItem>, itemId: string, delta: int)
    requires forall j :: 0 <= j < |items| ==> items[j].id != itemId
    ensures StockChange(items, itemId, delta) == items
  {
  }

  /** +5 then -5 restores a stock that was not negative. */
  lemma PlusThenMinusRestores(items: seq<FoodItem>, k: int)
    requires UniqueIds(items) && 0 <= k < |items| && items[k].quantity >= 0
    ensures StockChange(StockChange(items, items[k].id, Step), items[k].id, -Step) == items
  {
    var id := items[k].id;
    var once := StockChange(items, id, Step);
    StockChangeAt(items, k, Step);
    assert UniqueIds(once) by {
      forall a, b | 0 <= a < b < |once| ensures once[a].id != once[b].id {
        assert once[a].id == items[a].id && once[b].id == items[b].id;
      }
    }
    StockChangeAt(once, k, -Step);
    var twice := StockChange(once, id, -Step);
    assert forall j :: 0 <= j < |items| ==> twice[j] == items[j];
  }

  /** -5 on fewer than 5 empties the item, never below 0. */
  lemma MinusOnLowStockEmpties(items: seq<FoodItem>, k: int)
    requires UniqueIds(items) && 0 <= k < |items| && items[k].quantity < Step
    ensures StockChange(items, items[k].id, -Step)[k].quantity == 0
  {
    StockChangeAt(items, k, -Step);
  }

  // ---------------------------------------------------------------- the low-stock alert

  function Low(): FoodItem -> bool {
    (f: FoodItem) => f.quantity < LowStockLevel
  }

  /** The items the alert names: the canteen's items under 10 in stock, in catalog order. */
  function LowStock(items: seq<FoodItem>, canteenId: string): (r: seq<FoodItem>)
    ensures forall f :: f in r <==> f in items && f.canteenId == canteenId && f.quantity < LowStockLevel
  {
    FilterIn(items, ItemInCanteen(canteenId));
    FilterIn(Filter(items, ItemInCanteen(canteenId)), Low());
    Filter(Filter(items, ItemInCanteen(canteenId)), Low())
  }

  /** The alert is shown exactly when it has something to name. */
  lemma AlertShownIffLowStock(items: seq<FoodItem>, canteenId: string)
    ensures (exists f :: f in Filter(items, ItemInCanteen(canteenId)) && f.quantity < LowStockLevel)
            <==> |LowStock(items, canteenId)| > 0
  {
    FilterIn(items, ItemInCanteen(canteenId));
    var r := LowStock(items, canteenId);
    if |r| > 0 {
      assert r[0] in r;
    }
  }
}
