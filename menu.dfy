/** The student's menu (app/student/menu/page.tsx): the cart with its clamped counts, the lines
    and total it turns into, the checkout guard in front of `createOrder`, the canteen switch,
    the veg filter and which pickup slots can be chosen. */
module Menu {
  import opened CanteenTypes
  import opened SeqUtil
  import opened Engine
  import opened Analytics
  import StoreClass

  /** One `[itemId]: count` pair of the cart object. */
  datatype CartEntry = CartEntry(itemId: string, qty: int)

  /** The three positions of the veg toggle. */
  datatype ItemFilter = All | Veg | NonVeg

  /** How a checkout attempt ends. */
  datatype Outcome = NoSlot | LowBalance | Placed | Failed

  // ---------------------------------------------------------------- the cart object

  /** `cart[itemId] || 0`. */
  function CartQty(cart: seq<CartEntry>, itemId: string): int
    decreases |cart|
  {
    if cart == [] then 0
    else if cart[|cart| - 1].itemId == itemId then cart[|cart| - 1].qty
    else CartQty(cart[..|cart| - 1], itemId)
  }

  predicate HasKey(cart: seq<CartEntry>, itemId: string) {
    exists k :: 0 <= k < |cart| && cart[k].itemId == itemId
  }

  /** Each key at most once, as in a JavaScript object. */
  ghost predicate UniqueKeys(cart: seq<CartEntry>) {
    forall a, b :: 0 <= a < b < |cart| ==> cart[a].itemId != cart[b].itemId
  }

  /** Every key names a catalog entry: what `foodItems.find(...)!` relies on. */
  ghost predicate KeysInCatalog(cart: seq<CartEntry>, items: seq<FoodItem>) {
    forall k :: 0 <= k < |cart| ==> FindFood(items, cart[k].itemId).Some?
  }

  /** `{ ...prev, [itemId]: qty }`: an existing key keeps its place and takes the new count, a new
      key goes last. */
  function SetEntry(cart: seq<CartEntry>, itemId: string, qty: int): (r: seq<CartEntry>)
    ensures HasKey(cart, itemId) ==> |r| == |cart|
    ensures !HasKey(cart, itemId) ==> r == cart + [CartEntry(itemId, qty)]
  {
    if HasKey(cart, itemId) then
      seq(|cart|, k requires 0 <= k < |cart| => if cart[k].itemId == itemId then CartEntry(itemId, qty) else cart[k])
    else cart + [CartEntry(itemId, qty)]
  }

  /** Two carts with the same keys in the same places and the same count wherever the key is
      `itemId` read the same for `itemId`. */
  lemma {:induction false} SameCountsSameRead(a: seq<CartEntry>, b: seq<CartEntry>, itemId: string)
    requires |a| == |b|
    requires forall k :: 0 <= k < |a| ==> a[k].itemId == b[k].itemId && (a[k].itemId == itemId ==> a[k].qty == b[k].qty)
    ensures CartQty(a, itemId) == CartQty(b, itemId)
    decreases |a|
  {
    if a != [] {
      SameCountsSameRead(a[..|a| - 1], b[..|b| - 1], itemId);
    }
  }

  /** A cart holding `itemId`, with the count `qty` wherever it does, reads `qty` for it. */
  lemma {:induction false} UniformRead(a: seq<CartEntry>, itemId: string, qty: int)
    requires HasKey(a, itemId)
    requires forall k :: 0 <= k < |a| && a[k].itemId == itemId ==> a[k].qty == qty
    ensures CartQty(a, itemId) == qty
    decreases |a|
  {
    var n := |a| - 1;
    if a[n].itemId != itemId {
      var k :| 0 <= k < |a| && a[k].itemId == itemId;
      assert a[..n][k] == a[k];
      UniformRead(a[..n], itemId, qty);
    }
  }

  /** The key just written reads back its count; every other key reads as before. */
  lemma SetEntryReads(cart: seq<CartEntry>, itemId: string, qty: int, other: string)
    ensures CartQty(SetEntry(cart, itemId, qty), itemId) == qty
    ensures other != itemId ==> CartQty(SetEntry(cart, itemId, qty), other) == CartQty(cart, other)
  {
    var r := SetEntry(cart, itemId, qty);
    if HasKey(cart, itemId) {
      var k :| 0 <= k < |cart| && cart[k].itemId == itemId;
      assert forall j :: 0 <= j < |r| ==> r[j] == if cart[j].itemId == itemId then CartEntry(itemId, qty) else cart[j];
      assert r[k].itemId == itemId;
      UniformRead(r, itemId, qty);
      if other != itemId {
        SameCountsSameRead(r, cart, other);
      }
    } else {
      assert r[..|cart|] == cart;
    }
  }

  lemma SetEntryKeys(cart: seq<CartEntry>, items: seq<FoodItem>, itemId: string, qty: int)
    requires UniqueKeys(cart) && KeysInCatalog(cart, items) && FindFood(items, itemId).Some?
    ensures UniqueKeys(SetEntry(cart, itemId, qty)) && KeysInCatalog(SetEntry(cart, itemId, qty), items)
  {
    var r := SetEntry(cart, itemId, qty);
    if HasKey(cart, itemId) {
      forall a, b | 0 <= a < b < |r| ensures r[a].itemId != r[b].itemId {
        assert r[a].itemId == cart[a].itemId && r[b].itemId == cart[b].itemId;
      }
    } else {
      assert r == cart + [CartEntry(itemId, qty)];
      forall a, b | 0 <= a < b < |r| ensures r[a].itemId != r[b].itemId {
        assert r[a] == cart[a];
        if b == |cart| {
          assert r[b].itemId == itemId;
        } else {
          assert r[b] == cart[b];
        }
      }
    }
  }

  // ---------------------------------------------------------------- updateCart

  /** `Math.max(0, Math.min(current + delta, stock))`. */
  function Clamp(current: int, delta: int, stock: int): (r: int)
    ensures 0 <= r && (stock >= 0 ==> r <= stock)
  {
    Max(0, Min(current + delta, stock))
  }

  /** What `updateCart(itemId, delta)` leaves in the cart: unchanged for an unknown item, otherwise
      the item's count moved by `delta` and clamped to [0, stock]. */
  function UpdateCartSpec(cart: seq<CartEntry>, items: seq<FoodItem>, itemId: string, delta: int): (r: seq<CartEntry>)
  {
    match FindFood(items, itemId)
    case None => cart
    case Some(item) => SetEntry(cart, itemId, Clamp(CartQty(cart, itemId), delta, item.quantity))
  }

  /** The count written is the old count moved by `delta`, kept within [0, stock]; no other key
      changes, and an unknown item leaves the whole cart as it was. */
  lemma UpdateCartClamps(cart: seq<CartEntry>, items: seq<FoodItem>, itemId: string, delta: int, other: string)
    ensures FindFood(items, itemId).None? ==> UpdateCartSpec(cart, items, itemId, delta) == cart
    ensures FindFood(items, itemId).Some? ==>
              var stock := FindFood(items, itemId).value.quantity;
              var q := CartQty(UpdateCartSpec(cart, items, itemId, delta), itemId);
              && q == Max(0, Min(CartQty(cart, itemId) + delta, stock))
              && 0 <= q && (stock >= 0 ==> q <= stock)
    ensures other != itemId ==> CartQty(UpdateCartSpec(cart, items, itemId, delta), other) == CartQty(cart, other)
  {
    if FindFood(items, itemId).Some? {
      var item := FindFood(items, itemId).value;
      SetEntryReads(cart, itemId, Clamp(CartQty(cart, itemId), delta, item.quantity), other);
    }
  }

  // ---------------------------------------------------------------- cartItems / cartTotal

  /** `cartItems`: one line per key with a positive count, in key order, carrying the catalog entry. */
  function CartItems(cart: seq<CartEntry>, items: seq<FoodItem>): (r: seq<LineItem>)
    requires KeysInCatalog(cart, items)
    ensures |r| <= |cart|
    ensures forall k :: 0 <= k < |r| ==> r[k].quantity > 0 && r[k].foodItem in items
    decreases |cart|
  {
    if cart == [] then []
    else
      var e := cart[|cart| - 1];
      assert forall k :: 0 <= k < |cart| - 1 ==> cart[..|cart| - 1][k] == cart[k];
      CartItems(cart[..|cart| - 1], items)
        + (if e.qty > 0 then [LineItem(FindFood(items, e.itemId).value, e.qty)] else [])
  }

  /** `cartTotal`: what the order will cost. */
  function CartTotal(cart: seq<CartEntry>, items: seq<FoodItem>): int
    requires KeysInCatalog(cart, items)
  {
    OrderTotal(CartItems(cart, items))
  }

  /** The lines are exactly the keys with a positive count, each with its count and its catalog
      entry. */
  lemma {:induction false} CartItemsExact(cart: seq<CartEntry>, items: seq<FoodItem>, itemId: string)
    requires UniqueKeys(cart) && KeysInCatalog(cart, items)
    ensures var r := CartItems(cart, items);
            && (CartQty(cart, itemId) > 0 <==> exists k :: 0 <= k < |r| && r[k].foodItem.id == itemId)
            && forall k :: 0 <= k < |r| && r[k].foodItem.id == itemId ==>
                 r[k].quantity == CartQty(cart, itemId) && r[k].foodItem == FindFood(items, itemId).value
    decreases |cart|
  {
    if cart != [] {
      var n := |cart| - 1;
      var e := cart[n];
      var prefix := cart[..n];
      assert forall k :: 0 <= k < n ==> prefix[k] == cart[k];
      CartItemsExact(prefix, items, itemId);
      var tail := if e.qty > 0 then [LineItem(FindFood(items, e.itemId).value, e.qty)] else [];
      assert CartItems(cart, items) == CartItems(prefix, items) + tail;
      var r := CartItems(cart, items);
      var rp := CartItems(prefix, items);
      assert forall k :: 0 <= k < |rp| ==> r[k] == rp[k];
      if e.itemId == itemId {
        assert forall k :: 0 <= k < n ==> prefix[k].itemId != itemId;
        NoKeyNoCount(prefix, itemId);
        assert forall k :: 0 <= k < |rp| ==> rp[k].foodItem.id != itemId;
        if e.qty > 0 {
          assert r[|rp|].foodItem.id == itemId;
        } else {
          assert r == rp;
        }
      }
    }
  }

  lemma {:induction false} NoKeyNoCount(cart: seq<CartEntry>, itemId: string)
    requires forall k :: 0 <= k < |cart| ==> cart[k].itemId != itemId
    ensures CartQty(cart, itemId) == 0
    decreases |cart|
  {
    if cart != [] {
      NoKeyNoCount(cart[..|cart| - 1], itemId);
    }
  }

  /** With non-negative prices the cart never costs less than nothing. */
  lemma CartTotalNonNegative(cart: seq<CartEntry>, items: seq<FoodItem>)
    requires KeysInCatalog(cart, items)
    requires forall j :: 0 <= j < |items| ==> items[j].price >= 0
    ensures CartTotal(cart, items) >= 0
  {
    OrderTotalNonNegative(CartItems(cart, items));
  }

  // ---------------------------------------------------------------- filteredItems

  function Shows(filter: ItemFilter): FoodItem -> bool {
    (f: FoodItem) => match filter
                     case All => true
                     case Veg => f.isVeg
                     case NonVeg => !f.isVeg
  }

  /** `filteredItems`: the selected canteen's items the veg toggle lets through, in catalog order. */
  function FilteredItems(items: seq<FoodItem>, canteenId: string, filter: ItemFilter): (r: seq<FoodItem>)
    ensures forall f :: f in r <==>
              && f in items && f.canteenId == canteenId
              && (filter == Veg ==> f.isVeg) && (filter == NonVeg ==> !f.isVeg)
  {
    FilterIn(items, ItemInCanteen(canteenId));
    FilterIn(Filter(items, ItemInCanteen(canteenId)), Shows(filter));
    Filter(Filter(items, ItemInCanteen(canteenId)), Shows(filter))
  }

  /** "all" shows the canteen's whole menu, and "veg" and "nonveg" split it. */
  lemma VegSplitsMenu(items: seq<FoodItem>, canteenId: string)
    ensures FilteredItems(items, canteenId, All) == Filter(items, ItemInCanteen(canteenId))
    ensures |FilteredItems(items, canteenId, Veg)| + |FilteredItems(items, canteenId, NonVeg)|
            == |FilteredItems(items, canteenId, All)|
  {
    var menu := Filter(items, ItemInCanteen(canteenId));
    FilterKeepsAll(menu, Shows(All));
    FilterSplit(menu, Shows(Veg), Shows(NonVeg));
  }

  // ---------------------------------------------------------------- the slot picker

  /** A slot is offered but disabled once it is full: `filled >= capacity`. */
  predicate SlotSelectable(s: TimeSlot) {
    !(s.filled >= s.capacity)
  }

  /** "Filling fast": `filled / capacity > 0.85` (20 filled > 17 capacity; +Infinity at no
      capacity) on a slot that is not full. */
  predicate FillingFast(s: TimeSlot) {
    20 * s.filled > 17 * s.capacity && SlotSelectable(s)
  }

  /** "Filling fast" shows only on a selectable slot with places, and is the page's ratio test. */
  lemma FillingFastIsRatio(s: TimeSlot)
    ensures FillingFast(s) ==> s.capacity > 0 && s.filled < s.capacity
    ensures s.capacity > 0 && SlotSelectable(s) ==>
              (FillingFast(s) <==> (s.filled as real) / (s.capacity as real) > 0.85)
  {
    if s.capacity > 0 {
      QuotientAbove(s.filled as real, s.capacity as real, 17.0, 20.0);
    }
  }

  /** One booking on a slot the picker allows never takes it past its capacity; only booking a
      slot the picker disables can. */
  lemma SelectableSlotStaysWithinCapacity(slots: seq<TimeSlot>, time: string, canteenId: string, i: int)
    requires 0 <= i < |slots| && SlotSelectable(slots[i])
    ensures BookSlot(slots, time, canteenId)[i].filled <= slots[i].capacity
  {
  }

  // ---------------------------------------------------------------- the page

  class MenuPage {
    var cart: seq<CartEntry>
    var showCheckout: bool
    var selectedSlot: string
    var filter: ItemFilter

    constructor ()
      ensures cart == [] && !showCheckout && selectedSlot == "" && filter == All
    {
      cart := [];
      showCheckout := false;
      selectedSlot := "";
      filter := All;
    }

    /** `updateCart(itemId, delta)`. */
    method UpdateCart(items: seq<FoodItem>, itemId: string, delta: int)
      modifies this`cart
      ensures cart == UpdateCartSpec(old(cart), items, itemId, delta)
    {
      var item := FindFood(items, itemId);
      if item.None? {
        return;
      }
      var current := CartQty(cart, itemId);
      var newQty := Max(0, Min(current + delta, item.value.quantity));
      cart := SetEntry(cart, itemId, newQty);
    }

    /** `handleCanteenChange(canteenId)`: switches canteen and starts over with an empty cart and
        no slot. */
    method HandleCanteenChange(store: StoreClass.CanteenStore, canteenId: string)
      modifies this`cart, this`selectedSlot, store`selectedCanteen
      ensures store.selectedCanteen == canteenId && cart == [] && selectedSlot == ""
    {
      store.SetSelectedCanteen(canteenId);
      cart := [];
      selectedSlot := "";
    }

    /** `handleOrder()`: refuses without a slot or when the cart costs more than the wallet holds;
        otherwise places the order for the current student and, once placed, empties the cart,
        closes the checkout and clears the slot. A refused attempt changes nothing. */
    method HandleOrder(store: StoreClass.CanteenStore, orderId: string, txId: string, now: int)
      returns (outcome: Outcome)
      requires store.Valid() && KeysInCatalog(cart, store.foodItems)
      modifies this`cart, this`showCheckout, this`selectedSlot
      modifies store`orders, store`walletBalance, store`transactions, store`timeSlots
      ensures store.Valid()
      ensures outcome != Failed
      ensures outcome == NoSlot <==> old(selectedSlot) == ""
      ensures outcome == LowBalance <==>
                old(selectedSlot) != "" && CartTotal(old(cart), store.foodItems) > old(store.walletBalance)
      ensures outcome != Placed ==> unchanged(this, store)
      ensures outcome == Placed ==>
                && (store.State(), true) == CreateOrderSpec(old(store.State()), StoreClass.CurrentStudentId,
                     StoreClass.CurrentStudentName, CartItems(old(cart), store.foodItems), store.selectedCanteen,
                     old(selectedSlot), orderId, txId, now)
                && cart == [] && selectedSlot == "" && !showCheckout
    {
      if selectedSlot == "" {
        return NoSlot;
      }
      if CartTotal(cart, store.foodItems) > store.walletBalance {
        return LowBalance;
      }
      outcome := Checkout(store, orderId, txId, now);
    }

    /** The part of `handleOrder` past both guards: `createOrder` with the cart's lines, then the
        reset of the page once it reports success. */
    method Checkout(store: StoreClass.CanteenStore, orderId: string, txId: string, now: int)
      returns (outcome: Outcome)
      requires store.Valid() && KeysInCatalog(cart, store.foodItems)
      requires selectedSlot != "" && CartTotal(cart, store.foodItems) <= store.walletBalance
      modifies this`cart, this`showCheckout, this`selectedSlot
      modifies store`orders, store`walletBalance, store`transactions, store`timeSlots
      ensures store.Valid()
      ensures outcome == Placed
      ensures (store.State(), true) == CreateOrderSpec(old(store.State()), StoreClass.CurrentStudentId,
                StoreClass.CurrentStudentName, CartItems(old(cart), store.foodItems), store.selectedCanteen,
                old(selectedSlot), orderId, txId, now)
      ensures cart == [] && selectedSlot == "" && !showCheckout
    {
      var lines := CartItems(cart, store.foodItems);
      var ok := store.CreateOrder(StoreClass.CurrentStudentId, StoreClass.CurrentStudentName, lines,
                                  store.selectedCanteen, selectedSlot, orderId, txId, now);
      if ok {
        cart := [];
        showCheckout := false;
        selectedSlot := "";
        return Placed;
      }
      // `createOrder` refuses only a total above the balance, which the guard has excluded.
      assert false;
      return Failed;
    }
  }
}
