/** The store behind `CanteenProvider` (lib/canteen-context.tsx, lines 362-660): the state the
    provider holds, and the commands that change it. Each command is proved to perform the
    transition Engine specifies, and to keep the wallet equal to what the ledger adds up to. */
module StoreClass {
  import opened CanteenTypes
  import opened Engine
  import Login

  const InitialBalance: int := 500
  const CurrentStudentId: string := "student-1"
  const CurrentStudentName: string := "Rahul Kumar"
  const DefaultCanteen: string := "canteen-1"

  class CanteenStore {
    var foodItems: seq<FoodItem>
    var orders: seq<Order>
    var walletBalance: int
    var transactions: seq<Transaction>
    var timeSlots: seq<TimeSlot>
    const canteens: seq<Canteen>
    var selectedCanteen: string
    var loggedInCanteen: Option<LoggedInCanteen>

    function State(): Store
      reads this
    {
      Store(foodItems, orders, walletBalance, transactions, timeSlots)
    }

    ghost predicate Valid()
      reads this
    {
      LedgerConsistent(State()) && UniqueIds(foodItems)
    }

    /** A fresh store: the given catalog, slots and canteens, no orders, and a wallet of 500
        recorded by one "Initial balance" credit. */
    constructor (seedItems: seq<FoodItem>, seedSlots: seq<TimeSlot>, seedCanteens: seq<Canteen>, now: int)
      requires UniqueIds(seedItems)
      ensures Valid()
      ensures foodItems == seedItems && orders == [] && timeSlots == seedSlots && canteens == seedCanteens
      ensures walletBalance == InitialBalance
      ensures transactions == [Transaction("t1", Credit, InitialBalance, "Initial balance", now)]
      ensures selectedCanteen == DefaultCanteen && loggedInCanteen == None
    {
      foodItems := seedItems;
      orders := [];
      walletBalance := InitialBalance;
      transactions := [Transaction("t1", Credit, InitialBalance, "Initial balance", now)];
      timeSlots := seedSlots;
      canteens := seedCanteens;
      selectedCanteen := DefaultCanteen;
      loggedInCanteen := None;
      new;
      assert transactions[..|transactions| - 1] == [];
      assert LedgerBalance(transactions) == InitialBalance;
    }

    /** `createOrder`: refuses when the total exceeds the balance; otherwise appends the order,
        debits the wallet, records the debit and books the slot. */
    method CreateOrder(studentId: string, studentName: string, items: seq<LineItem>, canteenId: string,
                       slotTime: string, orderId: string, txId: string, now: int) returns (ok: bool)
      requires Valid()
      modifies this`orders, this`walletBalance, this`transactions, this`timeSlots
      ensures Valid()
      ensures (State(), ok) == CreateOrderSpec(old(State()), studentId, studentName, items, canteenId, slotTime, orderId, txId, now)
    {
      var totalAmount := OrderTotal(items);
      if totalAmount > walletBalance {
        return false;
      }
      CreateOrderKeepsLedger(State(), studentId, studentName, items, canteenId, slotTime, orderId, txId, now);
      var newOrder := NewOrder(studentId, studentName, items, canteenId, slotTime, orderId, now);
      orders := orders + [newOrder];
      walletBalance := walletBalance - totalAmount;
      transactions := transactions + [DebitEntry(orderId, totalAmount, txId, now)];
      timeSlots := BookSlot(timeSlots, slotTime, canteenId);
      return true;
    }

    /** `updateOrderStatus`: walks the orders; each one carrying the id is stamped, refunded when
        the new status is Rejected, and has its lines deducted from stock one at a time when it is
        Accepted. */
    method UpdateOrderStatus(orderId: string, status: Status, reason: Option<string>, txId: string, now: int)
      requires Valid()
      modifies this`orders, this`walletBalance, this`transactions, this`foodItems
      ensures Valid()
      ensures State() == UpdateStatusSpec(old(State()), orderId, status, reason, txId, now)
    {
      ghost var before := State();
      var prev := orders;
      var next: seq<Order> := [];
      var i := 0;
      while i < |prev|
        invariant 0 <= i <= |prev| && orders == prev
        invariant next == StampAll(prev[..i], orderId, status, reason, now)
        invariant status == Rejected ==> walletBalance == before.walletBalance + RefundTotal(prev[..i], orderId)
        invariant status == Rejected ==> transactions == before.transactions + Refunds(prev[..i], orderId, reason, txId, now)
        invariant status != Rejected ==> walletBalance == before.walletBalance && transactions == before.transactions
        invariant status == Accepted ==> foodItems == DeductAll(before.foodItems, AcceptedLines(prev[..i], orderId))
        invariant status != Accepted ==> foodItems == before.foodItems
      {
        var order := prev[i];
        PrefixStep(prev, i, orderId, status, reason, txId, now);
        if order.id == orderId {
          if status == Rejected {
            walletBalance := walletBalance + order.totalAmount;
            transactions := transactions + [RefundEntry(order, reason, txId, now)];
          }
          if status == Accepted {
            DeductAllAppend(before.foodItems, AcceptedLines(prev[..i], orderId), order.items);
            DeductLines(order.items);
          }
          next := next + [Stamp(order, status, reason, now)];
        } else {
          assert AcceptedLines(prev[..i], orderId) + [] == AcceptedLines(prev[..i], orderId);
          next := next + [order];
        }
        i := i + 1;
      }
      assert prev[..i] == prev;
      orders := next;
      UpdateStatusKeepsLedger(before, orderId, status, reason, txId, now);
      if status == Accepted {
        DeductAllIds(before.foodItems, AcceptedLines(prev, orderId));
      }
    }

    /** The `order.items.forEach` of the accept path: each line in turn lowers the stock of the
        entries with its id, floored at 0. */
    method DeductLines(lines: seq<LineItem>)
      modifies this`foodItems
      ensures foodItems == DeductAll(old(foodItems), lines)
    {
      ghost var start := foodItems;
      var j := 0;
      while j < |lines|
        invariant 0 <= j <= |lines|
        invariant foodItems == DeductAll(start, lines[..j])
      {
        assert lines[..j + 1][..j] == lines[..j];
        foodItems := DeductLine(foodItems, lines[j]);
        j := j + 1;
      }
      assert lines[..j] == lines;
    }

    /** `updateFoodStock`: sets the stock of the entries with the id, as given. */
    method UpdateFoodStock(itemId: string, quantity: int)
      requires Valid()
      modifies this`foodItems
      ensures Valid()
      ensures foodItems == SetStock(old(foodItems), itemId, quantity)
    {
      foodItems := SetStock(foodItems, itemId, quantity);
    }

    /** `addMoney`: credits the wallet and records the credit; the amount is not checked. */
    method AddMoney(amount: int, txId: string, now: int)
      requires Valid()
      modifies this`walletBalance, this`transactions
      ensures Valid()
      ensures walletBalance == old(walletBalance) + amount
      ensures transactions == old(transactions) + [Transaction(txId, Credit, amount, "Added to wallet", now)]
    {
      var entry := Transaction(txId, Credit, amount, "Added to wallet", now);
      LedgerAppend(transactions, [entry]);
      assert [entry][..0] == [];
      walletBalance := walletBalance + amount;
      transactions := transactions + [entry];
    }

    /** `loginCanteen`: logs in as the first canteen whose credentials match. */
    method LoginCanteen(staffId: string, password: string) returns (ok: bool)
      modifies this`loggedInCanteen
      ensures ok <==> Login.FindLogin(canteens, staffId, password).Some?
      ensures ok ==> var c := Login.FindLogin(canteens, staffId, password).value;
                     loggedInCanteen == Some(LoggedInCanteen(c.id, c.name))
      ensures !ok ==> loggedInCanteen == old(loggedInCanteen)
    {
      var found := Login.FindLogin(canteens, staffId, password);
      if found.Some? {
        loggedInCanteen := Some(LoggedInCanteen(found.value.id, found.value.name));
        return true;
      }
      return false;
    }

    method LogoutCanteen()
      modifies this`loggedInCanteen
      ensures loggedInCanteen == None
    {
      loggedInCanteen := None;
    }

    method SetSelectedCanteen(canteenId: string)
      modifies this`selectedCanteen
      ensures selectedCanteen == canteenId
    {
      selectedCanteen := canteenId;
    }
  }
}
