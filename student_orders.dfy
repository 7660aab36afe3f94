/** The student's order history (app/student/orders/page.tsx): the student's own orders newest
    first, the late marker, and the four-step progress tracker. */
module StudentOrders {
  import opened CanteenTypes
  import opened SeqUtil
  import opened Analytics
  import Dashboard

  /** `isOrderDelayed(order)` at time `now` (milliseconds): finished orders never; otherwise more
      than 3, 5 or 10 minutes since creation for New, Accepted and Preparing. */
  predicate IsOrderDelayed(o: Order, now: int) {
    if o.status == Ready || o.status == Rejected then false
    else
      var age := now - o.createdAt;
      || (o.status == New && age > 3 * MinuteMs)
      || (o.status == Accepted && age > 5 * MinuteMs)
      || (o.status == Preparing && age > 10 * MinuteMs)
  }

  /** The student's marker and the store's delay test are the same rule. */
  lemma StudentDelayIsStoreDelay(o: Order, now: int)
    ensures IsOrderDelayed(o, now) <==> IsDelayedAt(o, now)
  {
  }

  function LateIn(canteenId: string, now: int): Order -> bool {
    (o: Order) => o.canteenId == canteenId && IsOrderDelayed(o, now)
  }

  /** So the desk's delayed list is the student page's late orders, narrowed to one canteen. */
  lemma DelayedOrdersAreLateOrders(orders: seq<Order>, canteenId: string, now: int)
    ensures GetDelayedOrders(orders, canteenId, now) == Filter(orders, LateIn(canteenId, now))
  {
    forall o | o in orders ensures DelayedIn(canteenId, now)(o) == LateIn(canteenId, now)(o) {
      StudentDelayIsStoreDelay(o, now);
    }
    FilterExt(orders, DelayedIn(canteenId, now), LateIn(canteenId, now));
  }

  // ---------------------------------------------------------------- myOrders

  function ByStudent(studentId: string): Order -> bool {
    (o: Order) => o.studentId == studentId
  }

  /** The sort key of `(a, b) => b.createdAt - a.createdAt`: ascending in it is newest first. */
  function NewestFirst(): Order -> int {
    (o: Order) => -o.createdAt
  }

  /** `myOrders`: the student's orders, newest first; orders created at the same instant keep the
      order the store holds them in. */
  function MyOrders(orders: seq<Order>, studentId: string): (r: seq<Order>)
    ensures multiset(r) == multiset(Filter(orders, ByStudent(studentId)))
    ensures forall o :: o in r <==> o in orders && o.studentId == studentId
    ensures forall i, j :: 0 <= i < j < |r| ==> r[i].createdAt >= r[j].createdAt
  {
    FilterIn(orders, ByStudent(studentId));
    NewestFirstOrder(SortBy(Filter(orders, ByStudent(studentId)), NewestFirst()));
    SortBy(Filter(orders, ByStudent(studentId)), NewestFirst())
  }

  lemma NewestFirstOrder(r: seq<Order>)
    requires SortedBy(r, NewestFirst())
    ensures forall i, j :: 0 <= i < j < |r| ==> r[i].createdAt >= r[j].createdAt
    ensures forall o :: o in r <==> o in multiset(r)
  {
    forall i, j | 0 <= i < j < |r| ensures r[i].createdAt >= r[j].createdAt {
      assert NewestFirst()(r[i]) <= NewestFirst()(r[j]);
    }
  }

  function CreatedAt(t: int): Order -> bool {
    (o: Order) => o.createdAt == t
  }

  /** Orders with the same creation time appear in the order the store holds them. */
  lemma MyOrdersTiesKeepStoreOrder(orders: seq<Order>, studentId: string, t: int)
    ensures Filter(MyOrders(orders, studentId), CreatedAt(t)) == Filter(Filter(orders, ByStudent(studentId)), CreatedAt(t))
  {
    var mine := Filter(orders, ByStudent(studentId));
    var sorted := SortBy(mine, NewestFirst());
    var k := -t;
    SortByStable(mine, NewestFirst(), k);
    assert forall o :: KeyIs(NewestFirst(), k)(o) == CreatedAt(t)(o);
    FilterExt(sorted, KeyIs(NewestFirst(), k), CreatedAt(t));
    FilterExt(mine, KeyIs(NewestFirst(), k), CreatedAt(t));
  }

  // ---------------------------------------------------------------- the progress tracker

  /** `statusOrder`: the four steps of the tracker. */
  const StatusOrder: seq<Status> := [New, Accepted, Preparing, Ready]

  /** `statusOrder.indexOf(s)`: the first position holding `s`, or -1. */
  function IndexOf(steps: seq<Status>, s: Status): (r: int)
    ensures -1 <= r < |steps|
    ensures r >= 0 ==> steps[r] == s && forall j :: 0 <= j < r ==> steps[j] != s
    ensures r == -1 <==> s !in steps
  {
    if steps == [] then -1
    else if steps[0] == s then 0
    else
      var t := IndexOf(steps[1..], s);
      if t == -1 then -1 else t + 1
  }

  /** `currentIndex`: -1 for a rejected order, otherwise the position of its status. */
  function ProgressIndex(s: Status): int {
    if s == Rejected then -1 else IndexOf(StatusOrder, s)
  }

  /** Step `i` of the tracker is lit when it is not past the current one. */
  predicate StepActive(i: int, s: Status) {
    i <= ProgressIndex(s)
  }

  /** The index is -1 exactly for a rejected order, and otherwise names the order's own step. */
  lemma ProgressIndexNamesStep(s: Status)
    ensures ProgressIndex(s) == -1 <==> s == Rejected
    ensures s != Rejected ==> 0 <= ProgressIndex(s) < 4 && StatusOrder[ProgressIndex(s)] == s
  {
  }

  /** The lit steps are the first `index + 1` ones: none for a rejected order, all four when Ready. */
  lemma ActiveStepsArePrefix(s: Status)
    ensures forall i :: 0 <= i < 4 ==> (StepActive(i, s) <==> i < ProgressIndex(s) + 1)
    ensures s == Ready ==> forall i :: 0 <= i < 4 ==> StepActive(i, s)
    ensures s == Rejected ==> forall i :: 0 <= i < 4 ==> !StepActive(i, s)
  {
    ProgressIndexNamesStep(s);
  }

  /** Every button the desk offers moves a tracker one step forward, except Reject, which only a
      New order offers. */
  lemma DeskStepsAdvanceOneStep(from: Status, to: Status)
    requires Dashboard.DeskTransition(from, to)
    ensures to == Rejected ==> from == New
    ensures to != Rejected ==> ProgressIndex(to) == ProgressIndex(from) + 1
  {
    ProgressIndexNamesStep(from);
    ProgressIndexNamesStep(to);
  }
}
