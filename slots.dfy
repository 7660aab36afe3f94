/** The slot board of a canteen (app/canteen/slots/page.tsx): full and almost-full badges, the
    progress colour, the count of orders still open for a slot, and the summary totals. */
module Slots {
  import opened CanteenTypes
  import opened SeqUtil
  import opened Engine
  import opened Analytics

  /** `isFull`: as many bookings as places, or more. */
  predicate IsFull(s: TimeSlot) {
    s.filled >= s.capacity
  }

  /** `isAlmostFull`: `filled / capacity * 100 >= 80`. With no capacity the percentage is
      +Infinity when something is booked and NaN (never at least 80) when nothing is. */
  predicate IsAlmostFull(s: TimeSlot) {
    if s.capacity == 0 then s.filled > 0 else 5 * s.filled >= 4 * s.capacity
  }

  /** The "Almost Full" badge: almost full but not full. */
  predicate AlmostFullBadge(s: TimeSlot) {
    IsAlmostFull(s) && !IsFull(s)
  }

  /** a / c >= n / m, for positive c and m, is a * m >= n * c. */
  lemma QuotientAtLeast(a: real, c: real, n: real, m: real)
    requires c > 0.0 && m > 0.0
    ensures a / c >= n / m <==> a * m >= n * c
  {
    var q := a / c;
    var t := n / m;
    assert a == q * c;
    assert n == t * m;
    assert a * m - n * c == (q - t) * (c * m);
    assert c * m > 0.0;
  }

  /** The fill percentage of a slot with places, as the page computes it. */
  ghost function FillPercent(s: TimeSlot): real
    requires s.capacity > 0
  {
    (s.filled as real) / (s.capacity as real) * 100.0
  }

  /** With places, the integer test is the page's percentage test. */
  lemma AlmostFullIsEightyPercent(s: TimeSlot)
    requires s.capacity > 0
    ensures IsAlmostFull(s) <==> FillPercent(s) >= 80.0
  {
    QuotientAtLeast(s.filled as real, s.capacity as real, 4.0, 5.0);
  }

  /** The badge shows only on a slot with places, between 80 % and full. */
  lemma BadgeOnlyBetweenEightyAndFull(s: TimeSlot)
    requires AlmostFullBadge(s)
    ensures s.capacity > 0 && 4 * s.capacity <= 5 * s.filled && s.filled < s.capacity
  {
  }

  // ---------------------------------------------------------------- the progress colour

  datatype Colour = Red | Yellow | Green

  /** The bar colour: red from 90 %, yellow from 70 %, green below; with no capacity, red when
      something is booked (+Infinity) and green when nothing is (NaN fails both tests). */
  function ProgressColour(s: TimeSlot): (r: Colour)
    ensures IsFull(s) && s.filled > 0 ==> r == Red
    ensures AlmostFullBadge(s) ==> r != Green
  {
    if s.capacity == 0 then (if s.filled > 0 then Red else Green)
    else if 10 * s.filled >= 9 * s.capacity then Red
    else if 10 * s.filled >= 7 * s.capacity then Yellow
    else Green
  }

  /** With places, the colour follows the page's percentage thresholds. */
  lemma ColourFollowsPercent(s: TimeSlot)
    requires s.capacity > 0
    ensures ProgressColour(s) == Red <==> FillPercent(s) >= 90.0
    ensures ProgressColour(s) == Yellow <==> 70.0 <= FillPercent(s) < 90.0
    ensures ProgressColour(s) == Green <==> FillPercent(s) < 70.0
  {
    QuotientAtLeast(s.filled as real, s.capacity as real, 9.0, 10.0);
    QuotientAtLeast(s.filled as real, s.capacity as real, 7.0, 10.0);
  }

  // ---------------------------------------------------------------- pendingInSlot

  function OpenIn(canteenId: string): Order -> bool {
    (o: Order) => o.canteenId == canteenId && o.status != Rejected
  }

  function ForSlot(time: string): Order -> bool {
    (o: Order) => o.slotTime == time
  }

  function NotReady(): Order -> bool {
    (o: Order) => o.status != Ready
  }

  /** `pendingInSlot`: of the canteen's orders that are not rejected, those for this slot that are
      not ready either. */
  function PendingInSlot(orders: seq<Order>, canteenId: string, time: string): nat {
    |Filter(Filter(Filter(orders, OpenIn(canteenId)), ForSlot(time)), NotReady())|
  }

  function OpenForSlot(canteenId: string, time: string): Order -> bool {
    (o: Order) => o.canteenId == canteenId && o.status != Rejected && o.slotTime == time
  }

  function WaitingForSlot(canteenId: string, time: string): Order -> bool {
    (o: Order) => o.canteenId == canteenId && o.slotTime == time && Waiting(o.status)
  }

  /** The three filters select the canteen's orders for the slot that are still waiting: New,
      Accepted or Preparing. */
  lemma PendingIsWaitingForSlot(orders: seq<Order>, canteenId: string, time: string)
    ensures PendingInSlot(orders, canteenId, time) == |Filter(orders, WaitingForSlot(canteenId, time))|
  {
    FilterTwice(orders, OpenIn(canteenId), ForSlot(time), OpenForSlot(canteenId, time));
    FilterTwice(orders, OpenForSlot(canteenId, time), NotReady(), WaitingForSlot(canteenId, time));
  }

  // ---------------------------------------------------------------- the summary

  function TotalBookings(slots: seq<TimeSlot>): int
    decreases |slots|
  {
    if slots == [] then 0 else TotalBookings(slots[..|slots| - 1]) + slots[|slots| - 1].filled
  }

  function TotalCapacity(slots: seq<TimeSlot>): int
    decreases |slots|
  {
    if slots == [] then 0 else TotalCapacity(slots[..|slots| - 1]) + slots[|slots| - 1].capacity
  }

  /** "Available Spots": the sum of `capacity - filled`, an overbooked slot counting negative. */
  function AvailableSpots(slots: seq<TimeSlot>): int
    decreases |slots|
  {
    if slots == [] then 0
    else AvailableSpots(slots[..|slots| - 1]) + (slots[|slots| - 1].capacity - slots[|slots| - 1].filled)
  }

  /** Bookings and available spots add up to the places of the canteen. */
  lemma {:induction false} SummaryAddsUp(slots: seq<TimeSlot>)
    ensures TotalBookings(slots) + AvailableSpots(slots) == TotalCapacity(slots)
    ensures TotalBookings(slots) >= 0
    decreases |slots|
  {
    if slots != [] {
      SummaryAddsUp(slots[..|slots| - 1]);
    }
  }

  /** Without an overbooked slot the available spots are never negative. */
  lemma {:induction false} NoOverbookingNoDeficit(slots: seq<TimeSlot>)
    requires forall k :: 0 <= k < |slots| ==> slots[k].filled <= slots[k].capacity
    ensures AvailableSpots(slots) >= 0
    decreases |slots|
  {
    if slots != [] {
      NoOverbookingNoDeficit(slots[..|slots| - 1]);
    }
  }

  /** Every booking takes one available spot, full or not: booking a slot that is already full
      drives the summary below what the slots could hold. */
  lemma {:induction false} BookingTakesASpot(slots: seq<TimeSlot>, time: string, canteenId: string)
    requires forall k, j :: 0 <= k < j < |slots| ==> !(SlotMatches(slots[k], time, canteenId) && SlotMatches(slots[j], time, canteenId))
    requires exists k :: 0 <= k < |slots| && SlotMatches(slots[k], time, canteenId)
    ensures AvailableSpots(BookSlot(slots, time, canteenId)) == AvailableSpots(slots) - 1
    ensures TotalBookings(BookSlot(slots, time, canteenId)) == TotalBookings(slots) + 1
    decreases |slots|
  {
    var n := |slots| - 1;
    var booked := BookSlot(slots, time, canteenId);
    assert booked[..n] == BookSlot(slots[..n], time, canteenId);
    if SlotMatches(slots[n], time, canteenId) {
      NoneBooked(slots[..n], time, canteenId);
    } else {
      var k :| 0 <= k < |slots| && SlotMatches(slots[k], time, canteenId);
      assert slots[..n][k] == slots[k];
      BookingTakesASpot(slots[..n], time, canteenId);
    }
  }

  lemma {:induction false} NoneBooked(slots: seq<TimeSlot>, time: string, canteenId: string)
    requires forall k :: 0 <= k < |slots| ==> !SlotMatches(slots[k], time, canteenId)
    ensures BookSlot(slots, time, canteenId) == slots
  {
  }
}
