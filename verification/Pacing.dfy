/** The send-slot allocator in front of the model provider (gemini-adapter.ts). */
module Pacing {
  import opened Types

  const MIN_REQUEST_INTERVAL_MS: int := 4200
  const MAX_PACING_QUEUE_MS: int := 60000

  /** What one caller is told: the instant it may send, or that the queue is full. */
  datatype Outcome = Sent(slot: Time) | Refused

  function Max(a: int, b: int): int {
    if a > b then a else b
  }

  /** The allocator's next free instant and the caller's outcome, for one clock reading. */
  function Reserve(next: Time, now: Time): (Time, Outcome) {
    var slot := Max(now, next);
    if slot - now > MAX_PACING_QUEUE_MS then (next, Refused)
    else (slot + MIN_REQUEST_INTERVAL_MS, Sent(slot))
  }

  class Pacer {
    var nextRequestSlot: Time

    constructor ()
      ensures nextRequestSlot == 0
    {
      nextRequestSlot := 0;
    }

    /** Claims a slot without yielding between reading and writing the shared variable. */
    method ReserveRequestSlot(now: Time) returns (r: Outcome)
      modifies this
      ensures (nextRequestSlot, r) == Reserve(old(nextRequestSlot), now)
    {
      var slot := if now > nextRequestSlot then now else nextRequestSlot;
      if slot - now > MAX_PACING_QUEUE_MS { return Refused; }
      nextRequestSlot := slot + MIN_REQUEST_INTERVAL_MS;
      r := Sent(slot);
    }
  }

  // --- Runs: one clock reading a call, in call order ---------------------

  function NextAfter(next: Time, clock: seq<Time>): Time {
    if clock == [] then next
    else Reserve(NextAfter(next, clock[..|clock| - 1]), clock[|clock| - 1]).0
  }

  /** The outcome of the i-th call. */
  function OutcomeOf(next: Time, clock: seq<Time>, i: nat): Outcome
    requires i < |clock|
  {
    Reserve(NextAfter(next, clock[..i]), clock[i]).1
  }

  predicate Accepted(next: Time, clock: seq<Time>, i: int) {
    0 <= i < |clock| && OutcomeOf(next, clock, i).Sent?
  }

  function SlotOf(next: Time, clock: seq<Time>, i: int): Time
    requires Accepted(next, clock, i)
  {
    OutcomeOf(next, clock, i).slot
  }

  lemma NextStep(next: Time, clock: seq<Time>, i: nat)
    requires i < |clock|
    ensures NextAfter(next, clock[..i + 1]) == Reserve(NextAfter(next, clock[..i]), clock[i]).0
  {
    assert clock[..i + 1][..i] == clock[..i];
  }

  lemma {:induction false} NextOnlyGrows(next: Time, clock: seq<Time>, i: nat, j: nat)
    requires i <= j <= |clock|
    ensures NextAfter(next, clock[..i]) <= NextAfter(next, clock[..j])
    decreases j
  {
    if i < j {
      NextOnlyGrows(next, clock, i, j - 1);
      NextStep(next, clock, j - 1);
    }
  }

  /** A refusal consumes no slot, and no accepted caller waits longer than the ceiling. */
  lemma WaitsAreBounded(next: Time, clock: seq<Time>, i: nat)
    requires i < |clock|
    ensures OutcomeOf(next, clock, i).Refused? <==> NextAfter(next, clock[..i]) > clock[i] + MAX_PACING_QUEUE_MS
    ensures OutcomeOf(next, clock, i).Refused? ==> NextAfter(next, clock[..i + 1]) == NextAfter(next, clock[..i])
    ensures Accepted(next, clock, i) ==> 0 <= SlotOf(next, clock, i) - clock[i] <= MAX_PACING_QUEUE_MS
  {
    NextStep(next, clock, i);
  }

  /** Accepted slots are at least one interval apart in call order, for any clock readings. */
  lemma SlotsAreSpaced(next: Time, clock: seq<Time>, i: int, j: int)
    requires Accepted(next, clock, i) && Accepted(next, clock, j) && i < j
    ensures SlotOf(next, clock, j) - SlotOf(next, clock, i) >= MIN_REQUEST_INTERVAL_MS
  {
    NextStep(next, clock, i);
    NextOnlyGrows(next, clock, i + 1, j);
  }

  /** Calls whose slot falls in a closed window of one minute. */
  function SlotsInWindow(next: Time, clock: seq<Time>, from: Time): set<int> {
    set i | 0 <= i < |clock| && Accepted(next, clock, i) && from <= SlotOf(next, clock, i) <= from + MAX_PACING_QUEUE_MS
  }

  /** Calls spaced one interval apart and all at or after `from` climb at that rate. */
  lemma {:induction false} SpacedSlotsClimb(next: Time, clock: seq<Time>, from: Time, calls: set<int>, n: nat) returns (last: int)
    requires calls != {} && forall i | i in calls :: i < n
    requires forall i | i in calls :: Accepted(next, clock, i) && from <= SlotOf(next, clock, i)
    ensures last in calls && forall i | i in calls :: i <= last
    ensures SlotOf(next, clock, last) >= from + (|calls| - 1) * MIN_REQUEST_INTERVAL_MS
    decreases n
  {
    assert n > 0 by {
      assert forall i | i in calls :: 0 <= i;
    }
    if n - 1 in calls {
      last := n - 1;
      var others := calls - {last};
      assert |calls| == |others| + 1;
      if others != {} {
        var before := SpacedSlotsClimb(next, clock, from, others, n - 1);
        SlotsAreSpaced(next, clock, before, last);
      }
    } else {
      last := SpacedSlotsClimb(next, clock, from, calls, n - 1);
    }
  }

  /** No window of a minute ever holds more than fifteen slots. */
  lemma AtMostFifteenAMinute(next: Time, clock: seq<Time>, from: Time)
    ensures |SlotsInWindow(next, clock, from)| <= 15
  {
    var calls := SlotsInWindow(next, clock, from);
    if calls != {} {
      var last := SpacedSlotsClimb(next, clock, from, calls, |clock|);
    }
  }

  /** Earlier callers still waiting when call `k` reads the clock. */
  function WaitingAt(next: Time, clock: seq<Time>, k: nat): set<int>
    requires k < |clock|
  {
    set i | 0 <= i <= k && Accepted(next, clock, i) && SlotOf(next, clock, i) > clock[k]
  }

  /** With a clock that never goes back, at most fifteen callers wait at once. */
  lemma AtMostFifteenWait(next: Time, clock: seq<Time>, k: nat)
    requires k < |clock| && forall i, j | 0 <= i < j < |clock| :: clock[i] <= clock[j]
    ensures |WaitingAt(next, clock, k)| <= 15
  {
    var waiting := WaitingAt(next, clock, k);
    forall i | i in waiting
      ensures SlotOf(next, clock, i) <= clock[k] + MAX_PACING_QUEUE_MS
    {
      WaitsAreBounded(next, clock, i);
    }
    if waiting != {} {
      var last := SpacedSlotsClimb(next, clock, clock[k], waiting, |clock|);
    }
  }
}
