/**
 server/internal/sender/pacer.go: when the next bulk datagram may be handed to
 QUIC, and the departure interval that is measured from sends that blocked.
 Times are whole nanoseconds; a zero time is None, earlier than any other.
 Durations divide as Go's do: every dividend here is positive.
 */
module Pacers {
  import opened Intervals

  const QUIC_SEND_QUEUE := 32
  const MICROSECOND := 1_000
  const MILLISECOND := 1_000_000
  const PACER_MIN_INTERVAL := 250 * MICROSECOND
  const PACER_SAMPLE := 200 * MILLISECOND
  const PACER_MIN_SENDS := 16
  const PACER_MAX_WAIT := 50 * MILLISECOND
  const PACER_BLOCKED_PCT := 10
  const PACER_RATE_WINDOW := 5000 * MILLISECOND
  const PACER_HEADROOM := 8

  datatype Pacing = Pacing(
    target: int,
    interval: nat,
    next: Option<int>,
    since: Option<int>,
    sends: nat,
    blocks: nat,
    blockRun: nat,
    worstAt: Option<int>)

  function NewPacing(target: int): Pacing { Pacing(target, 0, None, None, 0, 0, 0, None) }

  function SlotOf(interval: nat): nat { interval + interval / PACER_HEADROOM }

  /** How long to hold the next bulk datagram back. */
  function Wait(p: Pacing, now: int): nat {
    if p.target < 0 || p.interval < PACER_MIN_INTERVAL || p.next.None? then 0
    else Max(0, Min(p.next.value - now, PACER_MAX_WAIT))
  }

  /** Books the slot after this datagram's, keeping at most target unused slots as credit. */
  function Scheduled(p: Pacing, now: int): Pacing {
    if p.interval == 0 then p.(next := Some(now))
    else
      var slot := SlotOf(p.interval);
      var credit := now - p.target * slot;
      p.(next := Some((if p.next.None? || p.next.value < credit then credit else p.next.value) + slot))
  }

  /** One sample of the departure interval: the slowest in the window stands. */
  function Observed(p: Pacing, now: int, sample: nat): Pacing {
    if sample == 0 then p
    else if p.interval == 0 || sample > p.interval || p.worstAt.None? || now - p.worstAt.value > PACER_RATE_WINDOW
    then p.(interval := sample, worstAt := Some(now))
    else p
  }

  /** The departure interval a blocked send completes a sample of, if it does. */
  function Sample(p: Pacing, now: int): Option<nat> {
    if p.since.Some? && now - p.since.value >= PACER_SAMPLE && p.sends >= PACER_MIN_SENDS
       && 100 * p.blocks >= PACER_BLOCKED_PCT * p.sends
    then Some((now - p.since.value) / p.sends)
    else None
  }

  function Blocked(p: Pacing, now: int): Pacing {
    var p1 := p.(blockRun := p.blockRun + 1);
    var p2 := if p1.interval > 0 && p1.blockRun > 1
              then p1.(next := Some(now + (QUIC_SEND_QUEUE - p1.target) * p1.interval)) else p1;
    if p2.since.None? then p2.(since := Some(now), sends := 0, blocks := 0)
    else
      var p3 := p2.(blocks := p2.blocks + 1);
      if now - p3.since.value >= PACER_SAMPLE && p3.sends >= PACER_MIN_SENDS then
        var sample := Sample(p3, now);
        (if sample.Some? then Observed(p3, now, sample.value) else p3).(since := Some(now), sends := 0, blocks := 0)
      else p3
  }

  /** One datagram handed over. */
  function HandedOver(p: Pacing, now: int, blocked: bool): Pacing {
    var p1 := Scheduled(p, now).(sends := p.sends + 1);
    if blocked then Blocked(p1, now) else p1.(blockRun := 0)
  }

  // ---- The rate bound ----

  /** The pacing after unblocked handovers at these times. */
  function After(p: Pacing, times: seq<int>): Pacing {
    if times == [] then p else HandedOver(After(p, times[..|times| - 1]), times[|times| - 1], false)
  }

  lemma {:induction false} SlotsAdd(p: Pacing, times: seq<int>)
    requires p.interval > 0 && times != []
    ensures var q := After(p, times);
      && q.interval == p.interval && q.target == p.target
      && q.next.Some? && q.next.value >= times[0] + (|times| - p.target) * SlotOf(p.interval)
  {
    var front, slot := times[..|times| - 1], SlotOf(p.interval);
    if front == [] {
      assert After(p, front) == p;
      assert times[0] - p.target * slot + slot == times[0] + (1 - p.target) * slot;
    } else {
      SlotsAdd(p, front);
      assert (|front| - p.target) * slot + slot == (|times| - p.target) * slot;
    }
  }

  /** n+1 unblocked handovers, the last a bulk one wait let through, take at least (n - target) slots. */
  lemma RateBound(p: Pacing, times: seq<int>, last: int)
    requires p.interval >= PACER_MIN_INTERVAL && p.target >= 0 && times != []
    requires Wait(After(p, times), last) == 0
    ensures last - times[0] >= (|times| - p.target) * (p.interval + p.interval / PACER_HEADROOM)
  {
    SlotsAdd(p, times);
  }

  /** A bulk datagram is held until its slot, but never more than 50 ms at a time. */
  lemma HeldUntilItsSlot(p: Pacing, now: int)
    ensures Wait(p, now) <= 50_000_000
    ensures Wait(p, now) > 0 <==> p.target >= 0 && p.interval >= 250_000 && p.next.Some? && p.next.value > now
    ensures Wait(p, now) > 0 ==> Wait(p, now) == p.next.value - now || (Wait(p, now) == 50_000_000 && now + Wait(p, now) < p.next.value)
  {
  }

  /** Each time is at least one slot after the one before. */
  predicate Spread(times: seq<int>, slot: nat) { forall i :: 0 < i < |times| ==> times[i - 1] + slot <= times[i] }

  lemma {:induction false} NextIsSoon(p: Pacing, times: seq<int>)
    requires p.interval > 0 && p.target >= 0 && times != [] && Spread(times, SlotOf(p.interval))
    requires p.next.None? || p.next.value <= times[0]
    ensures var q := After(p, times);
      q.interval == p.interval && q.target == p.target && q.next.Some? && q.next.value <= times[|times| - 1] + SlotOf(p.interval)
  {
    var front := times[..|times| - 1];
    if front != [] {
      NextIsSoon(p, front);
      assert times[|times| - 2] + SlotOf(p.interval) <= times[|times| - 1];
    }
  }

  /** A sender that keeps the pace is never held. */
  lemma OnPaceIsNeverHeld(p: Pacing, times: seq<int>, now: int)
    requires p.interval > 0 && p.target >= 0 && times != [] && Spread(times, SlotOf(p.interval))
    requires p.next.None? || p.next.value <= times[0]
    requires times[|times| - 1] + SlotOf(p.interval) <= now
    ensures Wait(After(p, times), now) == 0
  {
    NextIsSoon(p, times);
  }

  lemma {:induction false} BurstBooks(p: Pacing, now: int, n: nat)
    requires p.interval > 0 && p.target >= 0 && 0 < n
    requires p.next.None? || p.next.value <= now - p.target * SlotOf(p.interval)
    ensures var q := After(p, seq(n, _ => now));
      q.interval == p.interval && q.target == p.target && q.next == Some(now + (n - p.target) * SlotOf(p.interval))
  {
    var times := seq(n, _ => now);
    assert times[..n - 1] == seq(n - 1, _ => now);
    SlotSum(n, p.target, SlotOf(p.interval));
    if n > 1 { BurstBooks(p, now, n - 1); } else { assert After(p, times[..0]) == p; }
    BookedFrom(After(p, times[..n - 1]), now);
  }

  lemma SlotSum(n: nat, target: int, slot: nat)
    requires n > 0
    ensures (n - 1 - target) * slot + slot == (n - target) * slot
    ensures (n - 1 - target) * slot >= -(target * slot)
    ensures -(target * slot) + slot == (1 - target) * slot
  {
    assert (n - 1 - target) * slot == (n - 1) * slot - target * slot;
  }

  /** One more unblocked handover books one slot after the later of what was booked and the credit. */
  lemma BookedFrom(p: Pacing, now: int)
    requires p.interval > 0
    ensures var q, slot := HandedOver(p, now, false), SlotOf(p.interval);
      && q.interval == p.interval && q.target == p.target
      && q.next == Some((if p.next.None? then now - p.target * slot else Max(p.next.value, now - p.target * slot)) + slot)
  {
  }

  /** After a pause a burst of exactly `target` datagrams at once goes unheld; the next bulk one waits. */
  lemma CreditIsTarget(p: Pacing, now: int, n: nat)
    requires p.interval >= PACER_MIN_INTERVAL && p.target >= 0 && 0 < n
    requires p.next.None? || p.next.value <= now - p.target * SlotOf(p.interval)
    ensures Wait(After(p, seq(n, _ => now)), now) == 0 <==> n <= p.target
  {
    BurstBooks(p, now, n);
    Sign(n - p.target, SlotOf(p.interval));
  }

  lemma Sign(k: int, slot: nat)
    requires slot > 0
    ensures k * slot > 0 <==> k > 0
  {
  }

  /** The second blocked handover in a row, and each after it, brakes: the next slot is when all but `target` of a full queue has left. */
  lemma BlockedTwiceBrakes(p: Pacing, first: int, second: int)
    ensures var q := HandedOver(p, first, true); q.interval > 0 ==> HandedOver(q, second, true).next == Some(second + (32 - p.target) * q.interval)
    ensures HandedOver(p, first, false).blockRun == 0 && HandedOver(p, first, true).blockRun == p.blockRun + 1
  {
  }

  // ---- The interval in force ----

  /** What happened at one moment: a handover that did or did not block, or the loop going idle. */
  datatype Event = Handover(at: int, blocked: bool) | Idle

  /** An idle loop ends the sample: datagrams left while it had none to add. */
  function Idled(p: Pacing): Pacing { p.(since := None, sends := 0) }

  function Stepped(p: Pacing, e: Event): Pacing {
    match e
    case Handover(at, blocked) => HandedOver(p, at, blocked)
    case Idle => Idled(p)
  }

  /** The sample this event completes, if any. */
  function SampledBy(p: Pacing, e: Event): Option<nat> {
    if e.Handover? && e.blocked && p.since.Some? then
      Sample(p.(sends := p.sends + 1, blocks := p.blocks + 1), e.at)
    else None
  }

  function Run(p: Pacing, events: seq<Event>): Pacing {
    if events == [] then p else Stepped(Run(p, events[..|events| - 1]), events[|events| - 1])
  }

  /** The samples taken since the interval in force was set. */
  function SamplesInForce(p: Pacing, events: seq<Event>): seq<nat> {
    if events == [] then []
    else
      var front, e := events[..|events| - 1], events[|events| - 1];
      var before, sample := Run(p, front), SampledBy(Run(p, front), e);
      if sample.None? || sample.value == 0 then SamplesInForce(p, front)
      else if Stepped(before, e).worstAt != before.worstAt || Stepped(before, e).interval != before.interval then [sample.value]
      else SamplesInForce(p, front) + [sample.value]
  }

  lemma StepInterval(p: Pacing, e: Event)
    ensures var s, q := SampledBy(p, e), Stepped(p, e);
      && q.target == p.target
      && (s.None? || s.value == 0 ==> q.interval == p.interval && q.worstAt == p.worstAt)
      && (s.Some? && s.value > 0 ==>
            && q.interval >= s.value
            && ((q.interval == s.value && e.Handover? && q.worstAt == Some(e.at)) || (q.interval == p.interval && q.worstAt == p.worstAt)))
  {
  }

  /** No sample taken since the interval in force was set is slower than it. */
  lemma {:induction false} SlowestStands(target: int, events: seq<Event>)
    ensures var q := Run(NewPacing(target), events);
      forall s :: s in SamplesInForce(NewPacing(target), events) ==> 0 < s <= q.interval
  {
    if events != [] {
      var front := events[..|events| - 1];
      SlowestStands(target, front);
      StepInterval(Run(NewPacing(target), front), events[|events| - 1]);
    }
  }

  // ---- How the interval is measured ----

  predicate Handovers(events: seq<Event>) { forall e :: e in events ==> e.Handover? }

  function BlockedIn(events: seq<Event>): nat
    requires Handovers(events)
  {
    if events == [] then 0 else BlockedIn(events[..|events| - 1]) + if events[|events| - 1].blocked then 1 else 0
  }

  /** No blocked handover among these ends the measurement begun at t0: too soon, or after too few. */
  predicate StillMeasuring(events: seq<Event>, t0: int)
    requires Handovers(events)
  {
    forall i :: 0 <= i < |events| && events[i].blocked ==> events[i].at - t0 < 200_000_000 || i + 1 < 16
  }

  lemma {:induction false} Measuring(p: Pacing, events: seq<Event>, t0: int)
    requires p.since == Some(t0) && p.sends == 0 && p.blocks == 0 && Handovers(events) && StillMeasuring(events, t0)
    ensures var q := Run(p, events);
      && q.since == Some(t0) && q.sends == |events| && q.blocks == BlockedIn(events)
      && q.interval == p.interval && q.worstAt == p.worstAt && q.target == p.target
  {
    if events != [] {
      var front := events[..|events| - 1];
      assert forall i :: 0 <= i < |front| ==> front[i] == events[i];
      Measuring(p, front, t0);
      assert events[|events| - 1] in events;
    }
  }

  /**
   A measurement runs from one blocked handover to the first blocked one at least
   200 ms and 16 handovers later. If a tenth of them blocked it gives the time per
   handover, which is the interval from then on if it is slower than the one in
   force, or that one is more than 5 s old; and the next measurement begins.
   */
  lemma IntervalIsMeasured(p: Pacing, events: seq<Event>, t0: int, t: int)
    requires p.since == Some(t0) && p.sends == 0 && p.blocks == 0 && Handovers(events) && StillMeasuring(events, t0)
    requires t - t0 >= 200_000_000 && |events| + 1 >= 16
    ensures var q, n, blocks := Run(p, events + [Handover(t, true)]), |events| + 1, BlockedIn(events) + 1;
      var sample := (t - t0) / n;
      && q.since == Some(t) && q.sends == 0 && q.blocks == 0
      && (if 10 * blocks >= n && sample > 0 && (sample > p.interval || p.worstAt.None? || t - p.worstAt.value > 5_000_000_000)
          then q.interval == sample && q.worstAt == Some(t)
          else q.interval == p.interval && q.worstAt == p.worstAt)
  {
    Measuring(p, events, t0);
    assert (events + [Handover(t, true)])[..|events|] == events;
    MeasurementEnds(Run(p, events), t0, t);
  }

  lemma MeasurementEnds(p: Pacing, t0: int, t: int)
    requires p.since == Some(t0) && t - t0 >= 200_000_000 && p.sends + 1 >= 16
    ensures var q, n, blocks := HandedOver(p, t, true), p.sends + 1, p.blocks + 1;
      var sample := (t - t0) / n;
      && q.since == Some(t) && q.sends == 0 && q.blocks == 0
      && (if 10 * blocks >= n && sample > 0 && (sample > p.interval || p.worstAt.None? || t - p.worstAt.value > 5_000_000_000)
          then q.interval == sample && q.worstAt == Some(t)
          else q.interval == p.interval && q.worstAt == p.worstAt)
  {
  }

  /** The first blocked handover after an idle spell begins a measurement. */
  lemma BlockedBegins(p: Pacing, t: int)
    ensures var q := HandedOver(Idled(p), t, true); q.since == Some(t) && q.sends == 0 && q.blocks == 0 && q.interval == p.interval
  {
  }

  // ---- The class ----

  class Pacer {
    const target: int
    var interval: nat
    var next: Option<int>
    var since: Option<int>
    var sends: nat
    var blocks: nat
    var blockRun: nat
    var worstAt: Option<int>

    ghost function State(): Pacing
      reads this
    {
      Pacing(target, interval, next, since, sends, blocks, blockRun, worstAt)
    }

    constructor (target: int)
      ensures State() == NewPacing(target)
    {
      this.target := target;
      interval, next, since, sends, blocks, blockRun, worstAt := 0, None, None, 0, 0, 0, None;
    }

    method WaitFor(now: int) returns (d: nat)
      ensures d == Wait(State(), now)
    {
      if target < 0 || interval < PACER_MIN_INTERVAL || next.None? || next.value - now <= 0 { return 0; }
      return Min(next.value - now, PACER_MAX_WAIT);
    }

    method Sent(now: int, blocked: bool)
      modifies this
      ensures State() == HandedOver(old(State()), now, blocked)
    {
      Schedule(now);
      sends := sends + 1;
      if !blocked {
        blockRun := 0;
        return;
      }
      blockRun := blockRun + 1;
      if interval > 0 && blockRun > 1 { next := Some(now + (QUIC_SEND_QUEUE - target) * interval); }
      if since.None? {
        since, sends, blocks := Some(now), 0, 0;
        return;
      }
      blocks := blocks + 1;
      var d := now - since.value;
      if d >= PACER_SAMPLE && sends >= PACER_MIN_SENDS {
        if 100 * blocks >= PACER_BLOCKED_PCT * sends { Observe(now, d / sends); }
        since, sends, blocks := Some(now), 0, 0;
      }
    }

    method GoIdle()
      modifies this
      ensures State() == Idled(old(State()))
    {
      since, sends := None, 0;
    }

    method Schedule(now: int)
      modifies this`next
      ensures State() == Scheduled(old(State()), now)
    {
      if interval == 0 {
        next := Some(now);
        return;
      }
      var slot := interval + interval / PACER_HEADROOM;
      var credit := now - target * slot;
      if next.None? || next.value < credit { next := Some(credit); }
      next := Some(next.value + slot);
    }

    method Observe(now: int, sample: nat)
      modifies this`interval, this`worstAt
      ensures State() == Observed(old(State()), now, sample)
    {
      if sample == 0 { return; }
      if interval == 0 || sample > interval || worstAt.None? || now - worstAt.value > PACER_RATE_WINDOW {
        interval, worstAt := sample, Some(now);
      }
    }
  }
}
