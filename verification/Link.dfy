/**
 server/internal/impair/link.go: what one direction of an impaired path does
 with a packet. The random draws are inputs: whether the burst chain moves,
 whether the packet is lost, and by how much its delay is jittered. Times are
 whole nanoseconds; a zero time is None.
 */
module Links {
  import opened Intervals

  const SECOND := 1_000_000_000

  datatype Direction = Direction(
    delay: nat,
    jitter: nat,
    reorder: bool,
    burst: bool,
    rate: nat,        // bytes per second, 0 for no cap
    queueBytes: nat)  // 0 for no limit

  datatype Verdict = Deliver(at: int) | DropLoss | DropQueue

  datatype Draws = Draws(move: bool, lost: bool, jitter: nat)

  datatype Link = Link(bad: bool, freeAt: Option<int>, lastDeliver: Option<int>)

  function NewLink(): Link { Link(false, None, None) }

  /** When the transmitter can start on a packet that arrives now. */
  function StartOf(l: Link, now: int): int { if l.freeAt.Some? && l.freeAt.value > now then l.freeAt.value else now }

  /** The bytes still ahead of it. */
  function Queued(d: Direction, l: Link, now: int): nat
    requires d.rate > 0
  {
    (StartOf(l, now) - now) * d.rate / SECOND
  }

  predicate Overflows(d: Direction, l: Link, now: int, size: nat) {
    d.rate > 0 && d.queueBytes > 0 && Queued(d, l, now) + size > d.queueBytes
  }

  /** When its last byte leaves. */
  function Departs(d: Direction, l: Link, now: int, size: nat): int {
    if d.rate == 0 then now else StartOf(l, now) + size * SECOND / d.rate
  }

  /** The delay with its jitter, drawn from [0, 2 * jitter] around the middle, never negative. */
  function DelayOf(d: Direction, jitter: nat): nat { if d.jitter > 0 then Max(0, d.delay + jitter - d.jitter) else d.delay }

  function DeliverAt(d: Direction, l: Link, depart: int, jitter: nat): int {
    var at := depart + DelayOf(d, jitter);
    if !d.reorder && l.lastDeliver.Some? && at < l.lastDeliver.value then l.lastDeliver.value else at
  }

  function Later(t: Option<int>, at: int): Option<int> { if t.None? || at > t.value then Some(at) else t }

  function Admit(d: Direction, l: Link, now: int, size: nat, r: Draws): (Link, Verdict) {
    var l1 := if d.burst then l.(bad := if r.move then !l.bad else l.bad) else l;
    if r.lost then (l1, DropLoss)
    else if Overflows(d, l, now, size) then (l1, DropQueue)
    else
      var depart := Departs(d, l, now, size);
      var at := DeliverAt(d, l, depart, r.jitter);
      (l1.(freeAt := if d.rate > 0 then Some(depart) else l.freeAt, lastDeliver := Later(l.lastDeliver, at)), Deliver(at))
  }

  /** Division rounds down, so multiplying back loses less than the divisor. */
  lemma RoundsDown(x: nat, n: nat)
    requires n > 0
    ensures n * (x / n) <= x < n * (x / n) + n
  {
  }

  /** An admitted packet on a capped link with a queue limit leaves within the time that limit takes to drain. */
  lemma QueueBound(d: Direction, l: Link, now: int, size: nat, r: Draws)
    requires d.rate > 0 && d.queueBytes > 0 && Admit(d, l, now, size, r).1.Deliver?
    ensures (Departs(d, l, now, size) - now) * d.rate < (d.queueBytes + 1) * SECOND
    ensures now <= Departs(d, l, now, size)
  {
    var ahead := (StartOf(l, now) - now) * d.rate;
    RoundsDown(ahead, SECOND);
    RoundsDown(size * SECOND, d.rate);
    assert (Departs(d, l, now, size) - now) * d.rate == ahead + size * SECOND / d.rate * d.rate;
    assert (Queued(d, l, now) + 1 + size) * SECOND <= (d.queueBytes + 1) * SECOND;
  }

  /** One packet books the transmitter for its bytes at the rate, rounded down by less than a nanosecond. */
  lemma CapHolds(d: Direction, l: Link, now: int, size: nat, r: Draws)
    requires d.rate > 0 && Admit(d, l, now, size, r).1.Deliver?
    ensures var l' := Admit(d, l, now, size, r).0;
      l'.freeAt.Some? && (l'.freeAt.value - StartOf(l, now)) * d.rate <= size * SECOND < (l'.freeAt.value - StartOf(l, now) + 1) * d.rate
  {
    RoundsDown(size * SECOND, d.rate);
  }

  /** What arrives: when, how large, and what is drawn for it. */
  datatype Arrival = Arrival(now: int, size: nat, r: Draws)

  function After(d: Direction, l: Link, arrivals: seq<Arrival>): Link {
    if arrivals == [] then l
    else
      var a := arrivals[|arrivals| - 1];
      Admit(d, After(d, l, arrivals[..|arrivals| - 1]), a.now, a.size, a.r).0
  }

  /** The sizes of the packets admitted, and how many they are. */
  function Admitted(d: Direction, l: Link, arrivals: seq<Arrival>): (nat, nat) {
    if arrivals == [] then (0, 0)
    else
      var front, a := arrivals[..|arrivals| - 1], arrivals[|arrivals| - 1];
      var (total, count) := Admitted(d, l, front);
      if Admit(d, After(d, l, front), a.now, a.size, a.r).1.Deliver? then (total + a.size, count + 1) else (total, count)
  }

  lemma CapStep(rate: nat, before: int, start: int, free: int, size: nat, from: int, total: nat, count: nat)
    requires total * SECOND <= (before - from + count) * rate && before <= start
    requires size * SECOND < (free - start + 1) * rate
    ensures (total + size) * SECOND <= (free - from + (count + 1)) * rate
  {
    assert (free - from + (count + 1)) * rate == (before - from + count) * rate + (start - before) * rate + (free - start + 1) * rate;
  }

  /**
   The rate cap over any sequence of arrivals: from when the transmitter was to be
   free, the time booked covers every byte admitted since, at the rate, to within a
   nanosecond a packet.
   */
  lemma {:induction false} CapOverRuns(d: Direction, l: Link, arrivals: seq<Arrival>)
    requires d.rate > 0 && l.freeAt.Some?
    ensures After(d, l, arrivals).freeAt.Some?
    ensures var (total, count) := Admitted(d, l, arrivals);
      total * SECOND <= (After(d, l, arrivals).freeAt.value - l.freeAt.value + count) * d.rate
  {
    if arrivals != [] {
      var front, a := arrivals[..|arrivals| - 1], arrivals[|arrivals| - 1];
      var before := After(d, l, front);
      CapOverRuns(d, l, front);
      if Admit(d, before, a.now, a.size, a.r).1.Deliver? {
        var (total, count) := Admitted(d, l, front);
        CapHolds(d, before, a.now, a.size, a.r);
        CapStep(d.rate, before.freeAt.value, StartOf(before, a.now), After(d, l, arrivals).freeAt.value, a.size, l.freeAt.value, total, count);
      }
    }
  }

  // ---- What becomes of a packet ----

  /** The time its bytes wait behind those ahead. */
  function Backlog(l: Link, now: int): nat { if l.freeAt.Some? then Max(0, l.freeAt.value - now) else 0 }

  /** A packet that is not lost is dropped exactly if the bytes ahead of it, rounded down, and its own exceed the queue; and the burst chain moves exactly when drawn to. */
  lemma WhatIsDropped(d: Direction, l: Link, now: int, size: nat, r: Draws)
    ensures var (l', v) := Admit(d, l, now, size, r);
      && (v.DropLoss? <==> r.lost)
      && (v.DropQueue? <==> !r.lost && d.rate > 0 && d.queueBytes > 0 && Backlog(l, now) * d.rate >= (d.queueBytes - size + 1) * SECOND)
      && (l'.bad != l.bad <==> d.burst && r.move)
  {
    if d.rate > 0 {
      var ahead := Backlog(l, now) * d.rate;
      RoundsDown(ahead, SECOND);
      RoundedAtLeast(ahead, SECOND, d.queueBytes - size + 1);
    }
  }

  lemma RoundedAtLeast(x: nat, n: nat, k: int)
    requires n > 0
    ensures x / n >= k <==> x >= k * n
  {
    RoundsDown(x, n);
    if x / n >= k { assert n * (x / n) >= n * k; } else { assert n * (x / n + 1) <= n * k; }
  }

  /** An admitted packet is sent once the transmitter is free, takes its size at the rate, and arrives a delay later, off by at most the jitter; without reordering not before what arrives last. */
  lemma WhenItArrives(d: Direction, l: Link, now: int, size: nat, r: Draws) returns (sent: int, at: int)
    requires r.jitter <= 2 * d.jitter && Admit(d, l, now, size, r).1.Deliver?
    ensures sent == now + if d.rate > 0 then Backlog(l, now) + size * SECOND / d.rate else 0
    ensures sent + d.delay - d.jitter <= at <= sent + d.delay + d.jitter && sent <= at
    ensures var (l', v) := Admit(d, l, now, size, r);
      && v.at == (if !d.reorder && l.lastDeliver.Some? then Max(at, l.lastDeliver.value) else at)
      && (d.rate > 0 ==> l'.freeAt == Some(sent))
  {
    sent := Departs(d, l, now, size);
    at := sent + DelayOf(d, r.jitter);
  }

  /** Without reordering no packet is delivered before one admitted earlier. */
  lemma FifoDelivery(d: Direction, l: Link, now: int, size: nat, r: Draws)
    requires !d.reorder
    ensures var (l', v) := Admit(d, l, now, size, r);
      && (v.Deliver? ==> l'.lastDeliver == Some(v.at) && (l.lastDeliver.Some? ==> l.lastDeliver.value <= v.at))
      && (!v.Deliver? ==> l'.lastDeliver == l.lastDeliver && l'.freeAt == l.freeAt)
  {
  }

  class ImpairedLink {
    const d: Direction
    var bad: bool
    var freeAt: Option<int>
    var lastDeliver: Option<int>

    ghost function State(): Link
      reads this
    {
      Link(bad, freeAt, lastDeliver)
    }

    constructor (d: Direction)
      ensures this.d == d && State() == NewLink()
    {
      this.d := d;
      bad, freeAt, lastDeliver := false, None, None;
    }

    method AdmitPacket(now: int, size: nat, r: Draws) returns (v: Verdict)
      modifies this
      ensures (State(), v) == Admit(d, old(State()), now, size, r)
    {
      if d.burst && r.move { bad := !bad; }
      if r.lost { return DropLoss; }
      var depart := now;
      if d.rate > 0 {
        var start := now;
        if freeAt.Some? && freeAt.value > now { start := freeAt.value; }
        var queued := (start - now) * d.rate / SECOND;
        if d.queueBytes > 0 && queued + size > d.queueBytes { return DropQueue; }
        depart := start + size * SECOND / d.rate;
        freeAt := Some(depart);
      }
      var delay: int := d.delay;
      if d.jitter > 0 { delay := Max(0, d.delay + r.jitter - d.jitter); }
      var at := depart + delay;
      if !d.reorder && lastDeliver.Some? && at < lastDeliver.value { at := lastDeliver.value; }
      if lastDeliver.None? || at > lastDeliver.value { lastDeliver := Some(at); }
      return Deliver(at);
    }
  }
}
