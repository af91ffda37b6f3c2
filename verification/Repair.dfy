/**
 client/src/reassembly.ts, class RepairTracker: which missing ranges of one
 transfer to RESEND, and when. A RESENT range is not asked for again before its
 deadline; a gap is declared lost only after staying missing for the reordering
 window.
 */
module Repairs {
  import opened Intervals
  import opened Reassemblies

  /** A RESENT range, awaiting its repair until `due`. */
  datatype Pend = Pend(start: int, end: int, due: real)

  datatype Repair = Repair(suspects: map<int, real>, pending: seq<Pend>, requested: nat)

  function NewRepair(): Repair { Repair(map[], [], 0) }

  ghost function CoveredP(ps: seq<Pend>): set<int> {
    if ps == [] then {} else Offsets(ps[0].start, ps[0].end) + CoveredP(ps[1..])
  }

  ghost predicate DisjointP(ps: seq<Pend>, lo: int, hi: int) {
    ps == [] || (lo <= ps[0].start < ps[0].end <= hi && DisjointP(ps[1..], ps[0].end, hi))
  }

  /** The offsets of the asset that have not arrived. */
  function Lacking(m: Asm): set<int> { Offsets(0, m.size) - m.got }

  /** A RESEND is live while it is before its deadline and some byte it covers is still missing. */
  predicate IsLive(p: Pend, lacking: set<int>, now: real) {
    p.due > now && exists b :: b in lacking && p.start <= b < p.end
  }

  function Live(ps: seq<Pend>, lacking: set<int>, now: real): seq<Pend> {
    if ps == [] then [] else Kept(ps[0], lacking, now) + Live(ps[1..], lacking, now)
  }

  function Kept(p: Pend, lacking: set<int>, now: real): seq<Pend> {
    if IsLive(p, lacking, now) then [p] else []
  }

  /** The parts of [at, end) that no live RESEND covers. */
  function Subtract(at: int, end: int, live: seq<Pend>): seq<Range>
    decreases |live|
  {
    if live == [] || live[0].start >= end then
      if at < end then [Range(at, end)] else []
    else
      (if live[0].start > at then [Range(at, live[0].start)] else [])
      + Subtract(Max(at, live[0].end), end, live[1..])
  }

  function SubtractAll(gaps: seq<Range>, live: seq<Pend>): seq<Range> {
    if gaps == [] then []
    else Subtract(gaps[0].start, gaps[0].end, live) + SubtractAll(gaps[1..], live)
  }

  function WithDue(rs: seq<Range>, due: real): (ps: seq<Pend>)
    ensures |ps| == |rs|
  {
    if rs == [] then [] else [Pend(rs[0].start, rs[0].end, due)] + WithDue(rs[1..], due)
  }

  function InsertByStart(p: Pend, ps: seq<Pend>): seq<Pend> {
    if ps == [] || p.start <= ps[0].start then [p] + ps
    else [ps[0]] + InsertByStart(p, ps[1..])
  }

  function SortByStart(ps: seq<Pend>): seq<Pend> {
    if ps == [] then [] else InsertByStart(ps[0], SortByStart(ps[1..]))
  }

  /** What claim returns for these gaps. */
  function ClaimOut(r: Repair, lacking: set<int>, gaps: seq<Range>, now: real): seq<Range> {
    SubtractAll(gaps, Live(r.pending, lacking, now))
  }

  /** The state claim leaves. */
  function Claimed(r: Repair, lacking: set<int>, gaps: seq<Range>, now: real, delay: real): Repair {
    var live := Live(r.pending, lacking, now);
    var out := SubtractAll(gaps, live);
    Repair(r.suspects, SortByStart(live + WithDue(out, now + delay)), r.requested + |out|)
  }

  /** When the gap starting at `start` was first a suspect, if it still is one. */
  function Since(suspects: map<int, real>, start: int, now: real): real {
    if start in suspects then suspects[start] else now
  }

  function Suspects(old': map<int, real>, gaps: seq<Range>, now: real): map<int, real> {
    if gaps == [] then map[]
    else Suspects(old', gaps[..|gaps| - 1], now)[gaps[|gaps| - 1].start := Since(old', gaps[|gaps| - 1].start, now)]
  }

  function Lost(old': map<int, real>, gaps: seq<Range>, now: real, window: real): seq<Range> {
    if gaps == [] then []
    else (if now - Since(old', gaps[0].start, now) >= window then [gaps[0]] else []) + Lost(old', gaps[1..], now, window)
  }

  // ---- Sets and order of the pieces ----

  lemma {:induction false} DisjointPBounds(ps: seq<Pend>, lo: int, hi: int)
    requires DisjointP(ps, lo, hi)
    ensures forall x :: x in CoveredP(ps) ==> lo <= x < hi
  {
    if ps != [] { DisjointPBounds(ps[1..], ps[0].end, hi); }
  }

  lemma {:induction false} DisjointPWiden(ps: seq<Pend>, lo: int, lo': int, hi: int)
    requires DisjointP(ps, lo, hi) && lo' <= lo
    ensures DisjointP(ps, lo', hi)
  {
  }

  lemma {:induction false} LiveIsDisjoint(ps: seq<Pend>, lacking: set<int>, now: real, lo: int, hi: int)
    requires DisjointP(ps, lo, hi)
    ensures DisjointP(Live(ps, lacking, now), lo, hi)
    ensures forall p :: p in Live(ps, lacking, now) <==> p in ps && IsLive(p, lacking, now)
    decreases |ps|
  {
    if ps != [] {
      LiveIsDisjoint(ps[1..], lacking, now, ps[0].end, hi);
      DisjointPWiden(Live(ps[1..], lacking, now), ps[0].end, lo, hi);
      var l := Live(ps, lacking, now);
      assert l == Kept(ps[0], lacking, now) + Live(ps[1..], lacking, now);
      if IsLive(ps[0], lacking, now) {
        assert l[1..] == Live(ps[1..], lacking, now);
      } else {
        assert l == Live(ps[1..], lacking, now);
      }
      assert ps == [ps[0]] + ps[1..];
    }
  }

  /** Subtract leaves exactly what the live ranges do not cover, in order. */
  lemma {:induction false} SubtractLeaves(at: int, end: int, live: seq<Pend>, lo: int, hi: int)
    requires DisjointP(live, lo, hi) && at <= Max(end, lo)
    ensures Covered(Subtract(at, end, live)) == Offsets(at, end) - CoveredP(live)
    ensures Disjoint(Subtract(at, end, live), at, Max(at, end))
    decreases |live|
  {
    if live == [] {
    } else if live[0].start >= end {
      DisjointPBounds(live, live[0].start, hi);
    } else {
      var p, at' := live[0], Max(at, live[0].end);
      SubtractLeaves(at', end, live[1..], p.end, hi);
      DisjointPBounds(live[1..], p.end, hi);
      var tail := Subtract(at', end, live[1..]);
      if p.start > at {
        assert ([Range(at, p.start)] + tail)[1..] == tail;
      } else {
        assert [] + tail == tail;
      }
    }
  }

  lemma {:induction false} SubtractAllLeaves(gaps: seq<Range>, live: seq<Pend>, lo: int, hi: int, top: int)
    requires Disjoint(gaps, lo, hi) && DisjointP(live, 0, top) && 0 <= lo
    ensures Covered(SubtractAll(gaps, live)) == Covered(gaps) - CoveredP(live)
    ensures Disjoint(SubtractAll(gaps, live), lo, hi)
    decreases |gaps|
  {
    if gaps != [] {
      var g := gaps[0];
      var head, tail := Subtract(g.start, g.end, live), SubtractAll(gaps[1..], live);
      SubtractLeaves(g.start, g.end, live, 0, top);
      SubtractAllLeaves(gaps[1..], live, g.end, hi, top);
      CoveredConcat(head, tail);
      DisjointWiden(head, g.start, lo, g.end);
      DisjointConcat(head, tail, lo, g.end, hi);
    }
  }

  /** Every element is a non-empty range in [0, size) that overlaps none after it. */
  ghost predicate Apart(ps: seq<Pend>, size: int) {
    ps == [] || (0 <= ps[0].start < ps[0].end <= size
                 && Offsets(ps[0].start, ps[0].end) !! CoveredP(ps[1..])
                 && Apart(ps[1..], size))
  }

  lemma {:induction false} InsertKeeps(p: Pend, ps: seq<Pend>, lo: int, hi: int)
    requires DisjointP(ps, lo, hi) && lo <= p.start < p.end <= hi
    requires Offsets(p.start, p.end) !! CoveredP(ps)
    ensures DisjointP(InsertByStart(p, ps), lo, hi)
    ensures CoveredP(InsertByStart(p, ps)) == Offsets(p.start, p.end) + CoveredP(ps)
    ensures forall q :: q in InsertByStart(p, ps) <==> q == p || q in ps
    decreases |ps|
  {
    if ps == [] || p.start <= ps[0].start {
      assert ([p] + ps)[1..] == ps;
      if ps != [] {
        assert ps[0].start in CoveredP(ps);
        assert ps[0].start !in Offsets(p.start, p.end);
        DisjointPWiden(ps, ps[0].start, p.end, hi);
      }
    } else {
      assert p.start !in Offsets(ps[0].start, ps[0].end);
      InsertKeeps(p, ps[1..], ps[0].end, hi);
      assert InsertByStart(p, ps)[1..] == InsertByStart(p, ps[1..]);
      assert ps == [ps[0]] + ps[1..];
    }
  }

  lemma {:induction false} SortKeeps(ps: seq<Pend>, size: int)
    requires Apart(ps, size)
    ensures DisjointP(SortByStart(ps), 0, size)
    ensures CoveredP(SortByStart(ps)) == CoveredP(ps)
    ensures forall q :: q in SortByStart(ps) <==> q in ps
    decreases |ps|
  {
    if ps != [] {
      SortKeeps(ps[1..], size);
      InsertKeeps(ps[0], SortByStart(ps[1..]), 0, size);
      assert ps == [ps[0]] + ps[1..];
    }
  }

  lemma {:induction false} WithDueCovers(rs: seq<Range>, due: real, lo: int, hi: int)
    requires Disjoint(rs, lo, hi)
    ensures CoveredP(WithDue(rs, due)) == Covered(rs)
    ensures DisjointP(WithDue(rs, due), lo, hi)
    ensures forall p :: p in WithDue(rs, due) ==> p.due == due
    decreases |rs|
  {
    if rs != [] {
      WithDueCovers(rs[1..], due, rs[0].end, hi);
      assert WithDue(rs, due)[1..] == WithDue(rs[1..], due);
    }
  }

  lemma {:induction false} ApartConcat(a: seq<Pend>, b: seq<Pend>, lo: int, size: int)
    requires DisjointP(a, lo, size) && DisjointP(b, 0, size) && 0 <= lo
    requires CoveredP(a) !! CoveredP(b)
    ensures Apart(a + b, size)
    ensures CoveredP(a + b) == CoveredP(a) + CoveredP(b)
    decreases |a| + |b|
  {
    if a == [] {
      assert a + b == b;
      if b != [] {
        DisjointPBounds(b[1..], b[0].end, size);
        ApartConcat(a, b[1..], lo, size) by { DisjointPWiden(b[1..], b[0].end, 0, size); }
        assert a + b[1..] == b[1..];
      }
    } else {
      DisjointPBounds(a[1..], a[0].end, size);
      ApartConcat(a[1..], b, a[0].end, size);
      assert (a + b)[1..] == a[1..] + b;
    }
  }

  /** What one claim does, in sets: it asks for the part of the gaps no live RESEND covers, and remembers both. */
  lemma ClaimEffect(r: Repair, lacking: set<int>, gaps: seq<Range>, now: real, delay: real, size: nat)
    requires DisjointP(r.pending, 0, size) && Disjoint(gaps, 0, size)
    ensures var live, out, r' := Live(r.pending, lacking, now), ClaimOut(r, lacking, gaps, now),
                                 Claimed(r, lacking, gaps, now, delay);
      && Covered(out) == Covered(gaps) - CoveredP(live)
      && Disjoint(out, 0, size)
      && DisjointP(r'.pending, 0, size)
      && (forall p :: p in r'.pending <==> p in live || p in WithDue(out, now + delay))
      && CoveredP(r'.pending) == CoveredP(live) + Covered(out)
      && r'.suspects == r.suspects && r'.requested == r.requested + |out|
  {
    var live, out := Live(r.pending, lacking, now), ClaimOut(r, lacking, gaps, now);
    var fresh' := WithDue(out, now + delay);
    LiveIsDisjoint(r.pending, lacking, now, 0, size);
    SubtractAllLeaves(gaps, live, 0, size, size);
    WithDueCovers(out, now + delay, 0, size);
    ApartConcat(live, fresh', 0, size);
    SortKeeps(live + fresh', size);
  }

  // ---- The whole history of claims ----

  /** One claim: what had arrived by then, which gaps were claimed, when, and for how long. */
  datatype Call = Call(lacking: set<int>, gaps: seq<Range>, now: real, delay: real)

  /** The RESENDs one claim sent. */
  datatype Batch = Batch(out: seq<Range>, at: real, due: real)

  /** Time does not go back, what has arrived stays, and each claim names missing bytes, in order. */
  ghost predicate GoodCalls(calls: seq<Call>, lacking: set<int>, now: real, size: nat) {
    calls == [] ||
    var c := calls[0];
    && GoodCall(c, lacking, now, size)
    && GoodCalls(calls[1..], c.lacking, c.now, size)
  }

  ghost predicate GoodCall(c: Call, lacking: set<int>, now: real, size: nat) {
    && now <= c.now && c.lacking <= lacking
    && Disjoint(c.gaps, 0, size) && Covered(c.gaps) <= c.lacking
  }

  ghost function SentBy(r: Repair, c: Call): Batch {
    Batch(ClaimOut(r, c.lacking, c.gaps, c.now), c.now, c.now + c.delay)
  }

  ghost function After(r: Repair, c: Call): Repair { Claimed(r, c.lacking, c.gaps, c.now, c.delay) }

  /** All the RESENDs a run of claims sends. */
  ghost function RunClaims(r: Repair, hist: seq<Batch>, calls: seq<Call>): seq<Batch>
    decreases |calls|
  {
    if calls == [] then hist else RunClaims(After(r, calls[0]), hist + [SentBy(r, calls[0])], calls[1..])
  }

  /** Two batches share a byte only if the first one's deadline had passed. */
  ghost predicate Spaced(a: Batch, b: Batch) {
    a.due <= b.at || Covered(a.out) !! Covered(b.out)
  }

  ghost predicate NoRepeat(hist: seq<Batch>) {
    forall i, j :: 0 <= i < j < |hist| ==> Spaced(hist[i], hist[j])
  }

  /** Byte x is covered by a pending RESEND due no earlier than `due`. */
  ghost predicate PendingUntil(ps: seq<Pend>, x: int, due: real) {
    exists p :: p in ps && p.start <= x < p.end && p.due >= due
  }

  /** Whatever a batch asked for and is still missing is still pending, until the batch is due. */
  ghost predicate Tracked(b: Batch, ps: seq<Pend>, lacking: set<int>, now: real) {
    b.due <= now || forall x :: x in Covered(b.out) && x in lacking ==> PendingUntil(ps, x, b.due)
  }

  lemma CoveringIsLive(ps: seq<Pend>, lacking: set<int>, now: real, x: int, due: real, lo: int, hi: int)
    requires DisjointP(ps, lo, hi)
    requires x in lacking && due > now && PendingUntil(ps, x, due)
    ensures PendingUntil(Live(ps, lacking, now), x, due)
    ensures x in CoveredP(Live(ps, lacking, now))
  {
    LiveIsDisjoint(ps, lacking, now, lo, hi);
    var p :| p in ps && p.start <= x < p.end && p.due >= due;
    assert p in Live(ps, lacking, now);
    InCovered(Live(ps, lacking, now), p, x);
  }

  lemma {:induction false} InCovered(ps: seq<Pend>, p: Pend, x: int)
    requires p in ps && p.start <= x < p.end
    ensures x in CoveredP(ps)
  {
    if p != ps[0] { InCovered(ps[1..], p, x); }
  }

  lemma {:induction false} DueCovers(rs: seq<Range>, due: real, x: int)
    requires x in Covered(rs)
    ensures PendingUntil(WithDue(rs, due), x, due)
  {
    var ps := WithDue(rs, due);
    if rs[0].start <= x < rs[0].end {
      assert ps[0] in ps;
    } else {
      DueCovers(rs[1..], due, x);
      assert ps[1..] == WithDue(rs[1..], due);
      var p :| p in ps[1..] && p.start <= x < p.end && p.due >= due;
      assert p in ps;
    }
  }

  /** A batch that is tracked when a claim comes is tracked after it, and the claim's own RESENDs keep clear of it. */
  lemma ClaimKeepsTrack(b: Batch, r: Repair, lacking: set<int>, now: real, c: Call, size: nat)
    requires DisjointP(r.pending, 0, size) && GoodCall(c, lacking, now, size)
    requires Tracked(b, r.pending, lacking, now)
    ensures Tracked(b, After(r, c).pending, c.lacking, c.now)
    ensures Spaced(b, SentBy(r, c))
  {
    var live, out, after := Live(r.pending, c.lacking, c.now), SentBy(r, c).out, After(r, c).pending;
    ClaimEffect(r, c.lacking, c.gaps, c.now, c.delay, size);
    if b.due > c.now {
      forall x | x in Covered(b.out) && x in c.lacking
        ensures PendingUntil(after, x, b.due) && x !in Covered(out)
      {
        CoveringIsLive(r.pending, c.lacking, c.now, x, b.due, 0, size);
        var p :| p in live && p.start <= x < p.end && p.due >= b.due;
        assert p in after;
      }
      assert Covered(out) <= c.lacking;
      assert forall x :: x in Covered(b.out) ==> x !in Covered(out);
    }
  }

  lemma NewIsTracked(r: Repair, c: Call, size: nat)
    requires DisjointP(r.pending, 0, size) && Disjoint(c.gaps, 0, size)
    ensures Tracked(SentBy(r, c), After(r, c).pending, c.lacking, c.now)
  {
    var out, due, after := SentBy(r, c).out, c.now + c.delay, After(r, c).pending;
    ClaimEffect(r, c.lacking, c.gaps, c.now, c.delay, size);
    forall x | x in Covered(out) ensures PendingUntil(after, x, due) {
      DueCovers(out, due, x);
      var p :| p in WithDue(out, due) && p.start <= x < p.end && p.due >= due;
      assert p in after;
    }
  }

  ghost predicate AllTracked(hist: seq<Batch>, ps: seq<Pend>, lacking: set<int>, now: real) {
    forall b :: b in hist ==> Tracked(b, ps, lacking, now)
  }

  lemma HistoryStep(hist: seq<Batch>, r: Repair, lacking: set<int>, now: real, c: Call, size: nat)
    requires DisjointP(r.pending, 0, size) && GoodCall(c, lacking, now, size)
    requires NoRepeat(hist) && AllTracked(hist, r.pending, lacking, now)
    ensures NoRepeat(hist + [SentBy(r, c)])
    ensures AllTracked(hist + [SentBy(r, c)], After(r, c).pending, c.lacking, c.now)
    ensures DisjointP(After(r, c).pending, 0, size)
  {
    NewIsTracked(r, c, size);
    ClaimEffect(r, c.lacking, c.gaps, c.now, c.delay, size);
    forall b | b in hist
      ensures Tracked(b, After(r, c).pending, c.lacking, c.now) && Spaced(b, SentBy(r, c))
    {
      ClaimKeepsTrack(b, r, lacking, now, c, size);
    }
    var hist' := hist + [SentBy(r, c)];
    forall i, j | 0 <= i < j < |hist'| ensures Spaced(hist'[i], hist'[j]) {
      assert hist'[i] == hist[i];
    }
  }

  /** Whatever a run has sent so far, continuing it never repeats a RESEND that is still live. */
  lemma {:induction false} HistoryKeeps(hist: seq<Batch>, r: Repair, lacking: set<int>, now: real, calls: seq<Call>, size: nat)
    requires DisjointP(r.pending, 0, size) && GoodCalls(calls, lacking, now, size)
    requires NoRepeat(hist) && AllTracked(hist, r.pending, lacking, now)
    ensures NoRepeat(RunClaims(r, hist, calls))
    decreases |calls|
  {
    if calls != [] {
      var c := calls[0];
      HistoryStep(hist, r, lacking, now, c, size);
      HistoryKeeps(hist + [SentBy(r, c)], After(r, c), c.lacking, c.now, calls[1..], size);
    }
  }

  /**
   Over any run of claims for one transfer: no byte is RESENT while an earlier
   RESEND covering it is still before its deadline.
   */
  lemma NoRepeatStorms(calls: seq<Call>, lacking: set<int>, now: real, size: nat)
    requires GoodCalls(calls, lacking, now, size)
    ensures NoRepeat(RunClaims(NewRepair(), [], calls))
  {
    HistoryKeeps([], NewRepair(), lacking, now, calls, size);
  }

  /** The other half: every byte of a claimed gap is asked for now, or under a RESEND that is still live. */
  lemma NothingForgotten(r: Repair, c: Call, size: nat, x: int)
    requires DisjointP(r.pending, 0, size) && Disjoint(c.gaps, 0, size)
    requires x in Covered(c.gaps)
    ensures x in Covered(SentBy(r, c).out)
            || exists p :: p in After(r, c).pending && p in r.pending && p.start <= x < p.end && p.due > c.now
  {
    ClaimEffect(r, c.lacking, c.gaps, c.now, c.delay, size);
    if x !in Covered(SentBy(r, c).out) {
      LiveIsDisjoint(r.pending, c.lacking, c.now, 0, size);
      var p := Coverer(Live(r.pending, c.lacking, c.now), x);
      assert p in After(r, c).pending;
    }
  }

  lemma {:induction false} Coverer(ps: seq<Pend>, x: int) returns (p: Pend)
    requires x in CoveredP(ps)
    ensures p in ps && p.start <= x < p.end
  {
    if ps[0].start <= x < ps[0].end { p := ps[0]; } else { p := Coverer(ps[1..], x); }
  }

  // ---- The class ----

  class RepairTracker {
    var suspects: map<int, real>
    var pending: seq<Pend>
    var requested: nat

    ghost function State(): Repair
      reads this
    {
      Repair(suspects, pending, requested)
    }

    constructor ()
      ensures State() == NewRepair()
    {
      suspects, pending, requested := map[], [], 0;
    }

    /** Gaps below limit that stayed missing for the window, less what a live RESEND covers. */
    method Detect(asm: Reassembly, limit: int, now: real, window: real, delay: real) returns (out: seq<Range>)
      requires asm.Valid() && limit <= asm.size && DisjointP(pending, 0, asm.size)
      modifies this
      ensures var lacking, gaps, r := Lacking(asm.State()), Missing(asm.State(), limit), old(State());
        && out == ClaimOut(r, lacking, Lost(r.suspects, gaps, now, window), now)
        && State() == Claimed(r.(suspects := Suspects(r.suspects, gaps, now)), lacking,
                              Lost(r.suspects, gaps, now, window), now, delay)
    {
      var gaps := asm.MissingBelow(limit);
      var lost;
      ghost var was := suspects;
      suspects, lost := Judge(suspects, gaps, now, window);
      LostFits(was, asm.State(), limit, now, window);
      out := Claim(asm, lost, now, delay);
    }

    /** Which gaps are suspects, since when, and which have waited out the window. */
    static method Judge(suspects: map<int, real>, gaps: seq<Range>, now: real, window: real)
      returns (fresh': map<int, real>, lost: seq<Range>)
      ensures fresh' == Suspects(suspects, gaps, now)
      ensures lost == Lost(suspects, gaps, now, window)
    {
      fresh', lost := map[], [];
      ghost var rest := gaps;
      for k := 0 to |gaps|
        invariant rest == gaps[k..]
        invariant fresh' == Suspects(suspects, gaps[..k], now)
        invariant lost + Lost(suspects, rest, now, window) == Lost(suspects, gaps, now, window)
      {
        var g := gaps[k];
        var since := Since(suspects, g.start, now);
        SuspectStep(suspects, gaps, k, now);
        LostStep(suspects, lost, rest, now, window);
        fresh' := fresh'[g.start := since];
        if now - since >= window { lost := lost + [g]; }
        rest := rest[1..];
      }
      assert gaps[..|gaps|] == gaps;
    }

    /** The parts of gaps no live RESEND covers, recorded as RESENT now. */
    method Claim(asm: Reassembly, gaps: seq<Range>, now: real, delay: real) returns (out: seq<Range>)
      requires asm.Valid() && Disjoint(gaps, 0, asm.size) && DisjointP(pending, 0, asm.size)
      modifies this
      ensures out == ClaimOut(old(State()), Lacking(asm.State()), gaps, now)
      ensures State() == Claimed(old(State()), Lacking(asm.State()), gaps, now, delay)
    {
      var live := LiveNow(asm, now);
      out := SubtractLive(gaps, live, asm.size);
      pending := SortByStart(live + WithDue(out, now + delay));
      requested := requested + |out|;
    }

    /** The RESENDs still waited for, given what the buffer lacks. */
    method LiveNow(asm: Reassembly, now: real) returns (live: seq<Pend>)
      requires asm.Valid() && DisjointP(pending, 0, asm.size)
      ensures live == Live(pending, Lacking(asm.State()), now) && DisjointP(live, 0, asm.size)
    {
      var open := asm.MissingBelow(asm.size);
      OpenIsLacking(asm.State());
      live := LiveOf(pending, open, now, Lacking(asm.State()), asm.size);
      LiveIsDisjoint(pending, Lacking(asm.State()), now, 0, asm.size);
    }

    /** One sweep over both sorted lists drops the RESENDs that were repaired or are overdue. */
    static method LiveOf(pending: seq<Pend>, open: seq<Range>, now: real, ghost lacking: set<int>, size: nat)
      returns (live: seq<Pend>)
      requires DisjointP(pending, 0, size) && Canonical(open, 0, size) && Covered(open) == lacking
      ensures live == Live(pending, lacking, now)
    {
      live := [];
      var i := 0;
      ghost var rest, lo := pending, 0;
      for n := 0 to |pending|
        invariant 0 <= i <= |open| && rest == pending[n..]
        invariant DisjointP(rest, lo, size)
        invariant Canonical(open[i..], 0, size) && AgreeFrom(lacking, open[i..], lo)
        invariant live + Live(rest, lacking, now) == Live(pending, lacking, now)
      {
        var p := pending[n];
        var hit;
        i, hit := Sweep(open, i, lo, p, now, lacking, size);
        LiveStep(live, rest, lacking, now, hit);
        if hit { live := live + [p]; }
        lo := p.end;
        rest := rest[1..];
      }
    }

    /** Whether p is live, moving the cursor past the open gaps before it; an overdue one is skipped. */
    static method Sweep(open: seq<Range>, from: nat, ghost lo: int, p: Pend, now: real, ghost lacking: set<int>, size: nat)
      returns (i: nat, hit: bool)
      requires from <= |open| && Canonical(open[from..], 0, size) && AgreeFrom(lacking, open[from..], lo)
      requires lo <= p.start < p.end
      ensures i <= |open| && Canonical(open[i..], 0, size) && AgreeFrom(lacking, open[i..], p.end)
      ensures Kept(p, lacking, now) == if hit then [p] else []
    {
      i := from;
      if p.due <= now { return i, false; }
      ghost var left := open[from..];
      while i < |open| && open[i].end <= p.start
        invariant 0 <= i <= |open| && left == open[i..]
        invariant Canonical(left, 0, size) && AgreeFrom(lacking, left, p.start)
      {
        SweepStep(left, lacking, p.start, size);
        left := left[1..];
        i := i + 1;
      }
      FirstDecides(left, lacking, p, now, size);
      hit := i < |open| && open[i].start < p.end;
    }

    /** Cursor j only moves forward: both lists are sorted and disjoint. */
    static method SubtractLive(gaps: seq<Range>, live: seq<Pend>, size: nat) returns (out: seq<Range>)
      requires Disjoint(gaps, 0, size) && DisjointP(live, 0, size)
      ensures out == SubtractAll(gaps, live)
    {
      out := [];
      var j := 0;
      ghost var rest := gaps;
      for n := 0 to |gaps|
        invariant 0 <= j <= |live| && rest == gaps[n..]
        invariant Disjoint(rest, 0, size) && DisjointP(live[j..], 0, size)
        invariant out + SubtractAll(rest, live[j..]) == SubtractAll(gaps, live)
      {
        var g := gaps[n];
        j := SkipLive(live, j, g.start, rest, size);
        var pieces := Pieces(g, live, j);
        Shift(out, pieces, SubtractAll(rest[1..], live[j..]));
        out := out + pieces;
        DisjointWiden(rest[1..], g.end, 0, size);
        rest := rest[1..];
      }
    }

    static method SkipLive(live: seq<Pend>, from: nat, at: int, ghost gaps: seq<Range>, size: nat) returns (j: nat)
      requires from <= |live| && DisjointP(live[from..], 0, size)
      requires gaps != [] && gaps[0].start == at && Disjoint(gaps, 0, size)
      ensures j <= |live| && DisjointP(live[j..], 0, size)
      ensures SubtractAll(gaps, live[j..]) == SubtractAll(gaps, live[from..])
    {
      j := from;
      ghost var after := live[from..];
      while j < |live| && live[j].end <= at
        invariant 0 <= j <= |live| && after == live[j..] && DisjointP(after, 0, size)
        invariant SubtractAll(gaps, after) == SubtractAll(gaps, live[from..])
      {
        SubtractAllSkip(gaps, after, 0, size);
        DisjointPWiden(after[1..], after[0].end, 0, size);
        after := after[1..];
        j := j + 1;
      }
    }

    /** The part of one gap that live[j..] leaves. */
    static method Pieces(g: Range, live: seq<Pend>, j: nat) returns (out: seq<Range>)
      requires j <= |live|
      ensures out == Subtract(g.start, g.end, live[j..])
    {
      out := [];
      var at, k := g.start, j;
      ghost var todo := live[j..];
      while k < |live| && live[k].start < g.end
        invariant j <= k <= |live| && todo == live[k..]
        invariant out + Subtract(at, g.end, todo) == Subtract(g.start, g.end, live[j..])
      {
        var p := live[k];
        PieceStep(out, at, g.end, todo);
        if p.start > at { out := out + [Range(at, p.start)]; }
        at := Max(at, p.end);
        todo := todo[1..];
        k := k + 1;
      }
      if at < g.end { out := out + [Range(at, g.end)]; }
    }
  }

  lemma LiveStep(live: seq<Pend>, rest: seq<Pend>, lacking: set<int>, now: real, hit: bool)
    requires rest != [] && Kept(rest[0], lacking, now) == if hit then [rest[0]] else []
    ensures live + Live(rest, lacking, now) == (if hit then live + [rest[0]] else live) + Live(rest[1..], lacking, now)
  {
    Shift(live, Kept(rest[0], lacking, now), Live(rest[1..], lacking, now));
  }

  lemma PieceStep(out: seq<Range>, at: int, end: int, todo: seq<Pend>)
    requires todo != [] && todo[0].start < end
    ensures out + Subtract(at, end, todo)
            == (if todo[0].start > at then out + [Range(at, todo[0].start)] else out) + Subtract(Max(at, todo[0].end), end, todo[1..])
  {
    Shift(out, if todo[0].start > at then [Range(at, todo[0].start)] else [], Subtract(Max(at, todo[0].end), end, todo[1..]));
  }

  lemma SuspectStep(suspects: map<int, real>, gaps: seq<Range>, k: nat, now: real)
    requires k < |gaps|
    ensures Suspects(suspects, gaps[..k + 1], now)
            == Suspects(suspects, gaps[..k], now)[gaps[k].start := Since(suspects, gaps[k].start, now)]
  {
    assert gaps[..k + 1][..k] == gaps[..k];
  }

  lemma LostStep(suspects: map<int, real>, lost: seq<Range>, rest: seq<Range>, now: real, window: real)
    requires rest != []
    ensures var waited := now - Since(suspects, rest[0].start, now) >= window;
      lost + Lost(suspects, rest, now, window) == (if waited then lost + [rest[0]] else lost) + Lost(suspects, rest[1..], now, window)
  {
    Shift(lost, [rest[0]], Lost(suspects, rest[1..], now, window));
  }

  lemma OpenIsLacking(m: Asm)
    ensures Canonical(Missing(m, m.size), 0, m.size) && Covered(Missing(m, m.size)) == Lacking(m)
  {
    GapsAreMissing(m.got, 0, m.size);
  }

  /** The gaps detect declares lost may be claimed: they are in order and still missing. */
  lemma LostFits(suspects: map<int, real>, m: Asm, limit: int, now: real, window: real)
    requires AsmOk(m) && limit <= m.size
    ensures Disjoint(Lost(suspects, Missing(m, limit), now, window), 0, m.size)
    ensures Covered(Lost(suspects, Missing(m, limit), now, window)) <= Lacking(m)
  {
    var gaps := Missing(m, limit);
    GapsAreMissing(m.got, 0, limit);
    CanonicalIsDisjoint(gaps, 0, 0, Max(0, limit));
    LostIsPart(suspects, gaps, now, window, 0, Max(0, limit));
    DisjointWidenTop(Lost(suspects, gaps, now, window), 0, Max(0, limit), m.size);
  }

  lemma {:induction false} LostIsPart(old': map<int, real>, gaps: seq<Range>, now: real, window: real, lo: int, hi: int)
    requires Disjoint(gaps, lo, hi)
    ensures Disjoint(Lost(old', gaps, now, window), lo, hi)
    ensures Covered(Lost(old', gaps, now, window)) <= Covered(gaps)
    ensures forall g :: g in Lost(old', gaps, now, window) <==> g in gaps && now - Since(old', g.start, now) >= window
    decreases |gaps|
  {
    if gaps != [] {
      var tail := Lost(old', gaps[1..], now, window);
      LostIsPart(old', gaps[1..], now, window, gaps[0].end, hi);
      DisjointWiden(tail, gaps[0].end, lo, hi);
      assert gaps == [gaps[0]] + gaps[1..];
      if now - Since(old', gaps[0].start, now) >= window {
        assert ([gaps[0]] + tail)[1..] == tail;
      } else {
        assert [] + tail == tail;
      }
    }
  }

  lemma {:induction false} DisjointWidenTop(rs: seq<Range>, lo: int, hi: int, hi': int)
    requires Disjoint(rs, lo, hi) && hi <= hi'
    ensures Disjoint(rs, lo, hi')
    decreases |rs|
  {
    if rs != [] { DisjointWidenTop(rs[1..], rs[0].end, hi, hi'); }
  }

  lemma SweepStep(left: seq<Range>, lacking: set<int>, at: int, size: nat)
    requires left != [] && Canonical(left, 0, size) && AgreeFrom(lacking, left, at) && left[0].end <= at
    ensures Canonical(left[1..], 0, size) && AgreeFrom(lacking, left[1..], at)
  {
    CanonicalIsDisjoint(left[1..], left[0].end + 1, 0, size);
  }

  lemma FirstDecides(left: seq<Range>, lacking: set<int>, p: Pend, now: real, size: nat)
    requires Canonical(left, 0, size) && AgreeFrom(lacking, left, p.start)
    requires left != [] ==> left[0].end > p.start
    requires p.due > now && p.start < p.end
    ensures IsLive(p, lacking, now) <==> left != [] && left[0].start < p.end
  {
    if left != [] {
      CanonicalIsDisjoint(left[1..], left[0].end + 1, left[0].end + 1, size);
      DisjointBounds(left[1..], left[0].end + 1, size);
      if left[0].start < p.end {
        var b := Max(left[0].start, p.start);
        assert b in Covered(left);
        assert b in lacking;
        assert p.start <= b < p.end;
      } else {
        forall b | b in lacking && p.start <= b ensures p.end <= b {
          assert b in Covered(left);
          assert b in Offsets(left[0].start, left[0].end) || b in Covered(left[1..]);
        }
      }
    } else {
      forall b | b in lacking ensures b < p.start {
        assert p.start <= b ==> b in Covered(left);
      }
    }
  }

  /** A live range that ends before every remaining gap can be passed for good. */
  lemma {:induction false} SubtractAllSkip(gaps: seq<Range>, live: seq<Pend>, lo: int, hi: int)
    requires Disjoint(gaps, lo, hi) && live != [] && live[0].start < live[0].end
    requires gaps != [] ==> live[0].end <= gaps[0].start
    ensures SubtractAll(gaps, live) == SubtractAll(gaps, live[1..])
    decreases |gaps|
  {
    if gaps != [] {
      var g := gaps[0];
      assert Subtract(g.start, g.end, live) == [] + Subtract(g.start, g.end, live[1..]);
      SubtractAllSkip(gaps[1..], live, g.end, hi);
    }
  }
}
