/**
 Early detection on its own history: a gap is lost once it has stayed a suspect for
 the reordering window, counted from the first of the looks that found it without a
 break. And which bytes the three kinds of repair are for.
 */
module RepairLosses {
  import opened Intervals
  import opened Clients
  import A = Reassemblies
  import R = Repairs

  /** One look for gaps: what was missing below the limit, and when. */
  datatype Look = Look(gaps: seq<Range>, now: real)

  predicate Starts(gaps: seq<Range>, start: int) { exists k :: 0 <= k < |gaps| && gaps[k].start == start }

  /** When the gap starting here was first found, if every look since found it too. */
  function FirstFound(looks: seq<Look>, start: int): Option<real> {
    if looks == [] then None
    else
      var last := looks[|looks| - 1];
      if !Starts(last.gaps, start) then None
      else
        var before := FirstFound(looks[..|looks| - 1], start);
        if before.Some? then before else Some(last.now)
  }

  /** The suspects after these looks. */
  function SuspectsAfter(looks: seq<Look>): map<int, real> {
    if looks == [] then map[]
    else R.Suspects(SuspectsAfter(looks[..|looks| - 1]), looks[|looks| - 1].gaps, looks[|looks| - 1].now)
  }

  lemma {:induction false} SuspectsAre(old': map<int, real>, gaps: seq<Range>, now: real, start: int)
    ensures start in R.Suspects(old', gaps, now) <==> Starts(gaps, start)
    ensures Starts(gaps, start) ==> R.Suspects(old', gaps, now)[start] == if start in old' then old'[start] else now
    decreases |gaps|
  {
    if gaps != [] {
      var front, g := gaps[..|gaps| - 1], gaps[|gaps| - 1];
      SuspectsAre(old', front, now, start);
      if Starts(gaps, start) && g.start != start {
        var k :| 0 <= k < |gaps| && gaps[k].start == start;
        assert front[k].start == start;
      }
      if Starts(front, start) {
        var k :| 0 <= k < |front| && front[k].start == start;
        assert gaps[k].start == start;
      }
    }
  }

  lemma {:induction false} FoundSince(looks: seq<Look>, start: int)
    ensures FirstFound(looks, start) == if start in SuspectsAfter(looks) then Some(SuspectsAfter(looks)[start]) else None
  {
    if looks != [] {
      var front := looks[..|looks| - 1];
      FoundSince(front, start);
      SuspectsAre(SuspectsAfter(front), looks[|looks| - 1].gaps, looks[|looks| - 1].now, start);
    }
  }

  lemma {:induction false} LostAre(old': map<int, real>, gaps: seq<Range>, now: real, window: real, g: Range)
    ensures g in R.Lost(old', gaps, now, window) <==> g in gaps && now - (if g.start in old' then old'[g.start] else now) >= window
  {
    if gaps != [] {
      LostAre(old', gaps[1..], now, window, g);
      assert gaps == [gaps[0]] + gaps[1..];
    }
  }

  /** After any looks, the next one declares a gap lost exactly if it is one of its gaps and was first found a window ago or more. */
  lemma LostMeansWaited(looks: seq<Look>, last: Look, window: real, g: Range)
    ensures var all := looks + [last];
      g in R.Lost(SuspectsAfter(looks), last.gaps, last.now, window) <==>
        g in last.gaps && FirstFound(all, g.start).Some? && last.now - FirstFound(all, g.start).value >= window
  {
    var all := looks + [last];
    assert all[..|looks|] == looks;
    FoundSince(looks, g.start);
    LostAre(SuspectsAfter(looks), last.gaps, last.now, window, g);
    if g in last.gaps {
      var k :| 0 <= k < |last.gaps| && last.gaps[k] == g;
      assert Starts(last.gaps, g.start);
    }
  }

  // ---- Which bytes ----

  /** The bytes early detection looks at: below the frontier, and while more is granted past it, further below by the reordering allowance. */
  lemma SuspectsLieBelow(cfg: ClientConfig, c: Client, id: nat, x: int)
    requires id in c.transfers && c.transfers[id].asm.Some?
    ensures var m, gaps := c.transfers[id].asm.value, A.Missing(c.transfers[id].asm.value, SuspectLimit(cfg, c, id));
      var granted := GrantedOr(c, id, m.size);
      var margin := if A.Frontier(m) < granted then cfg.reorderPackets * (if c.payloadSeen == 0 then 1183 else c.payloadSeen) else 0;
      x in Covered(gaps) <==> 0 <= x && x !in m.got && x + margin < A.Frontier(m)
  {
    var m, limit := c.transfers[id].asm.value, SuspectLimit(cfg, c, id);
    GapsAreMissing(m.got, 0, limit);
  }

  /** Recovery is for every missing byte below the frontier that is granted, up to the end of the sixteenth gap. */
  lemma RecoveryTakesTheFirstGaps(m: A.Asm, granted: nat, payload: nat, x: int)
    requires A.AsmOk(m)
    requires 0 <= x < granted && x < A.Frontier(m) && x !in m.got
    ensures x in Covered(RecoverGaps(m, granted, payload)) || (|A.Missing(m, Min(A.Frontier(m), granted))| > 16
                                                              && forall k :: 0 <= k < 16 ==> RecoverGaps(m, granted, payload)[k].end <= x)
  {
    var mid := Min(A.Frontier(m), granted);
    var all, tail := A.Missing(m, mid), TailGaps(A.Frontier(m), granted, payload);
    GapsAreMissing(m.got, 0, mid);
    CanonicalIsDisjoint(all, 0, 0, mid);
    CoveredConcat(FirstSixteen(all), tail);
    if |all| > 16 {
      assert all == all[..16] + all[16..];
      CoveredConcat(all[..16], all[16..]);
      if x in Covered(all[16..]) { LaterRange(all, 16, 0, mid, x); }
    }
  }

  lemma {:induction false} LaterRange(rs: seq<Range>, n: nat, lo: int, hi: int, x: int)
    requires Disjoint(rs, lo, hi) && n <= |rs| && x in Covered(rs[n..])
    ensures lo <= x && forall k :: 0 <= k < n ==> rs[k].end <= x
    decreases |rs|
  {
    if n > 0 {
      assert rs[1..][n - 1..] == rs[n..];
      LaterRange(rs[1..], n - 1, rs[0].end, hi, x);
      forall k | 0 <= k < n ensures rs[k].end <= x { if k > 0 { assert rs[1..][k - 1] == rs[k]; } }
    } else {
      assert rs[0..] == rs;
      DisjointBounds(rs, lo, hi);
    }
  }

  lemma TailIs(frontier: nat, granted: nat, payload: nat, x: int)
    requires 1 <= payload
    ensures x in Covered(TailGaps(frontier, granted, payload)) <==> frontier <= x < granted && (x < frontier + payload || granted <= x + payload)
  {
    var gaps := TailGaps(frontier, granted, payload);
    if frontier < granted {
      var first := Range(frontier, Min(granted, frontier + payload));
      var last := Range(Max(first.end, granted - payload), granted);
      assert gaps[0] == first;
      if last.start < last.end {
        assert gaps[1..] == [last] && [last][1..] == [];
        assert Covered([last]) == Offsets(last.start, last.end) + Covered([]);
      } else {
        assert gaps[1..] == [];
      }
    }
  }

  /** Past the frontier recovery asks for the first and the last packet of what is granted, and no more; it never asks for more than eighteen ranges. */
  lemma RecoveryProbesTheTail(m: A.Asm, granted: nat, payload: nat, x: int)
    requires A.AsmOk(m) && 1 <= payload && A.Frontier(m) <= x
    ensures x in Covered(RecoverGaps(m, granted, payload)) <==> x < granted && (x < A.Frontier(m) + payload || granted <= x + payload)
    ensures |RecoverGaps(m, granted, payload)| <= 18
  {
    var mid := Min(A.Frontier(m), granted);
    var all := A.Missing(m, mid);
    GapsAreMissing(m.got, 0, mid);
    CanonicalIsDisjoint(all, 0, 0, mid);
    CoveredConcat(FirstSixteen(all), TailGaps(A.Frontier(m), granted, payload));
    if |all| > 16 {
      assert all == all[..16] + all[16..];
      CoveredConcat(all[..16], all[16..]);
    }
    TailIs(A.Frontier(m), granted, payload, x);
  }

  /** The probe is for the last bytes granted: as many as one packet carries, and none below the frontier. */
  lemma ProbeTakesTheLastPacket(m: A.Asm, granted: nat, payload: nat, x: int)
    requires A.Frontier(m) < granted
    ensures LastPacket(m, granted, payload).start <= x < LastPacket(m, granted, payload).end <==>
      A.Frontier(m) <= x < granted <= x + payload
  {
  }
}
