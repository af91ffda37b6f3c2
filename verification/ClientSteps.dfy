/**
 The client's larger steps keep its invariant: repair from each of the three
 callers of claim, the ticker, and the arrival of a datagram.
 */
module ClientSteps {
  import opened Intervals
  import opened Packets
  import opened Clients
  import opened ClientRuns
  import A = Reassemblies
  import R = Repairs
  import Q = SeqTracking

  // ---- Repair: what claim is given at each of its three callers ----

  /** What claim demands: gaps in order, apart, inside the asset, and still missing. */
  ghost predicate Claimable(m: A.Asm, gaps: seq<Range>) {
    Disjoint(gaps, 0, m.size) && Covered(gaps) <= R.Lacking(m)
  }

  lemma {:induction false} DisjointTake(rs: seq<Range>, k: nat, lo: int, hi: int)
    requires Disjoint(rs, lo, hi) && k <= |rs|
    ensures Disjoint(rs[..k], lo, hi) && Covered(rs[..k]) <= Covered(rs)
  {
    if k > 0 {
      assert rs[..k][1..] == rs[1..][..k - 1];
      DisjointTake(rs[1..], k - 1, rs[0].end, hi);
    }
  }

  lemma TailGapsFit(m: A.Asm, granted: nat, payload: nat)
    requires A.AsmOk(m) && granted <= m.size && 1 <= payload
    ensures Disjoint(TailGaps(A.Frontier(m), granted, payload), Min(A.Frontier(m), granted), m.size)
    ensures Covered(TailGaps(A.Frontier(m), granted, payload)) <= R.Lacking(m)
  {
    var f := A.Frontier(m);
    if f < granted {
      var first := Range(f, Min(granted, f + payload));
      var last := Range(Max(first.end, granted - payload), granted);
      var gaps := TailGaps(f, granted, payload);
      assert gaps[0] == first && Covered([]) == {};
      if last.start < last.end {
        assert gaps[1..] == [last] && [last][1..] == [];
        assert Covered([last]) == Offsets(last.start, last.end) + Covered([]);
      } else {
        assert gaps[1..] == [];
      }
      assert forall i :: f <= i < granted ==> i in R.Lacking(m);
    }
  }

  lemma RecoverGapsFit(m: A.Asm, granted: nat, payload: nat)
    requires A.AsmOk(m) && granted <= m.size && 1 <= payload
    ensures Claimable(m, RecoverGaps(m, granted, payload))
  {
    var mid := Min(A.Frontier(m), granted);
    var all := A.Missing(m, mid);
    GapsAreMissing(m.got, 0, mid);
    CanonicalIsDisjoint(all, 0, 0, mid);
    if |all| > MAX_RESEND_RANGES { DisjointTake(all, MAX_RESEND_RANGES, 0, mid); }
    TailGapsFit(m, granted, payload);
    DisjointConcat(FirstSixteen(all), TailGaps(A.Frontier(m), granted, payload), 0, mid, m.size);
    CoveredConcat(FirstSixteen(all), TailGaps(A.Frontier(m), granted, payload));
  }

  lemma FirstOf(rs: seq<Range>, x: int, lo: int, hi: int)
    requires Disjoint(rs, lo, hi) && x in Covered(rs) && forall y :: y in Covered(rs) ==> x <= y
    ensures rs != [] && rs[0].start == x && x in Covered(FirstSixteen(rs))
  {
    DisjointBounds(rs[1..], rs[0].end, hi);
    assert rs[0].start in Covered(rs);
    assert FirstSixteen(rs)[0] == rs[0];
  }

  /** Recovery always asks for the byte that holds the prefix up, and for the last byte granted if the tail is out. */
  lemma RecoveryReachesEnds(m: A.Asm, granted: nat, payload: nat)
    requires A.AsmOk(m) && granted <= m.size && 1 <= payload
    ensures var gaps := RecoverGaps(m, granted, payload);
      && (A.Contiguous(m) < granted ==> A.Contiguous(m) in Covered(gaps))
      && (A.Frontier(m) < granted ==> granted - 1 in Covered(gaps))
  {
    var f, c, mid := A.Frontier(m), A.Contiguous(m), Min(A.Frontier(m), granted);
    var all, tail := A.Missing(m, mid), TailGaps(f, granted, payload);
    CoveredConcat(FirstSixteen(all), tail);
    assert c <= f by { if c > 0 { assert c - 1 in m.got; } }
    if c < mid {
      GapsAreMissing(m.got, 0, mid);
      CanonicalIsDisjoint(all, 0, 0, mid);
      FirstOf(all, c, 0, mid);
    }
    if f < granted { TailReachesEnds(f, granted, payload); }
  }

  lemma TailReachesEnds(f: nat, granted: nat, payload: nat)
    requires f < granted && 1 <= payload
    ensures f in Covered(TailGaps(f, granted, payload)) && granted - 1 in Covered(TailGaps(f, granted, payload))
  {
    var gaps := TailGaps(f, granted, payload);
    assert gaps[0] == Range(f, Min(granted, f + payload));
    if |gaps| == 2 { assert gaps[1..][0] == Range(Max(gaps[0].end, granted - payload), granted); }
  }

  lemma ProbeGapFits(m: A.Asm, granted: nat, payload: nat)
    requires A.AsmOk(m) && A.Frontier(m) < granted <= m.size && 1 <= payload
    ensures Claimable(m, [LastPacket(m, granted, payload)])
  {
    var gap := LastPacket(m, granted, payload);
    assert [gap][1..] == [] && Covered([]) == {};
    assert Covered([gap]) == Offsets(gap.start, gap.end) + Covered([]);
  }

  lemma DetectGapsFit(cfg: ClientConfig, c: Client, id: nat, e: Env)
    requires id in c.transfers && c.transfers[id].asm.Some? && A.AsmOk(c.transfers[id].asm.value)
    ensures var t, limit := c.transfers[id], SuspectLimit(cfg, c, id);
      Claimable(t.asm.value, R.Lost(t.repair.suspects, A.Missing(t.asm.value, limit), e.now, e.window))
  {
    var t, limit := c.transfers[id], SuspectLimit(cfg, c, id);
    assert 0 <= cfg.reorderPackets * PayloadOf(c);
    R.LostFits(t.repair.suspects, t.asm.value, limit, e.now, e.window);
  }

  /** Nothing the invariant speaks of depends on the repair bookkeeping or the timers. */
  lemma SameLive(cfg: ClientConfig, id: nat, t: Transfer, t': Transfer, v: View)
    requires LiveOk(cfg, id, t, v)
    requires t' == t.(lastDetect := t'.lastDetect, tailProbed := t'.tailProbed, lastProgress := t'.lastProgress, repair := t'.repair)
    requires t.asm.Some? ==> R.DisjointP(t'.repair.pending, 0, t.asm.value.size)
    ensures LiveOk(cfg, id, t', v.(live := Some(t')))
  {
  }

  lemma ClaimedKeeps(cfg: ClientConfig, c: Client, id: nat, gaps: seq<Range>, e: Env)
    requires Inv(cfg, c) && id in c.transfers && c.transfers[id].asm.Some?
    requires Disjoint(gaps, 0, c.transfers[id].asm.value.size)
    ensures var t := c.transfers[id];
      var c' := Put(c, id, t.(repair := R.Claimed(t.repair, R.Lacking(t.asm.value), gaps, e.now, e.delay)));
      Inv(cfg, c') && (Rest(c) ==> Rest(c'))
  {
    var t := c.transfers[id];
    assert ViewOk(cfg, id, ViewOf(c, id));
    R.ClaimEffect(t.repair, R.Lacking(t.asm.value), gaps, e.now, e.delay, t.asm.value.size);
    var t' := t.(repair := R.Claimed(t.repair, R.Lacking(t.asm.value), gaps, e.now, e.delay));
    SameLive(cfg, id, t, t', ViewOf(c, id));
    PutKeeps(cfg, c, id, t');
  }

  lemma ClaimGapsKeeps(cfg: ClientConfig, c: Client, id: nat, gaps: seq<Range>, e: Env)
    requires Inv(cfg, c) && id in c.transfers && c.transfers[id].asm.Some?
    requires Disjoint(gaps, 0, c.transfers[id].asm.value.size)
    ensures var c' := ClaimGaps(c, id, gaps, e);
      && Inv(cfg, c') && (Rest(c) ==> Rest(c')) && id in c'.transfers
      && c'.transfers[id] == c.transfers[id].(repair := c'.transfers[id].repair) && c'.sched == c.sched
  {
    var t := c.transfers[id];
    var t' := t.(repair := R.Claimed(t.repair, R.Lacking(t.asm.value), gaps, e.now, e.delay));
    var out := R.ClaimOut(t.repair, R.Lacking(t.asm.value), gaps, e.now);
    ClaimedKeeps(cfg, c, id, gaps, e);
    var c1 := Put(c, id, t').(claims := c.claims[id := ClaimsOf(c, id) + [R.Batch(out, e.now, e.now + e.delay)]]);
    forall j: nat ensures ViewOk(cfg, j, ViewOf(c1, j)) { assert ViewOf(c1, j) == ViewOf(Put(c, id, t'), j); assert ViewOk(cfg, j, ViewOf(Put(c, id, t'), j)); }
    ResendsAreNot(id, out);
    QuietSendKeeps(cfg, c1, Resends(id, out));
  }

  lemma QuietSendKeeps(cfg: ClientConfig, c: Client, ps: seq<Packet>)
    requires Inv(cfg, c) && forall p :: p in ps ==> !p.Req? && !p.Grant?
    ensures Inv(cfg, Send(c, ps))
  {
    QuietSend(c, ps);
    forall j: nat ensures ViewOk(cfg, j, ViewOf(Send(c, ps), j)) { assert ViewOk(cfg, j, ViewOf(c, j)); }
  }

  /** A send that grants no more than was granted keeps the invariant. */
  lemma LowSendKeeps(cfg: ClientConfig, c: Client, ps: seq<Packet>, id: nat)
    requires Inv(cfg, c) && id in c.transfers
    requires forall j: nat :: Highest(ps, j) <= if j == id then c.transfers[id].ceiling else 0
    ensures Inv(cfg, Send(c, ps))
  {
    assert ViewOk(cfg, id, ViewOf(c, id));
    SendView(c, ps, id);
    FromView(cfg, c, Send(c, ps), id);
  }

  lemma TouchKeeps(cfg: ClientConfig, c: Client, id: nat, t: Transfer)
    requires Inv(cfg, c) && id in c.transfers
    requires t == c.transfers[id].(lastDetect := t.lastDetect, tailProbed := t.tailProbed, lastProgress := t.lastProgress,
                                   repair := c.transfers[id].repair.(suspects := t.repair.suspects))
    ensures Inv(cfg, Put(c, id, t)) && (Rest(c) ==> Rest(Put(c, id, t)))
  {
    assert ViewOk(cfg, id, ViewOf(c, id));
    SameLive(cfg, id, c.transfers[id], t, ViewOf(c, id));
    PutKeeps(cfg, c, id, t);
  }

  lemma DetectLossKeeps(cfg: ClientConfig, c: Client, id: nat, e: Env)
    requires Inv(cfg, c) && id in c.transfers
    ensures var c' := DetectLoss(cfg, c, id, e); Inv(cfg, c') && (Rest(c) ==> Rest(c'))
    ensures var t, t' := c.transfers[id], DetectLoss(cfg, c, id, e).transfers[id]; t' == t.(lastDetect := t'.lastDetect, repair := t'.repair)
    ensures DetectLoss(cfg, c, id, e).sched == c.sched
  {
    var t := c.transfers[id].(lastDetect := Some(e.now));
    var c1 := Put(c, id, t);
    TouchKeeps(cfg, c, id, t);
    if cfg.earlyResend && t.asm.Some? && !c.negotiated && SuspectLimit(cfg, c1, id) > 0 {
      assert ViewOk(cfg, id, ViewOf(c1, id));
      var gaps := A.Missing(t.asm.value, SuspectLimit(cfg, c1, id));
      var t2 := t.(repair := t.repair.(suspects := R.Suspects(t.repair.suspects, gaps, e.now)));
      TouchKeeps(cfg, c1, id, t2);
      DetectGapsFit(cfg, c1, id, e);
      ClaimGapsKeeps(cfg, Put(c1, id, t2), id, R.Lost(t.repair.suspects, gaps, e.now, e.window), e);
    }
  }

  lemma GrantWithinSize(cfg: ClientConfig, c: Client, id: nat)
    requires Inv(cfg, c) && id in c.transfers
    ensures var t := c.transfers[id];
      && (t.asm.Some? ==> A.AsmOk(t.asm.value) && TickGrant(c, id) == Min(t.asm.value.size, t.ceiling))
      && (t.asm.None? ==> TickGrant(c, id) == 0)
  {
    assert ViewOk(cfg, id, ViewOf(c, id));
  }

  lemma TailProbeKeeps(cfg: ClientConfig, c: Client, id: nat, e: Env)
    requires Inv(cfg, c) && id in c.transfers
    ensures var c' := TailProbe(cfg, c, id, TickGrant(c, id), e);
      Inv(cfg, c') && (Rest(c) ==> Rest(c')) && TickGrant(c', id) == TickGrant(c, id)
  {
    var t, granted := c.transfers[id], TickGrant(c, id);
    GrantWithinSize(cfg, c, id);
    if ProbeDue(cfg, t, granted, e) {
      TouchKeeps(cfg, c, id, t.(tailProbed := true));
      ProbeGapFits(t.asm.value, granted, PayloadOf(c));
      ClaimGapsKeeps(cfg, Put(c, id, t.(tailProbed := true)), id, [LastPacket(t.asm.value, granted, PayloadOf(c))], e);
    }
  }

  lemma OneGrant(id: nat, g: nat)
    ensures forall j: nat :: Highest([Grant(id, g, 0)], j) == if j == id then g else 0
  {
    assert [Grant(id, g, 0)][..0] == [];
  }

  /** One more attempt, still within the limit. */
  lemma CountedView(c: Client, id: nat, t: Transfer)
    ensures var c' := Put(c.(recovered := c.recovered + multiset{id}), id, t);
      && Only(c, c', id) && c'.sched == c.sched && c'.seqs == c.seqs && c'.transfers == c.transfers[id := t]
      && ViewOf(c', id) == ViewOf(c, id).(live := Some(t), recovered := ViewOf(c, id).recovered + 1)
  {
  }

  lemma CountedKeeps(cfg: ClientConfig, c: Client, id: nat, now: real)
    requires Inv(cfg, c) && id in c.transfers && c.transfers[id].recoveries < cfg.maxRecoveries
    ensures var t := c.transfers[id];
      var c' := Put(c.(recovered := c.recovered + multiset{id}), id, t.(recoveries := t.recoveries + 1, lastProgress := now));
      Inv(cfg, c') && (Rest(c) ==> Rest(c'))
  {
    var t := c.transfers[id];
    var t' := t.(recoveries := t.recoveries + 1, lastProgress := now);
    assert ViewOk(cfg, id, ViewOf(c, id));
    CountedView(c, id, t');
    assert Progress(t') == Progress(t);
    FromView(cfg, c, Put(c.(recovered := c.recovered + multiset{id}), id, t'), id);
  }

  lemma AttemptKeeps(cfg: ClientConfig, c: Client, id: nat, now: real)
    requires Inv(cfg, c) && id in c.transfers && c.transfers[id].recoveries < cfg.maxRecoveries
    ensures var c' := Attempted(c, id, now);
      Inv(cfg, c') && (Rest(c) ==> Rest(c')) && TickGrant(c', id) == TickGrant(c, id)
  {
    var t := c.transfers[id];
    var c1 := Put(c.(recovered := c.recovered + multiset{id}), id, t.(recoveries := t.recoveries + 1, lastProgress := now));
    CountedKeeps(cfg, c, id, now);
    assert ViewOk(cfg, id, ViewOf(c, id));
    OneReq(id, t.initialGrant, t.assetId);
    LowSendKeeps(cfg, c1, if t.asm.None? || t.headers.None? then [Req(id, t.initialGrant, t.assetId)] else [], id);
  }

  /** The last attempt gives up. */
  lemma OneTooMany(cfg: ClientConfig, id: nat, t: Transfer, v: View)
    requires v.ended.None? && LiveOk(cfg, id, t, v) && t.recoveries == cfg.maxRecoveries
    ensures var t' := t.(recoveries := t.recoveries + 1); Endable(cfg, id, t', v.(live := Some(t'), recovered := v.recovered + 1))
  {
    AttemptsBounded(cfg, t, v.recovered);
  }

  lemma OutOfTriesEnds(cfg: ClientConfig, c: Client, id: nat)
    requires Inv(cfg, c) && id in c.transfers && c.transfers[id].recoveries == cfg.maxRecoveries
    ensures var c' := OutOfTries(c, id);
      InvBut(cfg, c', id) && Endable(cfg, id, c'.transfers[id], ViewOf(c', id)) && (RestBut(c, id) ==> RestBut(c', id))
  {
    var c' := OutOfTries(c, id);
    assert ViewOk(cfg, id, ViewOf(c, id));
    OneTooMany(cfg, id, c.transfers[id], ViewOf(c, id));
    CountedView(c, id, c'.transfers[id]);
    forall j: nat | j != id ensures ViewOk(cfg, j, ViewOf(c', j)) { assert ViewOk(cfg, j, ViewOf(c, j)); }
  }

  lemma GiveUpKeeps(cfg: ClientConfig, c: Client, id: nat, e: Env)
    requires Inv(cfg, c) && id in c.transfers && c.transfers[id].recoveries == cfg.maxRecoveries
    ensures Inv(cfg, GiveUp(c, id, e)) && (Rest(c) ==> Rest(GiveUp(c, id, e)))
  {
    OutOfTriesEnds(cfg, c, id);
    FinishKeeps(cfg, OutOfTries(c, id), id, false, e);
  }

  lemma RerequestKeeps(cfg: ClientConfig, c: Client, id: nat, e: Env)
    requires Inv(cfg, c) && id in c.transfers && c.transfers[id].asm.Some?
    ensures var c' := Rerequest(c, id, TickGrant(c, id), e); Inv(cfg, c') && (Rest(c) ==> Rest(c'))
  {
    var t, granted := c.transfers[id], TickGrant(c, id);
    GrantWithinSize(cfg, c, id);
    assert ViewOk(cfg, id, ViewOf(c, id));
    var grant := if granted > t.initialGrant then [Grant(id, granted, 0)] else [];
    OneGrant(id, granted);
    LowSendKeeps(cfg, c, grant, id);
    RecoverGapsFit(t.asm.value, granted, PayloadOf(c));
    ClaimGapsKeeps(cfg, Send(c, grant), id, RecoverGaps(t.asm.value, granted, PayloadOf(c)), e);
  }

  lemma RecoverKeeps(cfg: ClientConfig, c: Client, id: nat, e: Env)
    requires Inv(cfg, c) && id in c.transfers
    ensures var c' := Recover(cfg, c, id, TickGrant(c, id), e); Inv(cfg, c') && (Rest(c) ==> Rest(c'))
  {
    assert ViewOk(cfg, id, ViewOf(c, id));
    if c.transfers[id].recoveries == cfg.maxRecoveries {
      GiveUpKeeps(cfg, c, id, e);
    } else {
      AttemptKeeps(cfg, c, id, e.now);
      if c.transfers[id].asm.Some? { RerequestKeeps(cfg, Attempted(c, id, e.now), id, e); }
    }
  }

  lemma AttemptedOutcome(c: Client, id: nat, now: real)
    requires id in c.transfers
    ensures var t, c' := c.transfers[id], Attempted(c, id, now);
      c'.transfers == c.transfers[id := t.(recoveries := t.recoveries + 1, lastProgress := now)] && c'.events == c.events
  {
  }

  lemma RerequestOutcome(c: Client, id: nat, granted: nat, e: Env)
    requires id in c.transfers && c.transfers[id].asm.Some?
    ensures var t, c' := c.transfers[id], Rerequest(c, id, granted, e);
      && id in c'.transfers && c'.transfers == c.transfers[id := t.(repair := c'.transfers[id].repair)] && c'.events == c.events
  {
  }

  lemma GiveUpOutcome(c: Client, id: nat, e: Env)
    requires id in c.transfers
    ensures var t := c.transfers[id].(recoveries := c.transfers[id].recoveries + 1);
      id !in GiveUp(c, id, e).transfers && GiveUp(c, id, e).events == c.events + LastWords(id, t, false)
  {
    FinishIsOver(OutOfTries(c, id), id, false, e);
  }

  /** What an attempt is: one more, granting nothing to anyone; the one after the last fails the transfer and says so. */
  lemma RecoverOutcome(cfg: ClientConfig, c: Client, id: nat, e: Env)
    requires id in c.transfers
    ensures var t, c' := c.transfers[id], Recover(cfg, c, id, TickGrant(c, id), e);
      if t.recoveries < cfg.maxRecoveries then
        && c'.transfers.Keys == c.transfers.Keys && c'.events == c.events
        && c'.transfers[id].recoveries == t.recoveries + 1
        && forall j :: j in c.transfers ==> c'.transfers[j].ceiling == c.transfers[j].ceiling
      else
        id !in c'.transfers && c'.events == c.events + LastWords(id, t, false)
  {
    if c.transfers[id].recoveries + 1 > cfg.maxRecoveries {
      GiveUpOutcome(c, id, e);
    } else {
      AttemptedOutcome(c, id, e.now);
      if c.transfers[id].asm.Some? { RerequestOutcome(Attempted(c, id, e.now), id, TickGrant(c, id), e); }
    }
  }

  lemma TickKeeps(cfg: ClientConfig, c: Client, id: nat, e: Env)
    requires Inv(cfg, c) && Rest(c) && id in c.transfers
    ensures Inv(cfg, TickOne(cfg, c, id, e)) && Rest(TickOne(cfg, c, id, e))
  {
    var c1 := if c.transfers[id].asm.Some? then DetectLoss(cfg, c, id, e) else c;
    DetectLossKeeps(cfg, c, id, e);
    var t, granted := c1.transfers[id], TickGrant(c1, id);
    if Waiting(t, granted) {
      TouchKeeps(cfg, c1, id, t.(lastProgress := e.now));
    } else {
      TailProbeKeeps(cfg, c1, id, e);
      var c2 := TailProbe(cfg, c1, id, granted, e);
      if Stalled(c2.transfers[id], e) { RecoverKeeps(cfg, c2, id, e); }
    }
  }

  // ---- Arrivals ----

  lemma HeadersKeep(cfg: ClientConfig, c: Client, id: nat, fields: seq<Field>, now: real)
    requires Inv(cfg, c) && id in c.transfers && c.transfers[id].headers.None?
    ensures var t := c.transfers[id];
      var c' := Put(c, id, t.(headers := Some(fields), lastProgress := now, recoveries := 0));
      Inv(cfg, c') && (RestBut(c, id) ==> RestBut(c', id))
  {
    var t, v := c.transfers[id], ViewOf(c, id);
    assert ViewOk(cfg, id, v);
    Restart(cfg.maxRecoveries, Progress(t), v.recovered, t.recoveries, 1);
    var t' := t.(headers := Some(fields), lastProgress := now, recoveries := 0);
    assert Progress(t') == Progress(t) + 1;
    PutKeeps(cfg, c, id, t');
  }

  lemma MetaKeeps(cfg: ClientConfig, c: Client, id: nat, fields: seq<Field>, e: Env)
    requires Inv(cfg, c) && Rest(c) && id in c.transfers
    ensures Inv(cfg, HandleMeta(c, id, fields, e)) && Rest(HandleMeta(c, id, fields, e))
  {
    var t := c.transfers[id];
    if t.headers.None? {
      var c0 := Put(c, id, t.(headers := Some(fields), lastProgress := e.now, recoveries := 0));
      HeadersKeep(cfg, c, id, fields, e.now);
      MaybeStartKeeps(cfg, c0, id);
      var c1 := MaybeStart(c0, id);
      if t.asm.Some? && A.Complete(t.asm.value) { FinishLive(cfg, c1, id, true, e); }
    }
  }

  lemma AfterStoredKeeps(cfg: ClientConfig, c: Client, id: nat, e: Env)
    requires Inv(cfg, c) && RestBut(c, id) && id in c.transfers && c.transfers[id].asm.Some?
    ensures Inv(cfg, AfterStored(cfg, c, id, e)) && Rest(AfterStored(cfg, c, id, e))
  {
    var c0 := MaybeStart(c, id);
    MaybeStartKeeps(cfg, c, id);
    FlushKeeps(cfg, c0, id, e.behind);
    var c1 := Flush(c0, id, e.behind);
    var t := c1.transfers[id];
    assert ViewOk(cfg, id, ViewOf(c0, id));
    FlushedOk(c0.transfers[id], e.behind);
    if A.Complete(t.asm.value) && t.headers.Some? {
      FinishLive(cfg, c1, id, true, e);
    } else if Elapsed(t.lastDetect, e.now, DETECT_INTERVAL_MS) {
      DetectLossKeeps(cfg, c1, id, e);
    }
  }

  lemma InvAsmsOk(cfg: ClientConfig, c: Client)
    requires Inv(cfg, c)
    ensures AsmsOk(c)
  {
    forall id | id in c.transfers && c.transfers[id].asm.Some? ensures A.AsmOk(c.transfers[id].asm.value) {
      assert ViewOk(cfg, id, ViewOf(c, id));
    }
  }

  lemma DataKeeps(cfg: ClientConfig, c: Client, id: nat, size: nat, offset: nat, payload: seq<Byte>, e: Env)
    requires Inv(cfg, c) && Rest(c) && AsmsOk(c) && id in c.transfers
    ensures Inv(cfg, HandleData(cfg, c, id, size, offset, payload, e)) && Rest(HandleData(cfg, c, id, size, offset, payload, e))
  {
    var c1 := Sized(c, id, size);
    SizedKeeps(cfg, c, id, size);
    var m := c1.transfers[id].asm.value;
    InvAsmsOk(cfg, c1);
    if size != m.size || !A.Fits(m.size, offset, |payload|) {
      FinishLive(cfg, c1, id, false, e);
    } else {
      StoredKeeps(cfg, c1, id, offset, payload, e.now);
      AfterStoredKeeps(cfg, Stored(c1, id, offset, payload, e.now), id, e);
    }
  }

  lemma {:induction false} RaisedAbove(st: Q.Seqs, n: nat, now: real, where: Option<Q.Hint>)
    requires -1 <= st.highest
    ensures -1 <= Q.Arrive(st, n, now, where).0.highest
  {
  }

  /** The sequence tracker is in no view. */
  lemma SeqsKeep(cfg: ClientConfig, c: Client, c': Client)
    requires Inv(cfg, c) && -1 <= c'.seqs.highest
    requires c' == c.(seqs := c'.seqs, lastSeqDetect := c'.lastSeqDetect, negotiated := c'.negotiated)
    ensures Inv(cfg, c')
  {
    forall j: nat ensures ViewOk(cfg, j, ViewOf(c', j)) { assert ViewOf(c', j) == ViewOf(c, j); assert ViewOk(cfg, j, ViewOf(c, j)); }
  }

  lemma AskLostKeeps(cfg: ClientConfig, c: Client, e: Env)
    requires Inv(cfg, c)
    ensures Inv(cfg, AskLost(cfg, c, e)) && AskLost(cfg, c, e).transfers == c.transfers
  {
    var lost := Q.LostNums(c.seqs.missing, c.seqs.highest, e.now, cfg.reorderPackets, e.window, e.tail);
    ResendSeqsAreNot(Q.Ranges(lost, MAX_RESEND_SEQ));
    SeqsKeep(cfg, c, c.(seqs := Q.Detected(c.seqs, lost, e.now)));
    QuietSendKeeps(cfg, c.(seqs := Q.Detected(c.seqs, lost, e.now)), ResendSeqs(Q.Ranges(lost, MAX_RESEND_SEQ)));
  }

  lemma AskAgainKeeps(cfg: ClientConfig, c: Client, e: Env)
    requires Inv(cfg, c)
    ensures Inv(cfg, AskAgain(c, e)) && AskAgain(c, e).transfers == c.transfers
  {
    ResendSeqsAreNot(Q.Ranges(DueAgain(c, e), MAX_RESEND_SEQ));
    SeqsKeep(cfg, c, NextTry(c, e));
    QuietSendKeeps(cfg, NextTry(c, e), ResendSeqs(Q.Ranges(DueAgain(c, e), MAX_RESEND_SEQ)));
  }

  lemma SeqLossKeeps(cfg: ClientConfig, c: Client, e: Env)
    requires Inv(cfg, c)
    ensures Inv(cfg, DetectSeqLoss(cfg, c, e)) && DetectSeqLoss(cfg, c, e).transfers == c.transfers
  {
    var c1 := c.(lastSeqDetect := Some(e.now));
    SeqsKeep(cfg, c, c1);
    if cfg.earlyResend {
      AskLostKeeps(cfg, c1, e);
      AskAgainKeeps(cfg, AskLost(cfg, c1, e), e);
    }
  }

  lemma CountKeeps(cfg: ClientConfig, c: Client, p: Packet, e: Env)
    requires Inv(cfg, c) && p.DataSeq?
    ensures var c' := CountNumber(cfg, c, p, e); Inv(cfg, c') && c'.transfers == c.transfers
  {
    var c1 := Counted(c, p, e.now);
    RaisedAbove(c.seqs, p.num, e.now, Some(Q.Hint(p.rpc, p.offset, p.offset + |p.payload|)));
    SeqsKeep(cfg, c, c1);
    SeqLossKeeps(cfg, c1, e);
  }

  lemma PacketKeeps(cfg: ClientConfig, c: Client, p: Packet, e: Env)
    requires Inv(cfg, c) && Rest(c) && AsmsOk(c)
    ensures Inv(cfg, HandlePacket(cfg, c, p, e)) && Rest(HandlePacket(cfg, c, p, e))
  {
    if p.rpc in c.transfers {
      if p.Meta? {
        MetaKeeps(cfg, c, p.rpc, p.fields, e);
      } else if p.Data? || p.DataSeq? {
        DataKeeps(cfg, c, p.rpc, p.totalSize, p.offset, p.payload, e);
      } else if p.Error? {
        FinishLive(cfg, c, p.rpc, false, e);
      }
    }
  }

  lemma ArriveKeeps(cfg: ClientConfig, c: Client, p: Packet, e: Env)
    requires Inv(cfg, c) && Rest(c) && AsmsOk(c)
    ensures Inv(cfg, Arrive(cfg, c, p, e)) && Rest(Arrive(cfg, c, p, e))
  {
    var c1 := if p.DataSeq? then CountNumber(cfg, c, p, e) else c;
    if p.DataSeq? { CountKeeps(cfg, c, p, e); }
    PacketKeeps(cfg, c1, p, e);
    PumpKeeps(cfg, HandlePacket(cfg, c1, p, e), e);
  }
}
