/**
 Nothing the client finds missing is forgotten, in any run whose clock does not
 go back: each byte of each range it claims is under a RESEND that was written,
 just now or by a claim whose deadline is still to come.
 */
module ClientAwaits {
  import opened Intervals
  import opened Packets
  import opened Clients
  import opened ClientRuns
  import opened ClientSteps
  import opened ClientRepairs
  import CH = ClientHistory
  import CQ = ClientAsks
  import A = Reassemblies
  import R = Repairs

  /** The byte is in range j of batch k, written, and either new or not yet due. */
  ghost predicate Covers(c: Client, id: nat, k: int, j: int, x: int, now: real) {
    var hist := ClaimsOf(c, id);
    && 0 <= k < |hist| && 0 <= j < |hist[k].out|
    && hist[k].out[j].start <= x < hist[k].out[j].end
    && Sent(c.sent, id, hist[k].out[j])
    && (hist[k].at == now || now < hist[k].due)
  }

  ghost predicate Awaited(c: Client, id: nat, x: int, now: real) { exists k, j :: Covers(c, id, k, j, x, now) }

  /** All that was asked for stays asked for. */
  ghost predicate AsksOn(c: Client, c': Client, id: nat) {
    && ClaimsOf(c, id) <= ClaimsOf(c', id)
    && forall p: Packet :: p.Resend? && p in c.sent ==> p in c'.sent
  }

  lemma AwaitedStays(c: Client, c': Client, id: nat, x: int, now: real)
    requires AsksOn(c, c', id) && Awaited(c, id, x, now)
    ensures Awaited(c', id, x, now)
  {
    var k, j :| Covers(c, id, k, j, x, now);
    var r := ClaimsOf(c, id)[k].out[j];
    assert ClaimsOf(c', id)[k] == ClaimsOf(c, id)[k];
    var p :| p in c.sent && p.rpc == id && IsResendOf(p, r);
    assert Sent(c'.sent, id, r);
    assert Covers(c', id, k, j, x, now);
  }

  lemma {:induction false} RangeOf(rs: seq<Range>, x: int) returns (j: nat)
    requires x in Covered(rs)
    ensures j < |rs| && rs[j].start <= x < rs[j].end
  {
    if rs[0].start <= x < rs[0].end {
      j := 0;
    } else {
      var k := RangeOf(rs[1..], x);
      j := k + 1;
    }
  }

  /** Of a claim's gaps each byte is asked for in the new batch, or was in one still waited for. */
  lemma BatchOf(t: Transfer, hist: seq<R.Batch>, call: R.Call, size: nat, x: int) returns (k: nat, j: nat)
    requires R.DisjointP(t.repair.pending, 0, size) && Disjoint(call.gaps, 0, size) && x in Covered(call.gaps)
    requires AllFrom(hist, t.repair.pending)
    ensures var hist' := hist + [R.SentBy(t.repair, call)];
      && k < |hist'| && j < |hist'[k].out| && hist'[k].out[j].start <= x < hist'[k].out[j].end
      && (hist'[k].at == call.now || call.now < hist'[k].due)
  {
    R.NothingForgotten(t.repair, call, size, x);
    var b := R.SentBy(t.repair, call);
    if x in Covered(b.out) {
      k := |hist|;
      j := RangeOf(b.out, x);
    } else {
      var q :| q in t.repair.pending && q.start <= x < q.end && q.due > call.now;
      assert FromBatch(hist, q);
      var b0 :| b0 in hist && Range(q.start, q.end) in b0.out && q.due == b0.due;
      k :| 0 <= k < |hist| && hist[k] == b0;
      j :| 0 <= j < |b0.out| && b0.out[j] == Range(q.start, q.end);
    }
  }

  /** One claim leaves every byte of its gaps awaited. */
  lemma GapsAwaited(cfg: ClientConfig, c: Client, id: nat, gaps: seq<Range>, e: Env, x: int)
    requires Inv(cfg, c) && id in c.transfers && c.transfers[id].asm.Some? && Claimable(c.transfers[id].asm.value, gaps)
    requires ClaimsInv(c, e.now) && x in Covered(gaps)
    ensures Awaited(ClaimGaps(c, id, gaps, e), id, x, e.now)
  {
    var t, c' := c.transfers[id], ClaimGaps(c, id, gaps, e);
    LiveFacts(cfg, c, id);
    ClaimSpaced(cfg, c, id, gaps, e);
    WhatClaimAdds(c, id, gaps, e);
    var k, j := BatchOf(t, ClaimsOf(c, id), CallOf(t, gaps, e), t.asm.value.size, x);
    assert AllSent(c'.sent, id, ClaimsOf(c', id));
    assert Covers(c', id, k, j, x, e.now);
  }

  lemma ClaimAsksOn(c: Client, id: nat, gaps: seq<Range>, e: Env)
    requires id in c.transfers && c.transfers[id].asm.Some?
    ensures AsksOn(c, ClaimGaps(c, id, gaps, e), id)
  {
    WhatClaimAdds(c, id, gaps, e);
    WhatClaimSends(c, id, gaps, e);
  }

  lemma ProbeAsksOn(cfg: ClientConfig, c: Client, id: nat, e: Env)
    requires id in c.transfers
    ensures AsksOn(c, TailProbe(cfg, c, id, TickGrant(c, id), e), id)
  {
    var t, granted := c.transfers[id], TickGrant(c, id);
    if ProbeDue(cfg, t, granted, e) {
      ClaimAsksOn(Put(c, id, t.(tailProbed := true)), id, [LastPacket(t.asm.value, granted, PayloadOf(c))], e);
    }
  }

  lemma FailAsksOn(c: Client, id: nat, e: Env)
    requires id in c.transfers
    ensures AsksOn(c, GiveUp(c, id, e), id)
  {
    var c1 := OutOfTries(c, id);
    TriedUnasked(c, id, e.now);
    FinishIsOver(c1, id, false, e);
    OverUnasked(c1, id, false, e.behind);
    PumpUnasked(Over(c1, id, false, e.behind), e);
  }

  lemma RerequestAsksOn(c: Client, id: nat, granted: nat, e: Env)
    requires id in c.transfers && c.transfers[id].asm.Some?
    ensures AsksOn(c, Rerequest(c, id, granted, e), id)
  {
    var t := c.transfers[id];
    var grant := if granted > t.initialGrant then [Grant(id, granted, 0)] else [];
    SendUnasked(c, grant);
    ClaimAsksOn(Send(c, grant), id, RecoverGaps(t.asm.value, granted, PayloadOf(c)), e);
  }

  lemma RecoverAsksOn(cfg: ClientConfig, c: Client, id: nat, granted: nat, e: Env)
    requires id in c.transfers
    ensures AsksOn(c, Recover(cfg, c, id, granted, e), id)
  {
    TriedUnasked(c, id, e.now);
    if c.transfers[id].recoveries + 1 > cfg.maxRecoveries {
      FailAsksOn(c, id, e);
    } else if c.transfers[id].asm.Some? {
      RerequestAsksOn(Attempted(c, id, e.now), id, granted, e);
    }
  }

  // ---- The three callers of claim ----

  predicate DetectsEarly(cfg: ClientConfig, c: Client, id: nat)
    requires id in c.transfers
  {
    cfg.earlyResend && c.transfers[id].asm.Some? && !c.negotiated && SuspectLimit(cfg, c, id) > 0
  }

  /** The gaps below the suspect limit that have waited out the reordering window. */
  ghost function LostGaps(cfg: ClientConfig, c: Client, id: nat, e: Env): seq<Range>
    requires id in c.transfers && c.transfers[id].asm.Some?
  {
    R.Lost(c.transfers[id].repair.suspects, A.Missing(c.transfers[id].asm.value, SuspectLimit(cfg, c, id)), e.now, e.window)
  }

  /** The state early detection claims in: the suspects are noted. */
  ghost function Suspected(cfg: ClientConfig, c: Client, id: nat, e: Env): (c': Client)
    requires id in c.transfers && c.transfers[id].asm.Some?
    ensures id in c'.transfers && c'.transfers[id].asm == c.transfers[id].asm
  {
    var t := c.transfers[id];
    Put(c, id, t.(lastDetect := Some(e.now),
                  repair := t.repair.(suspects := R.Suspects(t.repair.suspects, A.Missing(t.asm.value, SuspectLimit(cfg, c, id)), e.now))))
  }

  lemma PutTwice(c: Client, id: nat, t: Transfer, t': Transfer)
    ensures Put(Put(c, id, t), id, t') == Put(c, id, t')
  {
    assert c.transfers[id := t][id := t'] == c.transfers[id := t'];
  }

  lemma DetectIsClaim(cfg: ClientConfig, c: Client, id: nat, e: Env)
    requires id in c.transfers && DetectsEarly(cfg, c, id)
    ensures DetectLoss(cfg, c, id, e) == ClaimGaps(Suspected(cfg, c, id, e), id, LostGaps(cfg, c, id, e), e)
  {
    var t := c.transfers[id].(lastDetect := Some(e.now));
    var t2 := Suspected(cfg, c, id, e).transfers[id];
    PutTwice(c, id, t, t2);
    assert SuspectLimit(cfg, Put(c, id, t), id) == SuspectLimit(cfg, c, id);
  }

  lemma SuspectedSpaced(cfg: ClientConfig, c: Client, id: nat, e: Env)
    requires Inv(cfg, c) && id in c.transfers && ClaimsInv(c, e.now) && c.transfers[id].asm.Some?
    ensures Inv(cfg, Suspected(cfg, c, id, e)) && ClaimsInv(Suspected(cfg, c, id, e), e.now)
  {
    var t := Suspected(cfg, c, id, e).transfers[id];
    TouchKeeps(cfg, c, id, t);
    PutUnasked(c, id, t);
    UnaskedKeeps(c, Put(c, id, t), e.now, e.now);
  }

  lemma DetectAwaits(cfg: ClientConfig, c: Client, id: nat, e: Env, x: int)
    requires Inv(cfg, c) && id in c.transfers && ClaimsInv(c, e.now) && DetectsEarly(cfg, c, id) && x in Covered(LostGaps(cfg, c, id, e))
    ensures Awaited(DetectLoss(cfg, c, id, e), id, x, e.now)
  {
    LiveFacts(cfg, c, id);
    DetectGapsFit(cfg, c, id, e);
    DetectIsClaim(cfg, c, id, e);
    SuspectedSpaced(cfg, c, id, e);
    GapsAwaited(cfg, Suspected(cfg, c, id, e), id, LostGaps(cfg, c, id, e), e, x);
  }

  lemma ProbedSpaced(cfg: ClientConfig, c: Client, id: nat, now: real)
    requires Inv(cfg, c) && id in c.transfers && ClaimsInv(c, now)
    ensures var c' := Put(c, id, c.transfers[id].(tailProbed := true)); Inv(cfg, c') && ClaimsInv(c', now)
  {
    var t := c.transfers[id].(tailProbed := true);
    TouchKeeps(cfg, c, id, t);
    PutUnasked(c, id, t);
    UnaskedKeeps(c, Put(c, id, t), now, now);
  }

  lemma ProbeAwaits(cfg: ClientConfig, c: Client, id: nat, e: Env, x: int)
    requires Inv(cfg, c) && id in c.transfers && ClaimsInv(c, e.now) && ProbeDue(cfg, c.transfers[id], TickGrant(c, id), e)
    requires var m, granted := c.transfers[id].asm.value, TickGrant(c, id);
      LastPacket(m, granted, PayloadOf(c)).start <= x < granted
    ensures Awaited(TailProbe(cfg, c, id, TickGrant(c, id), e), id, x, e.now)
  {
    var t, granted := c.transfers[id], TickGrant(c, id);
    var t', gap := t.(tailProbed := true), LastPacket(t.asm.value, granted, PayloadOf(c));
    GrantWithinSize(cfg, c, id);
    ProbedSpaced(cfg, c, id, e.now);
    ProbeGapFits(t.asm.value, granted, PayloadOf(c));
    assert x in Covered([gap]);
    GapsAwaited(cfg, Put(c, id, t'), id, [gap], e, x);
  }

  lemma RerequestAwaits(cfg: ClientConfig, c: Client, id: nat, e: Env, x: int)
    requires Inv(cfg, c) && id in c.transfers && c.transfers[id].asm.Some? && ClaimsInv(c, e.now)
    requires x in Covered(RecoverGaps(c.transfers[id].asm.value, TickGrant(c, id), PayloadOf(c)))
    ensures Awaited(Rerequest(c, id, TickGrant(c, id), e), id, x, e.now)
  {
    var t, granted := c.transfers[id], TickGrant(c, id);
    var grant := if granted > t.initialGrant then [Grant(id, granted, 0)] else [];
    GrantWithinSize(cfg, c, id);
    LiveFacts(cfg, c, id);
    assert ViewOk(cfg, id, ViewOf(c, id));
    OneGrant(id, granted);
    LowSendKeeps(cfg, c, grant, id);
    SendUnasked(c, grant);
    UnaskedKeeps(c, Send(c, grant), e.now, e.now);
    RecoverGapsFit(t.asm.value, granted, PayloadOf(c));
    GapsAwaited(cfg, Send(c, grant), id, RecoverGaps(t.asm.value, granted, PayloadOf(c)), e, x);
  }

  lemma RecoverAwaits(cfg: ClientConfig, c: Client, id: nat, e: Env, x: int)
    requires Inv(cfg, c) && id in c.transfers && c.transfers[id].asm.Some? && ClaimsInv(c, e.now)
    requires c.transfers[id].recoveries < cfg.maxRecoveries
    requires x in Covered(RecoverGaps(c.transfers[id].asm.value, TickGrant(c, id), PayloadOf(c)))
    ensures Awaited(Recover(cfg, c, id, TickGrant(c, id), e), id, x, e.now)
  {
    var c1 := Attempted(c, id, e.now);
    TriedUnasked(c, id, e.now);
    UnaskedKeeps(c, c1, e.now, e.now);
    AttemptKeeps(cfg, c, id, e.now);
    RerequestAwaits(cfg, c1, id, e, x);
  }

  // ---- Every run ----

  ghost predicate Probes(cfg: ClientConfig, c: Client, id: nat, e: Env, x: int)
    requires id in c.transfers
  {
    var t, granted := c.transfers[id], TickGrant(c, id);
    ProbeDue(cfg, t, granted, e) && LastPacket(t.asm.value, granted, PayloadOf(c)).start <= x < granted
  }

  ghost predicate Recovers(cfg: ClientConfig, c: Client, id: nat, x: int)
    requires id in c.transfers && c.transfers[id].asm.Some?
  {
    var t := c.transfers[id];
    t.recoveries < cfg.maxRecoveries && x in Covered(RecoverGaps(t.asm.value, TickGrant(c, id), PayloadOf(c)))
  }

  ghost predicate LaterClaims(cfg: ClientConfig, c: Client, id: nat, e: Env, x: int)
    requires id in c.transfers && c.transfers[id].asm.Some?
  {
    && !Waiting(c.transfers[id], TickGrant(c, id))
    && (Probes(cfg, c, id, e, x) || (Stalled(c.transfers[id], e) && Recovers(cfg, c, id, x)))
  }

  /** The byte is in a range that a tick at this time claims: lost, the tail's last packet, or for recovery. */
  ghost predicate Claims(cfg: ClientConfig, c: Client, id: nat, e: Env, x: int)
    requires id in c.transfers && c.transfers[id].asm.Some?
  {
    (DetectsEarly(cfg, c, id) && x in Covered(LostGaps(cfg, c, id, e))) || LaterClaims(cfg, c, id, e, x)
  }

  /** Early detection leaves alone what the rest of the tick looks at. */
  lemma DetectTouches(cfg: ClientConfig, c: Client, id: nat, e: Env)
    requires Inv(cfg, c) && id in c.transfers
    ensures var c' := DetectLoss(cfg, c, id, e); var t, t' := c.transfers[id], c'.transfers[id];
      && t' == t.(repair := t'.repair, lastDetect := t'.lastDetect)
      && TickGrant(c', id) == TickGrant(c, id) && PayloadOf(c') == PayloadOf(c)
  {
    DetectLossKeeps(cfg, c, id, e);
  }

  lemma StillClaims(cfg: ClientConfig, c: Client, c': Client, id: nat, e: Env, x: int)
    requires id in c.transfers && c.transfers[id].asm.Some? && id in c'.transfers && LaterClaims(cfg, c, id, e, x)
    requires var t, t' := c.transfers[id], c'.transfers[id]; t' == t.(repair := t'.repair, lastDetect := t'.lastDetect)
    requires TickGrant(c', id) == TickGrant(c, id) && PayloadOf(c') == PayloadOf(c)
    ensures LaterClaims(cfg, c', id, e, x)
  {
  }

  lemma ProbeTouches(cfg: ClientConfig, c: Client, id: nat, e: Env)
    requires id in c.transfers
    ensures var c' := TailProbe(cfg, c, id, TickGrant(c, id), e); var t, t' := c.transfers[id], c'.transfers[id];
      t' == t.(repair := t'.repair, tailProbed := t'.tailProbed) && PayloadOf(c') == PayloadOf(c)
  {
  }

  lemma TickAwaits(cfg: ClientConfig, c: Client, id: nat, e: Env, x: int)
    requires Inv(cfg, c) && id in c.transfers && c.transfers[id].asm.Some? && ClaimsInv(c, e.now) && Claims(cfg, c, id, e, x)
    ensures Awaited(TickOne(cfg, c, id, e), id, x, e.now)
  {
    var c1 := DetectLoss(cfg, c, id, e);
    DetectLossKeeps(cfg, c, id, e);
    DetectSpaced(cfg, c, id, e);
    DetectTouches(cfg, c, id, e);
    if LaterClaims(cfg, c, id, e, x) {
      StillClaims(cfg, c, c1, id, e, x);
    } else {
      DetectAwaits(cfg, c, id, e, x);
    }
    LaterAwaits(cfg, c1, id, e, x);
  }

  /** The rest of the tick. */
  lemma LaterAwaits(cfg: ClientConfig, c: Client, id: nat, e: Env, x: int)
    requires Inv(cfg, c) && id in c.transfers && c.transfers[id].asm.Some? && ClaimsInv(c, e.now)
    requires Awaited(c, id, x, e.now) || LaterClaims(cfg, c, id, e, x)
    ensures Awaited(AfterDetect(cfg, c, id, e), id, x, e.now)
  {
    var t, granted := c.transfers[id], TickGrant(c, id);
    if Waiting(t, granted) {
      AwaitedStays(c, Put(c, id, t.(lastProgress := e.now)), id, x, e.now);
    } else {
      var c2 := TailProbe(cfg, c, id, granted, e);
      TailProbeKeeps(cfg, c, id, e);
      ProbeSpaced(cfg, c, id, e);
      ProbeTouches(cfg, c, id, e);
      ProbeAsksOn(cfg, c, id, e);
      if Awaited(c, id, x, e.now) {
        AwaitedStays(c, c2, id, x, e.now);
      } else if Probes(cfg, c, id, e, x) {
        ProbeAwaits(cfg, c, id, e, x);
      }
      if Stalled(c2.transfers[id], e) { LastAwaits(cfg, c2, id, e, x); }
    }
  }

  lemma LastAwaits(cfg: ClientConfig, c: Client, id: nat, e: Env, x: int)
    requires Inv(cfg, c) && id in c.transfers && c.transfers[id].asm.Some? && ClaimsInv(c, e.now)
    requires Awaited(c, id, x, e.now) || Recovers(cfg, c, id, x)
    ensures Awaited(Recover(cfg, c, id, TickGrant(c, id), e), id, x, e.now)
  {
    if Awaited(c, id, x, e.now) {
      RecoverAsksOn(cfg, c, id, TickGrant(c, id), e);
      AwaitedStays(c, Recover(cfg, c, id, TickGrant(c, id), e), id, x, e.now);
    } else {
      RecoverAwaits(cfg, c, id, e, x);
    }
  }

  lemma {:induction false} LastTick(steps: seq<CH.Step>, st: CH.Step, start: real)
    requires OnTime(steps + [st], start)
    ensures OnTime(steps, start) && EndTime(steps, start) <= TimeOf(st)
  {
    if steps != [] {
      assert (steps + [st])[1..] == steps[1..] + [st];
      LastTick(steps[1..], st, TimeOf(steps[0]));
    }
  }

  lemma RunClaims(cfg: ClientConfig, budget: nat, minIncrement: int, steps: seq<CH.Step>, c: Client, start: real, st: CH.Step)
    requires CH.IsRun(cfg, budget, minIncrement, steps, c) && OnTime(steps + [st], start)
    ensures Inv(cfg, c) && ClaimsInv(c, TimeOf(st))
  {
    LastTick(steps, st, start);
    CH.NewKeeps(cfg, budget, minIncrement);
    CH.RunKeeps(cfg, NewClient(cfg, budget, minIncrement), steps, c);
    RunSpaced(cfg, NewClient(cfg, budget, minIncrement), steps, c, start);
    UnaskedKeeps(c, c, EndTime(steps, start), TimeOf(st));
  }

  /**
   In every run with a clock that does not go back, a tick leaves every byte of
   every range it claims awaited.
   */
  lemma NothingForgotten(cfg: ClientConfig, budget: nat, minIncrement: int, steps: seq<CH.Step>, c: Client, start: real, id: nat, e: Env)
    requires CH.IsRun(cfg, budget, minIncrement, steps, c) && OnTime(steps + [CH.Ticked(id, e)], start)
    requires id in c.transfers && c.transfers[id].asm.Some?
    ensures forall x :: Claims(cfg, c, id, e, x) ==> Awaited(TickOne(cfg, c, id, e), id, x, e.now)
  {
    RunClaims(cfg, budget, minIncrement, steps, c, start, CH.Ticked(id, e));
    forall x | Claims(cfg, c, id, e, x) ensures Awaited(TickOne(cfg, c, id, e), id, x, e.now) {
      TickAwaits(cfg, c, id, e, x);
    }
  }

  lemma EndsClaimed(cfg: ClientConfig, c: Client, id: nat, e: Env)
    requires Inv(cfg, c) && id in c.transfers && c.transfers[id].asm.Some? && !Waiting(c.transfers[id], TickGrant(c, id))
    requires Stalled(c.transfers[id], e) && c.transfers[id].recoveries < cfg.maxRecoveries
    ensures var m, granted := c.transfers[id].asm.value, TickGrant(c, id);
      && (A.Contiguous(m) < granted ==> Claims(cfg, c, id, e, A.Contiguous(m)))
      && (A.Frontier(m) < granted ==> Claims(cfg, c, id, e, granted - 1))
  {
    GrantWithinSize(cfg, c, id);
    RecoveryReachesEnds(c.transfers[id].asm.value, TickGrant(c, id), PayloadOf(c));
  }

  /**
   In every such run a stall with tries left ends with the byte that holds the
   prefix up awaited, and the last byte granted if the tail is out.
   */
  lemma StallIsAnswered(cfg: ClientConfig, budget: nat, minIncrement: int, steps: seq<CH.Step>, c: Client, start: real, id: nat, e: Env)
    requires CH.IsRun(cfg, budget, minIncrement, steps, c) && OnTime(steps + [CH.Ticked(id, e)], start)
    requires id in c.transfers && c.transfers[id].asm.Some? && !Waiting(c.transfers[id], TickGrant(c, id))
    requires Stalled(c.transfers[id], e) && c.transfers[id].recoveries < cfg.maxRecoveries
    ensures var m, granted, c' := c.transfers[id].asm.value, TickGrant(c, id), TickOne(cfg, c, id, e);
      && (A.Contiguous(m) < granted ==> Awaited(c', id, A.Contiguous(m), e.now))
      && (A.Frontier(m) < granted ==> Awaited(c', id, granted - 1, e.now))
  {
    RunClaims(cfg, budget, minIncrement, steps, c, start, CH.Ticked(id, e));
    EndsClaimed(cfg, c, id, e);
    NothingForgotten(cfg, budget, minIncrement, steps, c, start, id, e);
  }

  /** The tail has been quiet for the probe's time, and was not probed since it last moved. */
  predicate TailQuiet(cfg: ClientConfig, c: Client, id: nat, e: Env)
    requires id in c.transfers
  {
    var t := c.transfers[id];
    && cfg.earlyResend && t.asm.Some? && CQ.Outstanding(c, id) && A.Frontier(t.asm.value) < CQ.GrantOf(c, id)
    && !t.tailProbed && e.probeAfter.Some? && e.now - t.lastProgress >= e.probeAfter.value
  }

  /** In every such run a tick that finds a quiet tail leaves the last byte granted awaited, and does not probe again until something arrives. */
  lemma QuietTailIsProbed(cfg: ClientConfig, budget: nat, minIncrement: int, steps: seq<CH.Step>, c: Client, start: real, id: nat, e: Env, c': Client)
    requires CH.IsRun(cfg, budget, minIncrement, steps, c) && OnTime(steps + [CH.Ticked(id, e)], start)
    requires CH.Moves(cfg, c, CH.Ticked(id, e), c') && TailQuiet(cfg, c, id, e)
    ensures Awaited(c', id, CQ.GrantOf(c, id) - 1, e.now)
    ensures id in c'.transfers ==> c'.transfers[id].tailProbed
  {
    ProbeClaims(cfg, c, id, e);
    NothingForgotten(cfg, budget, minIncrement, steps, c, start, id, e);
    ProbedOnce(cfg, c, id, e);
  }

  lemma ProbeClaims(cfg: ClientConfig, c: Client, id: nat, e: Env)
    requires id in c.transfers && TailQuiet(cfg, c, id, e)
    ensures Claims(cfg, c, id, e, CQ.GrantOf(c, id) - 1)
  {
    CQ.TickGrantIs(c, id);
    assert PayloadOf(c) >= 1;
  }

  lemma ProbedOnce(cfg: ClientConfig, c: Client, id: nat, e: Env)
    requires id in c.transfers && TailQuiet(cfg, c, id, e)
    ensures id in TickOne(cfg, c, id, e).transfers ==> TickOne(cfg, c, id, e).transfers[id].tailProbed
  {
    var c1 := DetectLoss(cfg, c, id, e);
    var c2 := TailProbe(cfg, c1, id, TickGrant(c1, id), e);
    CQ.DetectOnlyRepairs(cfg, c, id, e);
    CQ.TickGrantIs(c, id);
    CQ.TickGrantIs(c1, id);
    if Stalled(c2.transfers[id], e) { RecoverKeepsProbed(cfg, c2, id, e); }
  }

  lemma RecoverKeepsProbed(cfg: ClientConfig, c: Client, id: nat, e: Env)
    requires id in c.transfers && c.transfers[id].tailProbed
    ensures var c' := Recover(cfg, c, id, TickGrant(c, id), e); id in c'.transfers ==> c'.transfers[id].tailProbed
  {
    if c.transfers[id].recoveries + 1 > cfg.maxRecoveries { GiveUpOutcome(c, id, e); } else { CQ.RecoverCounts(cfg, c, id, e); }
  }
}
