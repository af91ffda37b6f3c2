/**
 What a tick asks for and no more: each byte in each RESEND it writes was lost by
 early detection's own rule, is in the quiet tail's last packet, or is for a stall's
 recovery.
 */
module ClientRestraints {
  import opened Intervals
  import opened Packets
  import opened Clients
  import opened ClientRuns
  import opened ClientSteps
  import opened ClientRepairs
  import opened ClientAsks
  import opened ClientAwaits
  import CH = ClientHistory
  import A = Reassemblies
  import R = Repairs
  import S = Scheduling

  lemma {:induction false} InCoveredRange(rs: seq<Range>, j: nat, x: int)
    requires j < |rs| && rs[j].start <= x < rs[j].end
    ensures x in Covered(rs)
  {
    if j > 0 { InCoveredRange(rs[1..], j - 1, x); }
  }

  /** All bytes of a RESEND of this transfer are among these. */
  ghost predicate OnlyFor(p: Packet, id: nat, gaps: seq<Range>) {
    p.Resend? && p.rpc == id && forall x :: p.start <= x < p.end ==> x in Covered(gaps)
  }

  lemma ClaimWritesOnly(cfg: ClientConfig, c: Client, id: nat, gaps: seq<Range>, e: Env, p: Packet)
    requires Inv(cfg, c) && id in c.transfers && c.transfers[id].asm.Some? && Claimable(c.transfers[id].asm.value, gaps)
    requires Wrote(c, ClaimGaps(c, id, gaps, e), p)
    ensures OnlyFor(p, id, gaps)
  {
    var t, call := c.transfers[id], CallOf(c.transfers[id], gaps, e);
    var out := R.SentBy(t.repair, call).out;
    LiveFacts(cfg, c, id);
    WhatClaimSends(c, id, gaps, e);
    R.ClaimEffect(t.repair, call.lacking, gaps, e.now, e.delay, t.asm.value.size);
    assert (c.sent + Resends(id, out))[|c.sent|..] == Resends(id, out);
    var j := ResendsAre(id, out, p, 0, t.asm.value.size);
    forall x | p.start <= x < p.end ensures x in Covered(gaps) { InCoveredRange(out, j, x); }
  }

  lemma DetectWritesOnly(cfg: ClientConfig, c: Client, id: nat, e: Env, p: Packet)
    requires Inv(cfg, c) && id in c.transfers && c.transfers[id].asm.Some? && Wrote(c, DetectLoss(cfg, c, id, e), p)
    ensures DetectsEarly(cfg, c, id) && OnlyFor(p, id, LostGaps(cfg, c, id, e))
  {
    LiveFacts(cfg, c, id);
    if DetectsEarly(cfg, c, id) {
      var c1 := Suspected(cfg, c, id, e);
      DetectIsClaim(cfg, c, id, e);
      DetectGapsFit(cfg, c, id, e);
      TouchKeeps(cfg, c, id, c1.transfers[id]);
      ClaimWritesOnly(cfg, c1, id, LostGaps(cfg, c, id, e), e, p);
    } else {
      DetectsNothing(cfg, c, id, e);
    }
  }

  lemma DetectsNothing(cfg: ClientConfig, c: Client, id: nat, e: Env)
    requires id in c.transfers && c.transfers[id].asm.Some? && !DetectsEarly(cfg, c, id)
    ensures DetectLoss(cfg, c, id, e).sent == c.sent
  {
    assert SuspectLimit(cfg, Put(c, id, c.transfers[id].(lastDetect := Some(e.now))), id) == SuspectLimit(cfg, c, id);
  }

  lemma ProbeWritesOnly(cfg: ClientConfig, c: Client, id: nat, e: Env, p: Packet)
    requires Inv(cfg, c) && id in c.transfers && Wrote(c, TailProbe(cfg, c, id, TickGrant(c, id), e), p)
    ensures ProbeDue(cfg, c.transfers[id], TickGrant(c, id), e)
    ensures OnlyFor(p, id, [LastPacket(c.transfers[id].asm.value, TickGrant(c, id), PayloadOf(c))])
  {
    var t, granted := c.transfers[id], TickGrant(c, id);
    if ProbeDue(cfg, t, granted, e) {
      var t' := t.(tailProbed := true);
      GrantWithinSize(cfg, c, id);
      TouchKeeps(cfg, c, id, t');
      ProbeGapFits(t.asm.value, granted, PayloadOf(c));
      ClaimWritesOnly(cfg, Put(c, id, t'), id, [LastPacket(t.asm.value, granted, PayloadOf(c))], e, p);
    }
  }

  lemma WroteSplit(a: Client, b: Client, c: Client, p: Packet)
    requires Appends(a, b, []) && Appends(b, c, []) && Wrote(a, c, p)
    ensures Wrote(a, b, p) || Wrote(b, c, p)
  {
    assert c.sent[|a.sent|..] == b.sent[|a.sent|..] + c.sent[|b.sent|..];
  }

  lemma FailWrites(c: Client, id: nat, e: Env, p: Packet)
    requires id in c.transfers && Wrote(c, GiveUp(c, id, e), p)
    ensures p.Grant?
  {
    var c1 := OutOfTries(c, id);
    FinishIsOver(c1, id, false, e);
    var c2 := Over(c1, id, false, e.behind);
    var ds := S.Decisions(c2.sched.(budget := e.budget), Reserved(c2.transfers));
    GrantsAreGrants(ds);
    assert (c.sent + GrantPackets(ds))[|c.sent|..] == GrantPackets(ds);
  }

  lemma GrantAgainKeeps(cfg: ClientConfig, c: Client, id: nat)
    requires Inv(cfg, c) && id in c.transfers && c.transfers[id].asm.Some?
    ensures var t, granted := c.transfers[id], TickGrant(c, id);
      && A.AsmOk(t.asm.value) && granted <= t.asm.value.size
      && Inv(cfg, Send(c, if granted > t.initialGrant then [Grant(id, granted, 0)] else []))
  {
    GrantWithinSize(cfg, c, id);
    assert ViewOk(cfg, id, ViewOf(c, id));
    OneGrant(id, TickGrant(c, id));
    LowSendKeeps(cfg, c, if TickGrant(c, id) > c.transfers[id].initialGrant then [Grant(id, TickGrant(c, id), 0)] else [], id);
  }

  lemma RerequestWritesOnly(cfg: ClientConfig, c: Client, id: nat, e: Env, p: Packet)
    requires Inv(cfg, c) && id in c.transfers && c.transfers[id].asm.Some?
    requires Wrote(c, Rerequest(c, id, TickGrant(c, id), e), p) && p.Resend?
    ensures OnlyFor(p, id, RecoverGaps(c.transfers[id].asm.value, TickGrant(c, id), PayloadOf(c)))
  {
    var t, granted := c.transfers[id], TickGrant(c, id);
    var grant := if granted > t.initialGrant then [Grant(id, granted, 0)] else [];
    var c1 := Send(c, grant);
    GrantAgainKeeps(cfg, c, id);
    RecoverGapsFit(t.asm.value, granted, PayloadOf(c));
    assert c1.sent[|c.sent|..] == grant;
    ClaimAfterSend(cfg, c, c1, id, RecoverGaps(t.asm.value, granted, PayloadOf(c)), e, p);
  }

  lemma ClaimAfterSend(cfg: ClientConfig, c: Client, c1: Client, id: nat, gaps: seq<Range>, e: Env, p: Packet)
    requires Inv(cfg, c1) && id in c1.transfers && c1.transfers[id].asm.Some? && Claimable(c1.transfers[id].asm.value, gaps)
    requires Appends(c, c1, []) && !Wrote(c, c1, p) && Wrote(c, ClaimGaps(c1, id, gaps, e), p)
    ensures OnlyFor(p, id, gaps)
  {
    WhatClaimWrites(c1, id, gaps, e);
    WroteSplit(c, c1, ClaimGaps(c1, id, gaps, e), p);
    ClaimWritesOnly(cfg, c1, id, gaps, e, p);
  }

  lemma RecoverWritesOnly(cfg: ClientConfig, c: Client, id: nat, e: Env, p: Packet)
    requires Inv(cfg, c) && id in c.transfers && Wrote(c, Recover(cfg, c, id, TickGrant(c, id), e), p) && p.Resend?
    ensures c.transfers[id].recoveries < cfg.maxRecoveries && c.transfers[id].asm.Some?
    ensures OnlyFor(p, id, RecoverGaps(c.transfers[id].asm.value, TickGrant(c, id), PayloadOf(c)))
  {
    if c.transfers[id].recoveries + 1 > cfg.maxRecoveries {
      FailWrites(c, id, e, p);
    } else {
      AttemptWritesNone(c, id, e.now, p);
      if c.transfers[id].asm.Some? { SecondWritesOnly(cfg, c, id, e, p); }
    }
  }

  lemma AttemptWritesNone(c: Client, id: nat, now: real, p: Packet)
    requires id in c.transfers && p.Resend?
    ensures !Wrote(c, Attempted(c, id, now), p)
  {
    WhatAttemptWrites(c, id, now);
    assert (c.sent + ReqAgain(c.transfers[id], id))[|c.sent|..] == ReqAgain(c.transfers[id], id);
  }

  lemma SecondWritesOnly(cfg: ClientConfig, c: Client, id: nat, e: Env, p: Packet)
    requires Inv(cfg, c) && id in c.transfers && c.transfers[id].recoveries < cfg.maxRecoveries && c.transfers[id].asm.Some? && p.Resend?
    requires Wrote(c, Rerequest(Attempted(c, id, e.now), id, TickGrant(c, id), e), p)
    ensures OnlyFor(p, id, RecoverGaps(c.transfers[id].asm.value, TickGrant(c, id), PayloadOf(c)))
  {
    var c1 := Attempted(c, id, e.now);
    AttemptWritesNone(c, id, e.now, p);
    AttemptFacts(cfg, c, id, e.now);
    AfterAttempt(cfg, c, c1, id, e, p);
  }

  lemma AfterAttempt(cfg: ClientConfig, c: Client, c1: Client, id: nat, e: Env, p: Packet)
    requires Inv(cfg, c1) && id in c1.transfers && c1.transfers[id].asm.Some? && p.Resend?
    requires Appends(c, c1, []) && !Wrote(c, c1, p) && Wrote(c, Rerequest(c1, id, TickGrant(c1, id), e), p)
    ensures OnlyFor(p, id, RecoverGaps(c1.transfers[id].asm.value, TickGrant(c1, id), PayloadOf(c1)))
  {
    WhatRerequestWrites(c1, id, TickGrant(c1, id), e);
    WroteSplit(c, c1, Rerequest(c1, id, TickGrant(c1, id), e), p);
    RerequestWritesOnly(cfg, c1, id, e, p);
  }

  lemma AttemptFacts(cfg: ClientConfig, c: Client, id: nat, now: real)
    requires Inv(cfg, c) && id in c.transfers && c.transfers[id].recoveries < cfg.maxRecoveries
    ensures var c1 := Attempted(c, id, now);
      && Inv(cfg, c1) && Appends(c, c1, []) && c1.transfers[id].asm == c.transfers[id].asm
      && TickGrant(c1, id) == TickGrant(c, id) && PayloadOf(c1) == PayloadOf(c)
  {
    WhatAttemptWrites(c, id, now);
    AttemptKeeps(cfg, c, id, now);
  }

  // ---- The tick ----

  /** The tail has been quiet and the byte is in its last packet, or the transfer has stalled with tries left and recovery wants the byte. */
  ghost predicate LaterReason(cfg: ClientConfig, c: Client, id: nat, e: Env, x: int)
    requires id in c.transfers && c.transfers[id].asm.Some?
  {
    var t, granted := c.transfers[id], GrantOf(c, id);
    || (TailQuiet(cfg, c, id, e) && A.Frontier(t.asm.value) <= x < granted <= x + PayloadOf(c))
    || (Outstanding(c, id) && e.now - t.lastProgress >= e.timeout && t.recoveries < cfg.maxRecoveries
        && x in Covered(RecoverGaps(t.asm.value, granted, PayloadOf(c))))
  }

  /** A tick at this time has a reason to ask for the byte. */
  ghost predicate HasReason(cfg: ClientConfig, c: Client, id: nat, e: Env, x: int)
    requires id in c.transfers && c.transfers[id].asm.Some?
  {
    (DetectsEarly(cfg, c, id) && x in Covered(LostGaps(cfg, c, id, e))) || LaterReason(cfg, c, id, e, x)
  }

  /** What follows early detection, with the probe's state named. */
  lemma AfterDetectIs(cfg: ClientConfig, c: Client, id: nat, e: Env)
    requires id in c.transfers && Outstanding(c, id)
    ensures var c1 := TailProbe(cfg, c, id, TickGrant(c, id), e);
      && TickGrant(c1, id) == TickGrant(c, id)
      && AfterDetect(cfg, c, id, e) == if e.now - c.transfers[id].lastProgress >= e.timeout then Recover(cfg, c1, id, TickGrant(c1, id), e) else c1
  {
    TickGrantIs(c, id);
    ProbeOnlyRepairs(cfg, c, id, TickGrant(c, id), e);
  }

  lemma WaitingIs(cfg: ClientConfig, c: Client, id: nat, e: Env)
    requires id in c.transfers && !Outstanding(c, id)
    ensures AfterDetect(cfg, c, id, e).sent == c.sent
  {
    TickGrantIs(c, id);
  }

  lemma ProbeReason(cfg: ClientConfig, c: Client, id: nat, e: Env, p: Packet, x: int)
    requires Inv(cfg, c) && id in c.transfers && Outstanding(c, id) && Wrote(c, TailProbe(cfg, c, id, TickGrant(c, id), e), p)
    requires p.Resend? && p.start <= x < p.end
    ensures c.transfers[id].asm.Some? && p.rpc == id && LaterReason(cfg, c, id, e, x)
  {
    TickGrantIs(c, id);
    ProbeWritesOnly(cfg, c, id, e, p);
    OneRange(LastPacket(c.transfers[id].asm.value, TickGrant(c, id), PayloadOf(c)), x);
  }

  lemma StallReason(cfg: ClientConfig, c: Client, id: nat, e: Env, p: Packet, x: int)
    requires Inv(cfg, c) && id in c.transfers && Outstanding(c, id) && e.now - c.transfers[id].lastProgress >= e.timeout
    requires var c1 := TailProbe(cfg, c, id, TickGrant(c, id), e); Wrote(c1, Recover(cfg, c1, id, TickGrant(c1, id), e), p)
    requires p.Resend? && p.start <= x < p.end
    ensures c.transfers[id].asm.Some? && p.rpc == id && LaterReason(cfg, c, id, e, x)
  {
    var c1 := TailProbe(cfg, c, id, TickGrant(c, id), e);
    TickGrantIs(c, id);
    TailProbeKeeps(cfg, c, id, e);
    ProbeOnlyRepairs(cfg, c, id, TickGrant(c, id), e);
    ProbeTouches(cfg, c, id, e);
    RecoverWritesOnly(cfg, c1, id, e, p);
  }

  lemma StallWritesOnly(cfg: ClientConfig, c: Client, id: nat, e: Env, p: Packet, x: int)
    requires Inv(cfg, c) && id in c.transfers && Wrote(c, AfterDetect(cfg, c, id, e), p) && p.Resend? && p.start <= x < p.end
    ensures c.transfers[id].asm.Some? && p.rpc == id && LaterReason(cfg, c, id, e, x)
  {
    if !Outstanding(c, id) {
      WaitingIs(cfg, c, id, e);
      WroteNothing(c, AfterDetect(cfg, c, id, e), p);
    } else {
      var c1 := TailProbe(cfg, c, id, TickGrant(c, id), e);
      AfterDetectIs(cfg, c, id, e);
      ProbeOnlyRepairs(cfg, c, id, TickGrant(c, id), e);
      RecoverAppends(cfg, c1, id, e);
      if Wrote(c, c1, p) {
        ProbeReason(cfg, c, id, e, p, x);
      } else {
        WroteSplit(c, c1, AfterDetect(cfg, c, id, e), p);
        StallReason(cfg, c, id, e, p, x);
      }
    }
  }

  lemma OneRange(r: Range, x: int)
    ensures x in Covered([r]) <==> r.start <= x < r.end
  {
    assert [r][1..] == [] && Covered([]) == {};
    assert Covered([r]) == Offsets(r.start, r.end) + Covered([]);
  }

  lemma WroteNothing(a: Client, b: Client, p: Packet)
    requires b.sent == a.sent
    ensures !Wrote(a, b, p)
  {
  }

  lemma RecoverAppends(cfg: ClientConfig, c: Client, id: nat, e: Env)
    requires id in c.transfers
    ensures Appends(c, Recover(cfg, c, id, TickGrant(c, id), e), [])
  {
    if c.transfers[id].recoveries + 1 > cfg.maxRecoveries {
      FinishIsOver(OutOfTries(c, id), id, false, e);
    } else {
      RecoverWrites(cfg, c, id, e);
    }
  }

  /** In every state of a run a tick writes RESENDs only for its transfer, and only for bytes it has a reason to ask for. */
  lemma TickAsksOnlyWithReason(cfg: ClientConfig, c: Client, id: nat, e: Env, c': Client, p: Packet, x: int)
    requires Inv(cfg, c) && CH.Moves(cfg, c, CH.Ticked(id, e), c') && Wrote(c, c', p) && p.Resend? && p.start <= x < p.end
    ensures p.rpc == id && c.transfers[id].asm.Some? && HasReason(cfg, c, id, e, x)
  {
    TickWritesOnly(cfg, c, id, e, p, x);
  }

  lemma LaterAppends(cfg: ClientConfig, c: Client, id: nat, e: Env)
    requires id in c.transfers
    ensures Appends(c, AfterDetect(cfg, c, id, e), [])
  {
    if Outstanding(c, id) {
      AfterDetectIs(cfg, c, id, e);
      ProbeOnlyRepairs(cfg, c, id, TickGrant(c, id), e);
      RecoverAppends(cfg, TailProbe(cfg, c, id, TickGrant(c, id), e), id, e);
    } else {
      WaitingIs(cfg, c, id, e);
    }
  }

  lemma TickWritesOnly(cfg: ClientConfig, c: Client, id: nat, e: Env, p: Packet, x: int)
    requires Inv(cfg, c) && id in c.transfers && Wrote(c, TickOne(cfg, c, id, e), p) && p.Resend? && p.start <= x < p.end
    ensures p.rpc == id && c.transfers[id].asm.Some? && HasReason(cfg, c, id, e, x)
  {
    if c.transfers[id].asm.None? {
      StallWritesOnly(cfg, c, id, e, p, x);
    } else {
      var c1 := DetectLoss(cfg, c, id, e);
      DetectOnlyRepairs(cfg, c, id, e);
      LaterAppends(cfg, c1, id, e);
      WroteSplit(c, c1, AfterDetect(cfg, c1, id, e), p);
      if Wrote(c, c1, p) { DetectWritesOnly(cfg, c, id, e, p); } else { LaterThanDetect(cfg, c, id, e, p, x); }
    }
  }

  lemma LaterThanDetect(cfg: ClientConfig, c: Client, id: nat, e: Env, p: Packet, x: int)
    requires Inv(cfg, c) && id in c.transfers && c.transfers[id].asm.Some? && p.Resend? && p.start <= x < p.end
    requires var c1 := DetectLoss(cfg, c, id, e); Wrote(c1, AfterDetect(cfg, c1, id, e), p)
    ensures p.rpc == id && LaterReason(cfg, c, id, e, x)
  {
    var c1 := DetectLoss(cfg, c, id, e);
    DetectOnlyRepairs(cfg, c, id, e);
    DetectLossKeeps(cfg, c, id, e);
    DetectTouches(cfg, c, id, e);
    StallWritesOnly(cfg, c1, id, e, p, x);
    SameReason(cfg, c, c1, id, e, x);
  }

  lemma SameReason(cfg: ClientConfig, c: Client, c1: Client, id: nat, e: Env, x: int)
    requires id in c.transfers && c.transfers[id].asm.Some? && OnlyRepairs(c, c1, id) && c1.transfers[id].tailProbed == c.transfers[id].tailProbed
    requires PayloadOf(c1) == PayloadOf(c)
    ensures LaterReason(cfg, c1, id, e, x) <==> LaterReason(cfg, c, id, e, x)
  {
  }
}
