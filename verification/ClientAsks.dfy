/**
 What the client writes, told by its steps: a request's REQ, and what a stall
 repeats. Both the REQ and a GRANT can be lost, so recovery writes them again.
 */
module ClientAsks {
  import opened Intervals
  import opened Packets
  import opened Clients
  import opened ClientRuns
  import opened ClientSteps
  import opened ClientTruth
  import CH = ClientHistory
  import A = Reassemblies
  import R = Repairs
  import S = Scheduling

  /** Written by a step from a to b. */
  predicate Wrote(a: Client, b: Client, p: Packet) { |a.sent| <= |b.sent| && p in b.sent[|a.sent|..] }

  /** All that was written stays, and these packets came next. */
  predicate Appends(a: Client, b: Client, ps: seq<Packet>) { |a.sent| + |ps| <= |b.sent| && a.sent + ps == b.sent[..|a.sent| + |ps|] }

  lemma AppendsTwice(a: Client, b: Client, c: Client, ps: seq<Packet>, qs: seq<Packet>)
    requires Appends(a, b, ps) && Appends(b, c, qs)
    ensures Appends(a, c, ps)
    ensures forall p :: p in ps || p in qs ==> Wrote(a, c, p)
  {
    assert c.sent[..|b.sent|] == b.sent;
    forall p | p in ps || p in qs ensures Wrote(a, c, p) {
      if p in ps {
        var k :| 0 <= k < |ps| && ps[k] == p;
        assert (a.sent + ps)[|a.sent| + k] == p == c.sent[|a.sent| + k];
        assert c.sent[|a.sent|..][k] == p;
      } else {
        var k :| 0 <= k < |qs| && qs[k] == p;
        assert (b.sent + qs)[|b.sent| + k] == p == c.sent[|b.sent| + k];
        assert c.sent[|a.sent|..][|b.sent| - |a.sent| + k] == p;
      }
    }
  }

  // ---- A stall ----

  /** Something is outstanding, and the transfer's own reader is not what it waits for. */
  predicate Outstanding(c: Client, id: nat)
    requires id in c.transfers
  {
    var t := c.transfers[id];
    && (t.asm.None? || t.headers.None? || |t.asm.value.got| < GrantOf(c, id))
    && (t.stream.None? || !t.stream.value.paused)
  }

  /** The transfer's grant in force. */
  function GrantOf(c: Client, id: nat): nat {
    var e := S.Lookup(c.sched.rpcs, id);
    if e.Some? then e.value.granted else 0
  }

  lemma TickGrantIs(c: Client, id: nat)
    requires id in c.transfers
    ensures TickGrant(c, id) == if c.transfers[id].asm.Some? then GrantOf(c, id) else 0
    ensures Outstanding(c, id) <==> !Waiting(c.transfers[id], TickGrant(c, id))
  {
  }

  function ReqAgain(t: Transfer, id: nat): seq<Packet> { if t.asm.None? || t.headers.None? then [Req(id, t.initialGrant, t.assetId)] else [] }

  /** What recovery repeats: the REQ if the size or META is missing, and the grant in force if it was raised. */
  function Repeats(c: Client, id: nat): seq<Packet>
    requires id in c.transfers
  {
    var t := c.transfers[id];
    ReqAgain(t, id)
    + if t.asm.Some? && GrantOf(c, id) > t.initialGrant then [Grant(id, GrantOf(c, id), 0)] else []
  }

  lemma WhatClaimWrites(c: Client, id: nat, gaps: seq<Range>, e: Env)
    requires id in c.transfers && c.transfers[id].asm.Some?
    ensures Appends(c, ClaimGaps(c, id, gaps, e), [])
  {
  }

  lemma WhatAttemptWrites(c: Client, id: nat, now: real)
    requires id in c.transfers
    ensures var t := c.transfers[id];
      Attempted(c, id, now).sent == c.sent + ReqAgain(t, id)
  {
  }

  lemma WhatRerequestWrites(c: Client, id: nat, granted: nat, e: Env)
    requires id in c.transfers && c.transfers[id].asm.Some?
    ensures Appends(c, Rerequest(c, id, granted, e), if granted > c.transfers[id].initialGrant then [Grant(id, granted, 0)] else [])
  {
    var t := c.transfers[id];
    var c1 := Send(c, if granted > t.initialGrant then [Grant(id, granted, 0)] else []);
    WhatClaimWrites(c1, id, RecoverGaps(t.asm.value, granted, PayloadOf(c)), e);
  }

  /** What one attempt with tries left writes. */
  lemma RecoverWrites(cfg: ClientConfig, c: Client, id: nat, e: Env)
    requires id in c.transfers && c.transfers[id].recoveries < cfg.maxRecoveries
    ensures var c' := Recover(cfg, c, id, TickGrant(c, id), e);
      (forall p :: p in Repeats(c, id) ==> Wrote(c, c', p)) && Appends(c, c', [])
  {
    var c1, granted := Attempted(c, id, e.now), TickGrant(c, id);
    var req, grant := ReqAgain(c.transfers[id], id), if granted > c.transfers[id].initialGrant then [Grant(id, granted, 0)] else [];
    TickGrantIs(c, id);
    WhatAttemptWrites(c, id, e.now);
    assert Appends(c, c1, req);
    if c.transfers[id].asm.Some? {
      AttemptedOutcome(c, id, e.now);
      WhatRerequestWrites(c1, id, granted, e);
      BothWritten(c, c1, Rerequest(c1, id, granted, e), req, grant);
      assert Repeats(c, id) == req + grant;
    } else {
      BothWritten(c, c1, c1, req, []);
      assert Repeats(c, id) == req;
    }
  }

  lemma BothWritten(a: Client, b: Client, c: Client, ps: seq<Packet>, qs: seq<Packet>)
    requires Appends(a, b, ps) && Appends(b, c, qs)
    ensures Appends(a, c, []) && forall p :: p in ps + qs ==> Wrote(a, c, p)
  {
    AppendsTwice(a, b, c, ps, qs);
  }

  lemma RecoverCounts(cfg: ClientConfig, c: Client, id: nat, e: Env)
    requires id in c.transfers && c.transfers[id].recoveries < cfg.maxRecoveries
    ensures var c', t := Recover(cfg, c, id, TickGrant(c, id), e), c.transfers[id];
      id in c'.transfers && c'.transfers[id] == t.(recoveries := t.recoveries + 1, lastProgress := e.now, repair := c'.transfers[id].repair)
  {
    AttemptedOutcome(c, id, e.now);
    if c.transfers[id].asm.Some? { RerequestOutcome(Attempted(c, id, e.now), id, TickGrant(c, id), e); }
  }

  // ---- The tick around it ----

  /** Early detection and the tail probe write RESENDs only, and leave alone what a stall looks at. */
  ghost predicate OnlyRepairs(c: Client, c': Client, id: nat)
    requires id in c.transfers
  {
    && id in c'.transfers && c'.sched == c.sched && c'.events == c.events
    && c'.transfers[id] == c.transfers[id].(repair := c'.transfers[id].repair, lastDetect := c'.transfers[id].lastDetect, tailProbed := c'.transfers[id].tailProbed)
    && Appends(c, c', []) && forall p :: Wrote(c, c', p) ==> p.Resend?
  }

  lemma RepairsTwice(a: Client, b: Client, c: Client, id: nat)
    requires id in a.transfers && OnlyRepairs(a, b, id) && OnlyRepairs(b, c, id)
    ensures OnlyRepairs(a, c, id)
  {
    assert c.sent[|a.sent|..] == b.sent[|a.sent|..] + c.sent[|b.sent|..];
  }

  lemma ClaimOnlyRepairs(c: Client, id: nat, gaps: seq<Range>, e: Env)
    requires id in c.transfers && c.transfers[id].asm.Some?
    ensures OnlyRepairs(c, ClaimGaps(c, id, gaps, e), id)
  {
    var out := R.ClaimOut(c.transfers[id].repair, R.Lacking(c.transfers[id].asm.value), gaps, e.now);
    ResendsAreNot(id, out);
    assert ClaimGaps(c, id, gaps, e).sent == c.sent + Resends(id, out);
    assert (c.sent + Resends(id, out))[|c.sent|..] == Resends(id, out);
  }

  lemma DetectOnlyRepairs(cfg: ClientConfig, c: Client, id: nat, e: Env)
    requires id in c.transfers
    ensures OnlyRepairs(c, DetectLoss(cfg, c, id, e), id)
  {
    var t := c.transfers[id].(lastDetect := Some(e.now));
    var c1 := Put(c, id, t);
    if cfg.earlyResend && t.asm.Some? && !c.negotiated && SuspectLimit(cfg, c1, id) > 0 {
      var gaps := A.Missing(t.asm.value, SuspectLimit(cfg, c1, id));
      var c2 := Put(c1, id, t.(repair := t.repair.(suspects := R.Suspects(t.repair.suspects, gaps, e.now))));
      ClaimOnlyRepairs(c2, id, R.Lost(t.repair.suspects, gaps, e.now, e.window), e);
      RepairsTwice(c, c2, DetectLoss(cfg, c, id, e), id);
    }
  }

  lemma ProbeOnlyRepairs(cfg: ClientConfig, c: Client, id: nat, granted: nat, e: Env)
    requires id in c.transfers
    ensures OnlyRepairs(c, TailProbe(cfg, c, id, granted, e), id)
  {
    var t := c.transfers[id];
    if ProbeDue(cfg, t, granted, e) {
      var c1 := Put(c, id, t.(tailProbed := true));
      ClaimOnlyRepairs(c1, id, [LastPacket(t.asm.value, granted, PayloadOf(c))], e);
      RepairsTwice(c, c1, TailProbe(cfg, c, id, granted, e), id);
    }
  }

  /** What comes before the stall timer's turn. */
  ghost function BeforeStall(cfg: ClientConfig, c: Client, id: nat, e: Env): (c': Client)
    requires id in c.transfers
    ensures id in c'.transfers
  {
    var c1 := if c.transfers[id].asm.Some? then DetectLoss(cfg, c, id, e) else c;
    TailProbe(cfg, c1, id, TickGrant(c1, id), e)
  }

  lemma BeforeStallRepairs(cfg: ClientConfig, c: Client, id: nat, e: Env)
    requires id in c.transfers
    ensures var c2 := BeforeStall(cfg, c, id, e);
      && OnlyRepairs(c, c2, id) && TickGrant(c2, id) == TickGrant(c, id)
      && Repeats(c2, id) == Repeats(c, id)
  {
    var c1 := if c.transfers[id].asm.Some? then DetectLoss(cfg, c, id, e) else c;
    DetectOnlyRepairs(cfg, c, id, e);
    ProbeOnlyRepairs(cfg, c1, id, TickGrant(c1, id), e);
    RepairsTwice(c, c1, BeforeStall(cfg, c, id, e), id);
  }

  lemma TickIs(cfg: ClientConfig, c: Client, id: nat, e: Env)
    requires id in c.transfers && Outstanding(c, id)
    ensures var c2 := BeforeStall(cfg, c, id, e);
      TickOne(cfg, c, id, e) == if e.now - c.transfers[id].lastProgress >= e.timeout then Recover(cfg, c2, id, TickGrant(c, id), e) else c2
  {
    var c1 := if c.transfers[id].asm.Some? then DetectLoss(cfg, c, id, e) else c;
    DetectOnlyRepairs(cfg, c, id, e);
    ProbeOnlyRepairs(cfg, c1, id, TickGrant(c1, id), e);
    TickGrantIs(c, id);
    TickGrantIs(c1, id);
  }

  lemma WroteLater(a: Client, b: Client, c: Client, p: Packet)
    requires Appends(a, b, []) && Appends(b, c, []) && Wrote(b, c, p)
    ensures Wrote(a, c, p)
  {
    assert c.sent[|a.sent|..] == b.sent[|a.sent|..] + c.sent[|b.sent|..];
  }

  lemma RepeatsHas(c: Client, id: nat)
    requires id in c.transfers
    ensures var t := c.transfers[id];
      && (t.asm.None? || t.headers.None? ==> Req(id, t.initialGrant, t.assetId) in Repeats(c, id))
      && (t.asm.Some? && GrantOf(c, id) > t.initialGrant ==> Grant(id, GrantOf(c, id), 0) in Repeats(c, id))
  {
  }

  lemma StallTick(cfg: ClientConfig, c: Client, id: nat, e: Env)
    requires id in c.transfers && Outstanding(c, id)
    requires e.now - c.transfers[id].lastProgress >= e.timeout && c.transfers[id].recoveries < cfg.maxRecoveries
    ensures var c' := TickOne(cfg, c, id, e);
      && (forall p :: p in Repeats(c, id) ==> Wrote(c, c', p))
      && id in c'.transfers && c'.transfers[id].recoveries == c.transfers[id].recoveries + 1 && c'.transfers[id].lastProgress == e.now
  {
    var c2 := BeforeStall(cfg, c, id, e);
    TickIs(cfg, c, id, e);
    BeforeStallRepairs(cfg, c, id, e);
    RecoverWrites(cfg, c2, id, e);
    RecoverCounts(cfg, c2, id, e);
    forall p | p in Repeats(c, id) ensures Wrote(c, TickOne(cfg, c, id, e), p) { WroteLater(c, c2, TickOne(cfg, c, id, e), p); }
  }

  /**
   A stall asks again. In every state of a run, a tick that finds a transfer with
   something outstanding, past its timeout, with tries left, writes its REQ again
   if the size or META is missing, and its grant if that was raised; the transfer
   stays live with one more attempt counted and a new timeout begun.
   */
  lemma StallRepeats(cfg: ClientConfig, c: Client, id: nat, e: Env, c': Client)
    requires Inv(cfg, c) && CH.Moves(cfg, c, CH.Ticked(id, e), c') && Outstanding(c, id)
    requires e.now - c.transfers[id].lastProgress >= e.timeout && c.transfers[id].recoveries < cfg.maxRecoveries
    ensures var t := c.transfers[id];
      && (t.asm.None? || t.headers.None? ==> Wrote(c, c', Req(id, t.initialGrant, t.assetId)))
      && (t.asm.Some? && GrantOf(c, id) > t.initialGrant ==> Wrote(c, c', Grant(id, GrantOf(c, id), 0)))
      && id in c'.transfers && c'.transfers[id].recoveries == t.recoveries + 1 && c'.transfers[id].lastProgress == e.now
  {
    StallTick(cfg, c, id, e);
    RepeatsHas(c, id);
  }

  /** Without tries left the stall ends the transfer and its caller is told it failed. */
  lemma LastStallFails(cfg: ClientConfig, c: Client, id: nat, e: Env, c': Client)
    requires Inv(cfg, c) && CH.Moves(cfg, c, CH.Ticked(id, e), c') && Outstanding(c, id)
    requires e.now - c.transfers[id].lastProgress >= e.timeout && c.transfers[id].recoveries == cfg.maxRecoveries
    ensures id !in c'.transfers && (Rejected(id) in c'.events || Errored(id) in c'.events)
  {
    var c2 := BeforeStall(cfg, c, id, e);
    TickIs(cfg, c, id, e);
    BeforeStallRepairs(cfg, c, id, e);
    GiveUpOutcome(c2, id, e);
    assert ViewOk(cfg, id, ViewOf(c, id));
    FailsAloud(id, c2.transfers[id].(recoveries := c2.transfers[id].recoveries + 1));
  }

  /** A failure is always told, on the promise or on the stream. */
  lemma FailsAloud(id: nat, t: Transfer)
    requires t.settled ==> t.stream.Some? && !t.stream.value.closed
    ensures Rejected(id) in LastWords(id, t, false) || Errored(id) in LastWords(id, t, false)
  {
    if t.settled { assert StreamEnd(id, t, false) == [Errored(id)]; } else { assert Answer(id, t, false) == [Rejected(id)]; }
  }

  /** Before its timeout, or with nothing outstanding, a tick repeats neither REQ nor GRANT; and what waits cannot time out from its past. */
  lemma NoStallNoRepeat(cfg: ClientConfig, c: Client, id: nat, e: Env, c': Client)
    requires Inv(cfg, c) && CH.Moves(cfg, c, CH.Ticked(id, e), c')
    requires Outstanding(c, id) ==> e.now - c.transfers[id].lastProgress < e.timeout
    ensures forall p :: Wrote(c, c', p) ==> p.Resend?
    ensures id in c'.transfers && c'.transfers[id].recoveries == c.transfers[id].recoveries
    ensures c'.transfers[id].lastProgress == if Outstanding(c, id) then c.transfers[id].lastProgress else e.now
  {
    if Outstanding(c, id) {
      BeforeStallRepairs(cfg, c, id, e);
      TickIs(cfg, c, id, e);
    } else {
      WaitingTick(cfg, c, id, e);
    }
  }

  lemma WaitingTick(cfg: ClientConfig, c: Client, id: nat, e: Env)
    requires id in c.transfers && !Outstanding(c, id)
    ensures var c' := TickOne(cfg, c, id, e);
      && (forall p :: Wrote(c, c', p) ==> p.Resend?)
      && id in c'.transfers && c'.transfers[id].recoveries == c.transfers[id].recoveries && c'.transfers[id].lastProgress == e.now
  {
    var c1 := if c.transfers[id].asm.Some? then DetectLoss(cfg, c, id, e) else c;
    DetectOnlyRepairs(cfg, c, id, e);
    TickGrantIs(c, id);
    TickGrantIs(c1, id);
  }

  // ---- A request ----

  /** Sequence numbers are offered to begin with and with each request, until the server takes them up or four HELLOs have gone. */
  predicate OffersNow(cfg: ClientConfig, c: Client) { cfg.sessionSeq && !c.negotiated && c.hellos <= HELLO_REPEATS }

  /** A new session's only packet is its first HELLO, if it may offer. */
  lemma SessionOffers(cfg: ClientConfig, budget: nat, minIncrement: int)
    ensures var c := NewClient(cfg, budget, minIncrement);
      c.sent == (if cfg.sessionSeq then [Hello(0, 1)] else []) && c.hellos == |c.sent| && !c.negotiated && c.transfers == map[] && c.events == []
  {
  }

  /**
   A request begins with its REQ. Beginning one writes a HELLO if one is to be
   offered, then the REQ with the grant and asset asked for; the transfer is live
   with that grant, nothing held and no attempt made, and its stream open.
   */
  lemma BeginAsks(cfg: ClientConfig, c: Client, id: nat, begun: Begun, cls: S.Class, grant: nat, now: real, c': Client)
    requires CH.Moves(cfg, c, CH.Begin(id, begun, cls, grant, now), c')
    ensures c'.sent == c.sent + (if OffersNow(cfg, c) then [Hello(0, 1)] else []) + [Req(id, grant, begun.assetId)]
    ensures c'.hellos == c.hellos + if OffersNow(cfg, c) then 1 else 0
    ensures id in c'.transfers && c'.transfers == c.transfers[id := c'.transfers[id]] && c'.events == c.events && c'.sched == c.sched
    ensures var t := c'.transfers[id];
      && t.assetId == begun.assetId && t.cls == cls && t.initialGrant == grant == t.ceiling && t.lastProgress == now && t.recoveries == 0
      && t.asm.None? && t.headers.None? && !t.settled && !t.tailProbed
      && (begun.streaming <==> t.stream.Some?)
      && (t.stream.Some? ==> t.stream.value.chunks == [] && t.stream.value.emitted == 0 && !t.stream.value.paused && !t.stream.value.closed)
  {
    assert c.sent + [] == c.sent;
  }
}
