/**
 No repair storm, in any run of the client whose clock does not go back: each
 claim of every transfer, from the tail probe, the stall timer or early
 detection, keeps clear of what is still being waited for.
 */
module ClientRepairs {
  import opened Intervals
  import opened Packets
  import opened Clients
  import opened ClientRuns
  import opened ClientSteps
  import CH = ClientHistory
  import A = Reassemblies
  import R = Repairs
  import Q = SeqTracking
  import S = Scheduling

  /** Batches of one transfer so far are spaced, and what they asked for and is missing is still pending. */
  ghost predicate TransferClaims(t: Transfer, hist: seq<R.Batch>, now: real) {
    if t.asm.None? then hist == []
    else R.AllTracked(hist, t.repair.pending, R.Lacking(t.asm.value), now) && AllFrom(hist, t.repair.pending)
  }

  /** The packet is a RESEND of one of the ranges of a batch. */
  ghost predicate InBatch(hist: seq<R.Batch>, p: Packet) {
    exists k, j :: 0 <= k < |hist| && 0 <= j < |hist[k].out| && IsResendOf(p, hist[k].out[j])
  }

  predicate IsResendOf(p: Packet, r: Range) { p.Resend? && p.start == r.start && p.end == r.end }

  /** The RESEND of a range was written. */
  ghost predicate Sent(sent: seq<Packet>, id: nat, r: Range) {
    exists p :: p in sent && p.rpc == id && IsResendOf(p, r)
  }

  ghost predicate AllSent(sent: seq<Packet>, id: nat, hist: seq<R.Batch>) {
    forall k, j :: 0 <= k < |hist| && 0 <= j < |hist[k].out| ==> Sent(sent, id, hist[k].out[j])
  }

  /** A pending range is one a batch asked for, waited for as long as the batch. */
  ghost predicate FromBatch(hist: seq<R.Batch>, q: R.Pend) {
    exists b :: b in hist && Range(q.start, q.end) in b.out && q.due == b.due
  }

  ghost predicate AllFrom(hist: seq<R.Batch>, ps: seq<R.Pend>) { forall q :: q in ps ==> FromBatch(hist, q) }

  ghost predicate ClaimsInv(c: Client, now: real) {
    && (forall p :: p in c.sent && p.Resend? ==> InBatch(ClaimsOf(c, p.rpc), p))
    && (forall id: nat :: AllSent(c.sent, id, ClaimsOf(c, id)))
    && (forall id: nat :: R.NoRepeat(ClaimsOf(c, id)))
    && (forall id: nat :: id !in c.started ==> ClaimsOf(c, id) == [])
    && (forall id :: id in c.transfers ==> TransferClaims(c.transfers[id], ClaimsOf(c, id), now))
  }

  /** The same RESENDs pending, and nothing missing that was not. */
  ghost predicate SameRepairs(t: Transfer, t': Transfer) {
    if t.asm.Some? then t'.asm.Some? && t'.repair.pending == t.repair.pending && R.Lacking(t'.asm.value) <= R.Lacking(t.asm.value)
    else t'.asm.Some? ==> t'.repair.pending == []
  }

  /** A step that claims nothing. */
  ghost predicate Unasked(c: Client, c': Client) {
    && c'.claims == c.claims && c'.started == c.started
    && (forall p: Packet :: p.Resend? ==> (p in c'.sent <==> p in c.sent))
    && forall id :: id in c'.transfers ==> id in c.transfers && SameRepairs(c.transfers[id], c'.transfers[id])
  }

  lemma StillTracked(t: Transfer, t': Transfer, hist: seq<R.Batch>, now: real, later: real)
    requires TransferClaims(t, hist, now) && SameRepairs(t, t') && now <= later
    ensures TransferClaims(t', hist, later)
  {
    if t.asm.Some? {
      forall b | b in hist ensures R.Tracked(b, t'.repair.pending, R.Lacking(t'.asm.value), later) {
        assert R.Tracked(b, t.repair.pending, R.Lacking(t.asm.value), now);
      }
    }
  }

  lemma StillSent(before: seq<Packet>, after: seq<Packet>, id: nat, hist: seq<R.Batch>)
    requires AllSent(before, id, hist) && forall p :: p in before && p.Resend? ==> p in after
    ensures AllSent(after, id, hist)
  {
    forall k, j | 0 <= k < |hist| && 0 <= j < |hist[k].out| ensures Sent(after, id, hist[k].out[j]) {
      assert Sent(before, id, hist[k].out[j]);
      var p :| p in before && p.rpc == id && IsResendOf(p, hist[k].out[j]);
      assert p in after;
    }
  }

  lemma UnaskedKeeps(c: Client, c': Client, now: real, later: real)
    requires ClaimsInv(c, now) && Unasked(c, c') && now <= later
    ensures ClaimsInv(c', later)
  {
    forall id | id in c'.transfers ensures TransferClaims(c'.transfers[id], ClaimsOf(c', id), later) {
      StillTracked(c.transfers[id], c'.transfers[id], ClaimsOf(c, id), now, later);
    }
    forall id: nat ensures R.NoRepeat(ClaimsOf(c', id)) { assert ClaimsOf(c', id) == ClaimsOf(c, id); }
    forall id: nat ensures AllSent(c'.sent, id, ClaimsOf(c', id)) {
      assert ClaimsOf(c', id) == ClaimsOf(c, id);
      StillSent(c.sent, c'.sent, id, ClaimsOf(c, id));
    }
    forall p | p in c'.sent && p.Resend? ensures InBatch(ClaimsOf(c', p.rpc), p) { assert ClaimsOf(c', p.rpc) == ClaimsOf(c, p.rpc); }
    forall id: nat | id !in c'.started ensures ClaimsOf(c', id) == [] { assert ClaimsOf(c', id) == ClaimsOf(c, id); }
  }

  /** The batch a claim adds. */
  ghost function CallOf(t: Transfer, gaps: seq<Range>, e: Env): R.Call
    requires t.asm.Some?
  {
    R.Call(R.Lacking(t.asm.value), gaps, e.now, e.delay)
  }

  /** Changing one transfer and its claims leaves the others' in order. */
  lemma OthersSpaced(c: Client, c': Client, id: nat, now: real)
    requires ClaimsInv(c, now) && id in c.transfers && id in c'.transfers && id in c.started && c'.started == c.started
    requires forall j :: j in c'.transfers && j != id ==> j in c.transfers && c'.transfers[j] == c.transfers[j]
    requires forall j: nat :: j != id ==> ClaimsOf(c', j) == ClaimsOf(c, j)
    requires R.NoRepeat(ClaimsOf(c', id)) && TransferClaims(c'.transfers[id], ClaimsOf(c', id), now)
    requires forall p :: p in c'.sent && p.Resend? ==> InBatch(ClaimsOf(c', p.rpc), p)
    requires AllSent(c'.sent, id, ClaimsOf(c', id)) && forall p :: p in c.sent ==> p in c'.sent
    ensures ClaimsInv(c', now)
  {
    forall j: nat ensures AllSent(c'.sent, j, ClaimsOf(c', j)) {
      if j != id { StillSent(c.sent, c'.sent, j, ClaimsOf(c, j)); }
    }
    forall j | j in c'.transfers ensures TransferClaims(c'.transfers[j], ClaimsOf(c', j), now) {
      if j != id { assert TransferClaims(c.transfers[j], ClaimsOf(c, j), now); }
    }
  }

  lemma {:induction false} ResendsAre(id: nat, rs: seq<Range>, p: Packet, lo: int, hi: int) returns (j: nat)
    requires p in Resends(id, rs) && Disjoint(rs, lo, hi) && 0 <= lo
    ensures j < |rs| && p.rpc == id && IsResendOf(p, rs[j])
  {
    if p == Resend(id, Max(0, rs[0].start), Max(0, rs[0].end)) {
      j := 0;
    } else {
      var k := ResendsAre(id, rs[1..], p, rs[0].end, hi);
      j := k + 1;
    }
  }

  lemma BatchStays(hist: seq<R.Batch>, b: R.Batch, p: Packet)
    requires InBatch(hist, p)
    ensures InBatch(hist + [b], p)
  {
    var k, j :| 0 <= k < |hist| && 0 <= j < |hist[k].out| && IsResendOf(p, hist[k].out[j]);
    assert (hist + [b])[k] == hist[k];
  }

  /** Each RESEND a claim writes is of the batch it adds. */
  lemma NewResendsInBatch(c: Client, c': Client, id: nat, b: R.Batch, size: nat)
    requires forall p :: p in c.sent && p.Resend? ==> InBatch(ClaimsOf(c, p.rpc), p)
    requires c'.sent == c.sent + Resends(id, b.out) && Disjoint(b.out, 0, size)
    requires c'.claims == c.claims[id := ClaimsOf(c, id) + [b]]
    ensures forall p :: p in c'.sent && p.Resend? ==> InBatch(ClaimsOf(c', p.rpc), p)
  {
    forall p | p in c'.sent && p.Resend? ensures InBatch(ClaimsOf(c', p.rpc), p) {
      if p in Resends(id, b.out) {
        var j := ResendsAre(id, b.out, p, 0, size);
        assert ClaimsOf(c', id)[|ClaimsOf(c, id)|] == b;
      } else if p.rpc == id {
        BatchStays(ClaimsOf(c, id), b, p);
      } else {
        assert ClaimsOf(c', p.rpc) == ClaimsOf(c, p.rpc);
      }
    }
  }

  lemma {:induction false} ResendsAll(id: nat, rs: seq<Range>, j: nat, lo: int, hi: int)
    requires j < |rs| && Disjoint(rs, lo, hi) && 0 <= lo
    ensures Sent(Resends(id, rs), id, rs[j])
  {
    var first, rest := Resend(id, Max(0, rs[0].start), Max(0, rs[0].end)), Resends(id, rs[1..]);
    assert Resends(id, rs) == [first] + rest;
    if j == 0 {
      assert first in Resends(id, rs);
    } else {
      ResendsAll(id, rs[1..], j - 1, rs[0].end, hi);
      var p :| p in rest && p.rpc == id && IsResendOf(p, rs[1..][j - 1]);
      assert p in Resends(id, rs);
    }
  }

  /** Each range of the batch a claim adds is written. */
  lemma NewBatchIsSent(sent: seq<Packet>, id: nat, hist: seq<R.Batch>, b: R.Batch, size: nat)
    requires AllSent(sent, id, hist) && Disjoint(b.out, 0, size)
    ensures AllSent(sent + Resends(id, b.out), id, hist + [b])
  {
    var after := sent + Resends(id, b.out);
    StillSent(sent, after, id, hist);
    forall j | 0 <= j < |b.out| ensures Sent(after, id, b.out[j]) {
      ResendsAll(id, b.out, j, 0, size);
      var p :| p in Resends(id, b.out) && p.rpc == id && IsResendOf(p, b.out[j]);
      assert p in after;
    }
  }

  /** What a claim leaves pending comes from a batch: its own or an earlier one. */
  lemma ClaimFromBatch(r: R.Repair, hist: seq<R.Batch>, call: R.Call, size: nat)
    requires R.DisjointP(r.pending, 0, size) && Disjoint(call.gaps, 0, size)
    requires AllFrom(hist, r.pending)
    ensures AllFrom(hist + [R.SentBy(r, call)], R.After(r, call).pending)
  {
    var b := R.SentBy(r, call);
    R.ClaimEffect(r, call.lacking, call.gaps, call.now, call.delay, size);
    R.LiveIsDisjoint(r.pending, call.lacking, call.now, 0, size);
    OneMoreBatch(hist, b, r.pending, R.After(r, call).pending);
  }

  lemma OneMoreBatch(hist: seq<R.Batch>, b: R.Batch, ps: seq<R.Pend>, ps': seq<R.Pend>)
    requires AllFrom(hist, ps) && forall q :: q in ps' ==> q in ps || q in R.WithDue(b.out, b.due)
    ensures AllFrom(hist + [b], ps')
  {
    forall q | q in ps' ensures FromBatch(hist + [b], q) {
      if q in ps {
        var b0 :| b0 in hist && Range(q.start, q.end) in b0.out && q.due == b0.due;
        assert b0 in hist + [b];
      } else {
        DueInBatch(b.out, b.due, q);
        assert b in hist + [b];
      }
    }
  }

  lemma {:induction false} DueInBatch(out: seq<Range>, due: real, q: R.Pend)
    requires q in R.WithDue(out, due)
    ensures Range(q.start, q.end) in out && q.due == due
  {
    if q != R.Pend(out[0].start, out[0].end, due) { DueInBatch(out[1..], due, q); }
  }

  /** What a claim changes: one transfer's pending list, and its history by one batch. */
  lemma WhatClaimAdds(c: Client, id: nat, gaps: seq<Range>, e: Env)
    requires id in c.transfers && c.transfers[id].asm.Some?
    ensures var t, c', call := c.transfers[id], ClaimGaps(c, id, gaps, e), CallOf(c.transfers[id], gaps, e);
      && c'.transfers == c.transfers[id := t.(repair := R.After(t.repair, call))] && c'.started == c.started
      && c'.claims == c.claims[id := ClaimsOf(c, id) + [R.SentBy(t.repair, call)]]
  {
  }

  lemma WhatClaimSends(c: Client, id: nat, gaps: seq<Range>, e: Env)
    requires id in c.transfers && c.transfers[id].asm.Some?
    ensures ClaimGaps(c, id, gaps, e).sent == c.sent + Resends(id, R.SentBy(c.transfers[id].repair, CallOf(c.transfers[id], gaps, e)).out)
  {
  }

  /** The claimed transfer's own history goes on in order. */
  lemma ClaimTracked(t: Transfer, hist: seq<R.Batch>, gaps: seq<Range>, e: Env)
    requires t.asm.Some? && A.AsmOk(t.asm.value) && R.DisjointP(t.repair.pending, 0, t.asm.value.size) && Claimable(t.asm.value, gaps)
    requires TransferClaims(t, hist, e.now) && R.NoRepeat(hist)
    ensures var call := CallOf(t, gaps, e);
      && TransferClaims(t.(repair := R.After(t.repair, call)), hist + [R.SentBy(t.repair, call)], e.now)
      && R.NoRepeat(hist + [R.SentBy(t.repair, call)]) && Disjoint(R.SentBy(t.repair, call).out, 0, t.asm.value.size)
  {
    var call := CallOf(t, gaps, e);
    R.HistoryStep(hist, t.repair, call.lacking, e.now, call, t.asm.value.size);
    R.ClaimEffect(t.repair, call.lacking, gaps, e.now, e.delay, t.asm.value.size);
    ClaimFromBatch(t.repair, hist, call, t.asm.value.size);
  }

  /** A batch added to one transfer's history, with the RESENDs of that batch. */
  lemma BatchSpaced(c: Client, c': Client, id: nat, t: Transfer, b: R.Batch, size: nat, now: real)
    requires ClaimsInv(c, now) && id in c.transfers && id in c.started && c'.started == c.started
    requires c'.transfers == c.transfers[id := t] && c'.claims == c.claims[id := ClaimsOf(c, id) + [b]]
    requires c'.sent == c.sent + Resends(id, b.out) && Disjoint(b.out, 0, size)
    requires R.NoRepeat(ClaimsOf(c, id) + [b]) && TransferClaims(t, ClaimsOf(c, id) + [b], now)
    ensures ClaimsInv(c', now)
  {
    assert ClaimsOf(c', id) == ClaimsOf(c, id) + [b];
    NewBatchIsSent(c.sent, id, ClaimsOf(c, id), b, size);
    NewResendsInBatch(c, c', id, b, size);
    OthersSpaced(c, c', id, now);
  }

  lemma LiveFacts(cfg: ClientConfig, c: Client, id: nat)
    requires Inv(cfg, c) && id in c.transfers && c.transfers[id].asm.Some?
    ensures id in c.started && A.AsmOk(c.transfers[id].asm.value)
    ensures R.DisjointP(c.transfers[id].repair.pending, 0, c.transfers[id].asm.value.size)
  {
    assert ViewOk(cfg, id, ViewOf(c, id));
  }

  lemma ClaimSpaced(cfg: ClientConfig, c: Client, id: nat, gaps: seq<Range>, e: Env)
    requires Inv(cfg, c) && id in c.transfers && c.transfers[id].asm.Some? && Claimable(c.transfers[id].asm.value, gaps)
    requires ClaimsInv(c, e.now)
    ensures ClaimsInv(ClaimGaps(c, id, gaps, e), e.now)
  {
    var t, call := c.transfers[id], CallOf(c.transfers[id], gaps, e);
    LiveFacts(cfg, c, id);
    ClaimTracked(t, ClaimsOf(c, id), gaps, e);
    WhatClaimAdds(c, id, gaps, e);
    WhatClaimSends(c, id, gaps, e);
    BatchSpaced(c, ClaimGaps(c, id, gaps, e), id, t.(repair := R.After(t.repair, call)), R.SentBy(t.repair, call), t.asm.value.size, e.now);
  }

  // ---- Steps that claim nothing ----

  lemma PutUnasked(c: Client, id: nat, t: Transfer)
    requires id in c.transfers && SameRepairs(c.transfers[id], t)
    ensures Unasked(c, Put(c, id, t))
  {
  }

  lemma {:induction false} GrantsAreGrants(ds: seq<S.Decision>)
    ensures forall p :: p in GrantPackets(ds) ==> p.Grant?
  {
    if ds != [] { GrantsAreGrants(ds[1..]); }
  }

  lemma PumpUnasked(c: Client, e: Env)
    ensures Unasked(c, Pump(c, e))
  {
    GrantsAreGrants(S.Decisions(c.sched.(budget := e.budget), Reserved(c.transfers)));
  }

  lemma OverUnasked(c: Client, id: nat, ok: bool, behind: bool)
    requires id in c.transfers
    ensures Unasked(c, Over(c, id, ok, behind))
  {
  }

  lemma FinishSpaced(c: Client, id: nat, ok: bool, e: Env)
    requires id in c.transfers && ClaimsInv(c, e.now)
    ensures ClaimsInv(Finish(c, id, ok, e), e.now)
  {
    FinishIsOver(c, id, ok, e);
    OverUnasked(c, id, ok, e.behind);
    UnaskedKeeps(c, Over(c, id, ok, e.behind), e.now, e.now);
    PumpSpaced(Over(c, id, ok, e.behind), e);
  }

  lemma SizedUnasked(c: Client, id: nat, size: nat)
    requires id in c.transfers
    ensures Unasked(c, Sized(c, id, size))
  {
  }

  lemma StoredUnasked(c: Client, id: nat, offset: nat, payload: seq<Byte>, now: real)
    requires id in c.transfers && c.transfers[id].asm.Some?
    requires A.AsmOk(c.transfers[id].asm.value) && A.Fits(c.transfers[id].asm.value.size, offset, |payload|)
    ensures Unasked(c, Stored(c, id, offset, payload, now))
  {
    PutUnasked(c, id, StoredT(c.transfers[id], offset, payload, now));
  }

  lemma BegunUnasked(c: Client, id: nat)
    requires id in c.transfers
    ensures Unasked(c, MaybeStart(c, id))
  {
  }

  lemma FlushUnasked(c: Client, id: nat, behind: bool)
    requires id in c.transfers
    ensures Unasked(c, Flush(c, id, behind))
  {
    PutUnasked(c, id, Flushed(c.transfers[id], behind));
  }

  lemma AskUnasked(c: Client, c': Client, nums: seq<nat>)
    requires c' == c.(seqs := c'.seqs, lastSeqDetect := c'.lastSeqDetect, sent := c.sent + ResendSeqs(Q.Ranges(nums, MAX_RESEND_SEQ)))
    ensures Unasked(c, c')
  {
    ResendSeqsAreNot(Q.Ranges(nums, MAX_RESEND_SEQ));
  }

  lemma SeqLossUnasked(cfg: ClientConfig, c: Client, e: Env)
    ensures Unasked(c, DetectSeqLoss(cfg, c, e))
  {
    var c1 := c.(lastSeqDetect := Some(e.now));
    if cfg.earlyResend {
      var c2 := AskLost(cfg, c1, e);
      AskUnasked(c1, c2, Q.LostNums(c1.seqs.missing, c1.seqs.highest, e.now, cfg.reorderPackets, e.window, e.tail));
      AskUnasked(c2, AskAgain(c2, e), DueAgain(c2, e));
    }
  }

  lemma StartSpaced(cfg: ClientConfig, c: Client, id: nat, b: Begun, cls: S.Class, grant: nat, start: real, now: real)
    requires ClaimsInv(c, now) && id !in c.started
    ensures ClaimsInv(Start(cfg, c, id, b, cls, grant, start), now)
  {
    var c' := Start(cfg, c, id, b, cls, grant, start);
    forall j: nat ensures ClaimsOf(c', j) == ClaimsOf(c, j) {}
    forall j | j in c'.transfers ensures TransferClaims(c'.transfers[j], ClaimsOf(c', j), now) {
      if j != id { assert TransferClaims(c.transfers[j], ClaimsOf(c, j), now); }
    }
  }

  lemma SeqTickSpaced(cfg: ClientConfig, c: Client, e: Env)
    requires ClaimsInv(c, e.now)
    ensures ClaimsInv(DetectSeqLoss(cfg, c, e), e.now)
  {
    SeqLossUnasked(cfg, c, e);
    UnaskedKeeps(c, DetectSeqLoss(cfg, c, e), e.now, e.now);
  }

  lemma PumpSpaced(c: Client, e: Env)
    requires ClaimsInv(c, e.now)
    ensures ClaimsInv(Pump(c, e), e.now)
  {
    PumpUnasked(c, e);
    UnaskedKeeps(c, Pump(c, e), e.now, e.now);
  }

  // ---- Steps that may claim ----

  lemma DetectSpaced(cfg: ClientConfig, c: Client, id: nat, e: Env)
    requires Inv(cfg, c) && id in c.transfers && ClaimsInv(c, e.now)
    ensures ClaimsInv(DetectLoss(cfg, c, id, e), e.now)
  {
    var t := c.transfers[id].(lastDetect := Some(e.now));
    var c1 := Put(c, id, t);
    PutUnasked(c, id, t);
    UnaskedKeeps(c, c1, e.now, e.now);
    TouchKeeps(cfg, c, id, t);
    if cfg.earlyResend && t.asm.Some? && !c.negotiated && SuspectLimit(cfg, c1, id) > 0 {
      assert ViewOk(cfg, id, ViewOf(c1, id));
      var gaps := A.Missing(t.asm.value, SuspectLimit(cfg, c1, id));
      var t2 := t.(repair := t.repair.(suspects := R.Suspects(t.repair.suspects, gaps, e.now)));
      TouchKeeps(cfg, c1, id, t2);
      PutUnasked(c1, id, t2);
      UnaskedKeeps(c1, Put(c1, id, t2), e.now, e.now);
      DetectGapsFit(cfg, c1, id, e);
      ClaimSpaced(cfg, Put(c1, id, t2), id, R.Lost(t.repair.suspects, gaps, e.now, e.window), e);
    }
  }

  lemma ProbeSpaced(cfg: ClientConfig, c: Client, id: nat, e: Env)
    requires Inv(cfg, c) && id in c.transfers && ClaimsInv(c, e.now)
    ensures ClaimsInv(TailProbe(cfg, c, id, TickGrant(c, id), e), e.now)
  {
    var t, granted := c.transfers[id], TickGrant(c, id);
    if ProbeDue(cfg, t, granted, e) {
      var t' := t.(tailProbed := true);
      GrantWithinSize(cfg, c, id);
      TouchKeeps(cfg, c, id, t');
      PutUnasked(c, id, t');
      UnaskedKeeps(c, Put(c, id, t'), e.now, e.now);
      ProbeGapFits(t.asm.value, granted, PayloadOf(c));
      ClaimSpaced(cfg, Put(c, id, t'), id, [LastPacket(t.asm.value, granted, PayloadOf(c))], e);
    }
  }

  lemma SendUnasked(c: Client, ps: seq<Packet>)
    requires forall p :: p in ps ==> !p.Resend?
    ensures Unasked(c, Send(c, ps))
  {
  }

  lemma RerequestSpaced(cfg: ClientConfig, c: Client, id: nat, e: Env)
    requires Inv(cfg, c) && id in c.transfers && c.transfers[id].asm.Some? && ClaimsInv(c, e.now)
    ensures ClaimsInv(Rerequest(c, id, TickGrant(c, id), e), e.now)
  {
    var t, granted := c.transfers[id], TickGrant(c, id);
    var grant := if granted > t.initialGrant then [Grant(id, granted, 0)] else [];
    GrantWithinSize(cfg, c, id);
    assert ViewOk(cfg, id, ViewOf(c, id));
    OneGrant(id, granted);
    LowSendKeeps(cfg, c, grant, id);
    SendUnasked(c, grant);
    UnaskedKeeps(c, Send(c, grant), e.now, e.now);
    RecoverGapsFit(t.asm.value, granted, PayloadOf(c));
    ClaimSpaced(cfg, Send(c, grant), id, RecoverGaps(t.asm.value, granted, PayloadOf(c)), e);
  }

  lemma TriedUnasked(c: Client, id: nat, now: real)
    requires id in c.transfers
    ensures Unasked(c, OutOfTries(c, id)) && Unasked(c, Attempted(c, id, now))
  {
  }

  lemma FailSpaced(c: Client, id: nat, e: Env)
    requires id in c.transfers && ClaimsInv(c, e.now)
    ensures ClaimsInv(GiveUp(c, id, e), e.now)
  {
    TriedUnasked(c, id, e.now);
    UnaskedKeeps(c, OutOfTries(c, id), e.now, e.now);
    FinishSpaced(OutOfTries(c, id), id, false, e);
  }

  lemma RecoverSpaced(cfg: ClientConfig, c: Client, id: nat, e: Env)
    requires Inv(cfg, c) && id in c.transfers && ClaimsInv(c, e.now)
    ensures ClaimsInv(Recover(cfg, c, id, TickGrant(c, id), e), e.now)
  {
    assert ViewOk(cfg, id, ViewOf(c, id));
    TriedUnasked(c, id, e.now);
    if c.transfers[id].recoveries == cfg.maxRecoveries {
      FailSpaced(c, id, e);
    } else {
      UnaskedKeeps(c, Attempted(c, id, e.now), e.now, e.now);
      AttemptKeeps(cfg, c, id, e.now);
      if c.transfers[id].asm.Some? { RerequestSpaced(cfg, Attempted(c, id, e.now), id, e); }
    }
  }

  lemma TickSpaced(cfg: ClientConfig, c: Client, id: nat, e: Env)
    requires Inv(cfg, c) && Rest(c) && id in c.transfers && ClaimsInv(c, e.now)
    ensures ClaimsInv(TickOne(cfg, c, id, e), e.now)
  {
    var c1 := if c.transfers[id].asm.Some? then DetectLoss(cfg, c, id, e) else c;
    DetectLossKeeps(cfg, c, id, e);
    DetectSpaced(cfg, c, id, e);
    var t, granted := c1.transfers[id], TickGrant(c1, id);
    if Waiting(t, granted) {
      PutUnasked(c1, id, t.(lastProgress := e.now));
      UnaskedKeeps(c1, Put(c1, id, t.(lastProgress := e.now)), e.now, e.now);
    } else {
      TailProbeKeeps(cfg, c1, id, e);
      ProbeSpaced(cfg, c1, id, e);
      var c2 := TailProbe(cfg, c1, id, granted, e);
      if Stalled(c2.transfers[id], e) { RecoverSpaced(cfg, c2, id, e); }
    }
  }

  lemma AfterStoredSpaced(cfg: ClientConfig, c: Client, id: nat, e: Env)
    requires Inv(cfg, c) && id in c.transfers && c.transfers[id].asm.Some? && ClaimsInv(c, e.now)
    ensures ClaimsInv(AfterStored(cfg, c, id, e), e.now)
  {
    var c0 := MaybeStart(c, id);
    var c1 := Flush(c0, id, e.behind);
    BegunUnasked(c, id);
    FlushUnasked(c0, id, e.behind);
    UnaskedKeeps(c, c0, e.now, e.now);
    UnaskedKeeps(c0, c1, e.now, e.now);
    MaybeStartKeeps(cfg, c, id);
    FlushKeeps(cfg, c0, id, e.behind);
    if A.Complete(c1.transfers[id].asm.value) && c1.transfers[id].headers.Some? {
      FinishSpaced(c1, id, true, e);
    } else if Elapsed(c1.transfers[id].lastDetect, e.now, DETECT_INTERVAL_MS) {
      DetectSpaced(cfg, c1, id, e);
    }
  }

  lemma DataSpaced(cfg: ClientConfig, c: Client, id: nat, size: nat, offset: nat, payload: seq<Byte>, e: Env)
    requires Inv(cfg, c) && AsmsOk(c) && id in c.transfers && ClaimsInv(c, e.now)
    ensures ClaimsInv(HandleData(cfg, c, id, size, offset, payload, e), e.now)
  {
    var c1 := Sized(c, id, size);
    SizedUnasked(c, id, size);
    UnaskedKeeps(c, c1, e.now, e.now);
    SizedKeeps(cfg, c, id, size);
    InvAsmsOk(cfg, c1);
    var m := c1.transfers[id].asm.value;
    if size != m.size || !A.Fits(m.size, offset, |payload|) {
      FinishSpaced(c1, id, false, e);
    } else {
      StoredUnasked(c1, id, offset, payload, e.now);
      UnaskedKeeps(c1, Stored(c1, id, offset, payload, e.now), e.now, e.now);
      StoredKeeps(cfg, c1, id, offset, payload, e.now);
      AfterStoredSpaced(cfg, Stored(c1, id, offset, payload, e.now), id, e);
    }
  }

  lemma MetaSpaced(c: Client, id: nat, fields: seq<Field>, e: Env)
    requires id in c.transfers && ClaimsInv(c, e.now)
    ensures ClaimsInv(HandleMeta(c, id, fields, e), e.now)
  {
    var t := c.transfers[id];
    if t.headers.None? {
      var t' := t.(headers := Some(fields), lastProgress := e.now, recoveries := 0);
      var c0 := Put(c, id, t');
      PutUnasked(c, id, t');
      UnaskedKeeps(c, c0, e.now, e.now);
      BegunUnasked(c0, id);
      UnaskedKeeps(c0, MaybeStart(c0, id), e.now, e.now);
      if t.asm.Some? && A.Complete(t.asm.value) { FinishSpaced(MaybeStart(c0, id), id, true, e); }
    }
  }

  lemma PacketSpaced(cfg: ClientConfig, c: Client, p: Packet, e: Env)
    requires Inv(cfg, c) && AsmsOk(c) && ClaimsInv(c, e.now)
    ensures ClaimsInv(HandlePacket(cfg, c, p, e), e.now)
  {
    if p.rpc in c.transfers {
      if p.Meta? {
        MetaSpaced(c, p.rpc, p.fields, e);
      } else if p.Data? || p.DataSeq? {
        DataSpaced(cfg, c, p.rpc, p.totalSize, p.offset, p.payload, e);
      } else if p.Error? {
        FinishSpaced(c, p.rpc, false, e);
      }
    }
  }

  lemma ArriveSpaced(cfg: ClientConfig, c: Client, p: Packet, e: Env)
    requires Inv(cfg, c) && Rest(c) && AsmsOk(c) && ClaimsInv(c, e.now)
    ensures ClaimsInv(Arrive(cfg, c, p, e), e.now)
  {
    var c1 := if p.DataSeq? then CountNumber(cfg, c, p, e) else c;
    if p.DataSeq? {
      CountKeeps(cfg, c, p, e);
      UnaskedKeeps(c, Counted(c, p, e.now), e.now, e.now);
      SeqLossUnasked(cfg, Counted(c, p, e.now), e);
      UnaskedKeeps(Counted(c, p, e.now), DetectSeqLoss(cfg, Counted(c, p, e.now), e), e.now, e.now);
    }
    PacketSpaced(cfg, c1, p, e);
    PumpSpaced(HandlePacket(cfg, c1, p, e), e);
  }

  lemma PullSpaced(c: Client, id: nat, e: Env)
    requires id in c.transfers && ClaimsInv(c, e.now)
    ensures ClaimsInv(Pull(c, id, e), e.now)
  {
    if c.transfers[id].stream.Some? && c.transfers[id].stream.value.paused {
      UnaskedKeeps(c, Resumed(c, id), e.now, e.now);
      PumpSpaced(Resumed(c, id), e);
    }
  }

  lemma CancelSpaced(c: Client, id: nat, e: Env)
    requires id in c.transfers && ClaimsInv(c, e.now)
    ensures ClaimsInv(Cancel(c, id, e), e.now)
  {
    var c1 := Forget(c, id, c.transfers[id]).(events := c.events + [Cancelled(id)]);
    UnaskedKeeps(c, c1, e.now, e.now);
    PumpSpaced(c1, e);
  }

  // ---- Runs ----

  function TimeOf(st: CH.Step): real { if st.Begin? then st.now else st.e.now }

  /** The clock never goes back. */
  predicate OnTime(steps: seq<CH.Step>, now: real) {
    steps == [] || (now <= TimeOf(steps[0]) && OnTime(steps[1..], TimeOf(steps[0])))
  }

  function EndTime(steps: seq<CH.Step>, now: real): real {
    if steps == [] then now else EndTime(steps[1..], TimeOf(steps[0]))
  }

  /** The reader, the session's end, and granting. */
  lemma ReaderSpaced(cfg: ClientConfig, a: Client, st: CH.Step, b: Client)
    requires (st.Pulled? || st.Dropped? || st.Aborted? || st.Pumped?) && CH.Moves(cfg, a, st, b) && ClaimsInv(a, TimeOf(st))
    ensures ClaimsInv(b, TimeOf(st))
  {
    match st
    case Pulled(id, e) => PullSpaced(a, id, e);
    case Dropped(id, e) => CancelSpaced(a, id, e);
    case Aborted(id, e) => FinishSpaced(a, id, false, e);
    case Pumped(e) => PumpSpaced(a, e);
  }

  /** Each step of the session keeps its claims spaced, written and tracked. */
  lemma StepSpaced(cfg: ClientConfig, a: Client, st: CH.Step, b: Client, now: real)
    requires Inv(cfg, a) && Rest(a) && ClaimsInv(a, now) && CH.Moves(cfg, a, st, b) && now <= TimeOf(st)
    ensures ClaimsInv(b, TimeOf(st))
  {
    UnaskedKeeps(a, a, now, TimeOf(st));
    match st
    case Begin(id, begun, cls, grant, start) => StartSpaced(cfg, a, id, begun, cls, grant, start, start);
    case Took(p, e) => ArriveSpaced(cfg, a, p, e);
    case Ticked(id, e) => TickSpaced(cfg, a, id, e);
    case SeqTicked(e) => SeqTickSpaced(cfg, a, e);
    case _ => ReaderSpaced(cfg, a, st, b);
  }

  lemma {:induction false} RunSpaced(cfg: ClientConfig, a: Client, steps: seq<CH.Step>, b: Client, now: real)
    requires Inv(cfg, a) && Rest(a) && ClaimsInv(a, now) && CH.Reaches(cfg, a, steps, b) && OnTime(steps, now)
    ensures ClaimsInv(b, EndTime(steps, now))
    decreases |steps|
  {
    if steps != [] {
      var m :| CH.Moves(cfg, a, steps[0], m) && CH.Reaches(cfg, m, steps[1..], b);
      CH.StepKeeps(cfg, a, steps[0], m);
      StepSpaced(cfg, a, steps[0], m, now);
      RunSpaced(cfg, m, steps[1..], b, TimeOf(steps[0]));
    }
  }

  /**
   In every run with a clock that does not go back, the RESENDs written are those
   of the batches, and batches share a byte only once the earlier one is overdue.
   */
  lemma NoStorms(cfg: ClientConfig, budget: nat, minIncrement: int, steps: seq<CH.Step>, c: Client, start: real, id: nat)
    requires CH.IsRun(cfg, budget, minIncrement, steps, c) && OnTime(steps, start)
    ensures forall p :: p in c.sent && p.Resend? && p.rpc == id ==> InBatch(ClaimsOf(c, id), p)
    ensures AllSent(c.sent, id, ClaimsOf(c, id))
    ensures forall i, j :: 0 <= i < j < |ClaimsOf(c, id)| ==>
      var first, second := ClaimsOf(c, id)[i], ClaimsOf(c, id)[j];
      first.due <= second.at || Covered(first.out) !! Covered(second.out)
  {
    CH.NewKeeps(cfg, budget, minIncrement);
    RunSpaced(cfg, NewClient(cfg, budget, minIncrement), steps, c, start);
    assert R.NoRepeat(ClaimsOf(c, id));
    forall i, j | 0 <= i < j < |ClaimsOf(c, id)| ensures R.Spaced(ClaimsOf(c, id)[i], ClaimsOf(c, id)[j]) {}
  }
}
