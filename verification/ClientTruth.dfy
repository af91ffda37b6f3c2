/**
 Which client steps touch what a transfer holds. Only an arriving META or DATA
 changes a transfer's bytes or headers; every other step keeps them, raises
 ceilings at most, and writes only packets a client may write.
 */
module ClientTruth {
  import opened Intervals
  import opened Packets
  import opened Clients
  import opened ClientRuns
  import opened ClientSteps
  import opened Senders
  import A = Reassemblies
  import R = Repairs
  import Q = SeqTracking
  import S = Scheduling

  predicate SameData(t: Transfer, t': Transfer) {
    t'.asm == t.asm && t'.headers == t.headers && t'.assetId == t.assetId && t.ceiling <= t'.ceiling
  }

  /** What a client may write: about live transfers only, REQs naming the transfer's own asset, and RESEND_SEQs of at most 1024 numbers. */
  predicate Allowed(m: map<nat, Transfer>, p: Packet) {
    && (p.Req? || p.Grant? || p.Resend? ==> p.rpc in m)
    && (p.Req? ==> p.assetId == m[p.rpc].assetId)
    && (p.ResendSeq? ==> 0 < p.end - p.start <= MAX_RESEND_SEQ)
  }

  predicate Writes(m: map<nat, Transfer>, before: seq<Packet>, after: seq<Packet>) {
    |before| <= |after| && before == after[..|before|] && forall p :: p in after[|before|..] ==> Allowed(m, p)
  }

  predicate LiveKept(c: Client, c': Client) {
    forall id :: id in c'.transfers ==> id in c.transfers && SameData(c.transfers[id], c'.transfers[id])
  }

  predicate EndedKept(c: Client, c': Client) {
    forall id :: id in c'.ended ==>
      || (id in c.ended && c'.ended[id] == c.ended[id])
      || (id in c.transfers && SameData(c.transfers[id], c'.ended[id]))
  }

  predicate Keeps(c: Client, c': Client) {
    && LiveKept(c, c') && EndedKept(c, c')
    && Writes(c.transfers, c.sent, c'.sent) && c'.started == c.started
  }

  lemma WritesTwice(m: map<nat, Transfer>, m': map<nat, Transfer>, x: seq<Packet>, y: seq<Packet>, z: seq<Packet>)
    requires Writes(m, x, y) && Writes(m', y, z)
    requires forall id :: id in m' ==> id in m && m'[id].assetId == m[id].assetId
    ensures Writes(m, x, z)
  {
    assert z[..|x|] == y[..|x|];
    forall p | p in z[|x|..] ensures Allowed(m, p) {
      var k :| |x| <= k < |z| && z[k] == p;
      if k < |y| { assert p == y[k] && y[k] in y[|x|..]; } else { assert z[k] in z[|y|..]; }
    }
  }

  lemma KeepsTwice(a: Client, b: Client, c: Client)
    requires Keeps(a, b) && Keeps(b, c)
    ensures Keeps(a, c)
  {
    WritesTwice(a.transfers, b.transfers, a.sent, b.sent, c.sent);
  }

  lemma SendKept(c: Client, ps: seq<Packet>)
    requires forall p :: p in ps ==> Allowed(c.transfers, p)
    ensures Keeps(c, Send(c, ps))
  {
    assert (c.sent + ps)[|c.sent|..] == ps;
  }

  lemma PutKept(c: Client, id: nat, t: Transfer)
    requires id in c.transfers && SameData(c.transfers[id], t)
    ensures Keeps(c, Put(c, id, t))
  {
  }

  lemma {:induction false} GrantPacketsServe(ds: seq<S.Decision>)
    ensures forall p :: p in GrantPackets(ds) ==> p.Grant? && S.GrantFor(ds, p.rpc).Some?
  {
    if ds != [] { GrantPacketsServe(ds[1..]); }
  }

  lemma GrantPacketsAllowed(cfg: ClientConfig, c: Client, e: Env)
    requires Inv(cfg, c)
    ensures forall p :: p in GrantPackets(S.Decisions(c.sched.(budget := e.budget), Reserved(c.transfers))) ==> Allowed(c.transfers, p)
  {
    var ds := S.Decisions(c.sched.(budget := e.budget), Reserved(c.transfers));
    GrantPacketsServe(ds);
    forall p | p in GrantPackets(ds) ensures Allowed(c.transfers, p) {
      PumpView(c, e, p.rpc);
      assert ViewOk(cfg, p.rpc, ViewOf(c, p.rpc));
    }
  }

  lemma CeilingRises(cfg: ClientConfig, c: Client, e: Env, id: nat)
    requires Inv(cfg, c) && id in c.transfers
    ensures id in Pump(c, e).transfers && SameData(c.transfers[id], Pump(c, e).transfers[id])
  {
    assert ViewOk(cfg, id, ViewOf(c, id));
    PumpView(c, e, id);
  }

  lemma PumpKept(cfg: ClientConfig, c: Client, e: Env)
    requires Inv(cfg, c)
    ensures Keeps(c, Pump(c, e))
  {
    var ds := S.Decisions(c.sched.(budget := e.budget), Reserved(c.transfers));
    GrantPacketsAllowed(cfg, c, e);
    SendKept(c, GrantPackets(ds));
    forall id | id in c.transfers ensures SameData(c.transfers[id], Pump(c, e).transfers[id]) { CeilingRises(cfg, c, e, id); }
  }

  lemma ClaimGapsKept(c: Client, id: nat, gaps: seq<Range>, e: Env)
    requires id in c.transfers && c.transfers[id].asm.Some?
    ensures Keeps(c, ClaimGaps(c, id, gaps, e))
  {
    var t := c.transfers[id];
    var out := R.ClaimOut(t.repair, R.Lacking(t.asm.value), gaps, e.now);
    var t' := t.(repair := R.Claimed(t.repair, R.Lacking(t.asm.value), gaps, e.now, e.delay));
    var c1 := Put(c, id, t').(claims := c.claims[id := ClaimsOf(c, id) + [R.Batch(out, e.now, e.now + e.delay)]]);
    PutKept(c, id, t');
    QuietKept(Put(c, id, t'), c1);
    KeepsTwice(c, Put(c, id, t'), c1);
    ResendsAreNot(id, out);
    SendKept(c1, Resends(id, out));
    KeepsTwice(c, c1, Send(c1, Resends(id, out)));
  }

  lemma DetectLossKept(cfg: ClientConfig, c: Client, id: nat, e: Env)
    requires id in c.transfers
    ensures Keeps(c, DetectLoss(cfg, c, id, e))
  {
    var t := c.transfers[id].(lastDetect := Some(e.now));
    var c1 := Put(c, id, t);
    PutKept(c, id, t);
    if cfg.earlyResend && t.asm.Some? && !c.negotiated && SuspectLimit(cfg, c1, id) > 0 {
      var gaps := A.Missing(t.asm.value, SuspectLimit(cfg, c1, id));
      var t2 := t.(repair := t.repair.(suspects := R.Suspects(t.repair.suspects, gaps, e.now)));
      var lost := R.Lost(t.repair.suspects, gaps, e.now, e.window);
      PutKept(c1, id, t2);
      ClaimGapsKept(Put(c1, id, t2), id, lost, e);
      KeepsTwice(c, c1, Put(c1, id, t2));
      KeepsTwice(c, Put(c1, id, t2), ClaimGaps(Put(c1, id, t2), id, lost, e));
    }
  }

  lemma TailProbeKept(cfg: ClientConfig, c: Client, id: nat, granted: nat, e: Env)
    requires id in c.transfers
    ensures Keeps(c, TailProbe(cfg, c, id, granted, e))
  {
    if ProbeDue(cfg, c.transfers[id], granted, e) {
      ProbeKept(c, id, [LastPacket(c.transfers[id].asm.value, granted, PayloadOf(c))], e);
    }
  }

  lemma ProbeKept(c: Client, id: nat, gaps: seq<Range>, e: Env)
    requires id in c.transfers && c.transfers[id].asm.Some?
    ensures Keeps(c, ClaimGaps(Put(c, id, c.transfers[id].(tailProbed := true)), id, gaps, e))
  {
    var t := c.transfers[id].(tailProbed := true);
    PutKept(c, id, t);
    ClaimGapsKept(Put(c, id, t), id, gaps, e);
    KeepsTwice(c, Put(c, id, t), ClaimGaps(Put(c, id, t), id, gaps, e));
  }

  /** Forgetting a transfer, with its last words, before the grants are pumped. */
  lemma ForgetKept(c: Client, id: nat, t: Transfer, words: seq<Event>)
    requires id in c.transfers && SameData(c.transfers[id], t)
    ensures Keeps(c, Forget(c, id, t).(events := c.events + words))
  {
  }

  lemma FinishKept(cfg: ClientConfig, c: Client, id: nat, ok: bool, e: Env)
    requires id in c.transfers && InvBut(cfg, c, id) && Endable(cfg, id, c.transfers[id], ViewOf(c, id))
    requires ok ==> Whole(c.transfers[id]) && !CanStart(c.transfers[id])
    ensures Keeps(c, Finish(c, id, ok, e))
  {
    OverKeeps(cfg, c, id, ok, e.behind);
    FinishIsOver(c, id, ok, e);
    OverKept(c, id, ok, e.behind);
    var c1 := Over(c, id, ok, e.behind);
    PumpKept(cfg, c1, e);
    KeepsTwice(c, c1, Pump(c1, e));
  }

  lemma OverKept(c: Client, id: nat, ok: bool, behind: bool)
    requires id in c.transfers
    ensures Keeps(c, Over(c, id, ok, behind))
  {
    var t := if ok then Flushed(c.transfers[id], behind) else c.transfers[id];
    ForgetKept(c, id, t, LastWords(id, t, ok));
  }

  lemma CancelKept(cfg: ClientConfig, c: Client, id: nat, e: Env)
    requires Inv(cfg, c) && id in c.transfers && c.transfers[id].settled
    ensures Keeps(c, Cancel(c, id, e))
  {
    var t := c.transfers[id];
    assert ViewOk(cfg, id, ViewOf(c, id));
    LiveIsEndable(cfg, id, t, ViewOf(c, id));
    OneEvent(Cancelled(id));
    ForgottenKeeps(cfg, c, id, t, [Cancelled(id)]);
    ForgetKept(c, id, t, [Cancelled(id)]);
    var c1 := Forget(c, id, t).(events := c.events + [Cancelled(id)]);
    PumpKept(cfg, c1, e);
    KeepsTwice(c, c1, Pump(c1, e));
  }

  lemma ResumedKept(c: Client, id: nat)
    requires id in c.transfers && c.transfers[id].stream.Some?
    ensures Keeps(c, Resumed(c, id))
  {
    var t := c.transfers[id];
    PutKept(c, id, t.(stream := Some(t.stream.value.(paused := false))));
  }

  lemma PullKept(cfg: ClientConfig, c: Client, id: nat, e: Env)
    requires Inv(cfg, c) && id in c.transfers
    ensures Keeps(c, Pull(c, id, e))
  {
    var t := c.transfers[id];
    if t.stream.Some? && t.stream.value.paused {
      ResumedKeeps(cfg, c, id);
      ResumedKept(c, id);
      PumpKept(cfg, Resumed(c, id), e);
      KeepsTwice(c, Resumed(c, id), Pump(Resumed(c, id), e));
    }
  }

  lemma MaybeStartKept(c: Client, id: nat)
    requires id in c.transfers
    ensures Keeps(c, MaybeStart(c, id))
  {
    if CanStart(c.transfers[id]) { PutKept(c, id, c.transfers[id].(settled := true)); }
  }

  lemma FlushKept(c: Client, id: nat, behind: bool)
    requires id in c.transfers
    ensures Keeps(c, Flush(c, id, behind))
  {
    var t' := Flushed(c.transfers[id], behind);
    assert SameData(c.transfers[id], t');
    PutKept(c, id, t');
    QuietKept(Put(c, id, t'), Flush(c, id, behind));
  }

  lemma CountedKept(c: Client, id: nat, t: Transfer)
    requires id in c.transfers && SameData(c.transfers[id], t)
    ensures Keeps(c, Put(c.(recovered := c.recovered + multiset{id}), id, t))
  {
  }

  lemma AttemptedKept(c: Client, id: nat, now: real)
    requires id in c.transfers
    ensures Keeps(c, Attempted(c, id, now))
  {
    var t := c.transfers[id];
    var t' := t.(recoveries := t.recoveries + 1, lastProgress := now);
    var c1 := Put(c.(recovered := c.recovered + multiset{id}), id, t');
    CountedKept(c, id, t');
    AskKept(c1, id, Req(id, t.initialGrant, t.assetId), t.asm.None? || t.headers.None?);
    KeepsTwice(c, c1, Attempted(c, id, now));
  }

  lemma AskKept(c: Client, id: nat, p: Packet, ask: bool)
    requires id in c.transfers && p.Req? && p.rpc == id && p.assetId == c.transfers[id].assetId
    ensures Keeps(c, Send(c, if ask then [p] else []))
  {
    SendKept(c, if ask then [p] else []);
  }

  lemma RerequestKept(c: Client, id: nat, granted: nat, e: Env)
    requires id in c.transfers && c.transfers[id].asm.Some?
    ensures Keeps(c, Rerequest(c, id, granted, e))
  {
    var t := c.transfers[id];
    var grant := if granted > t.initialGrant then [Grant(id, granted, 0)] else [];
    SendKept(c, grant);
    ClaimGapsKept(Send(c, grant), id, RecoverGaps(t.asm.value, granted, PayloadOf(c)), e);
    KeepsTwice(c, Send(c, grant), Rerequest(c, id, granted, e));
  }

  lemma GiveUpKept(cfg: ClientConfig, c: Client, id: nat, e: Env)
    requires Inv(cfg, c) && id in c.transfers && c.transfers[id].recoveries == cfg.maxRecoveries
    ensures Keeps(c, GiveUp(c, id, e))
  {
    OutOfTriesEnds(cfg, c, id);
    FinishKept(cfg, OutOfTries(c, id), id, false, e);
    KeepsTwice(c, OutOfTries(c, id), GiveUp(c, id, e));
  }

  lemma RecoverKept(cfg: ClientConfig, c: Client, id: nat, granted: nat, e: Env)
    requires Inv(cfg, c) && id in c.transfers
    ensures Keeps(c, Recover(cfg, c, id, granted, e))
  {
    assert ViewOk(cfg, id, ViewOf(c, id));
    var c1 := Attempted(c, id, e.now);
    if c.transfers[id].recoveries == cfg.maxRecoveries {
      GiveUpKept(cfg, c, id, e);
    } else {
      AttemptedKept(c, id, e.now);
      if c.transfers[id].asm.Some? {
        RerequestKept(c1, id, granted, e);
        KeepsTwice(c, c1, Rerequest(c1, id, granted, e));
      }
    }
  }

  lemma TickKept(cfg: ClientConfig, c: Client, id: nat, e: Env)
    requires Inv(cfg, c) && Rest(c) && id in c.transfers
    ensures Keeps(c, TickOne(cfg, c, id, e))
  {
    var c1 := if c.transfers[id].asm.Some? then DetectLoss(cfg, c, id, e) else c;
    DetectLossKept(cfg, c, id, e);
    DetectLossKeeps(cfg, c, id, e);
    var t, granted := c1.transfers[id], TickGrant(c1, id);
    if Waiting(t, granted) {
      PutKept(c1, id, t.(lastProgress := e.now));
      KeepsTwice(c, c1, Put(c1, id, t.(lastProgress := e.now)));
    } else {
      var c2 := TailProbe(cfg, c1, id, granted, e);
      TailProbeKept(cfg, c1, id, granted, e);
      TailProbeKeeps(cfg, c1, id, e);
      KeepsTwice(c, c1, c2);
      if Stalled(c2.transfers[id], e) {
        RecoverKept(cfg, c2, id, granted, e);
        KeepsTwice(c, c2, Recover(cfg, c2, id, granted, e));
      }
    }
  }

  lemma {:induction false} GroupsNarrow(cur: Range, nums: seq<nat>, maxRange: nat)
    requires 0 <= cur.start < cur.end <= cur.start + maxRange
    ensures forall r :: r in Q.GroupFrom(cur, nums, maxRange) ==> 0 <= r.start < r.end <= r.start + maxRange
    decreases |nums|
  {
    if nums != [] {
      if cur.end == nums[0] && cur.end - cur.start < maxRange {
        GroupsNarrow(Range(cur.start, nums[0] + 1), nums[1..], maxRange);
      } else {
        GroupsNarrow(Range(nums[0], nums[0] + 1), nums[1..], maxRange);
      }
    }
  }

  lemma {:induction false} ResendSeqsAllowed(m: map<nat, Transfer>, rs: seq<Range>)
    requires forall r :: r in rs ==> 0 <= r.start < r.end <= r.start + MAX_RESEND_SEQ
    ensures forall p :: p in ResendSeqs(rs) ==> Allowed(m, p)
  {
    if rs != [] {
      assert rs[0] in rs;
      ResendSeqsAllowed(m, rs[1..]);
    }
  }

  lemma RangesAllowed(m: map<nat, Transfer>, nums: seq<nat>)
    ensures forall p :: p in ResendSeqs(Q.Ranges(nums, MAX_RESEND_SEQ)) ==> Allowed(m, p)
  {
    var s := Q.SortNums(nums);
    if s != [] { GroupsNarrow(Range(s[0], s[0] + 1), s[1..], MAX_RESEND_SEQ); }
    ResendSeqsAllowed(m, Q.Ranges(nums, MAX_RESEND_SEQ));
  }

  lemma QuietKept(c: Client, c': Client)
    requires c'.transfers == c.transfers && c'.ended == c.ended && c'.sent == c.sent && c'.started == c.started
    ensures Keeps(c, c')
  {
  }

  lemma AskLostKept(cfg: ClientConfig, c: Client, e: Env)
    ensures Keeps(c, AskLost(cfg, c, e))
  {
    var lost := Q.LostNums(c.seqs.missing, c.seqs.highest, e.now, cfg.reorderPackets, e.window, e.tail);
    var c1 := c.(seqs := Q.Detected(c.seqs, lost, e.now));
    QuietKept(c, c1);
    RangesAllowed(c.transfers, lost);
    SendKept(c1, ResendSeqs(Q.Ranges(lost, MAX_RESEND_SEQ)));
    KeepsTwice(c, c1, AskLost(cfg, c, e));
  }

  lemma AskAgainKept(c: Client, e: Env)
    ensures Keeps(c, AskAgain(c, e))
  {
    QuietKept(c, NextTry(c, e));
    RangesAllowed(c.transfers, DueAgain(c, e));
    SendKept(NextTry(c, e), ResendSeqs(Q.Ranges(DueAgain(c, e), MAX_RESEND_SEQ)));
    KeepsTwice(c, NextTry(c, e), AskAgain(c, e));
  }

  lemma SeqLossKept(cfg: ClientConfig, c: Client, e: Env)
    ensures Keeps(c, DetectSeqLoss(cfg, c, e))
  {
    var c1 := c.(lastSeqDetect := Some(e.now));
    QuietKept(c, c1);
    if cfg.earlyResend {
      var c2 := AskLost(cfg, c1, e);
      AskLostKept(cfg, c1, e);
      AskAgainKept(c2, e);
      KeepsTwice(c, c1, c2);
      KeepsTwice(c, c2, AskAgain(c2, e));
    }
  }

  lemma CountKept(cfg: ClientConfig, c: Client, p: Packet, e: Env)
    requires p.DataSeq? && -1 <= c.seqs.highest
    ensures Keeps(c, CountNumber(cfg, c, p, e))
  {
    QuietKept(c, Counted(c, p, e.now));
    if Elapsed(c.lastSeqDetect, e.now, DETECT_INTERVAL_MS) {
      SeqLossKept(cfg, Counted(c, p, e.now), e);
      KeepsTwice(c, Counted(c, p, e.now), CountNumber(cfg, c, p, e));
    }
  }

  // ---- Truth ----

  /** What a transfer holds is what its asset says, and it lies below the ceiling the client granted. */
  ghost predicate Truthful(a: Asset, t: Transfer) {
    && (t.asm.Some? ==>
          var m := t.asm.value;
          && a.Found? && A.AsmOk(m) && m.size == |a.body|
          && (forall i :: i in m.got ==> m.bytes[i] == a.body[i])
          && A.Frontier(m) <= t.ceiling)
    && (t.headers.Some? ==> a.Found? && t.headers.value == a.fields)
  }

  ghost predicate AllTrue(truth: nat -> Asset, c: Client) {
    && (forall id :: id in c.transfers ==> Truthful(truth(id), c.transfers[id]))
    && (forall id :: id in c.ended ==> Truthful(truth(id), c.ended[id]))
  }

  lemma KeepsTrue(truth: nat -> Asset, c: Client, c': Client)
    requires AllTrue(truth, c) && Keeps(c, c')
    ensures AllTrue(truth, c')
  {
  }

  /** The packet tells the truth about its asset and stays below the limit. */
  predicate TruePacket(a: Asset, limit: nat, p: Packet) {
    if p.Data? || p.DataSeq? then
      && a.Found? && p.totalSize == |a.body| && p.offset + |p.payload| <= Min(|a.body|, limit)
      && p.payload == a.body[p.offset..p.offset + |p.payload|]
    else p.Meta? ==> a.Found? && p.fields == a.fields
  }

  /** Every transfer but id's, and all the ended ones, unchanged. */
  predicate OthersKept(c: Client, c': Client, id: nat) {
    && c'.ended == c.ended && c'.started == c.started && c'.sent == c.sent
    && c'.transfers.Keys == c.transfers.Keys && forall j :: j in c.transfers && j != id ==> c'.transfers[j] == c.transfers[j]
  }

  lemma {:induction false} FrontierAdds(got: set<int>, off: nat, n: nat, hi: nat)
    ensures FrontierOf(got + Offsets(off, off + n), hi) <= Max(FrontierOf(got, hi), off + n)
  {
    if hi > 0 { FrontierAdds(got, off, n, hi - 1); }
  }

  lemma OverwriteTrue(m: A.Asm, body: seq<Byte>, off: nat, p: seq<Byte>)
    requires A.AsmOk(m) && m.size == |body| && off + |p| <= |body| && p == body[off..off + |p|]
    requires forall i :: i in m.got ==> m.bytes[i] == body[i]
    ensures forall i :: i in A.AddTo(m, off, p).got ==> A.AddTo(m, off, p).bytes[i] == body[i]
  {
    forall i | off <= i < off + |p| ensures p[i - off] == body[i] {}
  }

  lemma SameTruth(a: Asset, t: Transfer, t': Transfer)
    requires Truthful(a, t) && t'.asm == t.asm && t'.headers == t.headers && t'.ceiling == t.ceiling
    ensures Truthful(a, t')
  {
  }

  lemma StoredTrue(a: Asset, t: Transfer, off: nat, p: seq<Byte>, now: real)
    requires t.asm.Some? && Truthful(a, t)
    requires a.Found? && off + |p| <= Min(|a.body|, t.ceiling) && p == a.body[off..off + |p|]
    ensures A.Fits(t.asm.value.size, off, |p|) && Truthful(a, StoredT(t, off, p, now))
  {
    var m := t.asm.value;
    FrontierAdds(m.got, off, |p|, m.size);
    OverwriteTrue(m, a.body, off, p);
    SameTruth(a, t.(asm := Some(A.AddTo(m, off, p))), StoredT(t, off, p, now));
  }

  lemma NewAsmTrue(a: Asset, t: Transfer, size: nat)
    requires Truthful(a, t) && a.Found? && size == |a.body| && t.asm.None?
    ensures Truthful(a, t.(asm := Some(A.NewAsm(size)), repair := R.NewRepair()))
  {
  }

  lemma PutTrue(truth: nat -> Asset, c: Client, c': Client, id: nat)
    requires AllTrue(truth, c) && OthersKept(c, c', id) && id in c.transfers && Truthful(truth(id), c'.transfers[id])
    ensures AllTrue(truth, c')
  {
  }

  lemma SizedTrue(truth: nat -> Asset, c: Client, id: nat, size: nat)
    requires AllTrue(truth, c) && id in c.transfers && truth(id).Found? && size == |truth(id).body|
    ensures var c' := Sized(c, id, size);
      && OthersKept(c, c', id) && AllTrue(truth, c') && c'.transfers[id].asm.value.size == size
      && c'.transfers[id].assetId == c.transfers[id].assetId && c'.transfers[id].ceiling == c.transfers[id].ceiling
  {
    assert Truthful(truth(id), c.transfers[id]);
    if c.transfers[id].asm.None? {
      NewAsmTrue(truth(id), c.transfers[id], size);
      PutTrue(truth, c, Sized(c, id, size), id);
    }
  }

  lemma KeepTrue(truth: nat -> Asset, c: Client, id: nat, off: nat, p: seq<Byte>, now: real)
    requires AllTrue(truth, c) && id in c.transfers && c.transfers[id].asm.Some? && truth(id).Found?
    requires off + |p| <= Min(|truth(id).body|, c.transfers[id].ceiling) && p == truth(id).body[off..off + |p|]
    ensures A.AsmOk(c.transfers[id].asm.value) && A.Fits(c.transfers[id].asm.value.size, off, |p|)
    ensures var c' := Stored(c, id, off, p, now);
      && OthersKept(c, c', id) && AllTrue(truth, c')
      && c'.transfers[id].assetId == c.transfers[id].assetId && c'.transfers[id].ceiling == c.transfers[id].ceiling
  {
    assert Truthful(truth(id), c.transfers[id]);
    StoredTrue(truth(id), c.transfers[id], off, p, now);
    assert Stored(c, id, off, p, now).transfers[id] == StoredT(c.transfers[id], off, p, now);
    PutTrue(truth, c, Stored(c, id, off, p, now), id);
  }

  /** A genuine DATA is always accepted: the size never changes and the payload always fits. */
  lemma GenuineIsStored(cfg: ClientConfig, truth: nat -> Asset, c: Client, id: nat, size: nat, off: nat, p: seq<Byte>, e: Env)
    requires AsmsOk(c) && AllTrue(truth, c) && id in c.transfers
    requires TruePacket(truth(id), c.transfers[id].ceiling, Data(id, size, off, p))
    ensures var c1 := Sized(c, id, size);
      && A.AsmOk(c1.transfers[id].asm.value) && A.Fits(c1.transfers[id].asm.value.size, off, |p|)
      && var c2 := Stored(c1, id, off, p, e.now);
         && HandleData(cfg, c, id, size, off, p, e) == AfterStored(cfg, c2, id, e)
         && AllTrue(truth, c2) && OthersKept(c, c2, id)
         && c2.transfers[id].assetId == c.transfers[id].assetId && c2.transfers[id].ceiling == c.transfers[id].ceiling
  {
    SizedTrue(truth, c, id, size);
    KeepTrue(truth, Sized(c, id, size), id, off, p, e.now);
  }
}
