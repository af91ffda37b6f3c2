/**
 The client and the byte format together: fed decoded datagrams and sound
 requests, every packet the client writes is one its encoder accepts, so encode
 never throws in the middle of a session, and the server reads it back as meant.
 */
module ClientWire {
  import opened Intervals
  import opened Packets
  import opened Clients
  import opened ClientRuns
  import opened ClientSteps
  import CH = ClientHistory
  import A = Reassemblies
  import R = Repairs
  import Q = SeqTracking
  import S = Scheduling
  import W = Wire

  predicate FitTransfer(id: nat, t: Transfer) {
    && W.WellFormed(Req(id, t.initialGrant, t.assetId))
    && (t.asm.Some? ==> t.asm.value.size <= U32_MAX)
  }

  /** Numbers still missing or asked for are below the highest seen. */
  predicate NumbersFit(st: Q.Seqs) {
    && -1 <= st.highest <= U32_MAX
    && (forall n :: n in Q.Keys(st.missing) ==> n < st.highest)
    && (forall n :: n in Q.Keys(st.claimed) ==> n < st.highest)
  }

  predicate AllFit(m: map<nat, Transfer>) { forall id :: id in m ==> FitTransfer(id, m[id]) }

  predicate AllWell(ps: seq<Packet>) { forall p :: p in ps ==> W.WellFormed(p) }

  predicate WireOk(c: Client) { AllFit(c.transfers) && NumbersFit(c.seqs) && AllWell(c.sent) }

  // ---- What is written ----

  lemma SendWires(c: Client, ps: seq<Packet>)
    requires WireOk(c) && AllWell(ps)
    ensures WireOk(Send(c, ps))
  {
  }

  lemma {:induction false} ResendsWell(id: nat, rs: seq<Range>, lo: int, hi: int)
    requires Disjoint(rs, lo, hi) && 0 <= lo && hi <= U32_MAX && id <= U64_MAX
    ensures AllWell(Resends(id, rs))
  {
    if rs != [] { ResendsWell(id, rs[1..], rs[0].end, hi); }
  }

  lemma ClaimWires(cfg: ClientConfig, c: Client, id: nat, gaps: seq<Range>, e: Env)
    requires Inv(cfg, c) && id in c.transfers && c.transfers[id].asm.Some? && Disjoint(gaps, 0, c.transfers[id].asm.value.size)
    requires WireOk(c)
    ensures WireOk(ClaimGaps(c, id, gaps, e))
  {
    var t := c.transfers[id];
    assert ViewOk(cfg, id, ViewOf(c, id)) && FitTransfer(id, t);
    R.ClaimEffect(t.repair, R.Lacking(t.asm.value), gaps, e.now, e.delay, t.asm.value.size);
    ResendsWell(id, R.ClaimOut(t.repair, R.Lacking(t.asm.value), gaps, e.now), 0, t.asm.value.size);
  }

  lemma {:induction false} DecidedWell(cands: seq<S.Entry>, rank: nat, available: int, inc: int, idle: bool)
    requires forall e :: e in cands ==> e.id <= U64_MAX && e.size <= U32_MAX && S.Wants(e)
    ensures AllWell(GrantPackets(S.Decide(cands, rank, available, inc, idle)))
  {
    var ds := S.Decide(cands, rank, available, inc, idle);
    if ds != [] {
      var e := cands[0];
      assert e in cands;
      forall x | x in cands[1..] ensures x.id <= U64_MAX && x.size <= U32_MAX && S.Wants(x) { assert x in cands; }
      DecidedWell(cands[1..], rank + 1, available - (Min(e.size, e.granted + available) - e.granted), inc, idle);
    }
  }

  lemma EntriesFit(cfg: ClientConfig, c: Client, e: S.Entry)
    requires Inv(cfg, c) && WireOk(c) && e in c.sched.rpcs
    ensures e.id <= U64_MAX && e.size <= U32_MAX
  {
    S.LookupIn(c.sched.rpcs, c.sched.next);
    assert ViewOk(cfg, e.id, ViewOf(c, e.id));
    assert ViewOf(c, e.id).entry == Some(e);
    assert FitTransfer(e.id, c.transfers[e.id]);
  }

  lemma PumpWires(cfg: ClientConfig, c: Client, e: Env)
    requires Inv(cfg, c) && WireOk(c)
    ensures WireOk(Pump(c, e))
  {
    var st, reserved := c.sched.(budget := e.budget), Reserved(c.transfers);
    S.CandidateFacts(st.rpcs, st.next);
    forall x | x in S.Candidates(st.rpcs) ensures x.id <= U64_MAX && x.size <= U32_MAX && S.Wants(x) { EntriesFit(cfg, c, x); }
    DecidedWell(S.Candidates(st.rpcs), 0, S.Available(st, reserved), S.Increment(st.minIncrement, st.budget), S.Outstanding(st.rpcs) == 0);
    forall id | id in Pump(c, e).transfers ensures FitTransfer(id, Pump(c, e).transfers[id]) { assert FitTransfer(id, c.transfers[id]); }
  }

  lemma PutWires(c: Client, id: nat, t: Transfer)
    requires WireOk(c) && FitTransfer(id, t)
    ensures WireOk(Put(c, id, t))
  {
  }

  lemma FinishWires(cfg: ClientConfig, c: Client, id: nat, ok: bool, e: Env)
    requires id in c.transfers && InvBut(cfg, c, id) && Endable(cfg, id, c.transfers[id], ViewOf(c, id)) && WireOk(c)
    requires ok ==> Whole(c.transfers[id]) && !CanStart(c.transfers[id])
    ensures WireOk(Finish(c, id, ok, e))
  {
    FinishIsOver(c, id, ok, e);
    OverKeeps(cfg, c, id, ok, e.behind);
    PumpWires(cfg, Over(c, id, ok, e.behind), e);
  }

  lemma FinishLiveWires(cfg: ClientConfig, c: Client, id: nat, ok: bool, e: Env)
    requires Inv(cfg, c) && id in c.transfers && WireOk(c)
    requires ok ==> Whole(c.transfers[id]) && !CanStart(c.transfers[id])
    ensures WireOk(Finish(c, id, ok, e))
  {
    assert ViewOk(cfg, id, ViewOf(c, id));
    LiveIsEndable(cfg, id, c.transfers[id], ViewOf(c, id));
    FinishWires(cfg, c, id, ok, e);
  }

  // ---- Sequence numbers ----

  lemma {:induction false} FillBelow(from: nat, upto: nat, g: Q.Gone)
    ensures forall n :: n in Q.Keys(Q.Fill(from, upto, g)) ==> n < upto
    decreases upto - from
  {
    if from < upto {
      FillBelow(from + 1, upto, g);
      assert Q.Fill(from, upto, g)[1..] == Q.Fill(from + 1, upto, g);
    }
  }

  lemma ArriveFits(st: Q.Seqs, n: nat, now: real, where: Option<Q.Hint>)
    requires NumbersFit(st) && n <= U32_MAX
    ensures NumbersFit(Q.Arrive(st, n, now, where).0)
  {
    if n > st.highest {
      var g := Q.Gone(now, Q.GapHint(st, n, where));
      FillBelow(st.highest + 1, n, g);
      Q.KeysConcat(st.missing, if n - st.highest - 1 <= Q.MAX_GAP then Q.Fill(st.highest + 1, n, g) else []);
    } else {
      Q.MinusKeys(st.missing, {n});
      Q.MinusKeys(st.claimed, {n});
    }
  }

  lemma {:induction false} LostInKeys(ms: seq<Q.Num<Q.Gone>>, highest: int, now: real, allowance: int, window: real, tail: Option<real>)
    ensures forall n :: n in Q.LostNums(ms, highest, now, allowance, window, tail) ==> n in Q.Keys(ms)
  {
    if ms != [] { LostInKeys(ms[1..], highest, now, allowance, window, tail); }
  }

  lemma {:induction false} AskKeys(nums: seq<nat>, ms: seq<Q.Num<Q.Gone>>, now: real)
    ensures forall n :: n in Q.Keys(Q.FirstAsk(nums, ms, now)) ==> n in nums
  {
    if nums != [] { AskKeys(nums[1..], ms, now); }
  }

  lemma {:induction false} AgainInKeys(cs: seq<Q.Num<Q.Asked>>, now: real, delay: real, maxTries: nat, repaired: Q.Hint -> bool)
    ensures forall n :: n in Q.Again(cs, now, delay, maxTries, repaired) ==> n in Q.Keys(cs)
    ensures Q.Keys(Q.StillAsked(cs, now, delay, maxTries, repaired)) <= Q.Keys(cs)
  {
    if cs != [] {
      AgainInKeys(cs[1..], now, delay, maxTries, repaired);
      var still := Q.StillAsked(cs[1..], now, delay, maxTries, repaired);
      var c' := Q.Num(cs[0].num, Q.Asked(now, cs[0].info.tries + 1, cs[0].info.hint));
      assert ([cs[0]] + still)[1..] == still && ([c'] + still)[1..] == still;
    }
  }

  lemma {:induction false} InsertIn(n: nat, nums: seq<nat>)
    ensures forall k :: k in Q.InsertNum(n, nums) ==> k == n || k in nums
  {
    if nums != [] { InsertIn(n, nums[1..]); }
  }

  lemma {:induction false} SortIn(nums: seq<nat>)
    ensures forall k :: k in Q.SortNums(nums) ==> k in nums
  {
    if nums != [] {
      SortIn(nums[1..]);
      InsertIn(nums[0], Q.SortNums(nums[1..]));
    }
  }

  lemma {:induction false} GroupsBelow(cur: Range, nums: seq<nat>, maxRange: nat, top: nat)
    requires 0 <= cur.start < cur.end <= top && forall n :: n in nums ==> n < top
    ensures forall r :: r in Q.GroupFrom(cur, nums, maxRange) ==> 0 <= r.start < r.end <= top
    decreases |nums|
  {
    if nums != [] {
      assert nums[0] in nums;
      forall n | n in nums[1..] ensures n < top { assert n in nums; }
      if cur.end == nums[0] && cur.end - cur.start < maxRange {
        GroupsBelow(Range(cur.start, nums[0] + 1), nums[1..], maxRange, top);
      } else {
        GroupsBelow(Range(nums[0], nums[0] + 1), nums[1..], maxRange, top);
      }
    }
  }

  lemma {:induction false} ResendSeqsWell(rs: seq<Range>)
    requires forall r :: r in rs ==> 0 <= r.start < r.end <= U32_MAX
    ensures AllWell(ResendSeqs(rs))
  {
    if rs != [] {
      assert rs[0] in rs;
      ResendSeqsWell(rs[1..]);
    }
  }

  lemma RangesWell(nums: seq<nat>)
    requires forall n :: n in nums ==> n < U32_MAX
    ensures AllWell(ResendSeqs(Q.Ranges(nums, MAX_RESEND_SEQ)))
  {
    var s := Q.SortNums(nums);
    SortIn(nums);
    if s != [] {
      assert s[0] in s;
      forall n | n in s[1..] ensures n < U32_MAX { assert n in s; }
      GroupsBelow(Range(s[0], s[0] + 1), s[1..], MAX_RESEND_SEQ, U32_MAX);
    }
    ResendSeqsWell(Q.Ranges(nums, MAX_RESEND_SEQ));
  }

  lemma AskLostWires(cfg: ClientConfig, c: Client, e: Env)
    requires WireOk(c)
    ensures WireOk(AskLost(cfg, c, e))
  {
    var lost := Q.LostNums(c.seqs.missing, c.seqs.highest, e.now, cfg.reorderPackets, e.window, e.tail);
    LostInKeys(c.seqs.missing, c.seqs.highest, e.now, cfg.reorderPackets, e.window, e.tail);
    Q.MinusKeys(c.seqs.missing, Q.SetOf(lost));
    Q.KeysConcat(c.seqs.claimed, Q.FirstAsk(lost, c.seqs.missing, e.now));
    AskKeys(lost, c.seqs.missing, e.now);
    RangesWell(lost);
  }

  lemma AskAgainWires(c: Client, e: Env)
    requires WireOk(c)
    ensures WireOk(AskAgain(c, e))
  {
    AgainInKeys(c.seqs.claimed, e.now, 2.0 * e.delay, SEQ_RESEND_TRIES, RepairedIn(c.transfers));
    RangesWell(DueAgain(c, e));
  }

  lemma SeqLossWires(cfg: ClientConfig, c: Client, e: Env)
    requires WireOk(c)
    ensures WireOk(DetectSeqLoss(cfg, c, e))
  {
    var c1 := c.(lastSeqDetect := Some(e.now));
    if cfg.earlyResend {
      AskLostWires(cfg, c1, e);
      AskAgainWires(AskLost(cfg, c1, e), e);
    }
  }

  // ---- The handlers ----

  lemma DetectWires(cfg: ClientConfig, c: Client, id: nat, e: Env)
    requires Inv(cfg, c) && id in c.transfers && WireOk(c)
    ensures WireOk(DetectLoss(cfg, c, id, e))
  {
    var t := c.transfers[id].(lastDetect := Some(e.now));
    var c1 := Put(c, id, t);
    assert FitTransfer(id, c.transfers[id]);
    PutWires(c, id, t);
    TouchKeeps(cfg, c, id, t);
    if cfg.earlyResend && t.asm.Some? && !c.negotiated && SuspectLimit(cfg, c1, id) > 0 {
      assert ViewOk(cfg, id, ViewOf(c1, id));
      var gaps := A.Missing(t.asm.value, SuspectLimit(cfg, c1, id));
      var t2 := t.(repair := t.repair.(suspects := R.Suspects(t.repair.suspects, gaps, e.now)));
      TouchKeeps(cfg, c1, id, t2);
      PutWires(c1, id, t2);
      DetectGapsFit(cfg, c1, id, e);
      ClaimWires(cfg, Put(c1, id, t2), id, R.Lost(t.repair.suspects, gaps, e.now, e.window), e);
    }
  }

  lemma ProbeWires(cfg: ClientConfig, c: Client, id: nat, e: Env)
    requires Inv(cfg, c) && id in c.transfers && WireOk(c)
    ensures WireOk(TailProbe(cfg, c, id, TickGrant(c, id), e))
  {
    var t, granted := c.transfers[id], TickGrant(c, id);
    if ProbeDue(cfg, t, granted, e) {
      var t' := t.(tailProbed := true);
      GrantWithinSize(cfg, c, id);
      TouchKeeps(cfg, c, id, t');
      assert FitTransfer(id, t);
      PutWires(c, id, t');
      ProbeGapFits(t.asm.value, granted, PayloadOf(c));
      ClaimWires(cfg, Put(c, id, t'), id, [LastPacket(t.asm.value, granted, PayloadOf(c))], e);
    }
  }

  lemma RerequestWires(cfg: ClientConfig, c: Client, id: nat, e: Env)
    requires Inv(cfg, c) && id in c.transfers && c.transfers[id].asm.Some? && WireOk(c)
    ensures WireOk(Rerequest(c, id, TickGrant(c, id), e))
  {
    var t, granted := c.transfers[id], TickGrant(c, id);
    var grant := if granted > t.initialGrant then [Grant(id, granted, 0)] else [];
    GrantWithinSize(cfg, c, id);
    assert ViewOk(cfg, id, ViewOf(c, id)) && FitTransfer(id, t);
    OneGrant(id, granted);
    LowSendKeeps(cfg, c, grant, id);
    SendWires(c, grant);
    RecoverGapsFit(t.asm.value, granted, PayloadOf(c));
    ClaimWires(cfg, Send(c, grant), id, RecoverGaps(t.asm.value, granted, PayloadOf(c)), e);
  }

  lemma TriedWires(c: Client, id: nat, now: real)
    requires id in c.transfers && WireOk(c)
    ensures WireOk(OutOfTries(c, id)) && WireOk(Attempted(c, id, now))
  {
    assert FitTransfer(id, c.transfers[id]);
  }

  lemma RecoverWires(cfg: ClientConfig, c: Client, id: nat, e: Env)
    requires Inv(cfg, c) && id in c.transfers && WireOk(c)
    ensures WireOk(Recover(cfg, c, id, TickGrant(c, id), e))
  {
    assert ViewOk(cfg, id, ViewOf(c, id));
    TriedWires(c, id, e.now);
    if c.transfers[id].recoveries == cfg.maxRecoveries {
      OutOfTriesEnds(cfg, c, id);
      FinishWires(cfg, OutOfTries(c, id), id, false, e);
    } else {
      AttemptKeeps(cfg, c, id, e.now);
      if c.transfers[id].asm.Some? { RerequestWires(cfg, Attempted(c, id, e.now), id, e); }
    }
  }

  lemma TickWires(cfg: ClientConfig, c: Client, id: nat, e: Env)
    requires Inv(cfg, c) && Rest(c) && id in c.transfers && WireOk(c)
    ensures WireOk(TickOne(cfg, c, id, e))
  {
    var c1 := if c.transfers[id].asm.Some? then DetectLoss(cfg, c, id, e) else c;
    DetectLossKeeps(cfg, c, id, e);
    DetectWires(cfg, c, id, e);
    var t, granted := c1.transfers[id], TickGrant(c1, id);
    if Waiting(t, granted) {
      assert FitTransfer(id, t);
      PutWires(c1, id, t.(lastProgress := e.now));
    } else {
      TailProbeKeeps(cfg, c1, id, e);
      ProbeWires(cfg, c1, id, e);
      var c2 := TailProbe(cfg, c1, id, granted, e);
      if Stalled(c2.transfers[id], e) { RecoverWires(cfg, c2, id, e); }
    }
  }

  lemma BegunWires(c: Client, id: nat)
    requires id in c.transfers && WireOk(c)
    ensures WireOk(MaybeStart(c, id))
  {
    assert FitTransfer(id, c.transfers[id]);
    PutWires(c, id, c.transfers[id].(settled := true));
  }

  lemma FlushWires(c: Client, id: nat, behind: bool)
    requires id in c.transfers && WireOk(c)
    ensures WireOk(Flush(c, id, behind))
  {
    assert FitTransfer(id, c.transfers[id]);
    PutWires(c, id, Flushed(c.transfers[id], behind));
  }

  lemma AfterStoredWires(cfg: ClientConfig, c: Client, id: nat, e: Env)
    requires Inv(cfg, c) && RestBut(c, id) && id in c.transfers && c.transfers[id].asm.Some? && WireOk(c)
    ensures WireOk(AfterStored(cfg, c, id, e))
  {
    var c0 := MaybeStart(c, id);
    var c1 := Flush(c0, id, e.behind);
    BegunWires(c, id);
    FlushWires(c0, id, e.behind);
    MaybeStartKeeps(cfg, c, id);
    FlushKeeps(cfg, c0, id, e.behind);
    assert ViewOk(cfg, id, ViewOf(c0, id));
    FlushedOk(c0.transfers[id], e.behind);
    if A.Complete(c1.transfers[id].asm.value) && c1.transfers[id].headers.Some? {
      FinishLiveWires(cfg, c1, id, true, e);
    } else if Elapsed(c1.transfers[id].lastDetect, e.now, DETECT_INTERVAL_MS) {
      DetectWires(cfg, c1, id, e);
    }
  }

  lemma SizedWires(c: Client, id: nat, size: nat)
    requires id in c.transfers && WireOk(c) && size <= U32_MAX
    ensures WireOk(Sized(c, id, size))
  {
    assert FitTransfer(id, c.transfers[id]);
  }

  lemma StoredWires(c: Client, id: nat, offset: nat, payload: seq<Byte>, now: real)
    requires id in c.transfers && c.transfers[id].asm.Some? && WireOk(c)
    requires A.AsmOk(c.transfers[id].asm.value) && A.Fits(c.transfers[id].asm.value.size, offset, |payload|)
    ensures WireOk(Stored(c, id, offset, payload, now))
  {
    assert FitTransfer(id, c.transfers[id]);
    PutWires(c, id, StoredT(c.transfers[id], offset, payload, now));
  }

  lemma DataWires(cfg: ClientConfig, c: Client, id: nat, size: nat, offset: nat, payload: seq<Byte>, e: Env)
    requires Inv(cfg, c) && Rest(c) && AsmsOk(c) && id in c.transfers && WireOk(c) && size <= U32_MAX
    ensures WireOk(HandleData(cfg, c, id, size, offset, payload, e))
  {
    var c1 := Sized(c, id, size);
    SizedWires(c, id, size);
    SizedKeeps(cfg, c, id, size);
    InvAsmsOk(cfg, c1);
    var m := c1.transfers[id].asm.value;
    if size != m.size || !A.Fits(m.size, offset, |payload|) {
      FinishLiveWires(cfg, c1, id, false, e);
    } else {
      StoredWires(c1, id, offset, payload, e.now);
      StoredKeeps(cfg, c1, id, offset, payload, e.now);
      AfterStoredWires(cfg, Stored(c1, id, offset, payload, e.now), id, e);
    }
  }

  lemma MetaWires(cfg: ClientConfig, c: Client, id: nat, fields: seq<Field>, e: Env)
    requires Inv(cfg, c) && Rest(c) && id in c.transfers && WireOk(c)
    ensures WireOk(HandleMeta(c, id, fields, e))
  {
    var t := c.transfers[id];
    if t.headers.None? {
      var c0 := Put(c, id, t.(headers := Some(fields), lastProgress := e.now, recoveries := 0));
      assert FitTransfer(id, t);
      PutWires(c, id, c0.transfers[id]);
      HeadersKeep(cfg, c, id, fields, e.now);
      BegunWires(c0, id);
      MaybeStartKeeps(cfg, c0, id);
      if t.asm.Some? && A.Complete(t.asm.value) { FinishLiveWires(cfg, MaybeStart(c0, id), id, true, e); }
    }
  }

  lemma PacketWires(cfg: ClientConfig, c: Client, p: Packet, e: Env)
    requires Inv(cfg, c) && Rest(c) && AsmsOk(c) && WireOk(c) && W.Typed(p)
    ensures WireOk(HandlePacket(cfg, c, p, e))
  {
    if p.rpc in c.transfers {
      if p.Meta? {
        MetaWires(cfg, c, p.rpc, p.fields, e);
      } else if p.Data? || p.DataSeq? {
        DataWires(cfg, c, p.rpc, p.totalSize, p.offset, p.payload, e);
      } else if p.Error? {
        FinishLiveWires(cfg, c, p.rpc, false, e);
      }
    }
  }

  lemma CountWires(cfg: ClientConfig, c: Client, p: Packet, e: Env)
    requires WireOk(c) && p.DataSeq? && W.Typed(p)
    ensures WireOk(CountNumber(cfg, c, p, e))
  {
    ArriveFits(c.seqs, p.num, e.now, Some(Q.Hint(p.rpc, p.offset, p.offset + |p.payload|)));
    if Elapsed(c.lastSeqDetect, e.now, DETECT_INTERVAL_MS) { SeqLossWires(cfg, Counted(c, p, e.now), e); }
  }

  lemma ArriveWires(cfg: ClientConfig, c: Client, p: Packet, e: Env)
    requires Inv(cfg, c) && Rest(c) && AsmsOk(c) && WireOk(c) && W.Typed(p)
    ensures WireOk(Arrive(cfg, c, p, e))
  {
    var c1 := if p.DataSeq? then CountNumber(cfg, c, p, e) else c;
    if p.DataSeq? {
      CountKeeps(cfg, c, p, e);
      CountWires(cfg, c, p, e);
    }
    PacketKeeps(cfg, c1, p, e);
    PacketWires(cfg, c1, p, e);
    PumpWires(cfg, HandlePacket(cfg, c1, p, e), e);
  }

  lemma HelloWires(cfg: ClientConfig, c: Client)
    requires WireOk(c)
    ensures WireOk(Hello'(cfg, c))
  {
  }

  lemma StartWires(cfg: ClientConfig, c: Client, id: nat, b: Begun, cls: S.Class, grant: nat, now: real)
    requires WireOk(c) && W.WellFormed(Req(id, grant, b.assetId))
    ensures WireOk(Start(cfg, c, id, b, cls, grant, now))
  {
    var c1 := Put(c, id, NewTransfer(b.assetId, b.streaming, cls, grant, now)).(started := c.started[id := b]);
    HelloWires(cfg, c1);
  }

  lemma PullWires(cfg: ClientConfig, c: Client, id: nat, e: Env)
    requires Inv(cfg, c) && id in c.transfers && WireOk(c)
    ensures WireOk(Pull(c, id, e))
  {
    if c.transfers[id].stream.Some? && c.transfers[id].stream.value.paused {
      assert FitTransfer(id, c.transfers[id]);
      ResumedKeeps(cfg, c, id);
      PumpWires(cfg, Resumed(c, id), e);
    }
  }

  lemma CancelWires(cfg: ClientConfig, c: Client, id: nat, e: Env)
    requires Inv(cfg, c) && id in c.transfers && c.transfers[id].settled && WireOk(c)
    ensures WireOk(Cancel(c, id, e))
  {
    var t := c.transfers[id];
    assert ViewOk(cfg, id, ViewOf(c, id));
    LiveIsEndable(cfg, id, t, ViewOf(c, id));
    OneEvent(Cancelled(id));
    ForgottenKeeps(cfg, c, id, t, [Cancelled(id)]);
    PumpWires(cfg, Forget(c, id, t).(events := c.events + [Cancelled(id)]), e);
  }

  // ---- Runs ----

  /** What comes from outside is sound: decoded datagrams, and requests whose REQ can be encoded. */
  ghost predicate SoundStep(st: CH.Step) {
    && (st.Took? ==> exists b :: W.Decode(b) == Some(st.p))
    && (st.Begin? ==> W.WellFormed(Req(st.id, st.grant, st.begun.assetId)))
  }

  lemma StepWires(cfg: ClientConfig, a: Client, st: CH.Step, b: Client)
    requires Inv(cfg, a) && Rest(a) && WireOk(a) && CH.Moves(cfg, a, st, b) && SoundStep(st)
    ensures WireOk(b)
  {
    match st
    case Begin(id, begun, cls, grant, now) => StartWires(cfg, a, id, begun, cls, grant, now);
    case Took(p, e) =>
      var bytes :| W.Decode(bytes) == Some(p);
      W.EncodeDecode(bytes);
      ArriveWires(cfg, a, p, e);
    case Ticked(id, e) => TickWires(cfg, a, id, e);
    case SeqTicked(e) => SeqLossWires(cfg, a, e);
    case Pulled(id, e) => PullWires(cfg, a, id, e);
    case Dropped(id, e) => CancelWires(cfg, a, id, e);
    case Aborted(id, e) => FinishLiveWires(cfg, a, id, false, e);
    case Pumped(e) => PumpWires(cfg, a, e);
  }

  lemma {:induction false} RunWires(cfg: ClientConfig, a: Client, steps: seq<CH.Step>, b: Client)
    requires Inv(cfg, a) && Rest(a) && WireOk(a) && CH.Reaches(cfg, a, steps, b)
    requires forall i :: 0 <= i < |steps| ==> SoundStep(steps[i])
    ensures WireOk(b)
    decreases |steps|
  {
    if steps != [] {
      var m :| CH.Moves(cfg, a, steps[0], m) && CH.Reaches(cfg, m, steps[1..], b);
      CH.StepKeeps(cfg, a, steps[0], m);
      StepWires(cfg, a, steps[0], m);
      RunWires(cfg, m, steps[1..], b);
    }
  }

  /** Fed decoded datagrams, the client writes nothing its encoder would refuse, and the server reads all of it back. */
  lemma EverythingWrittenDecodes(cfg: ClientConfig, budget: nat, minIncrement: int, steps: seq<CH.Step>, c: Client)
    requires CH.IsRun(cfg, budget, minIncrement, steps, c)
    requires forall i :: 0 <= i < |steps| ==> SoundStep(steps[i])
    ensures forall p :: p in c.sent ==> W.WellFormed(p) && W.Decode(W.Encode(p)) == Some(p)
  {
    CH.NewKeeps(cfg, budget, minIncrement);
    RunWires(cfg, NewClient(cfg, budget, minIncrement), steps, c);
    forall p | p in c.sent ensures W.Decode(W.Encode(p)) == Some(p) { W.DecodeEncode(p); }
  }
}
