/**
 Session-wide repair in every run of the client: of the sequence numbers it
 names in RESEND_SEQ, counted over all the packets it ever writes, none occurs
 more often than SEQ_RESEND_TRIES allows.
 */
module ClientNumbers {
  import opened Intervals
  import opened Packets
  import opened Clients
  import opened ClientRuns
  import opened ClientSteps
  import CH = ClientHistory
  import CP = ClientRepairs
  import A = Reassemblies
  import R = Repairs
  import Q = SeqTracking
  import S = Scheduling

  // ---- Counting ----

  /** How many of the packets ask for number n. */
  function Times(sent: seq<Packet>, n: nat): nat {
    if sent == [] then 0
    else
      var p := sent[|sent| - 1];
      Times(sent[..|sent| - 1], n) + if p.ResendSeq? && p.start <= n < p.end then 1 else 0
  }

  lemma {:induction false} TimesConcat(a: seq<Packet>, b: seq<Packet>, n: nat)
    ensures Times(a + b, n) == Times(a, n) + Times(b, n)
  {
    if b == [] {
      assert a + b == a;
    } else {
      assert (a + b)[..|a + b| - 1] == a + b[..|b| - 1];
      TimesConcat(a, b[..|b| - 1], n);
    }
  }

  lemma {:induction false} OtherPackets(ps: seq<Packet>, n: nat)
    requires forall p :: p in ps ==> !p.ResendSeq?
    ensures Times(ps, n) == 0
  {
    if ps != [] {
      forall p | p in ps[..|ps| - 1] ensures !p.ResendSeq? { assert p in ps; }
      OtherPackets(ps[..|ps| - 1], n);
    }
  }

  lemma TimesFront(p: Packet, ps: seq<Packet>, n: nat)
    ensures Times([p] + ps, n) == (if p.ResendSeq? && p.start <= n < p.end then 1 else 0) + Times(ps, n)
  {
    TimesConcat([p], ps, n);
    assert [p][..0] == [];
  }

  /** Disjoint ranges ask for a number once if they cover it. */
  lemma {:induction false} RangesAskOnce(rs: seq<Range>, lo: int, hi: int, n: nat)
    requires Disjoint(rs, lo, hi) && 0 <= lo
    ensures Times(ResendSeqs(rs), n) == if n in Covered(rs) then 1 else 0
  {
    if rs != [] {
      var p := ResendSeq(0, Max(0, rs[0].start), Max(0, rs[0].end));
      RangesAskOnce(rs[1..], rs[0].end, hi, n);
      DisjointBounds(rs[1..], rs[0].end, hi);
      TimesFront(p, ResendSeqs(rs[1..]), n);
    }
  }

  lemma NumbersAskOnce(nums: seq<nat>, hi: int, n: nat)
    requires (forall k :: multiset(nums)[k] <= 1) && forall k :: k in nums ==> k < hi
    ensures Times(ResendSeqs(Q.Ranges(nums, MAX_RESEND_SEQ)), n) == multiset(nums)[n]
  {
    Q.RangesCover(nums, MAX_RESEND_SEQ, hi);
    RangesAskOnce(Q.Ranges(nums, MAX_RESEND_SEQ), 0, hi, n);
    assert n in nums <==> multiset(nums)[n] == 1;
  }

  // ---- The tracker's invariant, and the packets, in step ----

  ghost predicate NumbersInv(c: Client, past: Q.Past, now: real) {
    && Q.SeqsOk(c.seqs, past, now, SEQ_RESEND_TRIES)
    && forall n: nat :: Times(c.sent, n) == past.asked[n]
  }

  /** A step that touches neither the tracker, nor whether numbers are in use, nor the numbers asked for. */
  ghost predicate Quiet(c: Client, c': Client) {
    c'.seqs == c.seqs && c'.negotiated == c.negotiated && forall n: nat :: Times(c'.sent, n) == Times(c.sent, n)
  }

  lemma QuietSent(c: Client, c': Client, ps: seq<Packet>)
    requires c'.seqs == c.seqs && c'.negotiated == c.negotiated && c'.sent == c.sent + ps && forall p :: p in ps ==> !p.ResendSeq?
    ensures Quiet(c, c')
  {
    forall n: nat ensures Times(c'.sent, n) == Times(c.sent, n) {
      TimesConcat(c.sent, ps, n);
      OtherPackets(ps, n);
    }
  }

  lemma {:induction false} LaterIsOk(st: Q.Seqs, past: Q.Past, before: real, now: real)
    requires Q.SeqsOk(st, past, before, SEQ_RESEND_TRIES) && before <= now
    ensures Q.SeqsOk(st, past, now, SEQ_RESEND_TRIES)
  {
    Q.LaterInOrder(st.settled, before, now);
  }

  lemma QuietKeeps(c: Client, c': Client, past: Q.Past, before: real, now: real)
    requires NumbersInv(c, past, before) && Quiet(c, c') && before <= now
    ensures NumbersInv(c', past, now)
  {
    LaterIsOk(c.seqs, past, before, now);
  }

  // ---- The steps that ask ----

  /** The packets that ask for these numbers are counted as the tracker counts them. */
  lemma AskedMore(sent: seq<Packet>, nums: seq<nat>, asked: multiset<nat>, hi: int)
    requires forall n: nat :: Times(sent, n) == asked[n]
    requires (forall k :: multiset(nums)[k] <= 1) && forall k :: k in nums ==> k < hi
    ensures forall n: nat :: Times(sent + ResendSeqs(Q.Ranges(nums, MAX_RESEND_SEQ)), n) == (asked + multiset(nums))[n]
  {
    forall n: nat ensures Times(sent + ResendSeqs(Q.Ranges(nums, MAX_RESEND_SEQ)), n) == (asked + multiset(nums))[n] {
      TimesConcat(sent, ResendSeqs(Q.Ranges(nums, MAX_RESEND_SEQ)), n);
      NumbersAskOnce(nums, hi, n);
    }
  }

  /** Numbers declared lost, and numbers asked for again, are named once each and at most the highest. */
  lemma LostFacts(st: Q.Seqs, past: Q.Past, now: real, allowance: int, window: real, tail: Option<real>)
    requires Q.SeqsOk(st, past, now, SEQ_RESEND_TRIES)
    ensures var lost := Q.LostNums(st.missing, st.highest, now, allowance, window, tail);
      (forall k :: multiset(lost)[k] <= 1) && forall k :: k in lost ==> k < st.highest + 1
  {
    Q.LostAreMissing(st.missing, st.highest, now, allowance, window, tail);
  }

  lemma AgainFacts(st: Q.Seqs, past: Q.Past, now: real, delay: real, repaired: Q.Hint -> bool)
    requires Q.SeqsOk(st, past, now, SEQ_RESEND_TRIES)
    ensures var again := Q.Again(st.claimed, now, delay, SEQ_RESEND_TRIES, repaired);
      (forall k :: multiset(again)[k] <= 1) && forall k :: k in again ==> k < st.highest + 1
  {
    Q.RepeatsSplit(st.claimed, now, delay, SEQ_RESEND_TRIES, repaired);
  }

  lemma AskLostCounts(cfg: ClientConfig, c: Client, past: Q.Past, e: Env) returns (past': Q.Past)
    requires NumbersInv(c, past, e.now)
    ensures NumbersInv(AskLost(cfg, c, e), past', e.now)
  {
    var lost := Q.LostNums(c.seqs.missing, c.seqs.highest, e.now, cfg.reorderPackets, e.window, e.tail);
    past' := past.(named := past.named + multiset(lost), asked := past.asked + multiset(lost));
    Q.DetectKeeps(c.seqs, past, e.now, e.now, cfg.reorderPackets, e.window, e.tail, SEQ_RESEND_TRIES);
    LostFacts(c.seqs, past, e.now, cfg.reorderPackets, e.window, e.tail);
    AskedMore(c.sent, lost, past.asked, c.seqs.highest + 1);
  }

  lemma AgainTracked(st: Q.Seqs, past: Q.Past, now: real, delay: real, repaired: Q.Hint -> bool, st': Q.Seqs, again: seq<nat>)
    requires Q.SeqsOk(st, past, now, SEQ_RESEND_TRIES)
    requires st' == Q.Repeated(st, now, delay, SEQ_RESEND_TRIES, repaired)
    requires again == Q.Again(st.claimed, now, delay, SEQ_RESEND_TRIES, repaired)
    ensures Q.SeqsOk(st', past.(asked := past.asked + multiset(again)), now, SEQ_RESEND_TRIES)
    ensures (forall k :: multiset(again)[k] <= 1) && forall k :: k in again ==> k < st.highest + 1
  {
    Q.RepeatsKeep(st, past, now, now, delay, SEQ_RESEND_TRIES, repaired);
    AgainFacts(st, past, now, delay, repaired);
  }

  lemma AskAgainCounts(c: Client, past: Q.Past, e: Env) returns (past': Q.Past)
    requires NumbersInv(c, past, e.now)
    ensures NumbersInv(AskAgain(c, e), past', e.now)
  {
    var again := DueAgain(c, e);
    past' := past.(asked := past.asked + multiset(again));
    AgainTracked(c.seqs, past, e.now, 2.0 * e.delay, RepairedIn(c.transfers), NextTry(c, e).seqs, again);
    AskedMore(c.sent, again, past.asked, c.seqs.highest + 1);
    SentOnly(NextTry(c, e), AskAgain(c, e), past', e.now);
  }

  lemma SentOnly(c: Client, c': Client, past: Q.Past, now: real)
    requires Q.SeqsOk(c.seqs, past, now, SEQ_RESEND_TRIES) && c'.seqs == c.seqs
    requires forall n: nat :: Times(c'.sent, n) == past.asked[n]
    ensures NumbersInv(c', past, now)
  {
  }

  lemma SeqLossCounts(cfg: ClientConfig, c: Client, past: Q.Past, e: Env) returns (past': Q.Past)
    requires NumbersInv(c, past, e.now)
    ensures NumbersInv(DetectSeqLoss(cfg, c, e), past', e.now)
  {
    var c1 := c.(lastSeqDetect := Some(e.now));
    past' := past;
    if cfg.earlyResend {
      past' := AskLostCounts(cfg, c1, past, e);
      past' := AskAgainCounts(AskLost(cfg, c1, e), past', e);
    }
  }

  lemma CountCounts(cfg: ClientConfig, c: Client, p: Packet, past: Q.Past, e: Env) returns (past': Q.Past)
    requires NumbersInv(c, past, e.now) && p.DataSeq?
    ensures NumbersInv(CountNumber(cfg, c, p, e), past', e.now)
  {
    var where := Some(Q.Hint(p.rpc, p.offset, p.offset + |p.payload|));
    past' := past.(arrived := past.arrived + {p.num});
    Q.ArriveKeeps(c.seqs, past, e.now, p.num, e.now, where, SEQ_RESEND_TRIES);
    if Elapsed(c.lastSeqDetect, e.now, DETECT_INTERVAL_MS) { past' := SeqLossCounts(cfg, Counted(c, p, e.now), past', e); }
  }

  // ---- The steps that do not ----

  lemma PumpQuiet(c: Client, e: Env)
    ensures Quiet(c, Pump(c, e))
  {
    var ds := S.Decisions(c.sched.(budget := e.budget), Reserved(c.transfers));
    CP.GrantsAreGrants(ds);
    QuietSent(c, Pump(c, e), GrantPackets(ds));
  }

  lemma FinishQuiet(c: Client, id: nat, ok: bool, e: Env)
    requires id in c.transfers
    ensures Quiet(c, Finish(c, id, ok, e))
  {
    FinishIsOver(c, id, ok, e);
    PumpQuiet(Over(c, id, ok, e.behind), e);
  }

  lemma ClaimQuiet(c: Client, id: nat, gaps: seq<Range>, e: Env)
    requires id in c.transfers && c.transfers[id].asm.Some?
    ensures Quiet(c, ClaimGaps(c, id, gaps, e))
  {
    var t := c.transfers[id];
    var out := R.ClaimOut(t.repair, R.Lacking(t.asm.value), gaps, e.now);
    ResendsAreNot(id, out);
    QuietSent(c, ClaimGaps(c, id, gaps, e), Resends(id, out));
  }

  lemma DetectQuiet(cfg: ClientConfig, c: Client, id: nat, e: Env)
    requires id in c.transfers
    ensures Quiet(c, DetectLoss(cfg, c, id, e))
  {
    var t := c.transfers[id].(lastDetect := Some(e.now));
    var c1 := Put(c, id, t);
    if cfg.earlyResend && t.asm.Some? && !c.negotiated && SuspectLimit(cfg, c1, id) > 0 {
      var gaps := A.Missing(t.asm.value, SuspectLimit(cfg, c1, id));
      var t2 := t.(repair := t.repair.(suspects := R.Suspects(t.repair.suspects, gaps, e.now)));
      ClaimQuiet(Put(c1, id, t2), id, R.Lost(t.repair.suspects, gaps, e.now, e.window), e);
    }
  }

  lemma ProbeQuiet(cfg: ClientConfig, c: Client, id: nat, granted: nat, e: Env)
    requires id in c.transfers
    ensures Quiet(c, TailProbe(cfg, c, id, granted, e))
  {
    var t := c.transfers[id];
    if ProbeDue(cfg, t, granted, e) {
      ClaimQuiet(Put(c, id, t.(tailProbed := true)), id, [LastPacket(t.asm.value, granted, PayloadOf(c))], e);
    }
  }

  lemma RerequestQuiet(c: Client, id: nat, granted: nat, e: Env)
    requires id in c.transfers && c.transfers[id].asm.Some?
    ensures Quiet(c, Rerequest(c, id, granted, e))
  {
    var t := c.transfers[id];
    var grant := if granted > t.initialGrant then [Grant(id, granted, 0)] else [];
    QuietSent(c, Send(c, grant), grant);
    ClaimQuiet(Send(c, grant), id, RecoverGaps(t.asm.value, granted, PayloadOf(c)), e);
  }

  lemma AttemptQuiet(c: Client, id: nat, now: real)
    requires id in c.transfers
    ensures Quiet(c, Attempted(c, id, now))
  {
    var t := c.transfers[id];
    QuietSent(c, Attempted(c, id, now), if t.asm.None? || t.headers.None? then [Req(id, t.initialGrant, t.assetId)] else []);
  }

  lemma RecoverQuiet(cfg: ClientConfig, c: Client, id: nat, granted: nat, e: Env)
    requires id in c.transfers
    ensures Quiet(c, Recover(cfg, c, id, granted, e))
  {
    if c.transfers[id].recoveries + 1 > cfg.maxRecoveries {
      FinishQuiet(OutOfTries(c, id), id, false, e);
    } else {
      AttemptQuiet(c, id, e.now);
      if c.transfers[id].asm.Some? { RerequestQuiet(Attempted(c, id, e.now), id, granted, e); }
    }
  }

  lemma TickQuiet(cfg: ClientConfig, c: Client, id: nat, e: Env)
    requires id in c.transfers
    ensures Quiet(c, TickOne(cfg, c, id, e))
  {
    var c1 := if c.transfers[id].asm.Some? then DetectLoss(cfg, c, id, e) else c;
    DetectQuiet(cfg, c, id, e);
    var t, granted := c1.transfers[id], TickGrant(c1, id);
    if !Waiting(t, granted) {
      ProbeQuiet(cfg, c1, id, granted, e);
      var c2 := TailProbe(cfg, c1, id, granted, e);
      if Stalled(c2.transfers[id], e) { RecoverQuiet(cfg, c2, id, granted, e); }
    }
  }

  lemma AfterStoredQuiet(cfg: ClientConfig, c: Client, id: nat, e: Env)
    requires id in c.transfers && c.transfers[id].asm.Some?
    ensures Quiet(c, AfterStored(cfg, c, id, e))
  {
    var c1 := Flush(MaybeStart(c, id), id, e.behind);
    BegunQuiet(c, id);
    FlushQuiet(MaybeStart(c, id), id, e.behind);
    if A.Complete(c1.transfers[id].asm.value) && c1.transfers[id].headers.Some? {
      FinishQuiet(c1, id, true, e);
    } else if Elapsed(c1.transfers[id].lastDetect, e.now, DETECT_INTERVAL_MS) {
      DetectQuiet(cfg, c1, id, e);
    }
  }

  lemma BegunQuiet(c: Client, id: nat)
    requires id in c.transfers
    ensures MaybeStart(c, id).seqs == c.seqs && MaybeStart(c, id).sent == c.sent
  {
  }

  lemma FlushQuiet(c: Client, id: nat, behind: bool)
    requires id in c.transfers
    ensures Flush(c, id, behind).seqs == c.seqs && Flush(c, id, behind).sent == c.sent
  {
  }

  lemma DataQuiet(cfg: ClientConfig, c: Client, id: nat, size: nat, offset: nat, payload: seq<Byte>, e: Env)
    requires id in c.transfers && (c.transfers[id].asm.Some? ==> A.AsmOk(c.transfers[id].asm.value))
    ensures Quiet(c, HandleData(cfg, c, id, size, offset, payload, e))
  {
    var c1 := Sized(c, id, size);
    var m := c1.transfers[id].asm.value;
    if size != m.size || !A.Fits(m.size, offset, |payload|) {
      FinishQuiet(c1, id, false, e);
    } else {
      AfterStoredQuiet(cfg, Stored(c1, id, offset, payload, e.now), id, e);
    }
  }

  lemma MetaQuiet(c: Client, id: nat, fields: seq<Field>, e: Env)
    requires id in c.transfers
    ensures Quiet(c, HandleMeta(c, id, fields, e))
  {
    var t := c.transfers[id];
    if t.headers.None? {
      var c0 := Put(c, id, t.(headers := Some(fields), lastProgress := e.now, recoveries := 0));
      BegunQuiet(c0, id);
      if t.asm.Some? && A.Complete(t.asm.value) { FinishQuiet(MaybeStart(c0, id), id, true, e); }
    }
  }

  lemma PacketQuiet(cfg: ClientConfig, c: Client, p: Packet, e: Env)
    requires AsmsOk(c)
    ensures Quiet(c, HandlePacket(cfg, c, p, e))
  {
    if p.rpc in c.transfers {
      if p.Meta? {
        MetaQuiet(c, p.rpc, p.fields, e);
      } else if p.Data? || p.DataSeq? {
        DataQuiet(cfg, c, p.rpc, p.totalSize, p.offset, p.payload, e);
      } else if p.Error? {
        FinishQuiet(c, p.rpc, false, e);
      }
    }
  }

  lemma HelloQuiet(cfg: ClientConfig, c: Client)
    ensures Quiet(c, Hello'(cfg, c))
  {
    QuietSent(c, c.(sent := c.sent + [Hello(0, SESSION_SEQ)]), [Hello(0, SESSION_SEQ)]);
  }

  lemma StartQuiet(cfg: ClientConfig, c: Client, id: nat, b: Begun, cls: S.Class, grant: nat, now: real)
    ensures Quiet(c, Start(cfg, c, id, b, cls, grant, now))
  {
    var c1 := Put(c, id, NewTransfer(b.assetId, b.streaming, cls, grant, now)).(started := c.started[id := b]);
    HelloQuiet(cfg, c1);
    QuietSent(Hello'(cfg, c1), Start(cfg, c, id, b, cls, grant, now), [Req(id, grant, b.assetId)]);
  }

  lemma ReaderQuiet(c: Client, id: nat, e: Env)
    requires id in c.transfers
    ensures Quiet(c, Pull(c, id, e)) && Quiet(c, Cancel(c, id, e))
  {
    if c.transfers[id].stream.Some? && c.transfers[id].stream.value.paused { PumpQuiet(Resumed(c, id), e); }
    PumpQuiet(Forget(c, id, c.transfers[id]).(events := c.events + [Cancelled(id)]), e);
  }

  // ---- Runs ----

  lemma ArriveCounts(cfg: ClientConfig, c: Client, p: Packet, past: Q.Past, e: Env) returns (past': Q.Past)
    requires Inv(cfg, c) && AsmsOk(c) && NumbersInv(c, past, e.now)
    ensures NumbersInv(Arrive(cfg, c, p, e), past', e.now)
  {
    var c1 := if p.DataSeq? then CountNumber(cfg, c, p, e) else c;
    past' := past;
    if p.DataSeq? {
      past' := CountCounts(cfg, c, p, past, e);
      CountKeeps(cfg, c, p, e);
      InvAsmsOk(cfg, c1);
    }
    PacketQuiet(cfg, c1, p, e);
    PumpQuiet(HandlePacket(cfg, c1, p, e), e);
    QuietKeeps(c1, Arrive(cfg, c, p, e), past', e.now, e.now);
  }

  lemma StepCounts(cfg: ClientConfig, a: Client, st: CH.Step, b: Client, past: Q.Past, now: real) returns (past': Q.Past)
    requires Inv(cfg, a) && NumbersInv(a, past, now) && CH.Moves(cfg, a, st, b) && now <= CP.TimeOf(st)
    ensures NumbersInv(b, past', CP.TimeOf(st))
  {
    past' := past;
    QuietKeeps(a, a, past, now, CP.TimeOf(st));
    match st {
      case Begin(id, begun, cls, grant, start) => StartQuiet(cfg, a, id, begun, cls, grant, start);
      case Took(p, e) => past' := ArriveCounts(cfg, a, p, past, e); return;
      case Ticked(id, e) => TickQuiet(cfg, a, id, e);
      case SeqTicked(e) => past' := SeqLossCounts(cfg, a, past, e); return;
      case Pulled(id, e) => ReaderQuiet(a, id, e);
      case Dropped(id, e) => ReaderQuiet(a, id, e);
      case Aborted(id, e) => FinishQuiet(a, id, false, e);
      case Pumped(e) => PumpQuiet(a, e);
    }
    QuietKeeps(a, b, past, now, CP.TimeOf(st));
  }

  lemma {:induction false} RunCounts(cfg: ClientConfig, a: Client, steps: seq<CH.Step>, b: Client, past: Q.Past, now: real)
    returns (past': Q.Past, later: real)
    requires Inv(cfg, a) && Rest(a) && NumbersInv(a, past, now) && CH.Reaches(cfg, a, steps, b) && CP.OnTime(steps, now)
    ensures NumbersInv(b, past', later)
    decreases |steps|
  {
    if steps == [] {
      past', later := past, now;
    } else {
      var m :| CH.Moves(cfg, a, steps[0], m) && CH.Reaches(cfg, m, steps[1..], b);
      CH.StepKeeps(cfg, a, steps[0], m);
      var p := StepCounts(cfg, a, steps[0], m, past, now);
      past', later := RunCounts(cfg, m, steps[1..], b, p, CP.TimeOf(steps[0]));
    }
  }

  /** The same, up to the time of the next step. */
  lemma {:induction false} RunEnds(cfg: ClientConfig, a: Client, steps: seq<CH.Step>, b: Client, past: Q.Past, now: real, st: CH.Step)
    returns (past': Q.Past)
    requires Inv(cfg, a) && Rest(a) && NumbersInv(a, past, now) && CH.Reaches(cfg, a, steps, b) && CP.OnTime(steps + [st], now)
    ensures NumbersInv(b, past', CP.TimeOf(st))
    decreases |steps|
  {
    if steps == [] {
      past' := past;
      QuietKeeps(a, a, past, now, CP.TimeOf(st));
    } else {
      var m :| CH.Moves(cfg, a, steps[0], m) && CH.Reaches(cfg, m, steps[1..], b);
      assert (steps + [st])[1..] == steps[1..] + [st];
      CH.StepKeeps(cfg, a, steps[0], m);
      var p := StepCounts(cfg, a, steps[0], m, past, now);
      past' := RunEnds(cfg, m, steps[1..], b, p, CP.TimeOf(steps[0]), st);
    }
  }

  lemma NewCounts(cfg: ClientConfig, budget: nat, minIncrement: int, now: real)
    ensures NumbersInv(NewClient(cfg, budget, minIncrement), Q.Past({}, multiset{}, multiset{}), now)
  {
    var c := NewClient(cfg, budget, minIncrement);
    forall k: nat ensures Times(c.sent, k) == 0 { OtherPackets(c.sent, k); }
  }

  lemma WhatItMeans(c: Client, past: Q.Past, now: real, n: nat)
    requires NumbersInv(c, past, now)
    ensures Times(c.sent, n) <= SEQ_RESEND_TRIES
    ensures Q.Keys(c.seqs.missing) !! Q.Keys(c.seqs.claimed) && (n in Q.Keys(c.seqs.missing) ==> Times(c.sent, n) == 0)
  {
  }

  /**
   In every run with a clock that does not go back, no sequence number is asked
   for more than SEQ_RESEND_TRIES times, and one still within its reordering
   window not at all.
   */
  lemma AskedAtMostThrice(cfg: ClientConfig, budget: nat, minIncrement: int, steps: seq<CH.Step>, c: Client, start: real, n: nat)
    requires CH.IsRun(cfg, budget, minIncrement, steps, c) && CP.OnTime(steps, start)
    ensures Times(c.sent, n) <= SEQ_RESEND_TRIES
    ensures Q.Keys(c.seqs.missing) !! Q.Keys(c.seqs.claimed) && (n in Q.Keys(c.seqs.missing) ==> Times(c.sent, n) == 0)
  {
    CH.NewKeeps(cfg, budget, minIncrement);
    NewCounts(cfg, budget, minIncrement, start);
    var empty := Q.Past({}, multiset{}, multiset{});
    var past, later := RunCounts(cfg, NewClient(cfg, budget, minIncrement), steps, c, empty, start);
    WhatItMeans(c, past, later, n);
  }
}
