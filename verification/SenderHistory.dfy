/**
 Whole runs of one server session. The send loop goes Ready, Chosen, Checked and
 back; receive steps fall anywhere, eviction only while Ready. Every recorded
 datagram is kept, in order.
 */
module SenderHistory {
  import opened Intervals
  import opened Packets
  import opened Senders
  import opened SenderRuns

  datatype Phase = Ready | Chosen(w: Work) | Checked(w: Work)

  datatype Server = Server(s: Session, phase: Phase, ledger: Ledger, out: seq<Packet>)

  datatype Step =
    | Recv(p: Packet, now: int)
    | Pick(chosen: Option<Work>)
    | Hold                        // the pacer holds bulk back: pick again
    | CheckGrant
    | Finish(outcome: Outcome)
    | Evict(now: int)

  function Start(cfg: Config): Server { Server(NewSession(cfg), Ready, NewLedger(), []) }

  /** The work is recorded: it was sent, or loss injection dropped a DATA or META. */
  predicate Records(w: Work, o: Outcome) { o.Sent? || (o.Dropped? && (w.pkt.Data? || w.pkt.Meta?)) }

  ghost predicate Moves(cfg: Config, a: Server, st: Step, b: Server) {
    match st
    case Recv(p, now) => b == a.(s := Handle(cfg, a.s, p, now), ledger := WriteHandle(cfg, a.s, a.ledger, p, now))
    case Pick(None) => a.phase.Ready? && Picks(a.s, None) && b == a
    case Pick(Some(w)) => a.phase.Ready? && Picks(a.s, Some(w)) && b == a.(phase := Chosen(w))
    case Hold => a.phase.Chosen? && a.phase.w.bulk && b == a.(phase := Ready)
    case CheckGrant =>
      a.phase.Chosen?
      && b == a.(phase := Checked(a.phase.w), ledger := a.ledger.(ungranted := a.ledger.ungranted + Ungranted(a.s, a.phase.w)))
    case Finish(o) =>
      && a.phase.Checked? && Transmitted(cfg, a.s, a.phase.w, o).1
      && b == (if Records(a.phase.w, o)
               then Server(Transmitted(cfg, a.s, a.phase.w, o).0, Ready, WriteRecord(a.s, a.ledger, a.phase.w),
                           a.out + [Outgoing(a.s, a.phase.w)])
               else Server(Transmitted(cfg, a.s, a.phase.w, o).0, Ready, a.ledger, a.out))
    case Evict(now) => a.phase.Ready? && b == a.(s := Evicted(cfg, a.s, now))
  }

  /** Each rpc_id is asked for with one asset_id only. */
  predicate NamedBy(named: nat -> seq<Byte>, p: Packet) { p.Req? ==> p.assetId == named(p.rpc) }

  ghost predicate IsRun(cfg: Config, named: nat -> seq<Byte>, run: seq<Server>, steps: seq<Step>) {
    && |run| == |steps| + 1 && run[0] == Start(cfg)
    && forall i :: 0 <= i < |steps| ==>
      Moves(cfg, run[i], steps[i], run[i + 1]) && (steps[i].Recv? ==> NamedBy(named, steps[i].p))
  }

  // ---- What every reachable state satisfies ----

  /** Live RPCs serve the asset their id was asked for with. */
  predicate Bound(cfg: Config, named: nat -> seq<Byte>, s: Session) {
    forall id :: id in s.rpcs ==> cfg.assets(named(id)) == Found(s.rpcs[id].asset, s.rpcs[id].meta)
  }

  /** A datagram tells the truth about its asset and stays below the highest grant the client issued. */
  predicate Genuine(cfg: Config, named: nat -> seq<Byte>, l: Ledger, p: Packet) {
    if p.Data? || p.DataSeq? then
      var a := cfg.assets(named(p.rpc));
      && a.Found? && p.totalSize == |a.body|
      && p.offset + |p.payload| <= Min(|a.body|, CeilOf(l, p.rpc))
      && p.payload == a.body[p.offset..p.offset + |p.payload|]
    else if p.Meta? then cfg.assets(named(p.rpc)).Found? && p.fields == cfg.assets(named(p.rpc)).fields
    else true
  }

  /** The DATA_SEQs among these datagrams are numbered 0, 1, 2, ... and carried exactly what the log says. */
  predicate Logged(out: seq<Packet>, log: seq<Carried>) {
    if out == [] then log == []
    else
      var p := out[|out| - 1];
      if p.DataSeq? then
        && log != [] && p.num == |log| - 1
        && log[|log| - 1] == Carried(p.rpc, p.offset, |p.payload|)
        && Logged(out[..|out| - 1], log[..|log| - 1])
      else Logged(out[..|out| - 1], log)
  }

  function ErrorsIn(out: seq<Packet>): seq<Packet> {
    if out == [] then []
    else ErrorsIn(out[..|out| - 1]) + if out[|out| - 1].Error? then [out[|out| - 1]] else []
  }

  ghost predicate ServerInv(cfg: Config, named: nat -> seq<Byte>, a: Server) {
    && Inv(a.s, a.ledger)
    && (a.phase.Ready? || WorkInv(a.s, a.phase.w))
    && Bound(cfg, named, a.s)
    && (forall p :: p in a.out ==> Genuine(cfg, named, a.ledger, p))
    && Logged(a.out, a.ledger.log)
    && ErrorsIn(a.out) == a.ledger.errorsSent
  }

  lemma {:induction false} ManyBound(cfg: Config, named: nat -> seq<Byte>, s: Session, from: nat, end: nat, now: int)
    requires |s.ring| == SEQ_RING_SIZE && Bound(cfg, named, s)
    ensures Bound(cfg, named, ResendMany(s, from, end, now))
    decreases end - from
  {
    if from < end { ManyBound(cfg, named, ResendOne(s, from, now), from + 1, end, now); }
  }

  lemma HandleBound(cfg: Config, named: nat -> seq<Byte>, s: Session, p: Packet, now: int)
    requires Bound(cfg, named, s) && NamedBy(named, p)
    ensures Bound(cfg, named, Handle(cfg, s, p, now))
  {
    match p
    case ResendSeq(_, start, end) =>
      if s.seqOn && |s.ring| == SEQ_RING_SIZE { ManyBound(cfg, named, s, start, Min(end, start + MAX_RESEND_SEQ_RANGE), now); }
    case _ =>
  }

  /** Ceilings never come down, so what was genuine stays so; the log and the errors sent are the send loop's. */
  ghost predicate Later(l: Ledger, l': Ledger) {
    && (forall id :: CeilOf(l, id) <= CeilOf(l', id))
    && l'.log == l.log && l'.errorsSent == l.errorsSent
  }

  lemma {:induction false} ManyLater(s: Session, l: Ledger, from: nat, end: nat, now: int)
    requires |s.ring| == SEQ_RING_SIZE
    ensures Later(l, WriteMany(s, l, from, end, now))
    decreases end - from
  {
    if from < end { ManyLater(ResendOne(s, from, now), WriteOne(s, l, from), from + 1, end, now); }
  }

  lemma HandleLater(cfg: Config, s: Session, l: Ledger, p: Packet, now: int)
    ensures Later(l, WriteHandle(cfg, s, l, p, now))
  {
    match p
    case ResendSeq(_, start, end) =>
      if s.seqOn && |s.ring| == SEQ_RING_SIZE { ManyLater(s, l, start, Min(end, start + MAX_RESEND_SEQ_RANGE), now); }
    case _ =>
  }

  lemma RecvKeeps(cfg: Config, named: nat -> seq<Byte>, a: Server, p: Packet, now: int, b: Server)
    requires AssetsOk(cfg) && ServerInv(cfg, named, a) && NamedBy(named, p) && Moves(cfg, a, Recv(p, now), b)
    ensures ServerInv(cfg, named, b)
  {
    HandleKeeps(cfg, a.s, a.ledger, p, now);
    HandleGrows(cfg, a.s, p, now);
    if !a.phase.Ready? { WorkStays(a.s, b.s, a.phase.w); }
    HandleBound(cfg, named, a.s, p, now);
    HandleLater(cfg, a.s, a.ledger, p, now);
  }

  lemma RecordBound(cfg: Config, named: nat -> seq<Byte>, s: Session, w: Work)
    requires Bound(cfg, named, s)
    ensures Bound(cfg, named, Recorded(cfg, s, w))
  {
  }

  lemma OutgoingGenuine(cfg: Config, named: nat -> seq<Byte>, s: Session, l: Ledger, w: Work)
    requires Inv(s, l) && WorkInv(s, w) && Bound(cfg, named, s)
    ensures Genuine(cfg, named, l, Outgoing(s, w))
  {
    if w.kind != Control { assert RpcInv(s.rpcs[w.rpc], l.of[w.rpc], CeilOf(l, w.rpc)); }
  }

  lemma LoggedStep(out: seq<Packet>, log: seq<Carried>, p: Packet)
    requires Logged(out, log)
    requires p.DataSeq? ==> p.num == |log|
    ensures Logged(out + [p], if p.DataSeq? then log + [Carried(p.rpc, p.offset, |p.payload|)] else log)
    ensures ErrorsIn(out + [p]) == ErrorsIn(out) + if p.Error? then [p] else []
  {
    assert (out + [p])[..|out|] == out;
    if p.DataSeq? { assert (log + [Carried(p.rpc, p.offset, |p.payload|)])[..|log|] == log; }
  }

  lemma WhatRecordLogs(s: Session, l: Ledger, w: Work)
    requires Inv(s, l) && WorkInv(s, w)
    ensures var p := Outgoing(s, w); var l' := WriteRecord(s, l, w);
      && (p.DataSeq? ==> p.num == |l.log|)
      && l'.log == (if p.DataSeq? then l.log + [Carried(p.rpc, p.offset, |p.payload|)] else l.log)
      && l'.errorsSent == l.errorsSent + (if p.Error? then [p] else [])
      && l'.ceiling == l.ceiling
  {
  }

  /** Recording keeps what the datagrams sent so far say, and the new one says the truth too. */
  lemma RecordTells(cfg: Config, named: nat -> seq<Byte>, s: Session, l: Ledger, w: Work, out: seq<Packet>)
    requires Inv(s, l) && WorkInv(s, w) && Bound(cfg, named, s)
    requires forall p :: p in out ==> Genuine(cfg, named, l, p)
    requires Logged(out, l.log) && ErrorsIn(out) == l.errorsSent
    ensures var out', l' := out + [Outgoing(s, w)], WriteRecord(s, l, w);
      && (forall p :: p in out' ==> Genuine(cfg, named, l', p))
      && Logged(out', l'.log) && ErrorsIn(out') == l'.errorsSent
  {
    var q, l' := Outgoing(s, w), WriteRecord(s, l, w);
    OutgoingGenuine(cfg, named, s, l, w);
    WhatRecordLogs(s, l, w);
    LoggedStep(out, l.log, q);
    forall p | p in out + [q]
      ensures Genuine(cfg, named, l', p)
    {
      assert Genuine(cfg, named, l, p);
    }
  }

  lemma FinishKeeps(cfg: Config, named: nat -> seq<Byte>, a: Server, o: Outcome, b: Server)
    requires ServerInv(cfg, named, a) && Moves(cfg, a, Finish(o), b)
    ensures ServerInv(cfg, named, b)
  {
    var w := a.phase.w;
    if Records(w, o) {
      RecordKeeps(cfg, a.s, a.ledger, w);
      RecordBound(cfg, named, a.s, w);
      RecordTells(cfg, named, a.s, a.ledger, w, a.out);
    } else {
      RingFrame(a.s, a.ledger, b.s, b.ledger);
    }
  }

  lemma StepKeeps(cfg: Config, named: nat -> seq<Byte>, a: Server, st: Step, b: Server)
    requires AssetsOk(cfg) && ServerInv(cfg, named, a) && Moves(cfg, a, st, b) && (st.Recv? ==> NamedBy(named, st.p))
    ensures ServerInv(cfg, named, b)
  {
    match st
    case Recv(p, now) => RecvKeeps(cfg, named, a, p, now, b);
    case Pick(None) =>
    case Pick(Some(w)) => PickWorks(a.s, a.ledger, w);
    case Hold =>
    case CheckGrant =>
      NothingUngranted(a.s, a.phase.w);
      RingFrame(a.s, a.ledger, b.s, b.ledger);
    case Finish(o) => FinishKeeps(cfg, named, a, o, b);
    case Evict(now) => EvictKeeps(cfg, a.s, a.ledger, now);
  }

  /** Every state of every run, however receive steps interleave with the send loop's. */
  lemma {:induction false} EveryRun(cfg: Config, named: nat -> seq<Byte>, run: seq<Server>, steps: seq<Step>, i: nat)
    requires AssetsOk(cfg) && IsRun(cfg, named, run, steps) && i < |run|
    ensures ServerInv(cfg, named, run[i])
  {
    if i > 0 {
      EveryRun(cfg, named, run, steps, i - 1);
      StepKeeps(cfg, named, run[i - 1], steps[i - 1], run[i]);
    }
  }

  /** Goal G2 for every run: the counter stays 0, and no grant or datagram passes what the client granted. */
  lemma GoalG2(cfg: Config, named: nat -> seq<Byte>, run: seq<Server>, steps: seq<Step>, i: nat)
    requires AssetsOk(cfg) && IsRun(cfg, named, run, steps) && i < |run|
    ensures run[i].ledger.ungranted == 0
    ensures forall id :: id in run[i].s.rpcs ==> run[i].s.rpcs[id].granted <= CeilOf(run[i].ledger, id)
    ensures forall p :: p in run[i].out && (p.Data? || p.DataSeq?) ==> p.offset + |p.payload| <= CeilOf(run[i].ledger, p.rpc)
    ensures run[i].phase.Checked? && run[i].phase.w.pkt.Data? ==>
      var w := run[i].phase.w;
      w.rpc in run[i].s.rpcs && w.pkt.offset + |w.pkt.payload| <= run[i].s.rpcs[w.rpc].granted
  {
    EveryRun(cfg, named, run, steps, i);
    forall p | p in run[i].out && (p.Data? || p.DataSeq?)
      ensures p.offset + |p.payload| <= CeilOf(run[i].ledger, p.rpc)
    {
      assert Genuine(cfg, named, run[i].ledger, p);
    }
    forall id | id in run[i].s.rpcs
      ensures run[i].s.rpcs[id].granted <= CeilOf(run[i].ledger, id)
    {
      assert RpcInv(run[i].s.rpcs[id], run[i].ledger.of[id], CeilOf(run[i].ledger, id));
    }
  }

  /** Recording matches what was picked: ERRORs leave in order, none lost or repeated, and resend bytes are conserved. */
  lemma NothingLostWhileUnlocked(cfg: Config, named: nat -> seq<Byte>, run: seq<Server>, steps: seq<Step>, i: nat)
    requires AssetsOk(cfg) && IsRun(cfg, named, run, steps) && i < |run|
    ensures run[i].ledger.replies == ErrorsIn(run[i].out) + run[i].s.pending
    ensures forall id :: id in run[i].s.rpcs ==>
      && id in run[i].ledger.of
      && run[i].ledger.of[id].queued == run[i].ledger.of[id].resent + SpanBytes(run[i].s.rpcs[id].resends)
      && run[i].ledger.of[id].sent == Offsets(0, run[i].s.rpcs[id].next)
      && run[i].s.rpcs[id].packet0Sent <= run[i].s.rpcs[id].metaSent <= run[i].s.rpcs[id].packet0Req
  {
    EveryRun(cfg, named, run, steps, i);
    forall id | id in run[i].s.rpcs
      ensures RpcInv(run[i].s.rpcs[id], run[i].ledger.of[id], CeilOf(run[i].ledger, id))
    {
    }
  }

  /** The ring against the unbounded log: consecutive numbers, exact lookup, each requeued at most once. */
  lemma RingMatchesLog(cfg: Config, named: nat -> seq<Byte>, run: seq<Server>, steps: seq<Step>, i: nat, n: nat)
    requires AssetsOk(cfg) && IsRun(cfg, named, run, steps) && i < |run|
    ensures Logged(run[i].out, run[i].ledger.log) && |run[i].ledger.log| == run[i].s.nextSeq
    ensures Hit(run[i].s, n) <==> run[i].s.nextSeq - SEQ_RING_SIZE <= n < run[i].s.nextSeq
    ensures Hit(run[i].s, n) ==> var e := Slot(run[i].s, n); Carried(e.rpc, e.off, e.n) == run[i].ledger.log[n]
    ensures run[i].ledger.requeued[n] <= 1
  {
    EveryRun(cfg, named, run, steps, i);
    RingLookup(run[i].s, run[i].ledger, n);
  }

  // ---- RESEND_SEQ reaches every number it names ----

  ghost predicate Queued(r: Rpc, i: nat) { exists sp :: sp in r.resends && sp.start <= i < sp.end }

  /** Number n, and the live bytes it carried, are taken care of: it was answered, and what it carried is queued. */
  predicate Answered(s: Session, n: nat) { |s.ring| == SEQ_RING_SIZE && Hit(s, n) && Slot(s, n).resent }

  ghost predicate BytesQueued(s: Session, e: SeqEntry) {
    e.rpc in s.rpcs ==> forall i: nat :: e.off <= i < Clip(s.rpcs[e.rpc], e.off + e.n) ==> Queued(s.rpcs[e.rpc], i)
  }

  predicate Forward(r: Rpc) { forall sp :: sp in r.resends ==> sp.start <= sp.end }

  predicate AllForward(s: Session) { forall id :: id in s.rpcs ==> Forward(s.rpcs[id]) }

  lemma RequeueQueues(r: Rpc, off: nat, end: nat, i: nat)
    requires Forward(r) && off < end && (Queued(r, i) || off <= i < end)
    ensures Queued(Requeue(r, off, end), i)
  {
    var k, r' := |r.resends|, Requeue(r, off, end);
    if k > 0 && r.resends[k - 1].end == off {
      var sp := r.resends[k - 1].(end := end);
      assert r.resends[k - 1] in r.resends;
      assert r'.resends[k - 1] == sp && sp in r'.resends;
      if Queued(r, i) && !(sp.start <= i < sp.end) {
        var q :| q in r.resends && q.start <= i < q.end;
        var j :| 0 <= j < k && r.resends[j] == q;
        assert j < k - 1 && r'.resends[j] == q;
      }
    } else {
      assert r'.resends[k] == Span(off, end);
      if !(off <= i < end) {
        var q :| q in r.resends && q.start <= i < q.end;
        assert q in r'.resends;
      }
    }
  }

  lemma OneForward(s: Session, n: nat, now: int)
    requires |s.ring| == SEQ_RING_SIZE && AllForward(s)
    ensures AllForward(ResendOne(s, n, now))
  {
    if Hit(s, n) && !Slot(s, n).resent && Slot(s, n).rpc in s.rpcs {
      var e := Slot(s, n);
      var r := s.rpcs[e.rpc].(lastActive := now);
      assert Forward(s.rpcs[e.rpc]);
      assert Forward(r);
      if e.off < Clip(r, e.off + e.n) { RequeueForward(r, e.off, Clip(r, e.off + e.n)); }
    }
  }

  lemma RequeueForward(r: Rpc, off: nat, end: nat)
    requires Forward(r) && off < end
    ensures Forward(Requeue(r, off, end))
  {
    var k := |r.resends|;
    if k > 0 { assert r.resends[k - 1] in r.resends; }
  }

  lemma OneAnswers(s: Session, n: nat, now: int)
    requires |s.ring| == SEQ_RING_SIZE && Hit(s, n) && AllForward(s)
    ensures Answered(ResendOne(s, n, now), n)
    ensures !Slot(s, n).resent ==> BytesQueued(ResendOne(s, n, now), Slot(s, n))
  {
    var e, s' := Slot(s, n), ResendOne(s, n, now);
    if !e.resent && e.rpc in s.rpcs {
      var r := s.rpcs[e.rpc].(lastActive := now);
      var end := Clip(r, e.off + e.n);
      assert s'.rpcs[e.rpc] == if e.off < end then Requeue(r, e.off, end) else r;
      assert Clip(s'.rpcs[e.rpc], e.off + e.n) == end;
      forall i: nat | e.off <= i < end
        ensures Queued(s'.rpcs[e.rpc], i)
      {
        RequeueQueues(r, e.off, end, i);
      }
    }
  }

  lemma OneKeepsQueued(s: Session, m: nat, now: int, id: nat, i: nat)
    requires |s.ring| == SEQ_RING_SIZE && AllForward(s) && id in s.rpcs && Queued(s.rpcs[id], i)
    ensures id in ResendOne(s, m, now).rpcs && Queued(ResendOne(s, m, now).rpcs[id], i)
  {
    if Hit(s, m) && !Slot(s, m).resent && Slot(s, m).rpc == id {
      var e, r := Slot(s, m), s.rpcs[id].(lastActive := now);
      assert Queued(r, i);
      if e.off < Clip(r, e.off + e.n) { RequeueQueues(r, e.off, Clip(r, e.off + e.n), i); }
    }
  }

  lemma OneKeepsSlots(s: Session, m: nat, now: int, n: nat)
    requires |s.ring| == SEQ_RING_SIZE
    ensures Answered(s, n) ==> Answered(ResendOne(s, m, now), n)
    ensures n != m && Hit(s, n) ==> Hit(ResendOne(s, m, now), n) && Slot(ResendOne(s, m, now), n) == Slot(s, n)
  {
  }

  lemma OneKeepsAnswers(s: Session, m: nat, now: int, n: nat, e: SeqEntry)
    requires |s.ring| == SEQ_RING_SIZE && AllForward(s)
    ensures Answered(s, n) ==> Answered(ResendOne(s, m, now), n)
    ensures n != m && Hit(s, n) ==> Hit(ResendOne(s, m, now), n) && Slot(ResendOne(s, m, now), n) == Slot(s, n)
    ensures BytesQueued(s, e) ==> BytesQueued(ResendOne(s, m, now), e)
  {
    OneKeepsSlots(s, m, now, n);
    if BytesQueued(s, e) { OneKeepsBytes(s, m, now, e); }
  }

  lemma OneKeepsBytes(s: Session, m: nat, now: int, e: SeqEntry)
    requires |s.ring| == SEQ_RING_SIZE && AllForward(s) && BytesQueued(s, e)
    ensures BytesQueued(ResendOne(s, m, now), e)
  {
    var s' := ResendOne(s, m, now);
    if e.rpc in s.rpcs {
      OneKeepsClip(s, m, now, e);
      forall i: nat | e.off <= i < Clip(s'.rpcs[e.rpc], e.off + e.n)
        ensures Queued(s'.rpcs[e.rpc], i)
      {
        assert Queued(s.rpcs[e.rpc], i);
        OneKeepsQueued(s, m, now, e.rpc, i);
      }
    }
  }

  lemma OneKeepsClip(s: Session, m: nat, now: int, e: SeqEntry)
    requires |s.ring| == SEQ_RING_SIZE && e.rpc in s.rpcs
    ensures e.rpc in ResendOne(s, m, now).rpcs
    ensures Clip(ResendOne(s, m, now).rpcs[e.rpc], e.off + e.n) == Clip(s.rpcs[e.rpc], e.off + e.n)
  {
  }

  lemma {:induction false} ManyAnswers(s: Session, from: nat, end: nat, now: int, n: nat, e: SeqEntry)
    requires |s.ring| == SEQ_RING_SIZE && AllForward(s)
    requires Answered(s, n) || (Hit(s, n) && from <= n < end)
    requires BytesQueued(s, e) || (Hit(s, n) && from <= n < end && e == Slot(s, n) && !e.resent)
    ensures Answered(ResendMany(s, from, end, now), n) && BytesQueued(ResendMany(s, from, end, now), e)
    decreases end - from
  {
    if from < end {
      OneKeepsAnswers(s, from, now, n, e);
      OneForward(s, from, now);
      if from == n { OneAnswers(s, n, now); }
      ManyAnswers(ResendOne(s, from, now), from + 1, end, now, n, e);
    }
  }

  /** A RESEND_SEQ of at most 1024 numbers is never cut short: every number still in the ring is answered, and the bytes of one not answered before are queued. */
  lemma ResendSeqReachesAll(cfg: Config, s: Session, l: Ledger, id: nat, start: nat, end: nat, now: int, n: nat)
    requires Inv(s, l) && s.seqOn && end - start <= MAX_RESEND_SEQ_RANGE
    requires start <= n < end && s.nextSeq - SEQ_RING_SIZE <= n < s.nextSeq
    ensures var s' := Handle(cfg, s, ResendSeq(id, start, end), now);
      Answered(s', n) && (l.requeued[n] == 0 ==> BytesQueued(s', SeqEntry(n, true, false, l.log[n].rpc, l.log[n].off, l.log[n].n)))
  {
    RingLookup(s, l, n);
    var e := Slot(s, n);
    forall id | id in s.rpcs ensures Forward(s.rpcs[id]) { assert RpcInv(s.rpcs[id], l.of[id], CeilOf(l, id)); }
    ManyAnswers(s, start, end, now, n, if e.resent then SeqEntry(n, true, true, 0, 0, 0) else e);
  }
}
