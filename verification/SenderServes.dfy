/**
 What a request earns once the send loop has caught up: a repeated REQ is
 answered with META and packet 0 again, and every byte asked for again leaves
 again. Each is about the datagrams that leave after the request came in.
 */
module SenderServes {
  import opened Intervals
  import opened Packets
  import opened Senders
  import opened SenderRuns
  import opened SenderHistory
  import opened SenderDrain
  import ST = SenderTolds

  /** No eviction among the steps from state i to state k. */
  predicate NoEviction(steps: seq<Step>, i: nat, k: nat) { forall j :: i <= j < k && j < |steps| ==> !steps[j].Evict? }

  // ---- META and packet 0 ----

  predicate IsMeta(p: Packet, id: nat) { p.Meta? && p.rpc == id }

  predicate IsPacket0(p: Packet, id: nat) { (p.Data? || p.DataSeq?) && p.rpc == id && p.offset == 0 }

  ghost predicate MetaFrom(out: seq<Packet>, from: nat, id: nat) { exists m :: from <= m < |out| && IsMeta(out[m], id) }

  /** After the first `from` datagrams there is a META of id, and a packet 0 after it. */
  ghost predicate AnsweredFrom(out: seq<Packet>, from: nat, id: nat) {
    exists m, p :: from <= m < p < |out| && IsMeta(out[m], id) && IsPacket0(out[p], id)
  }

  /** How far the answer to REQ number g has come. */
  ghost predicate Answering(a: Server, from: nat, id: nat, g: nat) {
    && from <= |a.out| && id in a.s.rpcs && g <= a.s.rpcs[id].packet0Req
    && (a.s.rpcs[id].metaSent >= g ==> MetaFrom(a.out, from, id))
    && (a.s.rpcs[id].packet0Sent >= g ==> AnsweredFrom(a.out, from, id))
  }

  lemma StillFrom(out: seq<Packet>, from: nat, id: nat, p: Packet)
    ensures MetaFrom(out, from, id) ==> MetaFrom(out + [p], from, id)
    ensures AnsweredFrom(out, from, id) ==> AnsweredFrom(out + [p], from, id)
  {
    if MetaFrom(out, from, id) {
      var m :| from <= m < |out| && IsMeta(out[m], id);
      assert IsMeta((out + [p])[m], id);
    }
    if AnsweredFrom(out, from, id) {
      var m, q :| from <= m < q < |out| && IsMeta(out[m], id) && IsPacket0(out[q], id);
      assert IsMeta((out + [p])[m], id) && IsPacket0((out + [p])[q], id);
    }
  }

  lemma MetaLeft(out: seq<Packet>, from: nat, id: nat, p: Packet)
    requires IsMeta(p, id) && from <= |out|
    ensures MetaFrom(out + [p], from, id)
  {
    assert IsMeta((out + [p])[|out|], id);
  }

  lemma Packet0Left(out: seq<Packet>, from: nat, id: nat, p: Packet)
    requires IsPacket0(p, id) && MetaFrom(out, from, id)
    ensures AnsweredFrom(out + [p], from, id)
  {
    var m :| from <= m < |out| && IsMeta(out[m], id);
    assert IsMeta((out + [p])[m], id) && IsPacket0((out + [p])[|out|], id);
  }

  lemma FinishAnswers(cfg: Config, named: nat -> seq<Byte>, a: Server, o: Outcome, b: Server, from: nat, id: nat, g: nat)
    requires ServerInv(cfg, named, a) && Moves(cfg, a, Finish(o), b) && Answering(a, from, id, g)
    ensures Answering(b, from, id, g)
  {
    var w := a.phase.w;
    if Records(w, o) {
      var p := Outgoing(a.s, w);
      StillFrom(a.out, from, id, p);
      if w.kind != Control { RecordsOneRpc(cfg, a.s, w); }
      if w.kind != Control && w.rpc == id {
        ST.RecordedCounts(cfg, a.s.rpcs[id], w);
        RecordPromises(cfg, a.s, w);
        if w.kind == MetaWork { MetaLeft(a.out, from, id, p); }
        if w.kind == Packet0 && w.packet0 >= g { Packet0Left(a.out, from, id, p); }
      }
    }
  }

  lemma StepAnswers(cfg: Config, named: nat -> seq<Byte>, a: Server, st: Step, b: Server, from: nat, id: nat, g: nat)
    requires ServerInv(cfg, named, a) && Moves(cfg, a, st, b) && !st.Evict? && Answering(a, from, id, g)
    ensures Answering(b, from, id, g)
  {
    match st
    case Recv(p, now) =>
      HandleGrows(cfg, a.s, p, now);
      assert RpcGrows(a.s.rpcs[id], b.s.rpcs[id]);
    case Finish(o) => FinishAnswers(cfg, named, a, o, b, from, id, g);
    case _ =>
  }

  lemma {:induction false} RunAnswers(cfg: Config, named: nat -> seq<Byte>, run: seq<Server>, steps: seq<Step>, i: nat, k: nat, from: nat, id: nat, g: nat)
    requires AssetsOk(cfg) && IsRun(cfg, named, run, steps) && i <= k < |run| && NoEviction(steps, i, k)
    requires Answering(run[i], from, id, g)
    ensures Answering(run[k], from, id, g)
  {
    if i < k {
      RunAnswers(cfg, named, run, steps, i, k - 1, from, id, g);
      EveryRun(cfg, named, run, steps, k - 1);
      StepAnswers(cfg, named, run[k - 1], steps[k - 1], run[k], from, id, g);
    }
  }

  /** A REQ just received has not been answered yet. */
  lemma ReqAsks(cfg: Config, named: nat -> seq<Byte>, a: Server, p: Packet, now: int, b: Server)
    requires AssetsOk(cfg) && ServerInv(cfg, named, a) && Moves(cfg, a, Recv(p, now), b) && p.Req?
    requires p.rpc in a.s.rpcs || cfg.assets(p.assetId).Found?
    ensures Answering(b, |b.out|, p.rpc, b.s.rpcs[p.rpc].packet0Req)
  {
    if p.rpc in a.s.rpcs { assert RpcInv(a.s.rpcs[p.rpc], a.ledger.of[p.rpc], CeilOf(a.ledger, p.rpc)); }
  }

  /**
   Every REQ is answered, the first and each repeat: when the send loop has caught
   up, a META and after it a packet 0 have left since the REQ came in, unless its
   RPC was evicted.
   */
  lemma EveryReqIsAnswered(cfg: Config, named: nat -> seq<Byte>, run: seq<Server>, steps: seq<Step>, i: nat, k: nat)
    requires AssetsOk(cfg) && IsRun(cfg, named, run, steps) && i < k < |run| && NoEviction(steps, i, k)
    requires steps[i].Recv? && steps[i].p.Req? && (steps[i].p.rpc in run[i].s.rpcs || cfg.assets(steps[i].p.assetId).Found?)
    requires Picks(run[k].s, None)
    ensures AnsweredFrom(run[k].out, |run[i].out|, steps[i].p.rpc)
  {
    var id, from := steps[i].p.rpc, |run[i].out|;
    EveryRun(cfg, named, run, steps, i);
    ReqAsks(cfg, named, run[i], steps[i].p, steps[i].now, run[i + 1]);
    RunAnswers(cfg, named, run, steps, i + 1, k, from, id, run[i + 1].s.rpcs[id].packet0Req);
    EveryRun(cfg, named, run, steps, k);
    IdleMeansSettled(run[k].s, run[k].ledger);
    assert Settled(run[k].s.rpcs[id], run[k].ledger.of[id]);
  }

  // ---- Bytes asked for again ----

  ghost predicate CarriedFrom(out: seq<Packet>, from: nat, id: nat, x: nat) { exists k :: from <= k < |out| && Carries(out[k], id, x) }

  /** The byte is queued to be resent, or has been carried since. */
  ghost predicate Coming(a: Server, from: nat, id: nat, x: nat) {
    from <= |a.out| && id in a.s.rpcs && (Queued(a.s.rpcs[id], x) || CarriedFrom(a.out, from, id, x))
  }

  lemma CarriedOn(out: seq<Packet>, from: nat, id: nat, x: nat, p: Packet)
    requires from <= |out| && (CarriedFrom(out, from, id, x) || Carries(p, id, x))
    ensures CarriedFrom(out + [p], from, id, x)
  {
    if Carries(p, id, x) {
      assert Carries((out + [p])[|out|], id, x);
    } else {
      var k :| from <= k < |out| && Carries(out[k], id, x);
      assert Carries((out + [p])[k], id, x);
    }
  }

  /** Sending part of the first queued range takes only that part off the queue. */
  lemma HeadTaken(r: Rpc, w: Work, n: nat, x: nat)
    requires Queued(r, x) && (w.kind == Resending ==> r.resends != [])
    ensures Queued(SentRpc(r, w, n), x) || (w.kind == Resending && r.resends[0].start <= x < r.resends[0].start + n)
  {
    if w.kind == Resending {
      var sp :| sp in r.resends && sp.start <= x < sp.end;
      var r' := SentRpc(r, w, n);
      var j :| 0 <= j < |r.resends| && r.resends[j] == sp;
      var head := r.resends[0];
      if head.start + n >= head.end {
        if j > 0 { assert r'.resends[j - 1] == sp && sp in r'.resends; }
      } else if j > 0 {
        assert r'.resends[j] == sp && sp in r'.resends;
      } else {
        assert r'.resends[0] == head.(start := head.start + n) && r'.resends[0] in r'.resends;
      }
    }
  }

  lemma RecordedQueue(cfg: Config, r: Rpc, w: Work, x: nat)
    requires RpcWork(r, w) && w.kind != Control && Queued(r, x)
    ensures Queued(RecordedRpc(cfg, r, w), x) || (w.pkt.Data? && w.pkt.offset <= x < w.pkt.offset + |w.pkt.payload|)
  {
    if w.kind != MetaWork {
      HeadTaken(r, w, |w.pkt.payload|, x);
      assert RecordedRpc(cfg, r, w).resends == SentRpc(r, w, |w.pkt.payload|).resends;
    }
  }

  lemma FinishComing(cfg: Config, named: nat -> seq<Byte>, a: Server, o: Outcome, b: Server, from: nat, id: nat, x: nat)
    requires ServerInv(cfg, named, a) && Moves(cfg, a, Finish(o), b) && Coming(a, from, id, x)
    ensures Coming(b, from, id, x)
  {
    var w := a.phase.w;
    if Records(w, o) {
      if w.kind != Control { RecordsOneRpc(cfg, a.s, w); }
      if CarriedFrom(a.out, from, id, x) {
        CarriedOn(a.out, from, id, x, Outgoing(a.s, w));
      } else if w.kind != Control && w.rpc == id {
        RecordedQueue(cfg, a.s.rpcs[id], w, x);
        if w.pkt.Data? && w.pkt.offset <= x < w.pkt.offset + |w.pkt.payload| { CarriedOn(a.out, from, id, x, Outgoing(a.s, w)); }
      }
    }
  }

  lemma {:induction false} ManyKeepQueued(s: Session, from: nat, end: nat, now: int, id: nat, x: nat)
    requires |s.ring| == SEQ_RING_SIZE && AllForward(s) && id in s.rpcs && Queued(s.rpcs[id], x)
    ensures id in ResendMany(s, from, end, now).rpcs && Queued(ResendMany(s, from, end, now).rpcs[id], x)
    decreases end - from
  {
    if from < end {
      OneKeepsQueued(s, from, now, id, x);
      OneForward(s, from, now);
      ManyKeepQueued(ResendOne(s, from, now), from + 1, end, now, id, x);
    }
  }

  lemma InvForward(s: Session, l: Ledger)
    requires Inv(s, l)
    ensures AllForward(s)
  {
    forall id | id in s.rpcs ensures Forward(s.rpcs[id]) { assert RpcInv(s.rpcs[id], l.of[id], CeilOf(l, id)); }
  }

  lemma AppendKeepsQueued(r: Rpc, r': Rpc, x: nat)
    requires Queued(r, x) && |r.resends| <= |r'.resends| && r.resends == r'.resends[..|r.resends|]
    ensures Queued(r', x)
  {
    var sp :| sp in r.resends && sp.start <= x < sp.end;
    assert sp in r'.resends;
  }

  /** A receive step takes nothing off a queue. */
  lemma HandleKeepsQueued(cfg: Config, s: Session, l: Ledger, p: Packet, now: int, id: nat, x: nat)
    requires Inv(s, l) && id in s.rpcs && Queued(s.rpcs[id], x)
    ensures id in Handle(cfg, s, p, now).rpcs && Queued(Handle(cfg, s, p, now).rpcs[id], x)
  {
    match p
    case ResendSeq(_, start, end) =>
      InvForward(s, l);
      if s.seqOn { ManyKeepQueued(s, start, Min(end, start + MAX_RESEND_SEQ_RANGE), now, id, x); }
    case _ => AppendKeepsQueued(s.rpcs[id], Handle(cfg, s, p, now).rpcs[id], x);
  }

  lemma StepComing(cfg: Config, named: nat -> seq<Byte>, a: Server, st: Step, b: Server, from: nat, id: nat, x: nat)
    requires ServerInv(cfg, named, a) && Moves(cfg, a, st, b) && !st.Evict? && Coming(a, from, id, x)
    ensures Coming(b, from, id, x)
  {
    match st
    case Recv(p, now) =>
      ST.StepHolds(cfg, a, st, b);
      if Queued(a.s.rpcs[id], x) { HandleKeepsQueued(cfg, a.s, a.ledger, p, now, id, x); }
    case Finish(o) => FinishComing(cfg, named, a, o, b, from, id, x);
    case _ =>
  }

  lemma {:induction false} RunComing(cfg: Config, named: nat -> seq<Byte>, run: seq<Server>, steps: seq<Step>, i: nat, k: nat, from: nat, id: nat, x: nat)
    requires AssetsOk(cfg) && IsRun(cfg, named, run, steps) && i <= k < |run| && NoEviction(steps, i, k)
    requires Coming(run[i], from, id, x)
    ensures Coming(run[k], from, id, x)
  {
    if i < k {
      RunComing(cfg, named, run, steps, i, k - 1, from, id, x);
      EveryRun(cfg, named, run, steps, k - 1);
      StepComing(cfg, named, run[k - 1], steps[k - 1], run[k], from, id, x);
    }
  }

  /** What is queued at state i has left by the time the send loop has caught up. */
  lemma QueuedLeaves(cfg: Config, named: nat -> seq<Byte>, run: seq<Server>, steps: seq<Step>, i: nat, k: nat, id: nat, x: nat)
    requires AssetsOk(cfg) && IsRun(cfg, named, run, steps) && i <= k < |run| && NoEviction(steps, i, k) && Picks(run[k].s, None)
    requires id in run[i].s.rpcs && Queued(run[i].s.rpcs[id], x)
    ensures CarriedFrom(run[k].out, |run[i].out|, id, x)
  {
    RunComing(cfg, named, run, steps, i, k, |run[i].out|, id, x);
    EveryRun(cfg, named, run, steps, k);
    IdleMeansSettled(run[k].s, run[k].ledger);
    assert Settled(run[k].s.rpcs[id], run[k].ledger.of[id]);
  }

  /** A RESEND queues what it names of what was granted and sent. */
  lemma ResendQueues(cfg: Config, s: Session, p: Packet, now: int, x: nat)
    requires p.Resend? && p.rpc in s.rpcs && p.start <= x < p.end && x < s.rpcs[p.rpc].granted && x < s.rpcs[p.rpc].next
    ensures var s' := Handle(cfg, s, p, now); p.rpc in s'.rpcs && Queued(s'.rpcs[p.rpc], x)
  {
    var r, r' := s.rpcs[p.rpc], Handle(cfg, s, p, now).rpcs[p.rpc];
    var sp := Span(p.start, Clip(r, p.end));
    assert r'.resends == r.resends + [sp] && sp in r'.resends;
  }

  /**
   Every RESEND is answered: when the send loop has caught up, each byte it named,
   of what was granted and sent by then, has left again since, unless its RPC was
   evicted.
   */
  lemma EveryResendIsAnswered(cfg: Config, named: nat -> seq<Byte>, run: seq<Server>, steps: seq<Step>, i: nat, k: nat, x: nat)
    requires AssetsOk(cfg) && IsRun(cfg, named, run, steps) && i < k < |run| && NoEviction(steps, i, k) && Picks(run[k].s, None)
    requires steps[i].Recv? && steps[i].p.Resend? && steps[i].p.rpc in run[i].s.rpcs
    requires steps[i].p.start <= x < steps[i].p.end && x < run[i].s.rpcs[steps[i].p.rpc].next
    ensures CarriedFrom(run[k].out, |run[i].out|, steps[i].p.rpc, x)
  {
    var id := steps[i].p.rpc;
    EveryRun(cfg, named, run, steps, i);
    assert RpcInv(run[i].s.rpcs[id], run[i].ledger.of[id], CeilOf(run[i].ledger, id));
    assert Moves(cfg, run[i], steps[i], run[i + 1]);
    ResendQueues(cfg, run[i].s, steps[i].p, steps[i].now, x);
    QueuedLeaves(cfg, named, run, steps, i + 1, k, id, x);
  }

  /** So is the first RESEND_SEQ for a number: what it carried, of a live RPC, leaves again. */
  lemma EveryNumberIsAnswered(cfg: Config, named: nat -> seq<Byte>, run: seq<Server>, steps: seq<Step>, i: nat, k: nat, n: nat, x: nat)
    requires AssetsOk(cfg) && IsRun(cfg, named, run, steps) && i < k < |run| && NoEviction(steps, i, k) && Picks(run[k].s, None)
    requires var a := run[i];
      && steps[i].Recv? && steps[i].p.ResendSeq? && a.s.seqOn && steps[i].p.end - steps[i].p.start <= MAX_RESEND_SEQ_RANGE
      && steps[i].p.start <= n < steps[i].p.end && a.s.nextSeq - SEQ_RING_SIZE <= n < a.s.nextSeq && n < |a.ledger.log|
      && a.ledger.requeued[n] == 0
    requires var c := run[i].ledger.log[n];
      c.rpc in run[i].s.rpcs && c.off <= x < c.off + c.n && x < run[i].s.rpcs[c.rpc].next
    ensures CarriedFrom(run[k].out, |run[i].out|, run[i].ledger.log[n].rpc, x)
  {
    var a, c, p := run[i], run[i].ledger.log[n], steps[i].p;
    EveryRun(cfg, named, run, steps, i);
    assert Moves(cfg, a, steps[i], run[i + 1]);
    ResendSeqReachesAll(cfg, a.s, a.ledger, p.rpc, p.start, p.end, steps[i].now, n);
    HandleGrows(cfg, a.s, p, steps[i].now);
    assert RpcInv(a.s.rpcs[c.rpc], a.ledger.of[c.rpc], CeilOf(a.ledger, c.rpc));
    assert RpcGrows(a.s.rpcs[c.rpc], run[i + 1].s.rpcs[c.rpc]);
    QueuedLeaves(cfg, named, run, steps, i + 1, k, c.rpc, x);
  }
}
