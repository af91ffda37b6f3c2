/**
 The copy of a small response's last packet: queued exactly once, when its last
 byte is first sent, and by the time the send loop is idle it has left too.
 */
module SenderCopies {
  import opened Intervals
  import opened Packets
  import opened Senders
  import opened SenderRuns
  import opened SenderHistory
  import SD = SenderDrain
  import ST = SenderTolds

  /** The copy is queued, once, when the last byte of a small response is first sent. */
  predicate CopiedOnce(cfg: Config, r: Rpc) {
    r.tailDuped <==> 0 < |r.asset| <= cfg.tailDuplicate && r.next == |r.asset|
  }

  /** A datagram with the last bytes of the asset, from this offset. */
  predicate IsEnd(p: Packet, id: nat, r: Rpc, from: nat) {
    (p.Data? || p.DataSeq?) && p.rpc == id && p.offset == from && from + |p.payload| == |r.asset|
  }

  ghost predicate EndOut(out: seq<Packet>, id: nat, r: Rpc, from: nat) { exists k :: 0 <= k < |out| && IsEnd(out[k], id, r, from) }

  ghost predicate EndOutTwice(out: seq<Packet>, id: nat, r: Rpc) {
    exists from: nat, j, k :: 0 <= j < k < |out| && IsEnd(out[j], id, r, from) && IsEnd(out[k], id, r, from)
  }

  /** While the copy waits its original has left, and once it does not wait it has left too. */
  ghost predicate CopyTold(out: seq<Packet>, id: nat, r: Rpc) {
    && (r.tailDup.Some? ==> r.tailDuped && r.tailDup.value.end == |r.asset| && r.tailDup.value.start <= |r.asset| && EndOut(out, id, r, r.tailDup.value.start))
    && (r.tailDuped && r.tailDup.None? ==> EndOutTwice(out, id, r))
  }

  /** A copy chosen is the one that waits. */
  predicate ChosenCopy(s: Session, w: Work) {
    w.kind == TailDup ==>
      && w.rpc in s.rpcs && s.rpcs[w.rpc].tailDup.Some? && w.pkt.Data?
      && w.pkt.offset == s.rpcs[w.rpc].tailDup.value.start && w.pkt.offset + |w.pkt.payload| == s.rpcs[w.rpc].tailDup.value.end
  }

  ghost predicate CopyInv(cfg: Config, a: Server) {
    && (forall id :: id in a.s.rpcs ==> CopiedOnce(cfg, a.s.rpcs[id]) && CopyTold(a.out, id, a.s.rpcs[id]))
    && (a.phase.Ready? || ChosenCopy(a.s, a.phase.w))
  }

  lemma EndsStay(out: seq<Packet>, id: nat, r: Rpc, r': Rpc, p: Packet)
    requires CopyTold(out, id, r) && r'.asset == r.asset && r'.tailDup == r.tailDup && r'.tailDuped == r.tailDuped
    ensures CopyTold(out + [p], id, r')
  {
    if r.tailDup.Some? {
      var k :| 0 <= k < |out| && IsEnd(out[k], id, r, r.tailDup.value.start);
      assert IsEnd((out + [p])[k], id, r', r.tailDup.value.start);
    }
    if r.tailDuped && r.tailDup.None? {
      var from: nat, j, k :| 0 <= j < k < |out| && IsEnd(out[j], id, r, from) && IsEnd(out[k], id, r, from);
      assert IsEnd((out + [p])[j], id, r', from) && IsEnd((out + [p])[k], id, r', from);
    }
  }

  lemma RecvCopies(cfg: Config, a: Server, p: Packet, now: int, b: Server)
    requires CopyInv(cfg, a) && Moves(cfg, a, Recv(p, now), b) && AssetsOk(cfg)
    ensures CopyInv(cfg, b)
  {
    HandleGrows(cfg, a.s, p, now);
    ST.HandleIds(cfg, a.s, p, now);
    forall id | id in b.s.rpcs ensures CopiedOnce(cfg, b.s.rpcs[id]) && CopyTold(b.out, id, b.s.rpcs[id]) {
      if id in a.s.rpcs { assert RpcGrows(a.s.rpcs[id], b.s.rpcs[id]); SameCopy(a.out, id, a.s.rpcs[id], b.s.rpcs[id]); }
    }
  }

  lemma SameCopy(out: seq<Packet>, id: nat, r: Rpc, r': Rpc)
    requires CopyTold(out, id, r) && r'.asset == r.asset && r'.tailDup == r.tailDup && r'.tailDuped == r.tailDuped
    ensures CopyTold(out, id, r')
  {
    if r.tailDup.Some? {
      var k :| 0 <= k < |out| && IsEnd(out[k], id, r, r.tailDup.value.start);
      assert IsEnd(out[k], id, r', r.tailDup.value.start);
    }
    if r.tailDuped && r.tailDup.None? {
      var from: nat, j, k :| 0 <= j < k < |out| && IsEnd(out[j], id, r, from) && IsEnd(out[k], id, r, from);
      assert IsEnd(out[j], id, r', from) && IsEnd(out[k], id, r', from);
    }
  }

  lemma EndLeft(out: seq<Packet>, id: nat, r: Rpc, from: nat, p: Packet)
    requires IsEnd(p, id, r, from)
    ensures EndOut(out + [p], id, r, from) && (EndOut(out, id, r, from) ==> EndOutTwice(out + [p], id, r))
  {
    assert IsEnd((out + [p])[|out|], id, r, from);
    if EndOut(out, id, r, from) {
      var k :| 0 <= k < |out| && IsEnd(out[k], id, r, from);
      assert IsEnd((out + [p])[k], id, r, from);
    }
  }

  /** What sending w does to the copy's fields. */
  lemma RecordedCopy(cfg: Config, r: Rpc, w: Work)
    requires RpcWork(r, w) && w.kind != Control && w.kind != MetaWork && CopiedOnce(cfg, r) && r.next <= r.granted <= r.Size()
    requires (r.tailDup.Some? ==> r.tailDuped) && (w.kind == TailDup ==> r.tailDup.Some?)
    requires w.kind == Resending ==> w.pkt.offset + |w.pkt.payload| <= r.next
    ensures var r', end := SD.RecordedRpc(cfg, r, w), w.pkt.offset + |w.pkt.payload|;
      && r'.asset == r.asset && CopiedOnce(cfg, r') && (r.tailDuped ==> r'.tailDuped)
      && (r.tailDuped && w.kind != TailDup ==> r'.tailDup == r.tailDup)
      && (r.tailDuped && w.kind == TailDup ==> r'.tailDup == None)
      && (!r.tailDuped && r'.tailDuped ==> r'.tailDup == Some(Span(w.pkt.offset, end)) && end == |r.asset|)
      && (!r'.tailDuped ==> r'.tailDup == None)
  {
  }

  lemma RecordCopies(cfg: Config, s: Session, w: Work, out: seq<Packet>, rl: RpcLedger, c: nat)
    requires w.kind != Control && w.rpc in s.rpcs && RpcWork(s.rpcs[w.rpc], w) && RpcInv(s.rpcs[w.rpc], rl, c) && ChosenCopy(s, w)
    requires CopiedOnce(cfg, s.rpcs[w.rpc]) && CopyTold(out, w.rpc, s.rpcs[w.rpc])
    ensures var r' := SD.RecordedRpc(cfg, s.rpcs[w.rpc], w);
      CopiedOnce(cfg, r') && CopyTold(out + [Outgoing(s, w)], w.rpc, r')
  {
    var r, p := s.rpcs[w.rpc], Outgoing(s, w);
    var r' := SD.RecordedRpc(cfg, r, w);
    if w.kind == MetaWork {
      EndsStay(out, w.rpc, r, r', p);
    } else {
      if w.kind == Resending { assert r.resends[0] in r.resends; }
      RecordedCopy(cfg, r, w);
      if r.tailDuped && w.kind != TailDup {
        EndsStay(out, w.rpc, r, r', p);
      } else if r'.tailDuped {
        EndLeft(out, w.rpc, r, w.pkt.offset, p);
        SameEnds(out + [p], w.rpc, r, r', w.pkt.offset);
      }
    }
  }

  lemma SameEnds(out: seq<Packet>, id: nat, r: Rpc, r': Rpc, from: nat)
    requires r'.asset == r.asset
    ensures EndOut(out, id, r, from) ==> EndOut(out, id, r', from)
    ensures EndOutTwice(out, id, r) ==> EndOutTwice(out, id, r')
  {
    if EndOut(out, id, r, from) {
      var k :| 0 <= k < |out| && IsEnd(out[k], id, r, from);
      assert IsEnd(out[k], id, r', from);
    }
    if EndOutTwice(out, id, r) {
      var f: nat, j, k :| 0 <= j < k < |out| && IsEnd(out[j], id, r, f) && IsEnd(out[k], id, r, f);
      assert IsEnd(out[j], id, r', f) && IsEnd(out[k], id, r', f);
    }
  }

  lemma FinishCopies(cfg: Config, named: nat -> seq<Byte>, a: Server, o: Outcome, b: Server)
    requires ServerInv(cfg, named, a) && CopyInv(cfg, a) && Moves(cfg, a, Finish(o), b)
    ensures CopyInv(cfg, b)
  {
    var w := a.phase.w;
    if Records(w, o) {
      if w.kind != Control { SD.RecordsOneRpc(cfg, a.s, w); }
      forall id | id in b.s.rpcs ensures CopiedOnce(cfg, b.s.rpcs[id]) && CopyTold(b.out, id, b.s.rpcs[id]) {
        if w.kind != Control && id == w.rpc {
          assert RpcInv(a.s.rpcs[id], a.ledger.of[id], CeilOf(a.ledger, id));
          RecordCopies(cfg, a.s, w, a.out, a.ledger.of[id], CeilOf(a.ledger, id));
        } else {
          EndsStay(a.out, id, a.s.rpcs[id], b.s.rpcs[id], Outgoing(a.s, w));
        }
      }
    }
  }

  lemma PickedCopy(s: Session, l: Ledger, w: Work)
    requires Inv(s, l) && Picks(s, Some(w))
    ensures ChosenCopy(s, w)
  {
    if w.kind == TailDup {
      var r := s.rpcs[w.rpc];
      assert RpcInv(r, l.of[w.rpc], CeilOf(l, w.rpc));
      DataFits(w.rpc, r, r.tailDup.value.start, r.tailDup.value.end - r.tailDup.value.start);
    }
  }

  lemma StepCopies(cfg: Config, named: nat -> seq<Byte>, a: Server, st: Step, b: Server)
    requires AssetsOk(cfg) && ServerInv(cfg, named, a) && CopyInv(cfg, a) && Moves(cfg, a, st, b)
    ensures CopyInv(cfg, b)
  {
    match st
    case Recv(p, now) => RecvCopies(cfg, a, p, now, b);
    case Pick(Some(w)) => PickedCopy(a.s, a.ledger, w);
    case Finish(o) => FinishCopies(cfg, named, a, o, b);
    case _ =>
  }

  lemma {:induction false} RunCopies(cfg: Config, named: nat -> seq<Byte>, run: seq<Server>, steps: seq<Step>, i: nat)
    requires AssetsOk(cfg) && IsRun(cfg, named, run, steps) && i < |run|
    ensures CopyInv(cfg, run[i])
  {
    if i > 0 {
      RunCopies(cfg, named, run, steps, i - 1);
      EveryRun(cfg, named, run, steps, i - 1);
      StepCopies(cfg, named, run[i - 1], steps[i - 1], run[i]);
    }
  }

  /**
   In every run a live RPC's copy has been queued if and only if its asset is small
   enough and all sent; and when the send loop is idle the end of such an asset has
   left at least twice, the copy the same as the original.
   */
  lemma SmallEndsLeaveTwice(cfg: Config, named: nat -> seq<Byte>, run: seq<Server>, steps: seq<Step>, i: nat, id: nat)
    requires AssetsOk(cfg) && IsRun(cfg, named, run, steps) && i < |run| && id in run[i].s.rpcs
    ensures CopiedOnce(cfg, run[i].s.rpcs[id])
    ensures Picks(run[i].s, None) && 0 < |run[i].s.rpcs[id].asset| <= cfg.tailDuplicate && run[i].s.rpcs[id].granted == |run[i].s.rpcs[id].asset|
      ==> EndOutTwice(run[i].out, id, run[i].s.rpcs[id])
  {
    RunCopies(cfg, named, run, steps, i);
    EveryRun(cfg, named, run, steps, i);
    SD.IdleMeansSettled(run[i].s, run[i].ledger);
  }
}
