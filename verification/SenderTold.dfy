/**
 What the server still holds about an RPC against the datagrams that left: in
 every state of every run each byte a live RPC counts as sent, its META and its
 first packet are among them. And what it makes of a client packet lasts until
 the RPC is evicted.
 */
module SenderTolds {
  import opened Intervals
  import opened Packets
  import opened Senders
  import opened SenderRuns
  import opened SenderHistory
  import opened SenderDrain

  ghost predicate MetaIn(out: seq<Packet>, id: nat) { exists p :: p in out && p.Meta? && p.rpc == id }

  ghost predicate DataIn(out: seq<Packet>, id: nat) { exists p :: p in out && (p.Data? || p.DataSeq?) && p.rpc == id }

  /** All the RPC counts as sent has left. */
  ghost predicate Told(out: seq<Packet>, id: nat, r: Rpc) {
    && (forall i :: 0 <= i < r.next ==> CarriedIn(out, id, i))
    && (r.metaSent > 0 ==> MetaIn(out, id))
    && (r.packet0Sent > 0 ==> DataIn(out, id))
  }

  ghost predicate AllTold(a: Server) { forall id :: id in a.s.rpcs ==> Told(a.out, id, a.s.rpcs[id]) }

  // ---- Receive steps ----

  predicate IsNew(r: Rpc) { r.next == 0 && r.metaSent == 0 && r.packet0Sent == 0 }

  lemma {:induction false} ManyIds(s: Session, from: nat, end: nat, now: int)
    requires |s.ring| == SEQ_RING_SIZE
    ensures ResendMany(s, from, end, now).rpcs.Keys == s.rpcs.Keys
    decreases end - from
  {
    if from < end { ManyIds(ResendOne(s, from, now), from + 1, end, now); }
  }

  /** A receive step makes at most one RPC, the packet's, with nothing sent yet. */
  lemma HandleIds(cfg: Config, s: Session, p: Packet, now: int)
    ensures forall id :: id in Handle(cfg, s, p, now).rpcs && id !in s.rpcs ==> p.Req? && id == p.rpc && IsNew(Handle(cfg, s, p, now).rpcs[id])
  {
    match p
    case ResendSeq(_, start, end) =>
      if s.seqOn && |s.ring| == SEQ_RING_SIZE { ManyIds(s, start, Min(end, start + MAX_RESEND_SEQ_RANGE), now); }
    case _ =>
  }

  lemma RecvTold(cfg: Config, a: Server, p: Packet, now: int, b: Server)
    requires AllTold(a) && Moves(cfg, a, Recv(p, now), b)
    ensures AllTold(b)
  {
    HandleGrows(cfg, a.s, p, now);
    HandleIds(cfg, a.s, p, now);
    forall id | id in b.s.rpcs ensures Told(b.out, id, b.s.rpcs[id]) {
      if id in a.s.rpcs { assert RpcGrows(a.s.rpcs[id], b.s.rpcs[id]); }
    }
  }

  // ---- Send steps ----

  lemma StillTold(out: seq<Packet>, id: nat, r: Rpc, p: Packet)
    requires Told(out, id, r)
    ensures Told(out + [p], id, r)
  {
    forall i | 0 <= i < r.next ensures CarriedIn(out + [p], id, i) { StillCarried(out, id, i, p); }
    if r.metaSent > 0 {
      var q :| q in out && q.Meta? && q.rpc == id;
      assert q in out + [p];
    }
    if r.packet0Sent > 0 {
      var q :| q in out && (q.Data? || q.DataSeq?) && q.rpc == id;
      assert q in out + [p];
    }
  }

  lemma StillCarried(out: seq<Packet>, id: nat, i: int, p: Packet)
    ensures CarriedIn(out, id, i) || Carries(p, id, i) ==> CarriedIn(out + [p], id, i)
  {
    if CarriedIn(out, id, i) {
      var k :| 0 <= k < |out| && Carries(out[k], id, i);
      assert (out + [p])[k] == out[k];
    } else {
      assert (out + [p])[|out|] == p;
    }
  }

  /** What recording does to the RPC's counts. */
  lemma RecordedCounts(cfg: Config, r: Rpc, w: Work)
    requires RpcWork(r, w) && w.kind != Control
    ensures var r' := RecordedRpc(cfg, r, w);
      && (w.kind == MetaWork ==> r' == r.(metaSent := w.packet0))
      && (w.kind != MetaWork ==>
            && r'.metaSent == r.metaSent && r'.packet0Sent == (if w.kind == Packet0 then w.packet0 else r.packet0Sent)
            && (r'.next > r.next ==> w.pkt.offset <= r.next && r'.next <= w.pkt.offset + |w.pkt.payload|))
  {
  }

  lemma RecordTold(cfg: Config, s: Session, w: Work, out: seq<Packet>)
    requires w.kind != Control && w.rpc in s.rpcs && RpcWork(s.rpcs[w.rpc], w) && Told(out, w.rpc, s.rpcs[w.rpc])
    ensures Told(out + [Outgoing(s, w)], w.rpc, RecordedRpc(cfg, s.rpcs[w.rpc], w))
  {
    var r, p := s.rpcs[w.rpc], Outgoing(s, w);
    var r', out' := RecordedRpc(cfg, r, w), out + [Outgoing(s, w)];
    RecordedCounts(cfg, r, w);
    StillTold(out, w.rpc, r, p);
    assert p in out';
    forall i | 0 <= i < r'.next ensures CarriedIn(out', w.rpc, i) {
      if i >= r.next { StillCarried(out, w.rpc, i, p); }
    }
  }

  lemma FinishTold(cfg: Config, named: nat -> seq<Byte>, a: Server, o: Outcome, b: Server)
    requires ServerInv(cfg, named, a) && AllTold(a) && Moves(cfg, a, Finish(o), b)
    ensures AllTold(b)
  {
    var w := a.phase.w;
    if Records(w, o) {
      forall id | id in b.s.rpcs ensures Told(b.out, id, b.s.rpcs[id]) {
        if w.kind != Control { RecordsOneRpc(cfg, a.s, w); }
        if w.kind != Control && id == w.rpc {
          RecordTold(cfg, a.s, w, a.out);
        } else {
          StillTold(a.out, id, a.s.rpcs[id], Outgoing(a.s, w));
        }
      }
    }
  }

  lemma StepTold(cfg: Config, named: nat -> seq<Byte>, a: Server, st: Step, b: Server)
    requires ServerInv(cfg, named, a) && AllTold(a) && Moves(cfg, a, st, b)
    ensures AllTold(b)
  {
    match st
    case Recv(p, now) => RecvTold(cfg, a, p, now, b);
    case Finish(o) => FinishTold(cfg, named, a, o, b);
    case _ =>
  }

  /** In every state of every run, all that the live RPCs count as sent has left. */
  lemma {:induction false} EverythingTold(cfg: Config, named: nat -> seq<Byte>, run: seq<Server>, steps: seq<Step>, i: nat)
    requires AssetsOk(cfg) && IsRun(cfg, named, run, steps) && i < |run|
    ensures AllTold(run[i])
  {
    if i > 0 {
      EverythingTold(cfg, named, run, steps, i - 1);
      EveryRun(cfg, named, run, steps, i - 1);
      StepTold(cfg, named, run[i - 1], steps[i - 1], run[i]);
    }
  }

  // ---- What a client packet leaves behind ----

  /** An ERROR for the RPC was queued. */
  ghost predicate Refused(l: Ledger, id: nat) { exists p :: p in l.replies && p.Error? && p.rpc == id }

  /** A REQ or GRANT was acted on: the RPC is live with at least that grant, or was refused. */
  ghost predicate Heard(a: Server, p: Packet) {
    && (p.Req? ==> Refused(a.ledger, p.rpc) || (Granted(a.s, p.rpc, p.initialGrant) && a.s.rpcs[p.rpc].packet0Req > 0))
    && (p.Grant? ==> Refused(a.ledger, p.rpc) || Granted(a.s, p.rpc, p.maxOffset))
  }

  predicate Granted(s: Session, id: nat, g: nat) { id in s.rpcs && Min(g, s.rpcs[id].Size()) <= s.rpcs[id].granted }

  lemma RefusedNow(l: Ledger, id: nat, code: nat, l': Ledger)
    requires l'.replies == l.replies + [Error(id, code)]
    ensures Refused(l', id)
  {
    assert Error(id, code) in l'.replies;
  }

  /** A received REQ or GRANT is acted on. */
  lemma RecvHears(cfg: Config, a: Server, p: Packet, now: int, b: Server)
    requires Moves(cfg, a, Recv(p, now), b)
    ensures Heard(b, p)
  {
    if p.Req? && p.rpc !in a.s.rpcs && !cfg.assets(p.assetId).Found? {
      RefusedNow(a.ledger, p.rpc, if cfg.assets(p.assetId).NotFound? then CODE_NOT_FOUND else CODE_BAD_REQUEST, b.ledger);
    } else if p.Grant? && p.rpc !in a.s.rpcs {
      RefusedNow(a.ledger, p.rpc, CODE_UNKNOWN_RPC, b.ledger);
    }
  }

  /** Nothing is forgotten: RPCs stay with their grants and requests, and replies stay queued or sent. */
  ghost predicate HoldsOn(a: Server, b: Server) {
    && (forall id :: id in a.s.rpcs ==>
          && id in b.s.rpcs && b.s.rpcs[id].asset == a.s.rpcs[id].asset
          && a.s.rpcs[id].granted <= b.s.rpcs[id].granted && a.s.rpcs[id].packet0Req <= b.s.rpcs[id].packet0Req)
    && (forall p :: p in a.ledger.replies ==> p in b.ledger.replies)
    && (forall p :: p in a.out ==> p in b.out)
  }

  lemma {:induction false} ManyReplies(s: Session, l: Ledger, from: nat, end: nat, now: int)
    requires |s.ring| == SEQ_RING_SIZE
    ensures WriteMany(s, l, from, end, now).replies == l.replies
    decreases end - from
  {
    if from < end { ManyReplies(ResendOne(s, from, now), WriteOne(s, l, from), from + 1, end, now); }
  }

  /** A receive step adds at most one reply, about the packet's RPC. */
  lemma HandleReplies(cfg: Config, s: Session, l: Ledger, p: Packet, now: int)
    ensures var l' := WriteHandle(cfg, s, l, p, now);
      l'.replies == l.replies
      || ((p.Req? || p.Grant? || p.Resend?) && exists code :: l'.replies == l.replies + [Error(p.rpc, code)])
  {
    match p
    case ResendSeq(_, start, end) =>
      if s.seqOn && |s.ring| == SEQ_RING_SIZE { ManyReplies(s, l, start, Min(end, start + MAX_RESEND_SEQ_RANGE), now); }
    case _ =>
  }

  lemma RecordedHolds(cfg: Config, s: Session, l: Ledger, w: Work)
    ensures WriteRecord(s, l, w).replies == l.replies
  {
  }

  /** Every step but eviction holds on to what the server has. */
  lemma StepHolds(cfg: Config, a: Server, st: Step, b: Server)
    requires Moves(cfg, a, st, b) && !st.Evict?
    ensures HoldsOn(a, b)
  {
    match st
    case Recv(p, now) =>
      HandleGrows(cfg, a.s, p, now);
      HandleReplies(cfg, a.s, a.ledger, p, now);
    case Finish(o) =>
      RecordPromises(cfg, a.s, a.phase.w);
      RecordedHolds(cfg, a.s, a.ledger, a.phase.w);
    case _ =>
  }

  lemma StillHeard(a: Server, b: Server, p: Packet)
    requires HoldsOn(a, b) && Heard(a, p)
    ensures Heard(b, p)
  {
    if Refused(a.ledger, p.rpc) {
      var q :| q in a.ledger.replies && q.Error? && q.rpc == p.rpc;
      assert q in b.ledger.replies;
    }
  }

  // ---- At rest ----

  lemma {:induction false} ErrorsAreOut(out: seq<Packet>)
    ensures forall p :: p in ErrorsIn(out) ==> p in out
  {
    if out != [] {
      ErrorsAreOut(out[..|out| - 1]);
      assert out == out[..|out| - 1] + [out[|out| - 1]];
    }
  }

  /** With nothing to pick, a heard request was refused in a datagram that left, or its RPC has sent META, packet 0 and every granted byte. */
  lemma IdleHasSent(cfg: Config, named: nat -> seq<Byte>, a: Server, p: Packet)
    requires ServerInv(cfg, named, a) && AllTold(a) && Picks(a.s, None) && Heard(a, p) && p.Req?
    ensures (exists q :: q in a.out && q.Error? && q.rpc == p.rpc)
      || (&& p.rpc in a.s.rpcs && MetaIn(a.out, p.rpc) && DataIn(a.out, p.rpc)
          && forall i :: 0 <= i < a.s.rpcs[p.rpc].granted ==> CarriedIn(a.out, p.rpc, i))
  {
    IdleMeansSettled(a.s, a.ledger);
    ErrorsAreOut(a.out);
    if Refused(a.ledger, p.rpc) {
      var q :| q in a.ledger.replies && q.Error? && q.rpc == p.rpc;
      assert q in a.out;
    } else {
      assert Settled(a.s.rpcs[p.rpc], a.ledger.of[p.rpc]);
      assert Told(a.out, p.rpc, a.s.rpcs[p.rpc]);
    }
  }
}
