/**
 What every interleaving of the sender's steps keeps: goal G2 (no byte past the
 grant), the resend queue's bookkeeping while the lock is released, the ring of
 sent sequence numbers against the unbounded log, and the order of META and
 packet 0. A Ledger records what the run has done; it is not part of the sender.
 */
module SenderRuns {
  import opened Intervals
  import opened Packets
  import opened Senders

  datatype Carried = Carried(rpc: nat, off: nat, n: nat)

  /** For one RPC since the server created it: bytes queued to resend, bytes resent from the queue, offsets sent. */
  datatype RpcLedger = RpcLedger(queued: nat, resent: nat, sent: set<int>)

  datatype Ledger = Ledger(
    log: seq<Carried>,            // what each sequence number carried, from 0
    requeued: multiset<nat>,      // sequence numbers RESEND_SEQ was answered for
    replies: seq<Packet>,         // ERRORs ever queued
    errorsSent: seq<Packet>,      // ERRORs ever sent
    of: map<nat, RpcLedger>,
    ceiling: map<nat, nat>,       // highest grant the client ever sent for an RPC
    ungranted: nat)               // the G2 counter, UngrantedSent

  function CeilOf(l: Ledger, id: nat): nat { if id in l.ceiling then l.ceiling[id] else 0 }

  function LedgerOf(l: Ledger, id: nat): RpcLedger { if id in l.of then l.of[id] else RpcLedger(0, 0, {}) }

  function NewLedger(): Ledger { Ledger([], multiset{}, [], [], map[], map[], 0) }

  // ---- How a step is written into the ledger ----

  function Raise(l: Ledger, id: nat, g: nat): Ledger {
    l.(ceiling := l.ceiling[id := Max(CeilOf(l, id), g)])
  }

  function Queue(l: Ledger, id: nat, n: nat): Ledger {
    l.(of := l.of[id := LedgerOf(l, id).(queued := LedgerOf(l, id).queued + n)])
  }

  function WriteOne(s: Session, l: Ledger, n: nat): Ledger
    requires |s.ring| == SEQ_RING_SIZE
  {
    if !Hit(s, n) || Slot(s, n).resent then l
    else
      var e := Slot(s, n);
      var l' := l.(requeued := l.requeued + multiset{n});
      if e.rpc !in s.rpcs then l'
      else
        var end := Clip(s.rpcs[e.rpc], e.off + e.n);
        if e.off < end then Queue(l', e.rpc, end - e.off) else l'
  }

  function WriteMany(s: Session, l: Ledger, from: nat, end: nat, now: int): Ledger
    requires |s.ring| == SEQ_RING_SIZE
    decreases end - from
  {
    if from >= end then l else WriteMany(ResendOne(s, from, now), WriteOne(s, l, from), from + 1, end, now)
  }

  function WriteReq(cfg: Config, s: Session, l: Ledger, id: nat, g: nat, assetId: seq<Byte>): Ledger {
    if id in s.rpcs then Raise(l, id, g)
    else match cfg.assets(assetId)
      case NotFound => Raise(l.(replies := l.replies + [Error(id, CODE_NOT_FOUND)]), id, g)
      case Broken => Raise(l.(replies := l.replies + [Error(id, CODE_BAD_REQUEST)]), id, g)
      case Found(_, _) => Raise(l.(of := l.of[id := RpcLedger(0, 0, {})]), id, g)
  }

  function Unknown(l: Ledger, id: nat): Ledger { l.(replies := l.replies + [Error(id, CODE_UNKNOWN_RPC)]) }

  function WriteGrant(s: Session, l: Ledger, id: nat, g: nat): Ledger {
    Raise(if id in s.rpcs then l else Unknown(l, id), id, g)
  }

  function WriteResend(s: Session, l: Ledger, id: nat, start: nat, end: nat): Ledger {
    if id !in s.rpcs then Unknown(l, id)
    else if start < Clip(s.rpcs[id], end) then Queue(l, id, Clip(s.rpcs[id], end) - start)
    else l
  }

  function WriteHandle(cfg: Config, s: Session, l: Ledger, p: Packet, now: int): Ledger {
    match p
    case Req(id, g, assetId) => WriteReq(cfg, s, l, id, g, assetId)
    case Grant(id, g, _) => WriteGrant(s, l, id, g)
    case Resend(id, start, end) => WriteResend(s, l, id, start, end)
    case ResendSeq(_, start, end) =>
      if s.seqOn && |s.ring| == SEQ_RING_SIZE then WriteMany(s, l, start, Min(end, start + MAX_RESEND_SEQ_RANGE), now) else l
    case _ => l
  }

  ghost function SentLedger(rl: RpcLedger, w: Work, off: nat, n: nat): RpcLedger {
    RpcLedger(rl.queued, rl.resent + if w.kind == Resending then n else 0, rl.sent + Offsets(off, off + n))
  }

  ghost function WriteRecord(s: Session, l: Ledger, w: Work): Ledger {
    if w.kind == Control then
      l.(errorsSent := l.errorsSent + if s.pending == [] then [] else [s.pending[0]])
    else if w.kind == MetaWork || !w.pkt.Data? || w.rpc !in s.rpcs then l
    else
      var off, n := w.pkt.offset, |w.pkt.payload|;
      var l' := l.(of := l.of[w.rpc := SentLedger(LedgerOf(l, w.rpc), w, off, n)]);
      if w.useSeq && |s.ring| == SEQ_RING_SIZE then l'.(log := l.log + [Carried(w.rpc, off, n)]) else l'
  }

  // ---- The invariant ----

  function SpanBytes(ss: seq<Span>): int {
    if ss == [] then 0 else ss[0].end - ss[0].start + SpanBytes(ss[1..])
  }

  predicate SpansIn(ss: seq<Span>, limit: nat) {
    forall sp :: sp in ss ==> sp.start < sp.end <= limit
  }

  ghost predicate RpcInv(r: Rpc, rl: RpcLedger, ceiling: nat) {
    && r.next <= r.granted <= r.Size() <= U32_MAX
    && r.granted <= ceiling
    && SpansIn(r.resends, r.next)
    && (r.tailDup.Some? ==> r.tailDup.value.start <= r.tailDup.value.end <= r.next)
    && r.packet0Sent <= r.metaSent <= r.packet0Req
    && rl.queued == rl.resent + SpanBytes(r.resends)
    && rl.sent == Offsets(0, r.next)
  }

  ghost predicate SlotInv(e: SeqEntry, i: nat, next: nat, l: Ledger) {
    if !e.valid then next <= i
    else
      && e.num % SEQ_RING_SIZE == i && e.num < next <= e.num + SEQ_RING_SIZE && e.num < |l.log|
      && l.log[e.num] == Carried(e.rpc, e.off, e.n)
      && e.off + e.n <= U32_MAX
      && (e.resent <==> l.requeued[e.num] > 0)
  }

  ghost predicate RingInv(s: Session, l: Ledger) {
    && |l.log| == s.nextSeq <= U32_MAX + 1
    && (forall n: nat :: l.requeued[n] <= 1 && (s.nextSeq <= n ==> l.requeued[n] == 0))
    && (if s.seqOn
        then |s.ring| == SEQ_RING_SIZE && forall i: nat :: i < SEQ_RING_SIZE ==> SlotInv(s.ring[i], i, s.nextSeq, l)
        else s.nextSeq == 0 && s.ring == [])
  }

  ghost predicate RpcsInv(s: Session, l: Ledger) {
    forall id :: id in s.rpcs ==> id in l.of && RpcInv(s.rpcs[id], l.of[id], CeilOf(l, id))
  }

  /** Every ERROR ever queued has been sent, in order, or is still pending. */
  ghost predicate RepliesInv(s: Session, l: Ledger) {
    l.replies == l.errorsSent + s.pending && forall p :: p in s.pending ==> p.Error?
  }

  ghost predicate Inv(s: Session, l: Ledger) {
    && RpcsInv(s, l)
    && RingInv(s, l)
    && RepliesInv(s, l)
    && l.ungranted == 0
  }

  /** What stays true of the chosen packet until it is recorded, whatever the receive loop does meanwhile. */
  ghost predicate WorkInv(s: Session, w: Work) {
    if w.kind == Control then s.pending != [] && s.pending[0] == w.pkt && w.pkt.Error? && !w.useSeq
    else w.rpc in s.rpcs && RpcWork(s.rpcs[w.rpc], w) && (w.useSeq ==> w.pkt.Data? && s.seqOn && s.nextSeq <= U32_MAX)
  }

  ghost predicate RpcWork(r: Rpc, w: Work) {
    if w.kind == MetaWork then w.pkt == Meta(w.rpc, r.meta) && r.metaSent <= w.packet0 <= r.packet0Req
    else
      && w.pkt.Data? && w.pkt.rpc == w.rpc && w.pkt.totalSize == r.Size()
      && w.pkt.offset + |w.pkt.payload| <= r.granted
      && w.pkt.payload == Bytes(r, w.pkt.offset, |w.pkt.payload|)
      && KindInv(r, w, w.pkt.offset, |w.pkt.payload|)
  }

  ghost predicate KindInv(r: Rpc, w: Work, off: nat, n: nat) {
    match w.kind
    case Packet0 => off == 0 && r.packet0Sent <= w.packet0 <= r.metaSent
    case Resending => r.resends != [] && off == r.resends[0].start && 0 < n && off + n <= r.resends[0].end
    case NewData => off == r.next && 0 < n
    case TailDup => off + n <= r.next
    case _ => false
  }

  ghost predicate AssetsOk(cfg: Config) {
    forall a :: cfg.assets(a).Found? ==> |cfg.assets(a).body| <= U32_MAX
  }

  // ---- Receive steps ----

  /** Replacing one RPC and its ledger, and raising ceilings, keeps the RPC part. */
  lemma PutRpc(s: Session, l: Ledger, s': Session, l': Ledger, id: nat)
    requires RpcsInv(s, l)
    requires id in s'.rpcs && id in l'.of && s'.rpcs == s.rpcs[id := s'.rpcs[id]]
    requires forall j :: j in l.of && j != id ==> j in l'.of && l'.of[j] == l.of[j]
    requires forall j :: CeilOf(l, j) <= CeilOf(l', j)
    requires RpcInv(s'.rpcs[id], l'.of[id], CeilOf(l', id))
    ensures RpcsInv(s', l')
  {
    forall j | j in s'.rpcs
      ensures j in l'.of && RpcInv(s'.rpcs[j], l'.of[j], CeilOf(l', j))
    {
      if j != id { assert j in s.rpcs; }
    }
  }

  lemma RpcsWiden(s: Session, l: Ledger, s': Session, l': Ledger)
    requires RpcsInv(s, l) && s'.rpcs == s.rpcs && l'.of == l.of
    requires forall j :: CeilOf(l, j) <= CeilOf(l', j)
    ensures RpcsInv(s', l')
  {
  }

  lemma RaisedRpc(r: Rpc, rl: RpcLedger, c: nat, g: nat)
    requires RpcInv(r, rl, c)
    ensures RpcInv(RaiseGrant(r, g), rl, Max(c, g))
  {
  }

  lemma NewRpcInv(body: seq<Byte>, fields: seq<Field>, c: nat)
    requires |body| <= U32_MAX
    ensures RpcInv(NewRpc(body, fields), RpcLedger(0, 0, {}), c)
  {
    assert Offsets(0, 0) == {};
  }

  lemma CeilRaised(l: Ledger, id: nat, g: nat)
    ensures forall j :: CeilOf(l, j) <= CeilOf(Raise(l, id, g), j)
    ensures CeilOf(Raise(l, id, g), id) == Max(CeilOf(l, id), g)
  {
  }

  lemma ReqRpcs(cfg: Config, s: Session, l: Ledger, id: nat, g: nat, a: seq<Byte>, now: int)
    requires RpcsInv(s, l) && AssetsOk(cfg)
    ensures RpcsInv(OnReq(cfg, s, id, g, a, now), WriteReq(cfg, s, l, id, g, a))
  {
    var s', l' := OnReq(cfg, s, id, g, a, now), WriteReq(cfg, s, l, id, g, a);
    CeilRaised(l, id, g);
    if id in s.rpcs {
      RaisedRpc(s.rpcs[id], l.of[id], CeilOf(l, id), g);
      PutRpc(s, l, s', l', id);
    } else if cfg.assets(a).Found? {
      NewRpcInv(cfg.assets(a).body, cfg.assets(a).fields, CeilOf(l, id));
      RaisedRpc(NewRpc(cfg.assets(a).body, cfg.assets(a).fields), RpcLedger(0, 0, {}), CeilOf(l, id), g);
      PutRpc(s, l, s', l', id);
    } else {
      RpcsWiden(s, l, s', l');
    }
  }

  lemma ReqKeeps(cfg: Config, s: Session, l: Ledger, id: nat, g: nat, a: seq<Byte>, now: int)
    requires Inv(s, l) && AssetsOk(cfg)
    ensures Inv(OnReq(cfg, s, id, g, a, now), WriteReq(cfg, s, l, id, g, a))
  {
    RingFrame(s, l, OnReq(cfg, s, id, g, a, now), WriteReq(cfg, s, l, id, g, a));
    ReqRpcs(cfg, s, l, id, g, a, now);
    ReqReplies(cfg, s, l, id, g, a, now);
  }

  lemma ReqReplies(cfg: Config, s: Session, l: Ledger, id: nat, g: nat, a: seq<Byte>, now: int)
    requires RepliesInv(s, l)
    ensures RepliesInv(OnReq(cfg, s, id, g, a, now), WriteReq(cfg, s, l, id, g, a))
  {
  }

  lemma GrantKeeps(s: Session, l: Ledger, id: nat, g: nat, now: int)
    requires Inv(s, l)
    ensures Inv(OnGrant(s, id, g, now), WriteGrant(s, l, id, g))
  {
    var s', l' := OnGrant(s, id, g, now), WriteGrant(s, l, id, g);
    CeilRaised(l, id, g);
    RingFrame(s, l, s', l');
    if id in s.rpcs {
      RaisedRpc(s.rpcs[id], l.of[id], CeilOf(l, id), g);
      PutRpc(s, l, s', l', id);
    } else {
      RpcsWiden(s, l, s', l');
    }
  }

  lemma {:induction false} SpanBytesAppend(ss: seq<Span>, sp: Span)
    ensures SpanBytes(ss + [sp]) == SpanBytes(ss) + sp.end - sp.start
  {
    if ss == [] {
      assert [] + [sp] == [sp];
    } else {
      assert (ss + [sp])[1..] == ss[1..] + [sp];
      SpanBytesAppend(ss[1..], sp);
    }
  }

  lemma AppendSpan(r: Rpc, rl: RpcLedger, c: nat, sp: Span)
    requires RpcInv(r, rl, c) && sp.start < sp.end <= r.next
    ensures RpcInv(r.(resends := r.resends + [sp]), rl.(queued := rl.queued + (sp.end - sp.start)), c)
  {
    SpanBytesAppend(r.resends, sp);
  }

  /** Merging with the last range queues the same bytes as adding a range. */
  lemma RequeueKeeps(r: Rpc, rl: RpcLedger, c: nat, off: nat, end: nat)
    requires RpcInv(r, rl, c) && off < end <= r.next
    ensures RpcInv(Requeue(r, off, end), rl.(queued := rl.queued + (end - off)), c)
  {
    var k := |r.resends|;
    if k > 0 && r.resends[k - 1].end == off {
      var front, tail := r.resends[..k - 1], r.resends[k - 1];
      assert r.resends == front + [tail];
      assert r.resends[k - 1 := tail.(end := end)] == front + [tail.(end := end)];
      SpanBytesAppend(front, tail);
      SpanBytesAppend(front, tail.(end := end));
      assert tail in r.resends;
    } else {
      AppendSpan(r, rl, c, Span(off, end));
    }
  }

  lemma ResendKeeps(s: Session, l: Ledger, id: nat, start: nat, end: nat, now: int)
    requires Inv(s, l)
    ensures Inv(OnResend(s, id, start, end, now), WriteResend(s, l, id, start, end))
  {
    var s', l' := OnResend(s, id, start, end, now), WriteResend(s, l, id, start, end);
    RingFrame(s, l, s', l');
    if id in s.rpcs {
      var r := s.rpcs[id].(lastActive := now);
      assert RpcInv(r, l.of[id], CeilOf(l, id));
      if start < Clip(r, end) { AppendSpan(r, l.of[id], CeilOf(l, id), Span(start, Clip(r, end))); }
      PutRpc(s, l, s', l', id);
    } else {
      RpcsWiden(s, l, s', l');
    }
  }

  lemma HelloKeeps(cfg: Config, s: Session, l: Ledger, caps: nat)
    requires Inv(s, l)
    ensures Inv(OnHello(cfg, s, caps), l)
  {
  }

  /** What the ring says about a number's slot: a hit exactly when the number is among the last 65536 sent. */
  lemma RingLookup(s: Session, l: Ledger, n: nat)
    requires RingInv(s, l)
    ensures Hit(s, n) <==> s.nextSeq - SEQ_RING_SIZE <= n < s.nextSeq
    ensures Hit(s, n) ==> Slot(s, n) == SeqEntry(n, true, l.requeued[n] == 1, l.log[n].rpc, l.log[n].off, l.log[n].n)
  {
    if s.seqOn {
      var i := n % SEQ_RING_SIZE;
      assert SlotInv(s.ring[i], i, s.nextSeq, l);
    }
  }

  lemma MarkSlot(s: Session, l: Ledger, n: nat)
    requires RingInv(s, l) && Hit(s, n) && !Slot(s, n).resent
    ensures RingInv(s.(ring := s.ring[n % SEQ_RING_SIZE := Slot(s, n).(resent := true)]), l.(requeued := l.requeued + multiset{n}))
  {
    RingLookup(s, l, n);
    var s' := s.(ring := s.ring[n % SEQ_RING_SIZE := Slot(s, n).(resent := true)]);
    var l' := l.(requeued := l.requeued + multiset{n});
    assert SlotInv(s.ring[n % SEQ_RING_SIZE], n % SEQ_RING_SIZE, s.nextSeq, l);
    forall i: nat | i < SEQ_RING_SIZE
      ensures SlotInv(s'.ring[i], i, s.nextSeq, l')
    {
      assert SlotInv(s.ring[i], i, s.nextSeq, l);
    }
  }

  lemma RingFrame(s: Session, l: Ledger, s': Session, l': Ledger)
    requires RingInv(s, l) && s'.seqOn == s.seqOn && s'.ring == s.ring && s'.nextSeq == s.nextSeq
    requires l'.log == l.log && l'.requeued == l.requeued
    ensures RingInv(s', l')
  {
    if s.seqOn {
      forall i: nat | i < SEQ_RING_SIZE
        ensures SlotInv(s'.ring[i], i, s'.nextSeq, l')
      {
        assert SlotInv(s.ring[i], i, s.nextSeq, l);
      }
    }
  }

  lemma OneRing(s: Session, l: Ledger, n: nat, now: int)
    requires RingInv(s, l) && Hit(s, n) && !Slot(s, n).resent
    ensures RingInv(ResendOne(s, n, now), WriteOne(s, l, n))
  {
    var e := Slot(s, n);
    var m, lm := s.(ring := s.ring[n % SEQ_RING_SIZE := e.(resent := true)]), l.(requeued := l.requeued + multiset{n});
    MarkSlot(s, l, n);
    RingFrame(m, lm, ResendOne(s, n, now), WriteOne(s, l, n));
  }

  /** The RPC a number is answered for, with its bytes queued again. */
  function Answering(r: Rpc, e: SeqEntry, now: int): Rpc {
    var r' := r.(lastActive := now);
    if e.off < Clip(r, e.off + e.n) then Requeue(r', e.off, Clip(r, e.off + e.n)) else r'
  }

  lemma AnsweringKeeps(r: Rpc, rl: RpcLedger, c: nat, e: SeqEntry, now: int)
    requires RpcInv(r, rl, c)
    ensures RpcInv(Answering(r, e, now), rl.(queued := rl.queued + Max(0, Clip(r, e.off + e.n) - e.off)), c)
  {
    var r' := r.(lastActive := now);
    assert RpcInv(r', rl, c);
    if e.off < Clip(r, e.off + e.n) { RequeueKeeps(r', rl, c, e.off, Clip(r, e.off + e.n)); }
  }

  lemma WhatOneDoes(s: Session, l: Ledger, n: nat, now: int)
    requires Hit(s, n) && !Slot(s, n).resent && Slot(s, n).rpc in s.rpcs && Slot(s, n).rpc in l.of
    ensures var e, s', l' := Slot(s, n), ResendOne(s, n, now), WriteOne(s, l, n);
      var count := Max(0, Clip(s.rpcs[e.rpc], e.off + e.n) - e.off);
      && s'.rpcs == s.rpcs[e.rpc := Answering(s.rpcs[e.rpc], e, now)]
      && l'.of == l.of[e.rpc := l.of[e.rpc].(queued := l.of[e.rpc].queued + count)] && l'.ceiling == l.ceiling
  {
  }

  lemma OneRpcs(s: Session, l: Ledger, n: nat, now: int)
    requires RpcsInv(s, l) && Hit(s, n) && !Slot(s, n).resent
    ensures RpcsInv(ResendOne(s, n, now), WriteOne(s, l, n))
  {
    var e, s', l' := Slot(s, n), ResendOne(s, n, now), WriteOne(s, l, n);
    if e.rpc in s.rpcs {
      AnsweringKeeps(s.rpcs[e.rpc], l.of[e.rpc], CeilOf(l, e.rpc), e, now);
      WhatOneDoes(s, l, n, now);
      PutRpc(s, l, s', l', e.rpc);
    } else {
      RpcsWiden(s, l, s', l');
    }
  }

  lemma OneKeeps(s: Session, l: Ledger, n: nat, now: int)
    requires Inv(s, l) && |s.ring| == SEQ_RING_SIZE
    ensures Inv(ResendOne(s, n, now), WriteOne(s, l, n))
  {
    if Hit(s, n) && !Slot(s, n).resent {
      OneRing(s, l, n, now);
      OneRpcs(s, l, n, now);
    }
  }

  lemma {:induction false} ManyKeeps(s: Session, l: Ledger, from: nat, end: nat, now: int)
    requires Inv(s, l) && |s.ring| == SEQ_RING_SIZE
    ensures Inv(ResendMany(s, from, end, now), WriteMany(s, l, from, end, now))
    decreases end - from
  {
    if from < end {
      OneKeeps(s, l, from, now);
      ManyKeeps(ResendOne(s, from, now), WriteOne(s, l, from), from + 1, end, now);
    }
  }

  /** The receive loop's step keeps the invariant, whatever the packet. */
  lemma HandleKeeps(cfg: Config, s: Session, l: Ledger, p: Packet, now: int)
    requires Inv(s, l) && AssetsOk(cfg)
    ensures Inv(Handle(cfg, s, p, now), WriteHandle(cfg, s, l, p, now))
  {
    match p
    case Req(id, g, a) => ReqKeeps(cfg, s, l, id, g, a, now);
    case Grant(id, g, _) => GrantKeeps(s, l, id, g, now);
    case Resend(id, start, end) => ResendKeeps(s, l, id, start, end, now);
    case Hello(_, caps) => HelloKeeps(cfg, s, l, caps);
    case ResendSeq(_, start, end) =>
      if s.seqOn && |s.ring| == SEQ_RING_SIZE { ManyKeeps(s, l, start, Min(end, start + MAX_RESEND_SEQ_RANGE), now); }
    case _ =>
  }

  // ---- What a receive step may do to a chosen packet ----

  /** Receive steps raise grants, queue resends and count requests; they touch nothing the send loop owns. */
  predicate RpcGrows(r: Rpc, r': Rpc) {
    && r'.asset == r.asset && r'.meta == r.meta
    && r.granted <= r'.granted && r.packet0Req <= r'.packet0Req
    && r'.next == r.next && r'.metaSent == r.metaSent && r'.packet0Sent == r.packet0Sent
    && r'.tailDuped == r.tailDuped && r'.tailDup == r.tailDup
    && (r.resends != [] ==> r'.resends != [] && r'.resends[0].start == r.resends[0].start && r.resends[0].end <= r'.resends[0].end)
  }

  predicate Grows(s: Session, s': Session) {
    && (forall id :: id in s.rpcs ==> id in s'.rpcs && RpcGrows(s.rpcs[id], s'.rpcs[id]))
    && |s.pending| <= |s'.pending| && s.pending == s'.pending[..|s.pending|]
    && (s.seqOn ==> s'.seqOn) && s'.nextSeq == s.nextSeq && s'.maxDatagram == s.maxDatagram
  }

  lemma RequeueGrows(r: Rpc, off: nat, end: nat)
    requires off < end
    ensures RpcGrows(r, Requeue(r, off, end))
  {
  }

  lemma GrowsTwice(a: Session, b: Session, c: Session)
    requires Grows(a, b) && Grows(b, c)
    ensures Grows(a, c)
  {
    forall id | id in a.rpcs
      ensures id in c.rpcs && RpcGrows(a.rpcs[id], c.rpcs[id])
    {
      assert RpcGrows(a.rpcs[id], b.rpcs[id]) && RpcGrows(b.rpcs[id], c.rpcs[id]);
    }
  }

  lemma OneGrows(s: Session, n: nat, now: int)
    requires |s.ring| == SEQ_RING_SIZE
    ensures Grows(s, ResendOne(s, n, now))
  {
    if Hit(s, n) && !Slot(s, n).resent && Slot(s, n).rpc in s.rpcs {
      var e := Slot(s, n);
      var r := s.rpcs[e.rpc].(lastActive := now);
      if e.off < Clip(r, e.off + e.n) { RequeueGrows(r, e.off, Clip(r, e.off + e.n)); }
    }
  }

  lemma {:induction false} ManyGrows(s: Session, from: nat, end: nat, now: int)
    requires |s.ring| == SEQ_RING_SIZE
    ensures Grows(s, ResendMany(s, from, end, now))
    decreases end - from
  {
    if from < end {
      var s' := ResendOne(s, from, now);
      OneGrows(s, from, now);
      ManyGrows(s', from + 1, end, now);
      GrowsTwice(s, s', ResendMany(s', from + 1, end, now));
    }
  }

  lemma AskGrows(cfg: Config, s: Session, id: nat, g: nat, assetId: seq<Byte>, now: int)
    ensures Grows(s, OnReq(cfg, s, id, g, assetId, now)) && Grows(s, OnGrant(s, id, g, now))
  {
  }

  lemma ResendGrows(s: Session, id: nat, start: nat, end: nat, now: int)
    ensures Grows(s, OnResend(s, id, start, end, now))
  {
  }

  lemma HandleGrows(cfg: Config, s: Session, p: Packet, now: int)
    ensures Grows(s, Handle(cfg, s, p, now))
  {
    match p
    case Req(id, g, assetId) => AskGrows(cfg, s, id, g, assetId, now);
    case Grant(id, g, _) => AskGrows(cfg, s, id, g, [], now);
    case Resend(id, start, end) => ResendGrows(s, id, start, end, now);
    case ResendSeq(_, start, end) =>
      if s.seqOn && |s.ring| == SEQ_RING_SIZE { ManyGrows(s, start, Min(end, start + MAX_RESEND_SEQ_RANGE), now); }
    case _ =>
  }

  /** A chosen packet stays fit to record across any receive step. */
  lemma WorkStays(s: Session, s': Session, w: Work)
    requires WorkInv(s, w) && Grows(s, s')
    ensures WorkInv(s', w)
  {
    if w.kind != Control { assert RpcGrows(s.rpcs[w.rpc], s'.rpcs[w.rpc]); }
  }

  // ---- The send loop's steps ----

  lemma DataFits(id: nat, r: Rpc, off: nat, n: nat)
    requires off + n <= r.Size()
    ensures var p := DataOf(id, r, off, n); |p.payload| == n && p.offset == off && p.payload == Bytes(r, off, n)
  {
  }

  lemma DueWorks(id: nat, r: Rpc, rl: RpcLedger, c: nat, u: bool, chunk: nat)
    requires Due(r).Some? && RpcInv(r, rl, c) && 1 <= chunk
    ensures RpcWork(r, WorkOf(id, r, u, chunk))
  {
    match Due(r).value
    case MetaWork =>
    case Packet0 => DataFits(id, r, 0, Min(chunk, r.granted));
    case Resending =>
      assert r.resends[0] in r.resends;
      DataFits(id, r, r.resends[0].start, Min(chunk, r.resends[0].end - r.resends[0].start));
    case NewData => DataFits(id, r, r.next, Min(chunk, r.granted - r.next));
    case TailDup => DataFits(id, r, r.tailDup.value.start, r.tailDup.value.end - r.tailDup.value.start);
    case _ =>
  }

  lemma PickWorks(s: Session, l: Ledger, w: Work)
    requires Inv(s, l) && Picks(s, Some(w))
    ensures WorkInv(s, w)
  {
    if s.pending == [] { DueWorks(w.rpc, s.rpcs[w.rpc], l.of[w.rpc], CeilOf(l, w.rpc), UsesSeq(s), Chunk(s)); }
  }

  /** Goal G2 at the one place DATA leaves: nothing past the grant. */
  lemma NothingUngranted(s: Session, w: Work)
    requires WorkInv(s, w)
    ensures Ungranted(s, w) == 0
  {
  }

  lemma OffsetsJoin(a: int, b: int, c: int)
    requires a <= b <= c
    ensures Offsets(a, b) + Offsets(b, c) == Offsets(a, c)
  {
  }

  lemma OffsetsWithin(off: nat, n: nat, next: nat)
    requires off + n <= next
    ensures Offsets(0, next) + Offsets(off, off + n) == Offsets(0, next)
  {
  }

  lemma OffsetsPrefix(next: nat, n: nat)
    ensures Offsets(0, next) + Offsets(0, n) == Offsets(0, Max(next, n))
  {
  }

  /** The tail duplicate is taken from what has been sent. */
  lemma TailKeeps(cfg: Config, r: Rpc, rl: RpcLedger, c: nat, w: Work, off: nat, n: nat)
    requires RpcInv(r, rl, c) && off + n <= r.next
    ensures RpcInv(QueueTail(cfg, r, w, off, n), rl, c)
  {
  }

  lemma ResentKeeps(r: Rpc, rl: RpcLedger, c: nat, w: Work, off: nat, n: nat)
    requires RpcInv(r, rl, c) && KindInv(r, w, off, n) && w.kind == Resending
    ensures RpcInv(SentRpc(r, w, n), SentLedger(rl, w, off, n), c) && off + n <= r.next
  {
    var sp := r.resends[0];
    assert sp in r.resends;
    OffsetsWithin(off, n, r.next);
    if sp.start + n < sp.end {
      var sp' := sp.(start := sp.start + n);
      assert r.resends[0 := sp'] == [sp'] + r.resends[1..];
    }
  }

  /** Recording a sent DATA keeps its RPC's invariant. */
  lemma SentKeeps(cfg: Config, r: Rpc, rl: RpcLedger, c: nat, w: Work, off: nat, n: nat)
    requires RpcInv(r, rl, c) && KindInv(r, w, off, n) && off + n <= r.granted
    ensures RpcInv(QueueTail(cfg, SentRpc(r, w, n), w, off, n), SentLedger(rl, w, off, n), c)
  {
    match w.kind {
      case Packet0 => OffsetsPrefix(r.next, n);
      case Resending => ResentKeeps(r, rl, c, w, off, n);
      case NewData => OffsetsJoin(0, r.next, r.next + n);
      case TailDup => OffsetsWithin(off, n, r.next);
      case _ =>
    }
    TailKeeps(cfg, SentRpc(r, w, n), SentLedger(rl, w, off, n), c, w, off, n);
  }

  lemma RecordRing(s: Session, l: Ledger, w: Work, s': Session, l': Ledger)
    requires RingInv(s, l) && s.seqOn && s.nextSeq <= U32_MAX && w.pkt.Data?
    requires w.pkt.offset + |w.pkt.payload| <= U32_MAX
    requires s'.seqOn && s'.nextSeq == s.nextSeq + 1
    requires s'.ring == s.ring[s.nextSeq % SEQ_RING_SIZE := SeqEntry(s.nextSeq, true, false, w.rpc, w.pkt.offset, |w.pkt.payload|)]
    requires l'.log == l.log + [Carried(w.rpc, w.pkt.offset, |w.pkt.payload|)] && l'.requeued == l.requeued
    ensures RingInv(s', l')
  {
    forall i: nat | i < SEQ_RING_SIZE
      ensures SlotInv(s'.ring[i], i, s'.nextSeq, l')
    {
      assert SlotInv(s.ring[i], i, s.nextSeq, l);
    }
  }

  lemma WhatDataRecords(cfg: Config, s: Session, l: Ledger, w: Work)
    requires w.kind != Control && w.kind != MetaWork && w.pkt.Data? && w.rpc in s.rpcs
    ensures var off, n := w.pkt.offset, |w.pkt.payload|; var s', l' := Recorded(cfg, s, w), WriteRecord(s, l, w);
      && s'.rpcs == s.rpcs[w.rpc := QueueTail(cfg, SentRpc(s.rpcs[w.rpc], w, n), w, off, n)]
      && l'.of == l.of[w.rpc := SentLedger(LedgerOf(l, w.rpc), w, off, n)] && l'.ceiling == l.ceiling
  {
  }

  lemma RecordRpcs(cfg: Config, s: Session, l: Ledger, w: Work)
    requires RpcsInv(s, l) && w.kind != Control && w.rpc in s.rpcs && RpcWork(s.rpcs[w.rpc], w)
    ensures RpcsInv(Recorded(cfg, s, w), WriteRecord(s, l, w))
  {
    var r, rl, c := s.rpcs[w.rpc], l.of[w.rpc], CeilOf(l, w.rpc);
    if w.kind == MetaWork {
      assert RpcInv(r, rl, c);
      assert RpcInv(r.(metaSent := w.packet0), rl, c);
    } else {
      SentKeeps(cfg, r, rl, c, w, w.pkt.offset, |w.pkt.payload|);
      WhatDataRecords(cfg, s, l, w);
    }
    PutRpc(s, l, Recorded(cfg, s, w), WriteRecord(s, l, w), w.rpc);
  }

  lemma RecordSlots(cfg: Config, s: Session, l: Ledger, w: Work)
    requires RpcsInv(s, l) && RingInv(s, l) && WorkInv(s, w)
    ensures RingInv(Recorded(cfg, s, w), WriteRecord(s, l, w))
  {
    if w.kind != Control && w.pkt.Data? && w.useSeq {
      assert RpcInv(s.rpcs[w.rpc], l.of[w.rpc], CeilOf(l, w.rpc));
      RecordRing(s, l, w, Recorded(cfg, s, w), WriteRecord(s, l, w));
    } else {
      RingFrame(s, l, Recorded(cfg, s, w), WriteRecord(s, l, w));
    }
  }

  lemma RecordKeeps(cfg: Config, s: Session, l: Ledger, w: Work)
    requires Inv(s, l) && WorkInv(s, w)
    ensures Inv(Recorded(cfg, s, w), WriteRecord(s, l, w))
  {
    RecordSlots(cfg, s, l, w);
    if w.kind != Control { RecordRpcs(cfg, s, l, w); }
  }

  lemma EvictKeeps(cfg: Config, s: Session, l: Ledger, now: int)
    requires Inv(s, l)
    ensures Inv(Evicted(cfg, s, now), l)
  {
    RingFrame(s, l, Evicted(cfg, s, now), l);
  }
}
