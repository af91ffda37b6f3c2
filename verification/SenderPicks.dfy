/**
 What pick chooses and how much of it one datagram carries, spelled out.
 */
module SenderPicks {
  import opened Intervals
  import opened Packets
  import opened Senders
  import opened SenderRuns
  import opened SenderHistory
  import SD = SenderDrain
  import W = Wire

  // ---- The order ----

  predicate MetaDue(r: Rpc) { r.packet0Req > r.metaSent }

  predicate Packet0Due(r: Rpc) { r.packet0Req > r.packet0Sent }

  predicate ResendDue(r: Rpc) { r.resends != [] }

  predicate NewDue(r: Rpc) { r.next < r.granted }

  predicate CopyDue(r: Rpc) { r.tailDup.Some? }

  /** The kind of packet an RPC waits to send: of all it waits for, the first. */
  predicate Waits(r: Rpc, k: Kind) {
    match k
    case Control => false
    case MetaWork => MetaDue(r)
    case Packet0 => Packet0Due(r)
    case Resending => ResendDue(r)
    case NewData => NewDue(r)
    case TailDup => CopyDue(r)
  }

  /** Nothing is due that goes before this kind: ERRORs, META, packet 0, resends, new data, copies, in that order. */
  predicate NothingBefore(s: Session, k: Kind) {
    && (k != Control ==> s.pending == [])
    && forall j :: j in s.rpcs ==>
      && (k == Packet0 || k == Resending || k == NewData || k == TailDup ==> !MetaDue(s.rpcs[j]))
      && (k == Resending || k == NewData || k == TailDup ==> !Packet0Due(s.rpcs[j]))
      && (k == NewData || k == TailDup ==> !ResendDue(s.rpcs[j]))
      && (k == TailDup ==> !NewDue(s.rpcs[j]))
  }

  /** What is picked waits; nothing of an earlier kind does; and of those that wait for the same kind no RPC has fewer bytes unsent. */
  lemma PickOrder(s: Session, l: Ledger, w: Work)
    requires Inv(s, l) && Picks(s, Some(w))
    ensures NothingBefore(s, w.kind)
    ensures w.kind == Control <==> s.pending != []
    ensures w.kind != Control ==>
      && w.rpc in s.rpcs && Waits(s.rpcs[w.rpc], w.kind)
      && forall j :: j in s.rpcs && Waits(s.rpcs[j], w.kind) ==>
        |s.rpcs[w.rpc].asset| - s.rpcs[w.rpc].next <= |s.rpcs[j].asset| - s.rpcs[j].next
  {
    if s.pending == [] {
      var r := s.rpcs[w.rpc];
      forall j | j in s.rpcs
        ensures Due(s.rpcs[j]).Some? ==> KindRank(Due(s.rpcs[j]).value) >= KindRank(w.kind)
        ensures Waits(s.rpcs[j], w.kind) ==> Due(s.rpcs[j]) == Some(w.kind) && r.Size() - r.next <= s.rpcs[j].Size() - s.rpcs[j].next
      {
        assert RpcInv(s.rpcs[j], l.of[j], CeilOf(l, j));
        KindOf(s, w);
        if Due(s.rpcs[j]).Some? { assert !Better(s.rpcs[j], r); }
      }
      KindOf(s, w);
    }
  }

  lemma KindOf(s: Session, w: Work)
    requires Picks(s, Some(w)) && s.pending == []
    ensures w.rpc in s.rpcs && Due(s.rpcs[w.rpc]) == Some(w.kind) && w.kind != Control
  {
  }

  // ---- How much ----

  function HeaderOf(p: Packet): nat { if p.DataSeq? then DATA_SEQ_HEADER_LEN else DATA_HEADER_LEN }

  predicate IsData(p: Packet) { p.Data? || p.DataSeq? }

  lemma DataLength(p: Packet)
    requires IsData(p)
    ensures |W.Encode(p)| == HeaderOf(p) + |p.payload|
  {
  }

  /** The bytes the picked work is for. */
  function Wanted(r: Rpc, k: Kind): Span {
    match k
    case Packet0 => Span(0, r.granted)
    case Resending => if r.resends == [] then Span(0, 0) else r.resends[0]
    case NewData => Span(r.next, r.granted)
    case _ => Span(0, 0)
  }

  /** A datagram that fits the path, or carries a single byte because nothing smaller would do. */
  predicate Fits(maxDatagram: int, p: Packet)
    requires IsData(p)
  {
    |W.Encode(p)| <= maxDatagram || |p.payload| <= 1
  }

  predicate Full(maxDatagram: int, p: Packet) { |W.Encode(p)| >= maxDatagram }

  /** The DATA carries these bytes of the RPC, from the start of the wanted ones. */
  predicate CarriesOf(p: Packet, id: nat, r: Rpc, sp: Span) {
    && IsData(p) && p.rpc == id && p.totalSize == |r.asset| && p.offset == sp.start
    && p.offset + |p.payload| <= sp.end <= |r.asset| && p.payload == r.asset[p.offset..p.offset + |p.payload|]
  }

  lemma ExtentOf(id: nat, r: Rpc, sp: Span, chunk: nat)
    requires sp.start <= sp.end <= |r.asset|
    ensures var p := DataOf(id, r, sp.start, Min(chunk, sp.end - sp.start));
      CarriesOf(p, id, r, sp) && |p.payload| == Min(chunk, sp.end - sp.start)
  {
  }

  lemma WorkExtent(id: nat, r: Rpc, rl: RpcLedger, c: nat, u: bool, chunk: nat)
    requires Due(r).Some? && RpcInv(r, rl, c) && 1 <= chunk
    ensures var w := WorkOf(id, r, u, chunk); var sp := Wanted(r, w.kind);
      w.pkt.Data? && w.kind != TailDup ==> CarriesOf(w.pkt, id, r, sp) && |w.pkt.payload| == Min(chunk, sp.end - sp.start)
  {
    if r.resends != [] { assert r.resends[0] in r.resends; }
    ExtentOf(id, r, Wanted(r, Due(r).value), chunk);
  }

  lemma PickExtent(s: Session, l: Ledger, w: Work)
    requires Inv(s, l) && Picks(s, Some(w)) && w.pkt.Data? && w.kind != TailDup
    ensures w.rpc in s.rpcs && w.useSeq == UsesSeq(s)
    ensures var sp := Wanted(s.rpcs[w.rpc], w.kind); CarriesOf(w.pkt, w.rpc, s.rpcs[w.rpc], sp) && |w.pkt.payload| == Min(Chunk(s), sp.end - sp.start)
  {
    SD.NoDataPending(s, l, w);
    WorkExtent(w.rpc, s.rpcs[w.rpc], l.of[w.rpc], CeilOf(l, w.rpc), UsesSeq(s), Chunk(s));
  }

  /** A picked DATA starts where its bytes do, fits a datagram, and stops short of their end only if the datagram is full. */
  lemma PickFills(s: Session, l: Ledger, w: Work)
    requires Inv(s, l) && Picks(s, Some(w)) && w.pkt.Data? && w.kind != TailDup
    ensures w.rpc in s.rpcs
    ensures var r, p := s.rpcs[w.rpc], Outgoing(s, w); var sp := Wanted(r, w.kind);
      CarriesOf(p, w.rpc, r, sp) && Fits(s.maxDatagram, p) && (p.offset + |p.payload| < sp.end ==> Full(s.maxDatagram, p))
  {
    PickExtent(s, l, w);
    DataLength(Outgoing(s, w));
  }

  /** Only new data of an RPC with more than a queue's worth of full datagrams unsent may be held back. */
  lemma OnlyBulkIsHeld(s: Session, l: Ledger, w: Work)
    requires Inv(s, l) && Picks(s, Some(w))
    ensures w.bulk <==> w.kind == NewData && w.rpc in s.rpcs
                        && |s.rpcs[w.rpc].asset| - s.rpcs[w.rpc].next > QUIC_SEND_QUEUE * Max(1, s.maxDatagram - HeaderOf(Outgoing(s, w)))
  {
    if s.pending == [] {
      var r := s.rpcs[w.rpc];
      assert RpcInv(r, l.of[w.rpc], CeilOf(l, w.rpc));
    }
  }

  /** The un-granted byte counter adds exactly the bytes of a DATA that its RPC's grant does not cover. */
  lemma UngrantedCounts(s: Session, w: Work)
    requires w.pkt.Data? && w.rpc in s.rpcs
    ensures Ungranted(s, w) == |Offsets(w.pkt.offset, w.pkt.offset + |w.pkt.payload|) - Offsets(0, s.rpcs[w.rpc].granted)|
  {
    var off, end, granted := w.pkt.offset, w.pkt.offset + |w.pkt.payload|, s.rpcs[w.rpc].granted;
    assert Offsets(off, end) - Offsets(0, granted) == Offsets(Max(off, granted), end);
    OffsetsSize(Max(off, granted), end);
  }
}
