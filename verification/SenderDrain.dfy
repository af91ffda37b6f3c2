/**
 The send loop comes to rest: with no new client packets and every send
 succeeding it goes idle after a bounded number of sends, and at idle each RPC
 has had everything it was promised.
 */
module SenderDrain {
  import opened Intervals
  import opened Packets
  import opened Senders
  import opened SenderRuns

  /** An upper bound on the packets an RPC can still send. */
  function Load(r: Rpc): int {
    (if r.packet0Req > r.metaSent then 1 else 0) + (if r.packet0Req > r.packet0Sent then 1 else 0)
    + SpanBytes(r.resends) + r.granted - r.next
    + (if r.tailDup.Some? then 1 else 0) + if r.tailDuped then 0 else 1
  }

  ghost function Loads(m: map<nat, Rpc>): int {
    if m == map[] then 0
    else
      var id :| id in m;
      Load(m[id]) + Loads(m - {id})
  }

  /** An upper bound on the packets the session can still send. */
  ghost function Total(s: Session): int { |s.pending| + Loads(s.rpcs) }

  lemma {:induction false} LoadsWithout(m: map<nat, Rpc>, id: nat)
    requires id in m
    ensures Loads(m) == Load(m[id]) + Loads(m - {id})
  {
    var j :| j in m && Loads(m) == Load(m[j]) + Loads(m - {j});
    if j != id {
      LoadsWithout(m - {j}, id);
      LoadsWithout(m - {id}, j);
      assert m - {j} - {id} == m - {id} - {j};
    }
  }

  lemma LoadsPut(m: map<nat, Rpc>, id: nat, r: Rpc)
    requires id in m
    ensures Loads(m[id := r]) == Loads(m) - Load(m[id]) + Load(r)
  {
    LoadsWithout(m, id);
    LoadsWithout(m[id := r], id);
    assert m[id := r] - {id} == m - {id};
  }

  lemma {:induction false} SpanBytesNonNegative(ss: seq<Span>, limit: nat)
    requires SpansIn(ss, limit)
    ensures SpanBytes(ss) >= |ss|
  {
    if ss != [] {
      assert ss[0] in ss;
      SpanBytesNonNegative(ss[1..], limit);
    }
  }

  lemma LoadNonNegative(r: Rpc, rl: RpcLedger, c: nat)
    requires RpcInv(r, rl, c)
    ensures Load(r) >= 0
  {
    SpanBytesNonNegative(r.resends, r.next);
  }

  lemma {:induction false} LoadsNonNegative(m: map<nat, Rpc>)
    requires forall id :: id in m ==> Load(m[id]) >= 0
    ensures Loads(m) >= 0
  {
    if m != map[] {
      var id :| id in m && Loads(m) == Load(m[id]) + Loads(m - {id});
      LoadsNonNegative(m - {id});
    }
  }

  lemma TotalNonNegative(s: Session, l: Ledger)
    requires RpcsInv(s, l)
    ensures Total(s) >= 0
  {
    forall id | id in s.rpcs ensures Load(s.rpcs[id]) >= 0 { LoadNonNegative(s.rpcs[id], l.of[id], CeilOf(l, id)); }
    LoadsNonNegative(s.rpcs);
  }

  lemma QueueTailLoad(cfg: Config, r: Rpc, w: Work, off: nat, n: nat)
    ensures Load(QueueTail(cfg, r, w, off, n)) <= Load(r)
  {
  }

  /** What recording w leaves of its RPC. */
  function RecordedRpc(cfg: Config, r: Rpc, w: Work): Rpc {
    if w.kind == MetaWork then r.(metaSent := w.packet0)
    else if !w.pkt.Data? then r
    else QueueTail(cfg, SentRpc(r, w, |w.pkt.payload|), w, w.pkt.offset, |w.pkt.payload|)
  }

  lemma SentFalls(r: Rpc, w: Work, off: nat, n: nat)
    requires KindInv(r, w, off, n) && (w.kind == Packet0 ==> r.packet0Req == w.packet0 > r.packet0Sent)
    requires w.kind == TailDup ==> r.tailDup.Some?
    ensures Load(SentRpc(r, w, n)) < Load(r)
  {
    if w.kind == Resending { HeadLoad(r, n); }
  }

  lemma LoadFalls(cfg: Config, id: nat, r: Rpc, rl: RpcLedger, c: nat, u: bool, chunk: nat)
    requires Due(r).Some? && RpcInv(r, rl, c) && 1 <= chunk
    ensures Load(RecordedRpc(cfg, r, WorkOf(id, r, u, chunk))) < Load(r)
  {
    var w := WorkOf(id, r, u, chunk);
    DueWorks(id, r, rl, c, u, chunk);
    if w.kind != MetaWork {
      var off, n := w.pkt.offset, |w.pkt.payload|;
      SentFalls(r, w, off, n);
      QueueTailLoad(cfg, SentRpc(r, w, n), w, off, n);
    }
  }

  lemma HeadLoad(r: Rpc, n: nat)
    requires r.resends != [] && n <= r.resends[0].end - r.resends[0].start
    ensures var sp := r.resends[0];
      SpanBytes(if sp.start + n >= sp.end then r.resends[1..] else r.resends[0 := sp.(start := sp.start + n)]) == SpanBytes(r.resends) - n
  {
    var sp := r.resends[0];
    if sp.start + n < sp.end { assert r.resends[0 := sp.(start := sp.start + n)] == [sp.(start := sp.start + n)] + r.resends[1..]; }
  }

  lemma RecordsOneRpc(cfg: Config, s: Session, w: Work)
    requires w.kind != Control && w.rpc in s.rpcs
    ensures Recorded(cfg, s, w).rpcs == s.rpcs[w.rpc := RecordedRpc(cfg, s.rpcs[w.rpc], w)]
    ensures Recorded(cfg, s, w).pending == s.pending
  {
  }

  /** Each successful send brings the bound down. */
  lemma SendFalls(cfg: Config, s: Session, l: Ledger, w: Work)
    requires Inv(s, l) && Picks(s, Some(w))
    ensures Total(Recorded(cfg, s, w)) < Total(s)
  {
    if s.pending == [] {
      var r := s.rpcs[w.rpc];
      assert w == WorkOf(w.rpc, r, UsesSeq(s), Chunk(s));
      LoadFalls(cfg, w.rpc, r, l.of[w.rpc], CeilOf(l, w.rpc), UsesSeq(s), Chunk(s));
      LoadsPut(s.rpcs, w.rpc, RecordedRpc(cfg, r, w));
      RecordsOneRpc(cfg, s, w);
    }
  }

  /** s[i+1] is s[i] after its pick w[i] was sent. */
  predicate Sends(cfg: Config, s: seq<Session>, w: seq<Work>) {
    |s| == |w| + 1 && forall i :: 0 <= i < |w| ==> Picks(s[i], Some(w[i])) && s[i + 1] == Recorded(cfg, s[i], w[i])
  }

  /** The ledger after sending w in turn. */
  ghost function WriteAll(s: seq<Session>, l: Ledger, w: seq<Work>): Ledger
    requires |w| <= |s|
  {
    if w == [] then l
    else
      var k := |w| - 1;
      WriteRecord(s[k], WriteAll(s[..k], l, w[..k]), w[k])
  }

  /** The datagrams that leave, in turn. */
  function SentBy(s: seq<Session>, w: seq<Work>): seq<Packet>
    requires |w| <= |s|
  {
    if w == [] then []
    else
      var k := |w| - 1;
      SentBy(s[..k], w[..k]) + [Outgoing(s[k], w[k])]
  }

  lemma SendsFront(cfg: Config, s: seq<Session>, w: seq<Work>)
    requires Sends(cfg, s, w) && w != []
    ensures var k := |w| - 1;
      Sends(cfg, s[..k + 1], w[..k]) && s[..k + 1][..k] == s[..k] && s[..k + 1][k] == s[k] && s[..k + 1][0] == s[0]
  {
  }

  /** One more send, and what it adds to the ledger and to what has left. */
  lemma SendsAppend(cfg: Config, s: seq<Session>, l: Ledger, w: seq<Work>, x: Work)
    requires Sends(cfg, s, w) && Picks(s[|w|], Some(x))
    ensures var k := |w|; var s', w' := s + [Recorded(cfg, s[k], x)], w + [x];
      && Sends(cfg, s', w') && s'[0] == s[0] && s'[k + 1] == Recorded(cfg, s[k], x)
      && WriteAll(s', l, w') == WriteRecord(s[k], WriteAll(s, l, w), x)
      && SentBy(s', w') == SentBy(s, w) + [Outgoing(s[k], x)]
  {
    var k, s', w' := |w|, s + [Recorded(cfg, s[|w|], x)], w + [x];
    assert w'[..k] == w && s'[..k] == s[..k];
    OnlyTheFirst(s, l, w);
  }

  /** The ledger and the datagrams depend only on the states the sends start from. */
  lemma OnlyTheFirst(s: seq<Session>, l: Ledger, w: seq<Work>)
    requires |w| <= |s|
    ensures WriteAll(s, l, w) == WriteAll(s[..|w|], l, w) && SentBy(s, w) == SentBy(s[..|w|], w)
  {
    if w != [] {
      var k := |w| - 1;
      assert s[..|w|][..k] == s[..k] && s[..|w|][k] == s[k];
    }
  }

  /** An uninterrupted run of sends is no longer than the bound, and keeps the invariant to its end. */
  lemma {:induction false} SendsAreBounded(cfg: Config, s: seq<Session>, l: Ledger, w: seq<Work>)
    requires Sends(cfg, s, w) && Inv(s[0], l)
    ensures 0 <= Total(s[|w|]) && |w| + Total(s[|w|]) <= Total(s[0])
    ensures Inv(s[|w|], WriteAll(s, l, w))
    decreases |w|
  {
    if w != [] {
      var k := |w| - 1;
      SendsFront(cfg, s, w);
      SendsAreBounded(cfg, s[..k + 1], l, w[..k]);
      OnlyTheFirst(s[..k + 1], l, w[..k]);
      PickWorks(s[k], WriteAll(s[..k], l, w[..k]), w[k]);
      RecordKeeps(cfg, s[k], WriteAll(s[..k], l, w[..k]), w[k]);
      SendFalls(cfg, s[k], WriteAll(s[..k], l, w[..k]), w[k]);
    }
    TotalNonNegative(s[|w|], WriteAll(s, l, w));
  }

  // ---- What a run of sends leaves as it was ----

  /** Sending answers requests and uses up queues; it never drops an RPC, a grant or a request. */
  predicate SamePromises(a: Session, b: Session) {
    && b.rpcs.Keys == a.rpcs.Keys
    && (forall id :: id in a.rpcs ==>
          && b.rpcs[id].asset == a.rpcs[id].asset && b.rpcs[id].meta == a.rpcs[id].meta
          && b.rpcs[id].granted == a.rpcs[id].granted && b.rpcs[id].packet0Req == a.rpcs[id].packet0Req
          && b.rpcs[id].lastActive == a.rpcs[id].lastActive)
    && b.maxDatagram == a.maxDatagram && b.seqOn == a.seqOn
  }

  lemma RecordPromises(cfg: Config, s: Session, w: Work)
    ensures SamePromises(s, Recorded(cfg, s, w))
  {
    if w.kind != Control && w.rpc in s.rpcs { RecordsOneRpc(cfg, s, w); }
  }

  lemma {:induction false} SendsKeepPromises(cfg: Config, s: seq<Session>, w: seq<Work>)
    requires Sends(cfg, s, w)
    ensures SamePromises(s[0], s[|w|])
    decreases |w|
  {
    if w != [] {
      SendsFront(cfg, s, w);
      SendsKeepPromises(cfg, s[..|w|], w[..|w| - 1]);
      RecordPromises(cfg, s[|w| - 1], w[|w| - 1]);
    }
  }

  /** A datagram that carries byte i of an RPC's asset. */
  predicate Carries(p: Packet, id: nat, i: int) {
    (p.Data? || p.DataSeq?) && p.rpc == id && p.offset <= i < p.offset + |p.payload|
  }

  ghost predicate CarriedIn(ps: seq<Packet>, id: nat, i: int) { exists k :: 0 <= k < |ps| && Carries(ps[k], id, i) }

  lemma RecordCarries(s: Session, l: Ledger, w: Work, id: nat, i: int)
    requires WorkInv(s, w) && i in LedgerOf(WriteRecord(s, l, w), id).sent
    ensures i in LedgerOf(l, id).sent || Carries(Outgoing(s, w), id, i)
  {
  }

  /** What the ledger says was sent was sent before, or left in a datagram of this run. */
  lemma {:induction false} SentWasCarried(cfg: Config, s: seq<Session>, l: Ledger, w: seq<Work>, id: nat, i: int)
    requires Sends(cfg, s, w) && Inv(s[0], l) && i in LedgerOf(WriteAll(s, l, w), id).sent
    ensures i in LedgerOf(l, id).sent || CarriedIn(SentBy(s, w), id, i)
    decreases |w|
  {
    if w != [] {
      var k := |w| - 1;
      var before := WriteAll(s[..k], l, w[..k]);
      SendsFront(cfg, s, w);
      SendsAreBounded(cfg, s[..k + 1], l, w[..k]);
      OnlyTheFirst(s[..k + 1], l, w[..k]);
      PickWorks(s[k], before, w[k]);
      RecordCarries(s[k], before, w[k], id, i);
      var ps := SentBy(s, w);
      if i in LedgerOf(before, id).sent {
        SentWasCarried(cfg, s[..k + 1], l, w[..k], id, i);
        if CarriedIn(SentBy(s[..k], w[..k]), id, i) {
          var j :| 0 <= j < |SentBy(s[..k], w[..k])| && Carries(SentBy(s[..k], w[..k])[j], id, i);
          assert ps[j] == SentBy(s[..k], w[..k])[j];
        }
      } else {
        assert ps[|ps| - 1] == Outgoing(s[k], w[k]);
      }
    }
  }

  /** Everything promised has been sent: the RPC is up to date. */
  ghost predicate Settled(r: Rpc, rl: RpcLedger) {
    && r.next == r.granted && rl.sent == Offsets(0, r.granted)
    && r.packet0Sent == r.metaSent == r.packet0Req
    && r.resends == [] && rl.queued == rl.resent && r.tailDup.None?
  }

  ghost predicate Idle(s: Session, l: Ledger) {
    && s.pending == [] && l.replies == l.errorsSent
    && forall id :: id in s.rpcs ==> id in l.of && Settled(s.rpcs[id], l.of[id])
  }

  /** The send loop finds nothing to pick exactly when every reply is out and every RPC is up to date. */
  lemma IdleMeansSettled(s: Session, l: Ledger)
    requires Inv(s, l)
    ensures Picks(s, None) <==> Idle(s, l)
  {
    if Picks(s, None) {
      forall id | id in s.rpcs
        ensures id in l.of && Settled(s.rpcs[id], l.of[id])
      {
        assert RpcInv(s.rpcs[id], l.of[id], CeilOf(l, id));
        assert Due(s.rpcs[id]).None?;
      }
    } else if Idle(s, l) {
      forall id | id in s.rpcs
        ensures Due(s.rpcs[id]).None?
      {
        assert Settled(s.rpcs[id], l.of[id]);
      }
    }
  }

  // ---- Coming to rest ----

  /** Something due is most urgent: pick is never stuck between RPCs. */
  lemma {:induction false} SomeoneIsMostUrgent(s: Session, ids: set<nat>) returns (id: nat)
    requires ids <= s.rpcs.Keys && ids != {} && forall j :: j in ids ==> Due(s.rpcs[j]).Some?
    ensures id in ids && forall j :: j in ids ==> !Better(s.rpcs[j], s.rpcs[id])
    decreases |ids|
  {
    id :| id in ids;
    if ids != {id} {
      var other := SomeoneIsMostUrgent(s, ids - {id});
      if !Better(s.rpcs[id], s.rpcs[other]) { id := other; }
    }
  }

  lemma SomethingToPick(s: Session)
    requires !Picks(s, None)
    ensures exists w :: Picks(s, Some(w))
  {
    if s.pending != [] {
      assert Picks(s, Some(Work(s.pending[0], 0, Control, 0, false, false)));
    } else {
      var due := set id | id in s.rpcs && Due(s.rpcs[id]).Some?;
      var j :| j in s.rpcs && Due(s.rpcs[j]).Some?;
      assert j in due;
      var id := SomeoneIsMostUrgent(s, due);
      assert MostUrgent(s, id);
      assert Picks(s, Some(WorkFor(s, id)));
    }
  }

  /**
   The send loop left alone. A run of sends is bounded, and either it can go on
   or it has come to rest: every reply is out, every RPC it started with is
   still there with its grant and requests met, and each granted byte not sent
   before has left in one of these datagrams.
   */
  lemma ComesToRest(cfg: Config, s: seq<Session>, l: Ledger, w: seq<Work>)
    requires Sends(cfg, s, w) && Inv(s[0], l)
    ensures |w| <= Total(s[0])
    ensures (exists x :: Picks(s[|w|], Some(x))) || Idle(s[|w|], WriteAll(s, l, w))
    ensures SamePromises(s[0], s[|w|])
    ensures Idle(s[|w|], WriteAll(s, l, w)) ==>
      forall id, i :: id in s[0].rpcs && s[0].rpcs[id].next <= i < s[0].rpcs[id].granted ==> CarriedIn(SentBy(s, w), id, i)
  {
    SendsAreBounded(cfg, s, l, w);
    SendsKeepPromises(cfg, s, w);
    IdleMeansSettled(s[|w|], WriteAll(s, l, w));
    if !Picks(s[|w|], None) { SomethingToPick(s[|w|]); }
    if Idle(s[|w|], WriteAll(s, l, w)) {
      forall id, i | id in s[0].rpcs && s[0].rpcs[id].next <= i < s[0].rpcs[id].granted
        ensures CarriedIn(SentBy(s, w), id, i)
      {
        EachByteLeaves(cfg, s, l, w, id, i);
      }
    }
  }

  lemma EachByteLeaves(cfg: Config, s: seq<Session>, l: Ledger, w: seq<Work>, id: nat, i: int)
    requires Sends(cfg, s, w) && Inv(s[0], l) && Idle(s[|w|], WriteAll(s, l, w))
    requires id in s[0].rpcs && s[0].rpcs[id].next <= i < s[0].rpcs[id].granted
    ensures CarriedIn(SentBy(s, w), id, i)
  {
    SendsKeepPromises(cfg, s, w);
    assert id in s[|w|].rpcs && Settled(s[|w|].rpcs[id], WriteAll(s, l, w).of[id]);
    assert i in LedgerOf(WriteAll(s, l, w), id).sent;
    SentWasCarried(cfg, s, l, w, id, i);
    assert RpcInv(s[0].rpcs[id], l.of[id], CeilOf(l, id));
  }

  // ---- A datagram refused as too large ----

  lemma HeadIsError(s: Session, l: Ledger)
    requires RepliesInv(s, l)
    ensures s.pending != [] ==> s.pending[0].Error?
  {
    if s.pending != [] { assert s.pending[0] in s.pending; }
  }

  lemma NoDataPending(s: Session, l: Ledger, w: Work)
    requires Inv(s, l) && Picks(s, Some(w)) && w.pkt.Data?
    ensures s.pending == [] && w == WorkFor(s, w.rpc)
  {
    HeadIsError(s, l);
  }

  /** A chosen DATA fits the current chunk, unless it is a tail duplicate cut when datagrams were larger. */
  lemma PickFitsChunk(s: Session, l: Ledger, w: Work)
    requires Inv(s, l) && Picks(s, Some(w)) && w.pkt.Data?
    ensures w.rpc in s.rpcs && (w.kind == TailDup ==> s.rpcs[w.rpc].tailDup.Some?)
    ensures |w.pkt.payload| <= Chunk(s) <==>
      (w.kind == TailDup ==> s.rpcs[w.rpc].tailDup.value.end - s.rpcs[w.rpc].tailDup.value.start <= Chunk(s))
  {
    NoDataPending(s, l, w);
    var r, chunk := s.rpcs[w.rpc], Chunk(s);
    assert RpcInv(r, l.of[w.rpc], CeilOf(l, w.rpc));
    match Due(r).value
    case Packet0 => DataFits(w.rpc, r, 0, Min(chunk, r.granted));
    case Resending =>
      assert r.resends[0] in r.resends;
      DataFits(w.rpc, r, r.resends[0].start, Min(chunk, r.resends[0].end - r.resends[0].start));
    case NewData => DataFits(w.rpc, r, r.next, Min(chunk, r.granted - r.next));
    case TailDup => DataFits(w.rpc, r, r.tailDup.value.start, r.tailDup.value.end - r.tailDup.value.start);
    case _ =>
  }

  /** Refused work is picked again, for the same RPC and kind; only a tail duplicate comes back at its old size. */
  lemma RefusedComesBack(cfg: Config, s: Session, l: Ledger, w: Work, maxPayload: int)
    requires Inv(s, l) && Picks(s, Some(w)) && w.pkt.Data?
    ensures var s' := Transmitted(cfg, s, w, TooLarge(maxPayload)).0;
      && w.rpc in s.rpcs && Due(s.rpcs[w.rpc]).Some?
      && s' == s.(maxDatagram := maxPayload - H3_DATAGRAM_PREFIX_MAX)
      && Picks(s', Some(WorkFor(s', w.rpc))) && WorkFor(s', w.rpc).kind == w.kind
      && (w.kind == TailDup ==> WorkFor(s', w.rpc).pkt == w.pkt)
      && (w.kind != TailDup ==> |WorkFor(s', w.rpc).pkt.payload| <= Chunk(s'))
  {
    NoDataPending(s, l, w);
    var s' := Transmitted(cfg, s, w, TooLarge(maxPayload)).0;
    RingFrame(s, l, s', l);
    assert RpcsInv(s', l);
    assert Picks(s', Some(WorkFor(s', w.rpc)));
    PickFitsChunk(s', l, WorkFor(s', w.rpc));
  }

  /** A refused copy leaves a state in which the same refusal changes nothing: the loop picks and offers it for ever. */
  lemma RefusedCopyRepeats(cfg: Config, s: Session, l: Ledger, w: Work, maxPayload: int)
    requires Inv(s, l) && Picks(s, Some(w)) && w.kind == TailDup && w.pkt.Data?
    ensures var s' := Transmitted(cfg, s, w, TooLarge(maxPayload)).0;
      && w.rpc in s'.rpcs && Due(s'.rpcs[w.rpc]).Some?
      && Picks(s', Some(WorkFor(s', w.rpc))) && WorkFor(s', w.rpc).pkt == w.pkt
      && Transmitted(cfg, s', WorkFor(s', w.rpc), TooLarge(maxPayload)) == (s', true)
  {
    RefusedComesBack(cfg, s, l, w, maxPayload);
  }
}
