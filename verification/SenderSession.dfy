/**
 The session object of server/internal/sender/sender.go: its fields change in
 place, step by step, and every step is the one the specification names.
 */
module SenderSessions {
  import opened Intervals
  import opened Packets
  import opened Senders
  import opened SenderRuns
  import opened SenderDrain

  class SenderSession {
    const cfg: Config
    var rpcs: map<nat, Rpc>
    var pending: seq<Packet>
    var maxDatagram: int
    var seqOn: bool
    var nextSeq: nat
    var ring: array<SeqEntry>

    ghost function State(): Session
      reads this, ring
    {
      Session(rpcs, pending, maxDatagram, seqOn, nextSeq, ring[..])
    }

    constructor (cfg: Config)
      ensures this.cfg == cfg && fresh(ring) && State() == NewSession(cfg)
    {
      this.cfg := cfg;
      rpcs, pending, maxDatagram, seqOn, nextSeq := map[], [], cfg.initialMaxDatagram, false, 0;
      ring := new SeqEntry[0];
    }

    /** Applies one client packet. */
    method Receive(p: Packet, now: int)
      modifies this, ring
      ensures State() == Handle(cfg, old(State()), p, now)
      ensures ring == old(ring) || fresh(ring)
    {
      match p
      case Req(id, grant, assetId) =>
        if id !in rpcs {
          match cfg.assets(assetId)
          case NotFound => pending := pending + [Error(id, CODE_NOT_FOUND)]; return;
          case Broken => pending := pending + [Error(id, CODE_BAD_REQUEST)]; return;
          case Found(body, fields) => rpcs := rpcs[id := NewRpc(body, fields)];
        }
        rpcs := rpcs[id := Asked(rpcs[id], grant, now)];
      case Grant(id, g, _) =>
        if id in rpcs {
          rpcs := rpcs[id := RaiseGrant(rpcs[id], g).(lastActive := now)];
        } else {
          pending := pending + [Error(id, CODE_UNKNOWN_RPC)];
        }
      case Resend(id, start, end) =>
        if id !in rpcs {
          pending := pending + [Error(id, CODE_UNKNOWN_RPC)];
          return;
        }
        var r := rpcs[id].(lastActive := now);
        var stop := Clip(r, end);
        if start < stop { r := r.(resends := r.resends + [Span(start, stop)]); }
        rpcs := rpcs[id := r];
      case Hello(_, caps) =>
        if !cfg.noSeq && OffersSeq(caps) && !seqOn {
          seqOn := true;
          ring := new SeqEntry[SEQ_RING_SIZE](_ => EmptyEntry());
          assert ring[..] == seq(SEQ_RING_SIZE, _ => EmptyEntry());
        }
      case ResendSeq(_, start, end) =>
        if seqOn && ring.Length == SEQ_RING_SIZE { ResendAll(start, Min(end, start + MAX_RESEND_SEQ_RANGE), now); }
      case _ =>
    }

    method ResendAll(start: nat, end: int, now: int)
      requires ring.Length == SEQ_RING_SIZE
      modifies this, ring
      ensures ring == old(ring)
      ensures State() == ResendMany(old(State()), start, Max(0, end), now)
    {
      var n := start;
      while n < end
        invariant ring == old(ring)
        invariant ResendMany(State(), n, Max(0, end), now) == ResendMany(old(State()), start, Max(0, end), now)
      {
        ResendNumber(n, now);
        n := n + 1;
      }
    }

    /** Queues again, once, what the DATA_SEQ numbered n carried. */
    method ResendNumber(n: nat, now: int)
      requires ring.Length == SEQ_RING_SIZE
      modifies this, ring
      ensures ring == old(ring)
      ensures State() == ResendOne(old(State()), n, now)
    {
      var i := n % SEQ_RING_SIZE;
      var e := ring[i];
      if !e.valid || e.num != n || e.resent { return; }
      ring[i] := e.(resent := true);
      if e.rpc !in rpcs { return; }
      var r := rpcs[e.rpc].(lastActive := now);
      var end := Clip(r, e.off + e.n);
      if e.off < end { r := Requeue(r, e.off, end); }
      rpcs := rpcs[e.rpc := r];
    }

    /** The next packet: control replies first, then the best RPC found in one pass over them all. */
    method Pick() returns (w: Option<Work>)
      ensures Picks(State(), w)
    {
      if pending != [] { return Some(Work(pending[0], 0, Control, 0, false, false)); }
      var left, best := rpcs.Keys, None;
      while left != {}
        invariant left <= rpcs.Keys
        invariant best.None? ==> forall j :: j in rpcs && j !in left ==> Due(rpcs[j]).None?
        invariant best.Some? ==> best.value in rpcs && Due(rpcs[best.value]).Some?
        invariant best.Some? ==> forall j :: j in rpcs && j !in left && Due(rpcs[j]).Some? ==> !Better(rpcs[j], rpcs[best.value])
        decreases |left|
      {
        var id :| id in left;
        if Due(rpcs[id]).Some? && (best.None? || Better(rpcs[id], rpcs[best.value])) { best := Some(id); }
        left := left - {id};
      }
      if best.None? { return None; }
      w := Some(WorkOf(best.value, rpcs[best.value], seqOn && nextSeq <= U32_MAX,
                       Max(1, if seqOn && nextSeq <= U32_MAX then MaxPayloadSeq(maxDatagram) else MaxPayload(maxDatagram))));
    }

    /** The G2 check as a DATA leaves: how many of its bytes run past the grant now. */
    method CheckGrant(w: Work) returns (over: nat)
      ensures over == Ungranted(State(), w)
    {
      over := 0;
      if w.pkt.Data? && w.rpc in rpcs {
        var end, granted := w.pkt.offset + |w.pkt.payload|, rpcs[w.rpc].granted;
        if end > granted { over := end - Max(w.pkt.offset, granted); }
      }
    }

    /** What leaves for w: a numbered DATA takes the next number. */
    method Datagram(w: Work) returns (p: Packet)
      ensures p == Outgoing(State(), w)
    {
      p := w.pkt;
      if p.Data? && w.useSeq { p := DataSeq(p.rpc, p.totalSize, p.offset, nextSeq % (U32_MAX + 1), p.payload); }
    }

    /** Records the effect of transmitting w; false once the connection is unusable. */
    method Finish(w: Work, o: Outcome) returns (alive: bool)
      modifies this, ring
      ensures ring == old(ring)
      ensures (State(), alive) == Transmitted(cfg, old(State()), w, o)
    {
      if o.TooLarge? && w.pkt.Data? {
        maxDatagram := o.maxPayload - H3_DATAGRAM_PREFIX_MAX;
        return true;
      }
      if o.TooLarge? || o.Failed? || (o.Dropped? && !w.pkt.Data? && !w.pkt.Meta?) { return false; }
      Record(w);
      return true;
    }

    method Record(w: Work)
      modifies this, ring
      ensures ring == old(ring)
      ensures State() == Recorded(cfg, old(State()), w)
    {
      if w.kind == Control {
        if pending != [] { pending := pending[1..]; }
        return;
      }
      if w.rpc !in rpcs { return; }
      var r := rpcs[w.rpc];
      if w.kind == MetaWork {
        rpcs := rpcs[w.rpc := r.(metaSent := w.packet0)];
        return;
      }
      if !w.pkt.Data? { return; }
      var off, n := w.pkt.offset, |w.pkt.payload|;
      match w.kind {
        case Packet0 =>
          r := r.(packet0Sent := w.packet0);
          if r.next < n { r := r.(next := n); }
        case Resending =>
          if r.resends != [] {
            var head := r.resends[0].(start := r.resends[0].start + n);
            r := r.(resends := if head.start >= head.end then r.resends[1..] else r.resends[0 := head]);
          }
        case NewData => r := r.(next := r.next + n);
        case TailDup => r := r.(tailDup := None);
        case _ =>
      }
      rpcs := rpcs[w.rpc := QueueTail(cfg, r, w, off, n)];
      if w.useSeq && ring.Length == SEQ_RING_SIZE {
        ring[nextSeq % SEQ_RING_SIZE] := SeqEntry(nextSeq % (U32_MAX + 1), true, false, w.rpc, off, n);
        nextSeq := nextSeq + 1;
      }
    }

    /** Drops every RPC nothing has referred to for the idle timeout. */
    method EvictIdle(now: int)
      modifies this
      ensures ring == old(ring) && State() == Evicted(cfg, old(State()), now)
    {
      var left := rpcs.Keys;
      while left != {}
        invariant left <= rpcs.Keys
        invariant ring == old(ring) && ring[..] == old(ring[..])
        invariant State() == old(State()).(rpcs := rpcs)
        invariant forall id :: id in rpcs ==> id in old(rpcs) && rpcs[id] == old(rpcs)[id]
        invariant forall id :: id in old(rpcs) ==> (id in rpcs <==> id in left || !(old(rpcs)[id].lastActive < now - cfg.idleTimeout))
        decreases |left|
      {
        var id :| id in left;
        left := left - {id};
        if rpcs[id].lastActive < now - cfg.idleTimeout { rpcs := rpcs - {id}; }
      }
      assert rpcs == Evicted(cfg, old(State()), now).rpcs;
    }

    /**
     The send loop with no new client packets and every send succeeding: it
     stops, idle, after the run of sends ws from the states ss, having sent
     exactly what those sends send.
     */
    method SendUntilIdle(ghost l: Ledger)
      returns (sent: seq<Packet>, ghost ss: seq<Session>, ghost ws: seq<Work>)
      requires Inv(State(), l)
      modifies this, ring
      ensures ring == old(ring)
      ensures Sends(cfg, ss, ws) && ss[0] == old(State()) && ss[|ws|] == State()
      ensures sent == SentBy(ss, ws) && |sent| == |ws| <= Total(old(State()))
      ensures Inv(State(), WriteAll(ss, l, ws)) && Idle(State(), WriteAll(ss, l, ws))
      ensures SamePromises(old(State()), State())
      ensures forall id, i :: id in old(rpcs) && old(rpcs)[id].next <= i < old(rpcs)[id].granted ==> CarriedIn(sent, id, i)
    {
      sent, ss, ws := [], [State()], [];
      var w := Pick();
      SendsAreBounded(cfg, ss, l, ws);
      while w.Some?
        invariant ring == old(ring)
        invariant Sends(cfg, ss, ws) && ss[0] == old(State()) && ss[|ws|] == State()
        invariant sent == SentBy(ss, ws) && |sent| == |ws|
        invariant Picks(State(), w) && 0 <= Total(State())
        decreases Total(State())
      {
        ghost var s := State();
        SendsAreBounded(cfg, ss, l, ws);
        SendFalls(cfg, s, WriteAll(ss, l, ws), w.value);
        SendsAppend(cfg, ss, l, ws, w.value);
        var out := Datagram(w.value);
        sent := sent + [out];
        Record(w.value);
        ss, ws := ss + [State()], ws + [w.value];
        SendsAreBounded(cfg, ss, l, ws);
        w := Pick();
      }
      SendsAreBounded(cfg, ss, l, ws);
      IdleMeansSettled(State(), WriteAll(ss, l, ws));
      ComesToRest(cfg, ss, l, ws);
    }
  }
}
