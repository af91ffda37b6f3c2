/**
 One client session, one server session, and the channel between them. The
 channel never forgets: a receive step takes any datagram ever sent, which
 loses, duplicates and reorders at will. Assets are a fixed function and each
 rpc_id stands for one asset_id.
 */
module Systems {
  import opened Intervals
  import opened Packets
  import opened Senders
  import SR = SenderRuns
  import SH = SenderHistory
  import opened Clients
  import CR = ClientRuns
  import CT = ClientTruth
  import CH = ClientHistory
  import A = Reassemblies
  import S = Scheduling

  datatype World = World(server: SH.Server, client: Client)

  datatype Setup = Setup(server: Config, client: ClientConfig, named: nat -> seq<Byte>, budget: nat, minIncrement: int)

  datatype Step = ServerStep(s: SH.Step) | ClientStep(c: CH.Step)

  function TheAsset(w: Setup, id: nat): Asset { w.server.assets(w.named(id)) }

  function Truth(w: Setup): nat -> Asset { (id: nat) => TheAsset(w, id) }

  function NewWorld(w: Setup): World { World(SH.Start(w.server), NewClient(w.client, w.budget, w.minIncrement)) }

  /** One end moves; a datagram it takes was sent by the other. */
  ghost predicate Moves(w: Setup, a: World, st: Step, b: World) {
    match st
    case ServerStep(s) =>
      && b.client == a.client && SH.Moves(w.server, a.server, s, b.server)
      && (s.Recv? ==> s.p in a.client.sent)
    case ClientStep(c) =>
      && b.server == a.server && CH.Moves(w.client, a.client, c, b.client)
      && (c.Took? ==> c.p in a.server.out)
      && (c.Begin? ==> c.begun.assetId == w.named(c.id))
  }

  /** The server knows of no grant the client did not write. */
  ghost predicate CeilingsHeld(a: World) {
    forall id: nat :: SR.CeilOf(a.server.ledger, id) <= CR.Highest(a.client.sent, id)
  }

  ghost predicate Inv(w: Setup, a: World) {
    && SH.ServerInv(w.server, w.named, a.server)
    && CR.Inv(w.client, a.client) && CR.Rest(a.client)
    && CT.AllTrue(Truth(w), a.client)
    && CH.Named(w.named, a.client)
    && CeilingsHeld(a)
  }

  lemma {:induction false} GrantBelowHighest(sent: seq<Packet>, p: Packet, id: nat)
    requires p in sent
    ensures CR.GrantIn(p, id) <= CR.Highest(sent, id)
  {
    if p != sent[|sent| - 1] {
      var k :| 0 <= k < |sent| && sent[k] == p;
      assert sent[..|sent| - 1][k] == p;
      GrantBelowHighest(sent[..|sent| - 1], p, id);
    }
  }

  lemma {:induction false} ManyCeilings(s: Session, l: SR.Ledger, from: nat, end: nat, now: int)
    requires |s.ring| == SEQ_RING_SIZE
    ensures SR.WriteMany(s, l, from, end, now).ceiling == l.ceiling
    decreases end - from
  {
    if from < end { ManyCeilings(ResendOne(s, from, now), SR.WriteOne(s, l, from), from + 1, end, now); }
  }

  /** A packet raises the server's record of grants by what it carries, at most. */
  lemma HandleCeilings(cfg: Config, s: Session, l: SR.Ledger, p: Packet, now: int, id: nat)
    ensures SR.CeilOf(SR.WriteHandle(cfg, s, l, p, now), id) <= Max(SR.CeilOf(l, id), CR.GrantIn(p, id))
  {
    match p
    case ResendSeq(_, start, end) =>
      if s.seqOn && |s.ring| == SEQ_RING_SIZE { ManyCeilings(s, l, start, Min(end, start + MAX_RESEND_SEQ_RANGE), now); }
    case _ =>
  }

  lemma ServerCeilings(w: Setup, a: World, s: SH.Step, b: World)
    requires CeilingsHeld(a) && Moves(w, a, ServerStep(s), b)
    ensures CeilingsHeld(b)
  {
    if s.Recv? {
      forall id: nat ensures SR.CeilOf(b.server.ledger, id) <= CR.Highest(b.client.sent, id) {
        HandleCeilings(w.server, a.server.s, a.server.ledger, s.p, s.now, id);
        GrantBelowHighest(a.client.sent, s.p, id);
      }
    } else {
      assert b.server.ledger.ceiling == a.server.ledger.ceiling;
    }
  }

  lemma ServerKeeps(w: Setup, a: World, s: SH.Step, b: World)
    requires SR.AssetsOk(w.server) && Inv(w, a) && Moves(w, a, ServerStep(s), b)
    ensures Inv(w, b)
  {
    SH.StepKeeps(w.server, w.named, a.server, s, b.server);
    ServerCeilings(w, a, s, b);
  }

  /** What the server sends is true, and below the highest grant the client wrote. */
  lemma SentIsTrue(w: Setup, a: World, p: Packet)
    requires Inv(w, a) && p in a.server.out
    ensures CT.TruePacket(TheAsset(w, p.rpc), CR.Highest(a.client.sent, p.rpc), p)
  {
    assert SH.Genuine(w.server, w.named, a.server.ledger, p);
  }

  lemma ClientKeeps(w: Setup, a: World, c: CH.Step, b: World)
    requires Inv(w, a) && Moves(w, a, ClientStep(c), b)
    ensures Inv(w, b)
  {
    if c.Took? { SentIsTrue(w, a, c.p); }
    CH.StepKeeps(w.client, a.client, c, b.client);
    CH.StepTrue(w.client, Truth(w), w.named, a.client, c, b.client);
    forall id: nat ensures SR.CeilOf(b.server.ledger, id) <= CR.Highest(b.client.sent, id) {
      CH.HighestLater(a.client, b.client, id);
    }
  }

  lemma NewInv(w: Setup)
    ensures Inv(w, NewWorld(w))
  {
    CH.NewKeeps(w.client, w.budget, w.minIncrement);
  }

  /** Every step from a state of a run leads to one that satisfies the invariant again. */
  lemma StepKeeps(w: Setup, a: World, st: Step, b: World)
    requires SR.AssetsOk(w.server) && Inv(w, a) && Moves(w, a, st, b)
    ensures Inv(w, b)
  {
    match st
    case ServerStep(s) => ServerKeeps(w, a, s, b);
    case ClientStep(c) => ClientKeeps(w, a, c, b);
  }

  ghost predicate Reaches(w: Setup, a: World, steps: seq<Step>, b: World)
    decreases |steps|
  {
    if steps == [] then b == a else exists m :: Moves(w, a, steps[0], m) && Reaches(w, m, steps[1..], b)
  }

  ghost predicate IsRun(w: Setup, steps: seq<Step>, b: World) { Reaches(w, NewWorld(w), steps, b) }

  lemma {:induction false} RunKeeps(w: Setup, a: World, steps: seq<Step>, b: World)
    requires SR.AssetsOk(w.server) && Inv(w, a) && Reaches(w, a, steps, b)
    ensures Inv(w, b)
    decreases |steps|
  {
    if steps != [] {
      var m :| Moves(w, a, steps[0], m) && Reaches(w, m, steps[1..], b);
      StepKeeps(w, a, steps[0], m);
      RunKeeps(w, m, steps[1..], b);
    }
  }

  lemma FromTheStart(w: Setup, steps: seq<Step>, b: World)
    requires SR.AssetsOk(w.server) && IsRun(w, steps, b)
    ensures Inv(w, b)
  {
    NewInv(w);
    RunKeeps(w, NewWorld(w), steps, b);
  }

  // ---- What every run of the whole system promises ----

  /** Every byte marked received, of a live transfer or an ended one, is the asset's byte at that offset. */
  lemma ReceivedIsGenuine(w: Setup, steps: seq<Step>, b: World, id: nat, i: int)
    requires SR.AssetsOk(w.server) && IsRun(w, steps, b)
    requires (id in b.client.transfers || id in b.client.ended) && CH.Last(b.client, id).asm.Some?
    requires i in CH.Last(b.client, id).asm.value.got
    ensures TheAsset(w, id).Found?
    ensures var m := CH.Last(b.client, id).asm.value;
      0 <= i < m.size == |m.bytes| == |TheAsset(w, id).body| && m.bytes[i] == TheAsset(w, id).body[i]
  {
    FromTheStart(w, steps, b);
    assert CT.Truthful(Truth(w)(id), CH.Last(b.client, id));
  }

  lemma WholeIsAsset(a: Asset, t: Transfer)
    requires CT.Truthful(a, t) && CR.Whole(t)
    ensures a == Found(t.asm.value.bytes, t.headers.value)
  {
    A.CompleteHasAll(t.asm.value);
    assert forall i :: 0 <= i < t.asm.value.size ==> t.asm.value.bytes[i] == a.body[i];
  }

  lemma {:induction false} EventIsOf(events: seq<Event>, ev: Event)
    requires ev in events
    ensures ev in CR.EventsOf(events, ev.id)
  {
    if ev != events[|events| - 1] {
      var k :| 0 <= k < |events| && events[k] == ev;
      assert events[..|events| - 1][k] == ev;
      EventIsOf(events[..|events| - 1], ev);
    }
  }

  /** What an event says of an asset. */
  predicate SaysTrue(a: Asset, ev: Event) {
    && (ev.Resolved? ==> a == Found(ev.body, ev.headers))
    && (ev.Closed? ==> a.Found? && ev.body == a.body)
    && (ev.Handed? ==> a.Found? && ev.size == |a.body| && ev.headers == a.fields)
  }

  lemma EventsSayTrue(a: Asset, id: nat, t: Transfer, events: seq<Event>, ev: Event)
    requires CT.Truthful(a, t) && ev in events
    requires CR.EndedEvents(id, t, events) || CR.AnswersOk(id, t, events)
    ensures SaysTrue(a, ev)
  {
    if CR.Whole(t) { WholeIsAsset(a, t); }
  }

  /** A request that resolves returns exactly the asset, and a stream that closes cleanly carried all of it. */
  lemma ResolvedIsTheAsset(w: Setup, steps: seq<Step>, b: World, ev: Event)
    requires SR.AssetsOk(w.server) && IsRun(w, steps, b) && ev in b.client.events
    ensures SaysTrue(TheAsset(w, ev.id), ev)
  {
    FromTheStart(w, steps, b);
    ToldTrue(w, b, ev);
  }

  lemma ToldTrue(w: Setup, b: World, ev: Event)
    requires Inv(w, b) && ev in b.client.events
    ensures SaysTrue(TheAsset(w, ev.id), ev)
  {
    var id := ev.id;
    EventIsOf(b.client.events, ev);
    assert CR.ViewOk(w.client, id, CR.ViewOf(b.client, id));
    var t := CH.Last(b.client, id);
    assert CT.Truthful(Truth(w)(id), t);
    EventsSayTrue(TheAsset(w, id), id, t, CR.EventsOf(b.client.events, id), ev);
  }

  lemma ReadIsPrefix(a: Asset, t: Transfer)
    requires CT.Truthful(a, t) && CR.StreamOk(t) && t.stream.Some? && t.asm.Some?
    ensures var st := t.stream.value;
      a.Found? && st.emitted <= |a.body| && Read(st.chunks, t.asm.value.bytes) == a.body[..st.emitted]
  {
    var st, m := t.stream.value, t.asm.value;
    CR.ReadAll(st.chunks, st.emitted, m.bytes);
    assert forall i :: 0 <= i < st.emitted ==> m.bytes[i] == a.body[i];
  }

  /** What a stream's reader has taken is always a prefix of the asset. */
  lemma StreamedIsPrefix(w: Setup, steps: seq<Step>, b: World, id: nat)
    requires SR.AssetsOk(w.server) && IsRun(w, steps, b)
    requires (id in b.client.transfers || id in b.client.ended) && CH.Last(b.client, id).stream.Some? && CH.Last(b.client, id).asm.Some?
    ensures var t := CH.Last(b.client, id); var st := t.stream.value;
      && TheAsset(w, id).Found? && st.emitted <= |TheAsset(w, id).body|
      && Read(st.chunks, t.asm.value.bytes) == TheAsset(w, id).body[..st.emitted]
  {
    FromTheStart(w, steps, b);
    assert CR.ViewOk(w.client, id, CR.ViewOf(b.client, id));
    assert CT.Truthful(Truth(w)(id), CH.Last(b.client, id));
    ReadIsPrefix(TheAsset(w, id), CH.Last(b.client, id));
  }

  /** Goal G2 end to end: no un-granted byte is sent, no server grant passes the client's, and no frontier passes its own grant. */
  lemma NothingUngranted(w: Setup, steps: seq<Step>, b: World, id: nat)
    requires SR.AssetsOk(w.server) && IsRun(w, steps, b)
    ensures b.server.ledger.ungranted == 0
    ensures id in b.server.s.rpcs ==> b.server.s.rpcs[id].granted <= CR.Highest(b.client.sent, id)
    ensures id in b.client.transfers && b.client.transfers[id].asm.Some? ==>
      var m, e := b.client.transfers[id].asm.value, S.Lookup(b.client.sched.rpcs, id);
      e.Some? && A.Frontier(m) <= e.value.granted && e.value.received == |m.got| <= e.value.granted
  {
    FromTheStart(w, steps, b);
    if id in b.server.s.rpcs {
      assert SR.RpcInv(b.server.s.rpcs[id], b.server.ledger.of[id], SR.CeilOf(b.server.ledger, id));
    }
    if id in b.client.transfers && b.client.transfers[id].asm.Some? {
      assert CR.ViewOk(w.client, id, CR.ViewOf(b.client, id));
      assert CT.Truthful(Truth(w)(id), b.client.transfers[id]);
      GotBelowFrontier(b.client.transfers[id].asm.value);
    }
  }

  lemma GotBelowFrontier(m: A.Asm)
    requires A.AsmOk(m)
    ensures |m.got| <= A.Frontier(m)
  {
    OffsetsSize(0, A.Frontier(m));
    assert m.got <= Offsets(0, A.Frontier(m));
    A.CountMinus(Offsets(0, A.Frontier(m)), m.got);
    assert Offsets(0, A.Frontier(m)) * m.got == m.got;
  }

  /**
   Every lost number the client names, and the ring still holds, is answered, and
   the first time so are the granted and sent bytes a live RPC's number carried:
   they are queued again. The server's cap never cuts a client's RESEND_SEQ short.
   */
  lemma NamedNumbersAreAnswered(w: Setup, steps: seq<Step>, b: World, p: Packet, now: int, n: nat)
    requires SR.AssetsOk(w.server) && IsRun(w, steps, b)
    requires p in b.client.sent && p.ResendSeq? && b.server.s.seqOn
    requires p.start <= n < p.end && b.server.s.nextSeq - SEQ_RING_SIZE <= n < b.server.s.nextSeq
    ensures n < |b.server.ledger.log|
    ensures var s', carried := Handle(w.server, b.server.s, p, now), b.server.ledger.log[n];
      && SH.Answered(s', n)
      && (b.server.ledger.requeued[n] == 0 ==>
            SH.BytesQueued(s', SeqEntry(n, true, false, carried.rpc, carried.off, carried.n)))
  {
    FromTheStart(w, steps, b);
    assert CH.Fine(w.named, p);
    SH.ResendSeqReachesAll(w.server, b.server.s, b.server.ledger, p.rpc, p.start, p.end, now, n);
  }
}
