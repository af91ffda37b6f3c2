/**
 Every run of the client session: its steps in any order, on any datagrams, at
 any times. The theorems about one transfer's whole life are here; truth about
 the bytes needs a server, and is carried through each step for System to use.
 */
module ClientHistory {
  import opened Intervals
  import opened Packets
  import opened Senders
  import opened Clients
  import opened ClientRuns
  import opened ClientSteps
  import opened ClientTruth
  import A = Reassemblies
  import S = Scheduling
  import Q = SeqTracking

  datatype Step =
    | Begin(id: nat, begun: Begun, cls: S.Class, grant: nat, now: real)
    | Took(p: Packet, e: Env)
    | Ticked(id: nat, e: Env)
    | SeqTicked(e: Env)
    | Pulled(id: nat, e: Env)
    | Dropped(id: nat, e: Env)     // the reader cancelled
    | Aborted(id: nat, e: Env)     // the session failed
    | Pumped(e: Env)

  ghost predicate Moves(cfg: ClientConfig, a: Client, st: Step, b: Client) {
    match st
    case Begin(id, begun, cls, grant, now) => id !in a.started && b == Start(cfg, a, id, begun, cls, grant, now)
    case Took(p, e) => AsmsOk(a) && -1 <= a.seqs.highest && b == Arrive(cfg, a, p, e)
    case Ticked(id, e) => id in a.transfers && b == TickOne(cfg, a, id, e)
    case SeqTicked(e) => a.negotiated && b == DetectSeqLoss(cfg, a, e)
    case Pulled(id, e) => id in a.transfers && b == Pull(a, id, e)
    case Dropped(id, e) => id in a.transfers && a.transfers[id].settled && b == Cancel(a, id, e)
    case Aborted(id, e) => id in a.transfers && b == Finish(a, id, false, e)
    case Pumped(e) => b == Pump(a, e)
  }

  lemma StepKeeps(cfg: ClientConfig, a: Client, st: Step, b: Client)
    requires Inv(cfg, a) && Rest(a) && Moves(cfg, a, st, b)
    ensures Inv(cfg, b) && Rest(b)
  {
    InvAsmsOk(cfg, a);
    match st
    case Begin(id, begun, cls, grant, now) => StartKeeps(cfg, a, id, begun, cls, grant, now);
    case Took(p, e) => ArriveKeeps(cfg, a, p, e);
    case Ticked(id, e) => TickKeeps(cfg, a, id, e);
    case SeqTicked(e) => SeqLossKeeps(cfg, a, e);
    case Pulled(id, e) => PullKeeps(cfg, a, id, e);
    case Dropped(id, e) => CancelKeeps(cfg, a, id, e);
    case Aborted(id, e) => FinishLive(cfg, a, id, false, e);
    case Pumped(e) => PumpKeeps(cfg, a, e);
  }

  /** b is reached from a by these steps. */
  ghost predicate Reaches(cfg: ClientConfig, a: Client, steps: seq<Step>, b: Client)
    decreases |steps|
  {
    if steps == [] then b == a else exists m :: Moves(cfg, a, steps[0], m) && Reaches(cfg, m, steps[1..], b)
  }

  /** A datagram can always be taken: what Moves asks of the buffers holds in every run. */
  lemma AlwaysTakes(cfg: ClientConfig, a: Client, p: Packet, e: Env)
    requires Inv(cfg, a)
    ensures exists b :: Moves(cfg, a, Took(p, e), b)
  {
    InvAsmsOk(cfg, a);
    assert Moves(cfg, a, Took(p, e), Arrive(cfg, a, p, e));
  }

  /** A run goes on by one more step. */
  lemma {:induction false} OneMore(cfg: ClientConfig, a: Client, steps: seq<Step>, b: Client, st: Step, c: Client)
    requires Reaches(cfg, a, steps, b) && Moves(cfg, b, st, c)
    ensures Reaches(cfg, a, steps + [st], c)
    decreases |steps|
  {
    if steps == [] {
      assert steps + [st] == [st];
      assert Reaches(cfg, c, [st][1..], c);
    } else {
      var m :| Moves(cfg, a, steps[0], m) && Reaches(cfg, m, steps[1..], b);
      OneMore(cfg, m, steps[1..], b, st, c);
      assert (steps + [st])[1..] == steps[1..] + [st];
    }
  }

  lemma NewKeeps(cfg: ClientConfig, budget: nat, minIncrement: int)
    ensures Inv(cfg, NewClient(cfg, budget, minIncrement)) && Rest(NewClient(cfg, budget, minIncrement))
  {
    var c := Client(map[], S.Sched([], 0, budget, minIncrement, false), Q.NewSeqs(), None, 0, false, 0, map[], map[], multiset{}, map[], [], []);
    HelloQuiet(cfg, c);
    forall id: nat ensures ViewOk(cfg, id, ViewOf(NewClient(cfg, budget, minIncrement), id)) {
      assert ViewOf(NewClient(cfg, budget, minIncrement), id) == ViewOf(c, id);
    }
  }

  lemma {:induction false} RunKeeps(cfg: ClientConfig, a: Client, steps: seq<Step>, b: Client)
    requires Inv(cfg, a) && Rest(a) && Reaches(cfg, a, steps, b)
    ensures Inv(cfg, b) && Rest(b)
    decreases |steps|
  {
    if steps != [] {
      var m :| Moves(cfg, a, steps[0], m) && Reaches(cfg, m, steps[1..], b);
      StepKeeps(cfg, a, steps[0], m);
      RunKeeps(cfg, m, steps[1..], b);
    }
  }

  /** A run from a new session. */
  ghost predicate IsRun(cfg: ClientConfig, budget: nat, minIncrement: int, steps: seq<Step>, c: Client) {
    Reaches(cfg, NewClient(cfg, budget, minIncrement), steps, c)
  }

  lemma FromTheStart(cfg: ClientConfig, budget: nat, minIncrement: int, steps: seq<Step>, c: Client)
    requires IsRun(cfg, budget, minIncrement, steps, c)
    ensures Inv(cfg, c) && Rest(c)
  {
    NewKeeps(cfg, budget, minIncrement);
    RunKeeps(cfg, NewClient(cfg, budget, minIncrement), steps, c);
  }

  // ---- The life of one transfer, in every run ----

  function Last(c: Client, id: nat): Transfer
    requires id in c.transfers || id in c.ended
  {
    if id in c.transfers then c.transfers[id] else c.ended[id]
  }

  /** A reader has been given exactly the bytes [0, emitted) of the buffer, and never past the gap-free prefix. */
  lemma StreamIsPrefix(cfg: ClientConfig, budget: nat, minIncrement: int, steps: seq<Step>, c: Client, id: nat)
    requires IsRun(cfg, budget, minIncrement, steps, c)
    requires (id in c.transfers || id in c.ended) && Last(c, id).stream.Some?
    ensures var t := Last(c, id); var st := t.stream.value;
      if t.asm.None? then st.chunks == []
      else st.emitted <= A.Contiguous(t.asm.value) <= |t.asm.value.bytes| && Read(st.chunks, t.asm.value.bytes) == t.asm.value.bytes[..st.emitted]
  {
    FromTheStart(cfg, budget, minIncrement, steps, c);
    assert ViewOk(cfg, id, ViewOf(c, id));
    var t := Last(c, id);
    if t.asm.Some? { ReadAll(t.stream.value.chunks, t.stream.value.emitted, t.asm.value.bytes); }
  }

  function Answers(events: seq<Event>): nat {
    if events == [] then 0
    else Answers(events[..|events| - 1])
         + if events[|events| - 1].Resolved? || events[|events| - 1].Handed? || events[|events| - 1].Rejected? then 1 else 0
  }

  function Ends(events: seq<Event>): nat {
    if events == [] then 0
    else Ends(events[..|events| - 1])
         + if events[|events| - 1].Closed? || events[|events| - 1].Errored? || events[|events| - 1].Cancelled? then 1 else 0
  }

  lemma CountPair(x: Event, y: Event)
    ensures Answers([x, y]) == Answers([x]) + Answers([y]) && Ends([x, y]) == Ends([x]) + Ends([y])
  {
    assert [x, y][..1] == [x] && [y][..0] == [] && [x][..0] == [];
  }

  lemma CountOne(x: Event)
    ensures Answers([x]) == (if x.Resolved? || x.Handed? || x.Rejected? then 1 else 0)
    ensures Ends([x]) == if x.Closed? || x.Errored? || x.Cancelled? then 1 else 0
  {
    assert [x][..0] == [];
  }

  lemma EndedCounts(id: nat, t: Transfer, events: seq<Event>)
    requires EndedEvents(id, t, events)
    ensures Answers(events) == 1 && Ends(events) == if t.stream.Some? then 1 else 0
    ensures forall body, headers :: Resolved(id, body, headers) in events ==>
      Whole(t) && body == t.asm.value.bytes && headers == t.headers.value
    ensures forall body :: Closed(id, body) in events ==> Whole(t) && body == t.asm.value.bytes
  {
    CountOne(events[0]);
    if |events| == 2 {
      CountOne(events[1]);
      CountPair(events[0], events[1]);
      assert events == [events[0], events[1]];
    } else {
      assert events == [events[0]];
    }
  }

  /** A caller is answered exactly once, and a stream ends exactly once; both mean the whole body unless they say it failed. */
  lemma AnsweredOnce(cfg: ClientConfig, budget: nat, minIncrement: int, steps: seq<Step>, c: Client, id: nat)
    requires IsRun(cfg, budget, minIncrement, steps, c) && id in c.started
    ensures var events := EventsOf(c.events, id);
      && (id in c.transfers || id in c.ended)
      && Answers(events) <= 1 && Ends(events) <= 1
      && (id !in c.transfers ==> Answers(events) == 1 && Ends(events) == if c.started[id].streaming then 1 else 0)
      && (forall body, headers :: Resolved(id, body, headers) in events ==>
            id in c.ended && Whole(c.ended[id]) && body == c.ended[id].asm.value.bytes && headers == c.ended[id].headers.value)
      && (forall body :: Closed(id, body) in events ==> id in c.ended && Whole(c.ended[id]) && body == c.ended[id].asm.value.bytes)
  {
    FromTheStart(cfg, budget, minIncrement, steps, c);
    assert ViewOk(cfg, id, ViewOf(c, id));
    if id in c.transfers {
      var t := c.transfers[id];
      if t.settled { CountOne(Handed(id, t.asm.value.size, t.headers.value)); }
    } else {
      EndedCounts(id, c.ended[id], EventsOf(c.events, id));
    }
  }

  /** However a transfer goes, its stall recovery runs a bounded number of times. */
  lemma RecoveryIsBounded(cfg: ClientConfig, budget: nat, minIncrement: int, steps: seq<Step>, c: Client, id: nat)
    requires IsRun(cfg, budget, minIncrement, steps, c) && (id in c.transfers || id in c.ended)
    ensures c.recovered[id] <= cfg.maxRecoveries * (SizeOf(Last(c, id)) + 2) + 1
  {
    FromTheStart(cfg, budget, minIncrement, steps, c);
    assert ViewOk(cfg, id, ViewOf(c, id));
    if id in c.transfers { AttemptsBounded(cfg, c.transfers[id], c.recovered[id]); }
  }

  /** The ceiling is the highest grant ever written, and the scheduler's books agree with the transfer. */
  lemma GrantsAreBooked(cfg: ClientConfig, budget: nat, minIncrement: int, steps: seq<Step>, c: Client, id: nat)
    requires IsRun(cfg, budget, minIncrement, steps, c) && id in c.transfers
    ensures var t, e := c.transfers[id], S.Lookup(c.sched.rpcs, id);
      && t.ceiling == Highest(c.sent, id)
      && (t.asm.Some? ==> && e.Some? && e.value.size == t.asm.value.size && e.value.received == |t.asm.value.got|
                          && e.value.granted == Min(t.asm.value.size, t.ceiling))
      && (t.asm.None? ==> e.None?)
  {
    FromTheStart(cfg, budget, minIncrement, steps, c);
    assert ViewOk(cfg, id, ViewOf(c, id));
  }

  // ---- Truth, step by step ----

  /**
   Every transfer, and every REQ, asks for the asset its id stands for; RESEND_SEQs
   stay narrow. Packets are about transfers that began, and each of those had its REQ.
   */
  ghost predicate Named(named: nat -> seq<Byte>, c: Client) {
    && (forall id :: id in c.started ==> c.started[id].assetId == named(id) && Requested(c.sent, id))
    && (forall p :: p in c.sent ==> Fine(named, p) && (p.Req? || p.Grant? || p.Resend? ==> p.rpc in c.started))
  }

  ghost predicate Requested(sent: seq<Packet>, id: nat) { exists p :: p in sent && p.Req? && p.rpc == id }

  lemma StillRequested(c: Client, c': Client, id: nat)
    requires Later(c, c') && Requested(c.sent, id)
    ensures Requested(c'.sent, id)
  {
    var p :| p in c.sent && p.Req? && p.rpc == id;
    assert p in c'.sent;
  }

  predicate Later(c: Client, c': Client) { |c.sent| <= |c'.sent| && c.sent == c'.sent[..|c.sent|] }

  predicate Fine(named: nat -> seq<Byte>, p: Packet) {
    (p.Req? ==> p.assetId == named(p.rpc)) && (p.ResendSeq? ==> p.end - p.start <= MAX_RESEND_SEQ)
  }

  lemma Written(m: map<nat, Transfer>, before: seq<Packet>, after: seq<Packet>, p: Packet)
    requires Writes(m, before, after) && p in after
    ensures p in before || Allowed(m, p)
  {
    assert after == before + after[|before|..];
  }

  lemma KeepsNamed(cfg: ClientConfig, named: nat -> seq<Byte>, c: Client, c': Client)
    requires Inv(cfg, c) && Named(named, c) && Keeps(c, c')
    ensures Named(named, c') && Later(c, c')
  {
    forall p | p in c'.sent ensures Fine(named, p) && (p.Req? || p.Grant? || p.Resend? ==> p.rpc in c'.started) {
      Written(c.transfers, c.sent, c'.sent, p);
      assert ViewOk(cfg, p.rpc, ViewOf(c, p.rpc));
    }
    forall id | id in c'.started ensures Requested(c'.sent, id) { StillRequested(c, c', id); }
  }

  lemma StartTrue(cfg: ClientConfig, truth: nat -> Asset, named: nat -> seq<Byte>, c: Client, st: Step, c': Client)
    requires Inv(cfg, c) && AllTrue(truth, c) && Named(named, c) && st.Begin? && Moves(cfg, c, st, c')
    requires st.begun.assetId == named(st.id)
    ensures AllTrue(truth, c') && Named(named, c') && Later(c, c')
  {
    StartAllTrue(cfg, truth, c, st, c');
    WhatStartWrites(cfg, c, st, c');
    StartNamed(named, c, c', Req(st.id, st.grant, st.begun.assetId), st.begun);
  }

  lemma StartAllTrue(cfg: ClientConfig, truth: nat -> Asset, c: Client, st: Step, c': Client)
    requires AllTrue(truth, c) && st.Begin? && Moves(cfg, c, st, c')
    ensures AllTrue(truth, c')
  {
  }

  /** A new transfer's REQ, and perhaps a HELLO before it. */
  lemma WhatStartWrites(cfg: ClientConfig, c: Client, st: Step, c': Client)
    requires st.Begin? && Moves(cfg, c, st, c')
    ensures c'.started == c.started[st.id := st.begun]
    ensures exists hello: seq<Packet> :: (forall p :: p in hello ==> p.Hello?) && c'.sent == c.sent + hello + [Req(st.id, st.grant, st.begun.assetId)]
  {
    var c1 := Hello'(cfg, Put(c, st.id, NewTransfer(st.begun.assetId, st.begun.streaming, st.cls, st.grant, st.now)).(started := c.started[st.id := st.begun]));
    assert c1.sent == c.sent + [] || c1.sent == c.sent + [Hello(0, SESSION_SEQ)];
  }

  lemma StartNamed(named: nat -> seq<Byte>, c: Client, c': Client, req: Packet, begun: Begun)
    requires Named(named, c) && req.Req? && req.assetId == named(req.rpc) == begun.assetId
    requires c'.started == c.started[req.rpc := begun]
    requires exists hello: seq<Packet> :: (forall p :: p in hello ==> p.Hello?) && c'.sent == c.sent + hello + [req]
    ensures Named(named, c') && Later(c, c')
  {
    assert req in c'.sent;
    forall id | id in c'.started ensures Requested(c'.sent, id) {
      if id != req.rpc { StillRequested(c, c', id); }
    }
  }

  lemma AfterStoredKept(cfg: ClientConfig, c: Client, id: nat, e: Env)
    requires Inv(cfg, c) && RestBut(c, id) && id in c.transfers && c.transfers[id].asm.Some?
    ensures Keeps(c, AfterStored(cfg, c, id, e))
  {
    var c0 := MaybeStart(c, id);
    var c1 := Flush(c0, id, e.behind);
    MaybeStartKeeps(cfg, c, id);
    FlushKeeps(cfg, c0, id, e.behind);
    MaybeStartKept(c, id);
    FlushKept(c0, id, e.behind);
    KeepsTwice(c, c0, c1);
    assert ViewOk(cfg, id, ViewOf(c0, id));
    assert ViewOk(cfg, id, ViewOf(c1, id));
    FlushedOk(c0.transfers[id], e.behind);
    var t := c1.transfers[id];
    if A.Complete(t.asm.value) && t.headers.Some? {
      LiveIsEndable(cfg, id, t, ViewOf(c1, id));
      FinishKept(cfg, c1, id, true, e);
      KeepsTwice(c, c1, Finish(c1, id, true, e));
    } else if Elapsed(t.lastDetect, e.now, DETECT_INTERVAL_MS) {
      DetectLossKept(cfg, c1, id, e);
      KeepsTwice(c, c1, DetectLoss(cfg, c1, id, e));
    }
  }

  lemma SameNamed(named: nat -> seq<Byte>, c: Client, c': Client)
    requires Named(named, c) && c'.started == c.started && c'.sent == c.sent
    ensures Named(named, c') && Later(c, c')
  {
  }

  lemma DataTrue(cfg: ClientConfig, truth: nat -> Asset, named: nat -> seq<Byte>, c: Client, id: nat, size: nat, off: nat, p: seq<Byte>, e: Env)
    requires Inv(cfg, c) && Rest(c) && AsmsOk(c) && AllTrue(truth, c) && Named(named, c) && id in c.transfers
    requires TruePacket(truth(id), c.transfers[id].ceiling, Data(id, size, off, p))
    ensures var c' := HandleData(cfg, c, id, size, off, p, e); AllTrue(truth, c') && Named(named, c') && Later(c, c')
  {
    var c1 := Sized(c, id, size);
    GenuineIsStored(cfg, truth, c, id, size, off, p, e);
    SizedKeeps(cfg, c, id, size);
    StoredKeeps(cfg, c1, id, off, p, e.now);
    var c2 := Stored(c1, id, off, p, e.now);
    SameNamed(named, c, c2);
    AfterStoredKept(cfg, c2, id, e);
    KeepsTrue(truth, c2, AfterStored(cfg, c2, id, e));
    KeepsNamed(cfg, named, c2, AfterStored(cfg, c2, id, e));
  }

  /** The META stored, and a stream handed over if that was all it waited for. */
  ghost function MetaStored(c: Client, id: nat, fields: seq<Field>, now: real): (c': Client)
    requires id in c.transfers
    ensures id in c'.transfers
  {
    MaybeStart(Put(c, id, c.transfers[id].(headers := Some(fields), lastProgress := now, recoveries := 0)), id)
  }

  lemma MetaStoredTrue(cfg: ClientConfig, truth: nat -> Asset, named: nat -> seq<Byte>, c: Client, id: nat, fields: seq<Field>, now: real)
    requires Inv(cfg, c) && AllTrue(truth, c) && Named(named, c) && id in c.transfers && c.transfers[id].headers.None?
    requires truth(id).Found? && fields == truth(id).fields
    ensures var c' := MetaStored(c, id, fields, now);
      && Inv(cfg, c') && AllTrue(truth, c') && Named(named, c') && Later(c, c') && !CanStart(c'.transfers[id])
      && c'.transfers[id].headers.Some? && c'.transfers[id].asm == c.transfers[id].asm
  {
    var t := c.transfers[id];
    var c0 := Put(c, id, t.(headers := Some(fields), lastProgress := now, recoveries := 0));
    assert Truthful(truth(id), t);
    PutTrue(truth, c, c0, id);
    SameNamed(named, c, c0);
    HeadersKeep(cfg, c, id, fields, now);
    MaybeStartKeeps(cfg, c0, id);
    MaybeStartKept(c0, id);
    QuietTrue(cfg, truth, named, c0, MaybeStart(c0, id));
  }

  lemma MetaTrue(cfg: ClientConfig, truth: nat -> Asset, named: nat -> seq<Byte>, c: Client, id: nat, fields: seq<Field>, e: Env)
    requires Inv(cfg, c) && Rest(c) && AllTrue(truth, c) && Named(named, c) && id in c.transfers
    requires truth(id).Found? && fields == truth(id).fields
    ensures var c' := HandleMeta(c, id, fields, e); AllTrue(truth, c') && Named(named, c') && Later(c, c')
  {
    var t := c.transfers[id];
    if t.headers.None? {
      MetaStoredTrue(cfg, truth, named, c, id, fields, e.now);
      if t.asm.Some? && A.Complete(t.asm.value) { CompleteTrue(cfg, truth, named, MetaStored(c, id, fields, e.now), id, e); }
    }
  }

  lemma CompleteTrue(cfg: ClientConfig, truth: nat -> Asset, named: nat -> seq<Byte>, c: Client, id: nat, e: Env)
    requires Inv(cfg, c) && AllTrue(truth, c) && Named(named, c) && id in c.transfers
    requires Whole(c.transfers[id]) && !CanStart(c.transfers[id])
    ensures var c' := Finish(c, id, true, e); AllTrue(truth, c') && Named(named, c') && Later(c, c')
  {
    assert ViewOk(cfg, id, ViewOf(c, id));
    LiveIsEndable(cfg, id, c.transfers[id], ViewOf(c, id));
    FinishKept(cfg, c, id, true, e);
    QuietTrue(cfg, truth, named, c, Finish(c, id, true, e));
  }

  lemma PacketTrue(cfg: ClientConfig, truth: nat -> Asset, named: nat -> seq<Byte>, c: Client, p: Packet, e: Env)
    requires Inv(cfg, c) && Rest(c) && AsmsOk(c) && AllTrue(truth, c) && Named(named, c)
    requires TruePacket(truth(p.rpc), Highest(c.sent, p.rpc), p)
    ensures var c' := HandlePacket(cfg, c, p, e); AllTrue(truth, c') && Named(named, c') && Later(c, c')
  {
    if p.rpc in c.transfers {
      assert ViewOk(cfg, p.rpc, ViewOf(c, p.rpc));
      if p.Meta? {
        MetaTrue(cfg, truth, named, c, p.rpc, p.fields, e);
      } else if p.Data? || p.DataSeq? {
        DataTrue(cfg, truth, named, c, p.rpc, p.totalSize, p.offset, p.payload, e);
      } else if p.Error? {
        FailTrue(cfg, truth, named, c, p.rpc, e);
      }
    }
  }

  lemma FailTrue(cfg: ClientConfig, truth: nat -> Asset, named: nat -> seq<Byte>, c: Client, id: nat, e: Env)
    requires Inv(cfg, c) && AllTrue(truth, c) && Named(named, c) && id in c.transfers
    ensures var c' := Finish(c, id, false, e); AllTrue(truth, c') && Named(named, c') && Later(c, c')
  {
    assert ViewOk(cfg, id, ViewOf(c, id));
    LiveIsEndable(cfg, id, c.transfers[id], ViewOf(c, id));
    FinishKept(cfg, c, id, false, e);
    QuietTrue(cfg, truth, named, c, Finish(c, id, false, e));
  }

  lemma CountTrue(cfg: ClientConfig, truth: nat -> Asset, named: nat -> seq<Byte>, c: Client, p: Packet, e: Env)
    requires Inv(cfg, c) && AllTrue(truth, c) && Named(named, c) && p.DataSeq?
    ensures var c' := CountNumber(cfg, c, p, e);
      && Inv(cfg, c') && AsmsOk(c') && AllTrue(truth, c') && Named(named, c') && Later(c, c') && c'.transfers == c.transfers
      && Highest(c.sent, p.rpc) <= Highest(c'.sent, p.rpc)
  {
    var c' := CountNumber(cfg, c, p, e);
    CountKeeps(cfg, c, p, e);
    CountKept(cfg, c, p, e);
    QuietTrue(cfg, truth, named, c, c');
    HighestLater(c, c', p.rpc);
    InvAsmsOk(cfg, c');
  }

  /** Handling a true datagram and granting, after whatever was written before. */
  lemma HandledTrue(cfg: ClientConfig, truth: nat -> Asset, named: nat -> seq<Byte>, before: Client, c: Client, p: Packet, e: Env)
    requires Inv(cfg, c) && Rest(c) && AsmsOk(c) && AllTrue(truth, c) && Named(named, c) && Later(before, c)
    requires TruePacket(truth(p.rpc), Highest(c.sent, p.rpc), p)
    ensures var c' := Pump(HandlePacket(cfg, c, p, e), e); AllTrue(truth, c') && Named(named, c') && Later(before, c')
  {
    PacketTrue(cfg, truth, named, c, p, e);
    PacketKeeps(cfg, c, p, e);
    PumpTrue(cfg, truth, named, before, HandlePacket(cfg, c, p, e), e);
  }

  lemma TookTrue(cfg: ClientConfig, truth: nat -> Asset, named: nat -> seq<Byte>, c: Client, p: Packet, e: Env)
    requires Inv(cfg, c) && Rest(c) && AsmsOk(c) && AllTrue(truth, c) && Named(named, c)
    requires TruePacket(truth(p.rpc), Highest(c.sent, p.rpc), p)
    ensures var c' := Arrive(cfg, c, p, e); AllTrue(truth, c') && Named(named, c') && Later(c, c')
  {
    if p.DataSeq? { CountTrue(cfg, truth, named, c, p, e); }
    HandledTrue(cfg, truth, named, c, if p.DataSeq? then CountNumber(cfg, c, p, e) else c, p, e);
  }

  lemma PumpTrue(cfg: ClientConfig, truth: nat -> Asset, named: nat -> seq<Byte>, before: Client, c: Client, e: Env)
    requires Inv(cfg, c) && AllTrue(truth, c) && Named(named, c) && Later(before, c)
    ensures AllTrue(truth, Pump(c, e)) && Named(named, Pump(c, e)) && Later(before, Pump(c, e))
  {
    PumpKept(cfg, c, e);
    QuietTrue(cfg, truth, named, c, Pump(c, e));
  }

  lemma HighestLater(c: Client, c': Client, id: nat)
    requires Later(c, c')
    ensures Highest(c.sent, id) <= Highest(c'.sent, id)
  {
    assert c'.sent == c.sent + c'.sent[|c.sent|..];
    HighestConcat(c.sent, c'.sent[|c.sent|..], id);
  }

  lemma QuietTrue(cfg: ClientConfig, truth: nat -> Asset, named: nat -> seq<Byte>, c: Client, c': Client)
    requires Inv(cfg, c) && AllTrue(truth, c) && Named(named, c) && Keeps(c, c')
    ensures AllTrue(truth, c') && Named(named, c') && Later(c, c')
  {
    KeepsTrue(truth, c, c');
    KeepsNamed(cfg, named, c, c');
  }

  /** Each step keeps the truth, provided the datagram it took, if any, tells it. */
  lemma StepTrue(cfg: ClientConfig, truth: nat -> Asset, named: nat -> seq<Byte>, c: Client, st: Step, c': Client)
    requires Inv(cfg, c) && Rest(c) && AllTrue(truth, c) && Named(named, c) && Moves(cfg, c, st, c')
    requires st.Took? ==> TruePacket(truth(st.p.rpc), Highest(c.sent, st.p.rpc), st.p)
    requires st.Begin? ==> st.begun.assetId == named(st.id)
    ensures AllTrue(truth, c') && Named(named, c') && Later(c, c')
  {
    InvAsmsOk(cfg, c);
    match st
    case Begin(id, begun, cls, grant, now) => StartTrue(cfg, truth, named, c, st, c');
    case Took(p, e) => TookTrue(cfg, truth, named, c, p, e);
    case Ticked(id, e) => TickKept(cfg, c, id, e); QuietTrue(cfg, truth, named, c, c');
    case SeqTicked(e) => SeqLossKept(cfg, c, e); QuietTrue(cfg, truth, named, c, c');
    case Pulled(id, e) => PullKept(cfg, c, id, e); QuietTrue(cfg, truth, named, c, c');
    case Dropped(id, e) => CancelKept(cfg, c, id, e); QuietTrue(cfg, truth, named, c, c');
    case Aborted(id, e) => FailTrue(cfg, truth, named, c, id, e);
    case Pumped(e) => PumpKept(cfg, c, e); QuietTrue(cfg, truth, named, c, c');
  }
}
