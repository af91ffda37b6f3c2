/**
 Coming to rest end to end. From any state of any run, however much was lost on
 the way there: once every request and grant has reached the server and
 everything the server sent has reached the client, with no RPC evicted
 meanwhile, a server with nothing to send and a client with nothing to grant
 leave no transfer waiting but those whose own reader is behind.
 */
module SystemRests {
  import opened Intervals
  import opened Packets
  import opened Senders
  import opened Clients
  import opened Systems
  import SR = SenderRuns
  import SH = SenderHistory
  import SD = SenderDrain
  import ST = SenderTolds
  import CR = ClientRuns
  import CT = ClientTruth
  import CH = ClientHistory
  import CK = ClientTakens
  import CA = ClientAnswers
  import A = Reassemblies
  import S = Scheduling

  // ---- What else every run keeps ----

  /** The server knows only transfers that began. */
  ghost predicate Known(a: World) {
    && a.server.s.rpcs.Keys <= a.client.started.Keys
    && (forall p :: p in a.server.ledger.replies ==> p.rpc in a.client.started)
    && (forall p :: p in a.server.out ==> p.rpc in a.client.started)
  }

  ghost predicate FullInv(w: Setup, a: World) { Inv(w, a) && Known(a) && ST.AllTold(a.server) }

  lemma RecvKnown(w: Setup, a: World, p: Packet, now: int, b: World)
    requires Inv(w, a) && Known(a) && Moves(w, a, ServerStep(SH.Recv(p, now)), b)
    ensures Known(b)
  {
    assert p.Req? || p.Grant? || p.Resend? ==> p.rpc in a.client.started;
    ST.HandleIds(w.server, a.server.s, p, now);
    ST.HandleReplies(w.server, a.server.s, a.server.ledger, p, now);
  }

  /** What recording a chosen packet does to the server's books. */
  lemma RecordKnown(cfg: Config, named: nat -> seq<Byte>, a: SH.Server, o: Outcome, b: SH.Server)
    requires SH.ServerInv(cfg, named, a) && SH.Moves(cfg, a, SH.Finish(o), b)
    ensures b.s.rpcs.Keys == a.s.rpcs.Keys && b.ledger.replies == a.ledger.replies
    ensures forall p :: p in b.out ==> p in a.out || p.rpc in a.s.rpcs || p in a.ledger.replies
  {
    var k := a.phase.w;
    SD.RecordPromises(cfg, a.s, k);
    ST.RecordedHolds(cfg, a.s, a.ledger, k);
    if k.kind == Control { assert a.s.pending[0] in a.ledger.replies; }
  }

  lemma FinishKnown(w: Setup, a: World, o: Outcome, b: World)
    requires Inv(w, a) && Known(a) && Moves(w, a, ServerStep(SH.Finish(o)), b)
    ensures Known(b)
  {
    RecordKnown(w.server, w.named, a.server, o, b.server);
  }

  lemma ServerKnown(w: Setup, a: World, s: SH.Step, b: World)
    requires Inv(w, a) && Known(a) && Moves(w, a, ServerStep(s), b)
    ensures Known(b)
  {
    match s
    case Recv(p, now) => RecvKnown(w, a, p, now, b);
    case Finish(o) => FinishKnown(w, a, o, b);
    case _ =>
  }

  lemma ClientGrows(w: Setup, a: World, c: CH.Step, b: World)
    requires Inv(w, a) && Known(a) && Moves(w, a, ClientStep(c), b)
    ensures CK.GrowsOn(a.client, b.client)
  {
    if c.Took? { SentIsTrue(w, a, c.p); }
    CK.StepGrows(w.client, Truth(w), w.named, a.client, c, b.client);
  }

  lemma StepFull(w: Setup, a: World, st: Step, b: World)
    requires SR.AssetsOk(w.server) && FullInv(w, a) && Moves(w, a, st, b)
    ensures FullInv(w, b)
  {
    StepKeeps(w, a, st, b);
    match st {
      case ServerStep(s) =>
        ServerKnown(w, a, s, b);
        ST.StepTold(w.server, w.named, a.server, s, b.server);
      case ClientStep(c) =>
        ClientGrows(w, a, c, b);
    }
  }

  lemma {:induction false} RunFull(w: Setup, a: World, steps: seq<Step>, b: World)
    requires SR.AssetsOk(w.server) && FullInv(w, a) && Reaches(w, a, steps, b)
    ensures FullInv(w, b)
    decreases |steps|
  {
    if steps != [] {
      var m :| Moves(w, a, steps[0], m) && Reaches(w, m, steps[1..], b);
      StepFull(w, a, steps[0], m);
      RunFull(w, m, steps[1..], b);
    }
  }

  lemma StartsFull(w: Setup, steps: seq<Step>, b: World)
    requires SR.AssetsOk(w.server) && IsRun(w, steps, b)
    ensures FullInv(w, b)
  {
    NewInv(w);
    RunFull(w, NewWorld(w), steps, b);
  }

  // ---- Delivering everything ----

  predicate IsRecv(st: Step, p: Packet) { st.ServerStep? && st.s.Recv? && st.s.p == p }

  predicate IsTook(st: Step, p: Packet) { st.ClientStep? && st.c.Took? && st.c.p == p }

  predicate Received(steps: seq<Step>, p: Packet) { exists k :: 0 <= k < |steps| && IsRecv(steps[k], p) }

  predicate TakenIn(steps: seq<Step>, p: Packet) { exists k :: 0 <= k < |steps| && IsTook(steps[k], p) }

  predicate NoEviction(steps: seq<Step>) { forall k :: 0 <= k < |steps| ==> !(steps[k].ServerStep? && steps[k].s.Evict?) }

  /** Every request and grant ever written arrives, and everything ever sent back. */
  ghost predicate Delivers(steps: seq<Step>, b: World) {
    && NoEviction(steps)
    && (forall p :: p in b.client.sent && (p.Req? || p.Grant?) ==> Received(steps, p))
    && (forall p :: p in b.server.out ==> TakenIn(steps, p))
  }

  lemma NextReceived(steps: seq<Step>, p: Packet)
    requires steps != [] && Received(steps, p) && !IsRecv(steps[0], p)
    ensures Received(steps[1..], p)
  {
    var k :| 0 <= k < |steps| && IsRecv(steps[k], p);
    assert steps[1..][k - 1] == steps[k];
  }

  lemma NextTaken(steps: seq<Step>, p: Packet)
    requires steps != [] && TakenIn(steps, p) && !IsTook(steps[0], p)
    ensures TakenIn(steps[1..], p)
  {
    var k :| 0 <= k < |steps| && IsTook(steps[k], p);
    assert steps[1..][k - 1] == steps[k];
  }

  lemma StepHears(w: Setup, a: World, st: Step, m: World, p: Packet)
    requires Moves(w, a, st, m) && !(st.ServerStep? && st.s.Evict?) && (ST.Heard(a.server, p) || IsRecv(st, p))
    ensures ST.Heard(m.server, p)
  {
    if st.ServerStep? {
      if IsRecv(st, p) {
        ST.RecvHears(w.server, a.server, p, st.s.now, m.server);
      } else {
        ST.StepHolds(w.server, a.server, st.s, m.server);
        ST.StillHeard(a.server, m.server, p);
      }
    }
  }

  lemma {:induction false} RunHears(w: Setup, a: World, steps: seq<Step>, b: World, p: Packet)
    requires Reaches(w, a, steps, b) && NoEviction(steps) && (ST.Heard(a.server, p) || Received(steps, p))
    ensures ST.Heard(b.server, p)
    decreases |steps|
  {
    if steps != [] {
      var m :| Moves(w, a, steps[0], m) && Reaches(w, m, steps[1..], b);
      if ST.Heard(a.server, p) || IsRecv(steps[0], p) {
        StepHears(w, a, steps[0], m, p);
      } else {
        NextReceived(steps, p);
      }
      RunHears(w, m, steps[1..], b, p);
    }
  }

  lemma StepTakes(w: Setup, a: World, st: Step, m: World, p: Packet)
    requires FullInv(w, a) && Moves(w, a, st, m) && (CK.Taken(a.client, p) || IsTook(st, p))
    ensures CK.Taken(m.client, p)
  {
    if st.ClientStep? {
      if IsTook(st, p) {
        SentIsTrue(w, a, p);
        CK.TookTaken(w.client, Truth(w), w.named, a.client, p, st.c.e);
      } else {
        ClientGrows(w, a, st.c, m);
        CK.StillTaken(a.client, m.client, p);
      }
    }
  }

  lemma {:induction false} RunTakes(w: Setup, a: World, steps: seq<Step>, b: World, p: Packet)
    requires SR.AssetsOk(w.server) && FullInv(w, a) && Reaches(w, a, steps, b) && (CK.Taken(a.client, p) || TakenIn(steps, p))
    ensures CK.Taken(b.client, p)
    decreases |steps|
  {
    if steps != [] {
      var m :| Moves(w, a, steps[0], m) && Reaches(w, m, steps[1..], b);
      StepFull(w, a, steps[0], m);
      if CK.Taken(a.client, p) || IsTook(steps[0], p) {
        StepTakes(w, a, steps[0], m, p);
      } else {
        NextTaken(steps, p);
      }
      RunTakes(w, m, steps[1..], b, p);
    }
  }

  // ---- At rest ----

  /** Each end has what the other sent, as far as it matters. */
  ghost predicate Delivered(b: World) {
    && (forall p :: p in b.client.sent && (p.Req? || p.Grant?) ==> ST.Heard(b.server, p))
    && (forall p :: p in b.server.out ==> CK.Taken(b.client, p))
  }

  lemma EverythingDelivered(w: Setup, a: World, steps: seq<Step>, b: World)
    requires SR.AssetsOk(w.server) && FullInv(w, a) && Reaches(w, a, steps, b) && Delivers(steps, b)
    ensures Delivered(b)
  {
    forall p | p in b.client.sent && (p.Req? || p.Grant?) ensures ST.Heard(b.server, p) { RunHears(w, a, steps, b, p); }
    forall p | p in b.server.out ensures CK.Taken(b.client, p) { RunTakes(w, a, steps, b, p); }
  }

  /** Some packet carries the highest grant. */
  lemma {:induction false} HighestAttained(sent: seq<Packet>, id: nat)
    ensures CR.Highest(sent, id) > 0 ==> exists p :: p in sent && CR.GrantIn(p, id) == CR.Highest(sent, id)
  {
    if sent != [] {
      var front := sent[..|sent| - 1];
      HighestAttained(front, id);
      assert sent[|sent| - 1] in sent;
      if CR.Highest(front, id) > 0 {
        var p :| p in front && CR.GrantIn(p, id) == CR.Highest(front, id);
        assert p in sent;
      }
    }
  }

  lemma RefusalIsOut(w: Setup, b: World, id: nat)
    requires Inv(w, b) && Picks(b.server.s, None) && ST.Refused(b.server.ledger, id)
    ensures exists q :: q in b.server.out && q.Error? && q.rpc == id
  {
    SD.IdleMeansSettled(b.server.s, b.server.ledger);
    ST.ErrorsAreOut(b.server.out);
  }

  /** No transfer that is live was refused. */
  lemma NotRefused(w: Setup, b: World, id: nat)
    requires FullInv(w, b) && Delivered(b) && Picks(b.server.s, None) && id in b.client.transfers
    ensures !ST.Refused(b.server.ledger, id)
    ensures forall q :: q in b.server.out && q.rpc == id ==> !q.Error?
  {
    forall q | q in b.server.out && q.rpc == id ensures !q.Error? { assert CK.Taken(b.client, q); }
    if ST.Refused(b.server.ledger, id) { RefusalIsOut(w, b, id); }
  }

  /** The server holds the transfer's RPC, and has sent META, packet 0 and all it was granted. */
  lemma RequestServed(w: Setup, b: World, id: nat)
    requires FullInv(w, b) && Delivered(b) && Picks(b.server.s, None) && id in b.client.transfers
    ensures id in b.server.s.rpcs && ST.MetaIn(b.server.out, id) && ST.DataIn(b.server.out, id)
    ensures forall i :: 0 <= i < b.server.s.rpcs[id].granted ==> SD.CarriedIn(b.server.out, id, i)
  {
    CK.LiveStarted(w.client, b.client, id);
    assert CH.Requested(b.client.sent, id);
    var p :| p in b.client.sent && p.Req? && p.rpc == id;
    NotRefused(w, b, id);
    ST.IdleHasSent(w.server, w.named, b.server, p);
  }

  /** Its grant is the highest the client wrote, as far as the asset goes. */
  lemma GrantReached(w: Setup, b: World, id: nat)
    requires FullInv(w, b) && Delivered(b) && Picks(b.server.s, None) && id in b.client.transfers && id in b.server.s.rpcs
    ensures TheAsset(w, id).Found? && Min(|TheAsset(w, id).body|, CR.Highest(b.client.sent, id)) <= b.server.s.rpcs[id].granted
  {
    NotRefused(w, b, id);
    HighestHeard(b, id);
    assert SH.Bound(w.server, w.named, b.server.s);
  }

  lemma HighestHeard(b: World, id: nat)
    requires Delivered(b) && !ST.Refused(b.server.ledger, id) && id in b.server.s.rpcs
    ensures ST.Granted(b.server.s, id, CR.Highest(b.client.sent, id))
  {
    HighestAttained(b.client.sent, id);
    if CR.Highest(b.client.sent, id) > 0 {
      var p :| p in b.client.sent && CR.GrantIn(p, id) == CR.Highest(b.client.sent, id);
      assert ST.Heard(b.server, p);
    }
  }

  /** Whatever a live transfer was granted it has, with its size and headers. */
  lemma GrantedArrived(w: Setup, b: World, id: nat)
    requires FullInv(w, b) && Delivered(b) && Picks(b.server.s, None) && id in b.client.transfers
    ensures var t := b.client.transfers[id];
      t.asm.Some? && t.headers.Some? && Offsets(0, Min(t.asm.value.size, t.ceiling)) <= t.asm.value.got
  {
    var t := b.client.transfers[id];
    RequestServed(w, b, id);
    GrantReached(w, b, id);
    CK.LiveStarted(w.client, b.client, id);
    assert CT.Truthful(Truth(w)(id), t);
    var meta :| meta in b.server.out && meta.Meta? && meta.rpc == id;
    assert CK.Taken(b.client, meta);
    var data :| data in b.server.out && (data.Data? || data.DataSeq?) && data.rpc == id;
    assert CK.Taken(b.client, data);
    forall i | 0 <= i < Min(t.asm.value.size, t.ceiling) ensures i in t.asm.value.got { ByteArrived(b, id, i); }
  }

  lemma ByteArrived(b: World, id: nat, i: int)
    requires Delivered(b) && SD.CarriedIn(b.server.out, id, i) && id in b.client.transfers
    ensures b.client.transfers[id].asm.Some? && i in b.client.transfers[id].asm.value.got
  {
    var k :| 0 <= k < |b.server.out| && SD.Carries(b.server.out[k], id, i);
    assert CK.Taken(b.client, b.server.out[k]);
  }

  /** Nothing granted is outstanding. */
  lemma EntryDrained(w: Setup, b: World, id: nat)
    requires FullInv(w, b) && Delivered(b) && Picks(b.server.s, None) && S.Lookup(b.client.sched.rpcs, id).Some?
    ensures var e := S.Lookup(b.client.sched.rpcs, id).value; id in b.client.transfers && e.granted <= e.received
  {
    assert CR.ViewOk(w.client, id, CR.ViewOf(b.client, id));
    var t := b.client.transfers[id];
    GrantedArrived(w, b, id);
    PartSize(t.asm.value.got, Min(t.asm.value.size, t.ceiling));
  }

  lemma PartSize(got: set<int>, n: nat)
    requires Offsets(0, n) <= got
    ensures n <= |got|
  {
    OffsetsSize(0, n);
    A.CountMinus(got, Offsets(0, n));
    assert got * Offsets(0, n) == Offsets(0, n);
  }

  lemma {:induction false} NoneOutstanding(rpcs: seq<S.Entry>)
    requires forall e :: e in rpcs ==> e.granted <= e.received
    ensures S.Outstanding(rpcs) == 0
  {
    if rpcs != [] { NoneOutstanding(rpcs[1..]); }
  }

  lemma {:induction false} NoneReserved(m: map<nat, Transfer>)
    requires forall id :: id in m ==> m[id].asm.Some?
    ensures Reserved(m) == 0
  {
    if m != map[] {
      var id :| id in m && Reserved(m) == Reserved(m - {id});
      NoneReserved(m - {id});
    }
  }

  /** The client grants nothing, whatever positive budget it has. */
  ghost predicate GrantsNothing(c: Client, e: Env) {
    e.budget >= 1 && S.Decisions(c.sched.(budget := e.budget), Reserved(c.transfers)) == []
  }

  /** With nothing outstanding and nothing to grant, no scheduled transfer wants a grant. */
  lemma NoneWants(w: Setup, b: World, e: Env, id: nat)
    requires FullInv(w, b) && Delivered(b) && Picks(b.server.s, None) && GrantsNothing(b.client, e)
    requires S.Lookup(b.client.sched.rpcs, id).Some?
    ensures !S.Wants(S.Lookup(b.client.sched.rpcs, id).value)
  {
    var rpcs := b.client.sched.rpcs;
    S.LookupIn(rpcs, b.client.sched.next);
    forall x | x in rpcs ensures x.granted <= x.received { EntryDrained(w, b, x.id); }
    NoneOutstanding(rpcs);
    forall j | j in b.client.transfers ensures b.client.transfers[j].asm.Some? { GrantedArrived(w, b, j); }
    NoneReserved(b.client.transfers);
    if S.Wants(S.Lookup(rpcs, id).value) { S.NoDeadlock(b.client.sched.(budget := e.budget), 0, S.Lookup(rpcs, id).value); }
  }

  predicate ReaderBehind(t: Transfer) { t.stream.Some? && t.stream.value.paused }

  /** A live transfer that was granted its whole size would be over. */
  lemma RestWaits(w: Setup, b: World, e: Env, id: nat)
    requires FullInv(w, b) && Delivered(b) && Picks(b.server.s, None) && GrantsNothing(b.client, e) && id in b.client.transfers
    ensures ReaderBehind(b.client.transfers[id])
  {
    var t := b.client.transfers[id];
    GrantedArrived(w, b, id);
    assert CR.ViewOk(w.client, id, CR.ViewOf(b.client, id));
    NoneWants(w, b, e, id);
    assert CR.AtRest(t);
    NotAll(t, Min(t.asm.value.size, t.ceiling));
  }

  /** What is not whole has not got everything. */
  lemma NotAll(t: Transfer, n: nat)
    requires t.asm.Some? && t.headers.Some? && !CR.Whole(t) && A.AsmOk(t.asm.value) && Offsets(0, n) <= t.asm.value.got
    ensures n < t.asm.value.size
  {
    var size := t.asm.value.size;
    A.CompleteHasAll(t.asm.value);
    assert n >= size ==> Offsets(0, size) <= Offsets(0, n);
  }

  /**
   Nothing is left undone. After any run, once a run of steps has delivered every
   request and grant and everything sent back, and the server has nothing to send
   and the client nothing to grant, every transfer still live waits for its own
   reader and has every byte it was granted.
   */
  lemma NothingLeftUndone(w: Setup, before: seq<Step>, a: World, steps: seq<Step>, b: World, e: Env)
    requires SR.AssetsOk(w.server) && IsRun(w, before, a) && Reaches(w, a, steps, b) && Delivers(steps, b)
    requires Picks(b.server.s, None) && GrantsNothing(b.client, e)
    ensures forall id :: id in b.client.transfers ==>
      var t := b.client.transfers[id];
      ReaderBehind(t) && t.asm.Some? && t.headers.Some? && Offsets(0, Min(t.asm.value.size, t.ceiling)) <= t.asm.value.got
  {
    StartsFull(w, before, a);
    RunFull(w, a, steps, b);
    EverythingDelivered(w, a, steps, b);
    forall id | id in b.client.transfers
      ensures var t := b.client.transfers[id];
        ReaderBehind(t) && t.asm.Some? && t.headers.Some? && Offsets(0, Min(t.asm.value.size, t.ceiling)) <= t.asm.value.got
    {
      GrantedArrived(w, b, id);
      RestWaits(w, b, e, id);
    }
  }

  // ---- And every caller is served ----

  /** The steps from a to b, none of which tells the transfer to fail. */
  ghost predicate ReachesSparing(w: Setup, a: World, steps: seq<Step>, b: World, id: nat)
    decreases |steps|
  {
    if steps == [] then b == a
    else exists m :: Moves(w, a, steps[0], m) && (steps[0].ClientStep? ==> CA.Sparing(w.client, a.client, steps[0].c, id))
                     && ReachesSparing(w, m, steps[1..], b, id)
  }

  lemma {:induction false} SparingReaches(w: Setup, a: World, steps: seq<Step>, b: World, id: nat)
    requires ReachesSparing(w, a, steps, b, id)
    ensures Reaches(w, a, steps, b)
    decreases |steps|
  {
    if steps != [] {
      var m :| Moves(w, a, steps[0], m) && (steps[0].ClientStep? ==> CA.Sparing(w.client, a.client, steps[0].c, id))
               && ReachesSparing(w, m, steps[1..], b, id);
      SparingReaches(w, m, steps[1..], b, id);
    }
  }

  lemma StepServes(w: Setup, a: World, st: Step, m: World, id: nat)
    requires Inv(w, a) && Moves(w, a, st, m) && (st.ClientStep? ==> CA.Sparing(w.client, a.client, st.c, id))
    requires id in a.client.transfers || CA.Served(a.client, id)
    ensures id in m.client.transfers || CA.Served(m.client, id)
  {
    if st.ClientStep? {
      if st.c.Took? { SentIsTrue(w, a, st.c.p); }
      CA.StepSpares(w.client, Truth(w), w.named, a.client, st.c, m.client, id);
      if CA.Served(a.client, id) { CA.StillServed(a.client, m.client, id); }
    }
  }

  lemma {:induction false} RunServes(w: Setup, a: World, steps: seq<Step>, b: World, id: nat)
    requires SR.AssetsOk(w.server) && Inv(w, a) && ReachesSparing(w, a, steps, b, id)
    requires id in a.client.transfers || CA.Served(a.client, id)
    ensures id in b.client.transfers || CA.Served(b.client, id)
    decreases |steps|
  {
    if steps != [] {
      var m :| Moves(w, a, steps[0], m) && (steps[0].ClientStep? ==> CA.Sparing(w.client, a.client, steps[0].c, id))
               && ReachesSparing(w, m, steps[1..], b, id);
      StepKeeps(w, a, steps[0], m);
      StepServes(w, a, steps[0], m, id);
      RunServes(w, m, steps[1..], b, id);
    }
  }

  /**
   Every transfer is served. In the same setting, a transfer that is not told to
   fail on the way is at rest with its reader behind, or its caller has been given
   exactly the asset.
   */
  lemma EveryCallerIsServed(w: Setup, before: seq<Step>, a: World, steps: seq<Step>, b: World, e: Env, id: nat)
    requires SR.AssetsOk(w.server) && IsRun(w, before, a) && ReachesSparing(w, a, steps, b, id) && Delivers(steps, b)
    requires Picks(b.server.s, None) && GrantsNothing(b.client, e) && id in a.client.transfers
    ensures (id in b.client.transfers && ReaderBehind(b.client.transfers[id]))
            || exists ev :: ev in b.client.events && CA.IsWhole(ev, id) && TheAsset(w, id).Found? && ev.body == TheAsset(w, id).body
  {
    SparingReaches(w, a, steps, b, id);
    NothingLeftUndone(w, before, a, steps, b, e);
    FromTheStart(w, before, a);
    RunServes(w, a, steps, b, id);
    if id !in b.client.transfers {
      RunKeeps(w, a, steps, b);
      ServedTrue(w, b, id);
    }
  }

  /** A caller that was served was given exactly the asset. */
  lemma ServedTrue(w: Setup, b: World, id: nat)
    requires Inv(w, b) && CA.Served(b.client, id)
    ensures exists ev :: ev in b.client.events && CA.IsWhole(ev, id) && TheAsset(w, id).Found? && ev.body == TheAsset(w, id).body
  {
    var ev :| ev in b.client.events && CA.IsWhole(ev, id);
    ToldTrue(w, b, ev);
  }
}
