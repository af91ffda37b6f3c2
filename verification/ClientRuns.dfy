/**
 What every run of the client keeps. A View is all the session holds, and all
 its history says, about one rpc_id; every handler changes the views it should
 and no others.
 */
module ClientRuns {
  import opened Intervals
  import opened Packets
  import opened Clients
  import A = Reassemblies
  import R = Repairs
  import S = Scheduling

  // ---- Histories, one id at a time ----

  /** The highest grant offered for id: initial grants and GRANTs. */
  function Highest(sent: seq<Packet>, id: nat): nat {
    if sent == [] then 0
    else Max(Highest(sent[..|sent| - 1], id), GrantIn(sent[|sent| - 1], id))
  }

  function GrantIn(p: Packet, id: nat): nat {
    if p.Req? && p.rpc == id then p.initialGrant else if p.Grant? && p.rpc == id then p.maxOffset else 0
  }

  function EventsOf(events: seq<Event>, id: nat): seq<Event> {
    if events == [] then []
    else
      var last := events[|events| - 1];
      EventsOf(events[..|events| - 1], id) + if last.id == id then [last] else []
  }

  lemma {:induction false} HighestConcat(a: seq<Packet>, b: seq<Packet>, id: nat)
    ensures Highest(a + b, id) == Max(Highest(a, id), Highest(b, id))
  {
    if b == [] {
      assert a + b == a;
    } else {
      assert (a + b)[..|a + b| - 1] == a + b[..|b| - 1];
      HighestConcat(a, b[..|b| - 1], id);
    }
  }

  lemma {:induction false} EventsConcat(a: seq<Event>, b: seq<Event>, id: nat)
    ensures EventsOf(a + b, id) == EventsOf(a, id) + EventsOf(b, id)
  {
    if b == [] {
      assert a + b == a;
    } else {
      assert (a + b)[..|a + b| - 1] == a + b[..|b| - 1];
      EventsConcat(a, b[..|b| - 1], id);
    }
  }

  // ---- One id's view ----

  datatype View = View(
    live: Option<Transfer>,
    ended: Option<Transfer>,
    entry: Option<S.Entry>,
    begun: Option<Begun>,
    highest: nat,
    recovered: nat,
    events: seq<Event>)

  function At<T>(m: map<nat, T>, id: nat): Option<T> { if id in m then Some(m[id]) else None }

  function ViewOf(c: Client, id: nat): View {
    View(At(c.transfers, id), At(c.ended, id), S.Lookup(c.sched.rpcs, id), At(c.started, id),
         Highest(c.sent, id), c.recovered[id], EventsOf(c.events, id))
  }

  /** Chunks follow each other from 0 to end. */
  predicate Chained(chunks: seq<Range>, end: int) {
    if chunks == [] then end == 0
    else
      var r := chunks[|chunks| - 1];
      0 <= r.start < r.end == end && Chained(chunks[..|chunks| - 1], r.start)
  }

  ghost predicate StreamOk(t: Transfer) {
    t.stream.Some? ==>
      && !t.stream.value.closed
      && Chained(t.stream.value.chunks, t.stream.value.emitted)
      && t.stream.value.emitted <= if t.asm.Some? then A.Contiguous(t.asm.value) else 0
  }

  /** The scheduler's entry agrees with the transfer: its size, what arrived, and the grants sent. */
  ghost predicate EntryOk(t: Transfer, entry: Option<S.Entry>) {
    if t.asm.None? then entry.None? && t.ceiling == t.initialGrant && (t.stream.Some? ==> !t.stream.value.paused)
    else
      && A.AsmOk(t.asm.value) && R.DisjointP(t.repair.pending, 0, t.asm.value.size)
      && entry.Some?
      && entry.value.size == t.asm.value.size && entry.value.received == |t.asm.value.got|
      && entry.value.granted == Min(t.asm.value.size, t.ceiling)
      && (entry.value.paused <==> t.stream.Some? && t.stream.value.paused)
  }

  function SizeOf(t: Transfer): nat { if t.asm.Some? then t.asm.value.size else 0 }

  /** How often the transfer has made progress: its META, and each byte. */
  function Progress(t: Transfer): nat {
    (if t.headers.Some? then 1 else 0) + if t.asm.Some? then |t.asm.value.got| else 0
  }

  ghost predicate AnswersOk(id: nat, t: Transfer, events: seq<Event>) {
    if t.settled then t.stream.Some? && t.asm.Some? && t.headers.Some? && events == [Handed(id, t.asm.value.size, t.headers.value)]
    else events == []
  }

  ghost predicate LiveOk(cfg: ClientConfig, id: nat, t: Transfer, v: View) {
    && v.begun == Some(Begun(t.assetId, t.stream.Some?))
    && v.highest == t.ceiling && t.initialGrant <= t.ceiling
    && EntryOk(t, v.entry)
    && StreamOk(t)
    && AnswersOk(id, t, v.events)
    && t.recoveries <= cfg.maxRecoveries
    && v.recovered <= cfg.maxRecoveries * Progress(t) + t.recoveries
  }

  predicate Whole(t: Transfer) { t.asm.Some? && t.headers.Some? && A.Complete(t.asm.value) }

  /** Exactly one answer; a stream also ends exactly once, and cleanly only with the whole body. */
  ghost predicate EndedEvents(id: nat, t: Transfer, events: seq<Event>) {
    if t.stream.None? then
      events == [Rejected(id)] || (Whole(t) && events == [Resolved(id, t.asm.value.bytes, t.headers.value)])
    else
      || events == [Errored(id), Rejected(id)]
      || (&& t.asm.Some? && t.headers.Some?
          && var handed := Handed(id, t.asm.value.size, t.headers.value);
             || events == [handed, Errored(id)]
             || events == [handed, Cancelled(id)]
             || (Whole(t) && events == [handed, Closed(id, t.asm.value.bytes)]))
  }

  ghost predicate EndedOk(cfg: ClientConfig, id: nat, t: Transfer, v: View) {
    && v.begun == Some(Begun(t.assetId, t.stream.Some?))
    && v.entry.None?
    && (t.asm.Some? ==> A.AsmOk(t.asm.value))
    && StreamOk(t)
    && EndedEvents(id, t, v.events)
    && v.recovered <= cfg.maxRecoveries * (SizeOf(t) + 2) + 1
  }

  ghost predicate ViewOk(cfg: ClientConfig, id: nat, v: View) {
    if v.live.Some? then v.ended.None? && LiveOk(cfg, id, v.live.value, v)
    else if v.ended.Some? then EndedOk(cfg, id, v.ended.value, v)
    else v.begun.None? && v.entry.None? && v.highest == 0 && v.recovered == 0 && v.events == []
  }

  ghost predicate Base(c: Client) { S.Listed(c.sched.rpcs, c.sched.next) && -1 <= c.seqs.highest }

  ghost predicate Inv(cfg: ClientConfig, c: Client) {
    Base(c) && forall id: nat :: ViewOk(cfg, id, ViewOf(c, id))
  }

  /** Between steps, whatever can be handed over or finished has been. */
  ghost predicate AtRest(t: Transfer) { !CanStart(t) && !Whole(t) }

  ghost predicate Rest(c: Client) { forall id :: id in c.transfers ==> AtRest(c.transfers[id]) }

  ghost predicate RestBut(c: Client, id: nat) { forall j :: j in c.transfers && j != id ==> AtRest(c.transfers[j]) }

  /** Only id's view may differ. */
  ghost predicate Only(c: Client, c': Client, id: nat) {
    forall j: nat :: j != id ==> ViewOf(c', j) == ViewOf(c, j)
  }

  lemma OnlyTwice(a: Client, b: Client, c: Client, id: nat)
    requires Only(a, b, id) && Only(b, c, id)
    ensures Only(a, c, id)
  {
    forall j: nat | j != id ensures ViewOf(c, j) == ViewOf(a, j) { assert ViewOf(b, j) == ViewOf(a, j); }
  }

  lemma FromView(cfg: ClientConfig, c: Client, c': Client, id: nat)
    requires Inv(cfg, c) && Base(c') && Only(c, c', id) && ViewOk(cfg, id, ViewOf(c', id))
    ensures Inv(cfg, c')
    ensures RestBut(c, id) ==> RestBut(c', id)
  {
    if RestBut(c, id) {
      forall j | j in c'.transfers && j != id ensures AtRest(c'.transfers[j]) {
        assert ViewOf(c', j) == ViewOf(c, j);
        assert At(c'.transfers, j) == At(c.transfers, j);
      }
    }
    forall j: nat ensures ViewOk(cfg, j, ViewOf(c', j)) {
      if j != id { assert ViewOf(c', j) == ViewOf(c, j); assert ViewOk(cfg, j, ViewOf(c, j)); }
    }
  }

  // ---- How the elementary changes show in the views ----

  lemma PutView(c: Client, id: nat, t: Transfer)
    ensures Only(c, Put(c, id, t), id)
    ensures ViewOf(Put(c, id, t), id) == ViewOf(c, id).(live := Some(t))
  {
  }

  lemma SendView(c: Client, ps: seq<Packet>, id: nat)
    requires forall j: nat :: j != id ==> Highest(ps, j) == 0
    ensures Only(c, Send(c, ps), id)
    ensures ViewOf(Send(c, ps), id) == ViewOf(c, id).(highest := Max(Highest(c.sent, id), Highest(ps, id)))
  {
    forall j: nat ensures Highest(c.sent + ps, j) == Max(Highest(c.sent, j), Highest(ps, j)) { HighestConcat(c.sent, ps, j); }
  }

  lemma TellView(c: Client, events: seq<Event>, id: nat)
    requires forall j: nat :: j != id ==> EventsOf(events, j) == []
    ensures Only(c, c.(events := c.events + events), id)
    ensures ViewOf(c.(events := c.events + events), id)
            == ViewOf(c, id).(events := EventsOf(c.events, id) + EventsOf(events, id))
  {
    forall j: nat ensures EventsOf(c.events + events, j) == EventsOf(c.events, j) + EventsOf(events, j) {
      EventsConcat(c.events, events, j);
    }
  }

  lemma OneEvent(ev: Event)
    ensures forall j: nat :: EventsOf([ev], j) == if ev.id == j then [ev] else []
  {
    assert [ev][..0] == [];
  }

  lemma {:induction false} AllOfOne(events: seq<Event>, id: nat, j: nat)
    requires forall ev :: ev in events ==> ev.id == id
    ensures EventsOf(events, j) == if j == id then events else []
  {
    if events != [] {
      var front := events[..|events| - 1];
      AllOfOne(front, id, j);
      assert events == front + [events[|events| - 1]];
    }
  }

  lemma PauseView(c: Client, id: nat, paused: bool)
    requires Base(c)
    ensures var c' := WithRpcs(c, S.Pause(c.sched.rpcs, id, paused));
      && Base(c') && Only(c, c', id)
      && ViewOf(c', id) == (var v := ViewOf(c, id); if v.entry.Some? then v.(entry := Some(v.entry.value.(paused := paused))) else v)
  {
    S.PauseFacts(c.sched.rpcs, id, paused, c.sched.next);
  }

  lemma DeliverView(c: Client, id: nat, bytes: nat)
    requires Base(c)
    ensures var c' := WithRpcs(c, S.Deliver(c.sched.rpcs, id, bytes));
      && Base(c') && Only(c, c', id)
      && ViewOf(c', id) == (var v := ViewOf(c, id);
                            if v.entry.Some? then v.(entry := Some(v.entry.value.(received := v.entry.value.received + bytes))) else v)
  {
    S.DeliverFacts(c.sched.rpcs, id, bytes, c.sched.next);
    forall j: nat
      ensures S.Lookup(S.Deliver(c.sched.rpcs, id, bytes), j)
              == (var o := S.Lookup(c.sched.rpcs, j); if j == id && o.Some? then Some(o.value.(received := o.value.received + bytes)) else o)
    {
      S.DeliverLookup(c.sched.rpcs, id, bytes, j);
    }
  }

  lemma ForgetView(c: Client, id: nat, t: Transfer)
    requires Base(c)
    ensures var c' := Forget(c, id, t);
      && Base(c') && Only(c, c', id)
      && ViewOf(c', id) == ViewOf(c, id).(live := None, ended := Some(t), entry := None)
  {
    S.WithoutFacts(c.sched.rpcs, id, c.sched.next);
  }

  lemma NoGrantsIn(ps: seq<Packet>)
    requires forall p :: p in ps ==> !p.Req? && !p.Grant?
    ensures forall j: nat :: Highest(ps, j) == 0
  {
    if ps != [] {
      forall p | p in ps[..|ps| - 1] ensures !p.Req? && !p.Grant? { assert p in ps; }
      NoGrantsIn(ps[..|ps| - 1]);
    }
  }

  lemma {:induction false} ResendsAreNot(id: nat, rs: seq<Range>)
    ensures forall p :: p in Resends(id, rs) ==> p.Resend? && p.rpc == id
  {
    if rs != [] { ResendsAreNot(id, rs[1..]); }
  }

  lemma {:induction false} ResendSeqsAreNot(rs: seq<Range>)
    ensures forall p :: p in ResendSeqs(rs) ==> p.ResendSeq?
  {
    if rs != [] { ResendSeqsAreNot(rs[1..]); }
  }

  /** A send that grants nothing changes no view. */
  lemma QuietSend(c: Client, ps: seq<Packet>)
    requires forall p :: p in ps ==> !p.Req? && !p.Grant?
    ensures forall j: nat :: ViewOf(Send(c, ps), j) == ViewOf(c, j)
  {
    NoGrantsIn(ps);
    forall j: nat ensures ViewOf(Send(c, ps), j) == ViewOf(c, j) { HighestConcat(c.sent, ps, j); }
  }

  // ---- Granting ----

  lemma {:induction false} GrantPacketsHighest(ds: seq<S.Decision>, cands: seq<S.Entry>, id: nat)
    requires S.Serves(ds, cands) && S.Unique(cands)
    ensures Highest(GrantPackets(ds), id) == (var g := S.GrantFor(ds, id); if g.Some? then g.value else 0)
    decreases |ds|
  {
    if ds != [] {
      GrantPacketsHighest(ds[1..], cands[1..], id);
      S.GrantForIn(ds[1..], cands[1..], id);
      var first := Grant(ds[0].id, ds[0].maxOffset, ds[0].priority);
      assert [first][..0] == [];
      HighestConcat([first], GrantPackets(ds[1..]), id);
    }
  }

  lemma PumpView(c: Client, e: Env, id: nat)
    requires Base(c)
    ensures var g := S.GrantFor(S.Decisions(c.sched.(budget := e.budget), Reserved(c.transfers)), id);
      var v, v' := ViewOf(c, id), ViewOf(Pump(c, e), id);
      && (g.Some? ==> v.entry.Some? && v.entry.value.granted < g.value <= v.entry.value.size)
      && v' == (if g.None? then v
                else v.(live := if v.live.Some? then Some(v.live.value.(ceiling := g.value)) else None,
                        entry := Some(v.entry.value.(granted := g.value)), highest := Max(v.highest, g.value)))
  {
    var st, reserved := c.sched.(budget := e.budget), Reserved(c.transfers);
    var cands, ds := S.Candidates(st.rpcs), S.Decisions(st, reserved);
    S.CandidateFacts(st.rpcs, st.next);
    S.DecideServes(cands, 0, S.Available(st, reserved), S.Increment(st.minIncrement, st.budget), S.Outstanding(st.rpcs) == 0);
    S.GrantedLookup(st, reserved, id);
    GrantPacketsHighest(ds, cands, id);
    HighestConcat(c.sent, GrantPackets(ds), id);
  }

  /** A grant that rises, within the size, keeps a live transfer's view. */
  lemma GrantKeepsView(cfg: ClientConfig, id: nat, v: View, g: nat)
    requires v.live.Some? && ViewOk(cfg, id, v)
    requires v.entry.Some? && v.entry.value.granted < g <= v.entry.value.size
    ensures ViewOk(cfg, id, v.(live := Some(v.live.value.(ceiling := g)), entry := Some(v.entry.value.(granted := g)),
                               highest := Max(v.highest, g)))
  {
  }

  lemma PumpKeeps(cfg: ClientConfig, c: Client, e: Env)
    requires Inv(cfg, c)
    ensures Inv(cfg, Pump(c, e))
    ensures Rest(c) ==> Rest(Pump(c, e))
  {
    var st, reserved := c.sched.(budget := e.budget), Reserved(c.transfers);
    var ds := S.Decisions(st, reserved);
    S.ApplyKeeps(st.rpcs, ds, st.next);
    forall id: nat ensures ViewOk(cfg, id, ViewOf(Pump(c, e), id)) {
      var v, g := ViewOf(c, id), S.GrantFor(ds, id);
      assert ViewOk(cfg, id, v);
      PumpView(c, e, id);
      if g.Some? {
        assert v.live.Some?;
        GrantKeepsView(cfg, id, v, g.value);
      }
    }
  }

  lemma {:induction false} ReservedWithout(m: map<nat, Transfer>, id: nat)
    requires id in m
    ensures Reserved(m) == (if m[id].asm.None? then m[id].initialGrant else 0) + Reserved(m - {id})
  {
    var j :| j in m && Reserved(m) == (if m[j].asm.None? then m[j].initialGrant else 0) + Reserved(m - {j});
    if j != id {
      ReservedWithout(m - {j}, id);
      ReservedWithout(m - {id}, j);
      assert m - {j} - {id} == m - {id} - {j};
    }
  }

  // ---- A DATA's steps ----

  /** Rewriting one live transfer, with nothing else changed. */
  lemma PutKeeps(cfg: ClientConfig, c: Client, id: nat, t: Transfer)
    requires Inv(cfg, c) && id in c.transfers
    requires LiveOk(cfg, id, t, ViewOf(c, id).(live := Some(t)))
    ensures Inv(cfg, Put(c, id, t)) && (RestBut(c, id) ==> RestBut(Put(c, id, t), id))
  {
    assert ViewOk(cfg, id, ViewOf(c, id));
    PutView(c, id, t);
    FromView(cfg, c, Put(c, id, t), id);
  }

  lemma AppendView(c: Client, e: S.Entry)
    requires Base(c) && e.id !in S.Ids(c.sched.rpcs) && e.order == c.sched.next
    ensures var c' := c.(sched := c.sched.(rpcs := c.sched.rpcs + [e], next := c.sched.next + 1));
      Base(c') && Only(c, c', e.id) && ViewOf(c', e.id) == ViewOf(c, e.id).(entry := Some(e))
  {
    S.AppendListed(c.sched.rpcs, e, c.sched.next);
    S.LookupIn(c.sched.rpcs, c.sched.next);
    forall j: nat
      ensures S.Lookup(c.sched.rpcs + [e], j) == if j == e.id then Some(e) else S.Lookup(c.sched.rpcs, j)
    {
      S.AppendLookup(c.sched.rpcs, e, j);
    }
  }

  lemma NewAsmContiguous(size: nat)
    ensures A.AsmOk(A.NewAsm(size)) && A.Contiguous(A.NewAsm(size)) == 0 && |A.NewAsm(size).got| == 0
  {
  }

  lemma SizedView(c: Client, id: nat, size: nat)
    requires Base(c) && id in c.transfers && c.transfers[id].asm.None? && ViewOf(c, id).entry.None?
    ensures var t, c' := c.transfers[id], Sized(c, id, size);
      && Base(c') && Only(c, c', id)
      && ViewOf(c', id) == ViewOf(c, id).(live := Some(t.(asm := Some(A.NewAsm(size)), repair := R.NewRepair())),
                                          entry := Some(S.Entry(id, size, Min(t.initialGrant, size), 0, false, c.sched.next, t.cls)))
  {
    var t := c.transfers[id];
    var t' := t.(asm := Some(A.NewAsm(size)), repair := R.NewRepair());
    S.LookupIn(c.sched.rpcs, c.sched.next);
    PutView(c, id, t');
    AppendView(Put(c, id, t'), S.Entry(id, size, Min(t.initialGrant, size), 0, false, c.sched.next, t.cls));
    OnlyTwice(c, Put(c, id, t'), Sized(c, id, size), id);
  }

  lemma SizedOk(cfg: ClientConfig, id: nat, v: View, size: nat, e: S.Entry)
    requires v.live.Some? && v.live.value.asm.None? && ViewOk(cfg, id, v)
    requires e.size == size && e.granted == Min(v.live.value.initialGrant, size) && e.received == 0 && !e.paused
    ensures ViewOk(cfg, id, v.(live := Some(v.live.value.(asm := Some(A.NewAsm(size)), repair := R.NewRepair())), entry := Some(e)))
  {
    NewAsmContiguous(size);
  }

  lemma SizedKeeps(cfg: ClientConfig, c: Client, id: nat, size: nat)
    requires Inv(cfg, c) && id in c.transfers
    ensures Inv(cfg, Sized(c, id, size)) && (RestBut(c, id) ==> RestBut(Sized(c, id, size), id))
  {
    assert ViewOk(cfg, id, ViewOf(c, id));
    if c.transfers[id].asm.None? {
      var t := c.transfers[id];
      SizedView(c, id, size);
      SizedOk(cfg, id, ViewOf(c, id), size, S.Entry(id, size, Min(t.initialGrant, size), 0, false, c.sched.next, t.cls));
      FromView(cfg, c, Sized(c, id, size), id);
    }
  }

  lemma {:induction false} PrefixGrows(got: set<int>, more: set<int>, at: int, hi: int)
    requires at <= hi && got <= more
    ensures Prefix(got, at, hi) <= Prefix(more, at, hi)
    decreases hi - at
  {
    if at < hi && at in got { PrefixGrows(got, more, at + 1, hi); }
  }

  lemma AddCounts(m: A.Asm, offset: nat, p: seq<Byte>)
    requires A.AsmOk(m) && A.Fits(m.size, offset, |p|)
    ensures |A.AddTo(m, offset, p).got| == |m.got| + A.FreshIn(m, offset, |p|)
    ensures A.Contiguous(m) <= A.Contiguous(A.AddTo(m, offset, p))
  {
    var more := Offsets(offset, offset + |p|);
    assert m.got + more == m.got + (more - m.got);
    PrefixGrows(m.got, m.got + more, 0, m.size);
  }

  /** Starting the count of attempts again costs at most one more round of them per byte. */
  lemma Restart(limit: nat, progress: nat, count: nat, attempts: nat, more: nat)
    requires count <= limit * progress + attempts && attempts <= limit && more > 0
    ensures count <= limit * (progress + more)
  {
    assert limit * (progress + more) == limit * progress + limit * more;
    assert limit <= limit * more;
  }

  lemma StoredOk(cfg: ClientConfig, id: nat, v: View, offset: nat, payload: seq<Byte>, now: real)
    requires v.live.Some? && v.live.value.asm.Some? && ViewOk(cfg, id, v)
    requires A.Fits(v.live.value.asm.value.size, offset, |payload|)
    ensures var e, t := v.entry.value, v.live.value;
      ViewOk(cfg, id, v.(live := Some(StoredT(t, offset, payload, now)),
                         entry := Some(e.(received := e.received + A.FreshIn(t.asm.value, offset, |payload|)))))
  {
    var t := v.live.value;
    var count := A.FreshIn(t.asm.value, offset, |payload|);
    AddCounts(t.asm.value, offset, payload);
    if count > 0 { Restart(cfg.maxRecoveries, Progress(t), v.recovered, t.recoveries, count); }
    assert Progress(StoredT(t, offset, payload, now)) == Progress(t) + count;
  }

  lemma StoredView(c: Client, id: nat, offset: nat, payload: seq<Byte>, now: real)
    requires Base(c) && id in c.transfers && c.transfers[id].asm.Some? && ViewOf(c, id).entry.Some?
    requires A.AsmOk(c.transfers[id].asm.value) && A.Fits(c.transfers[id].asm.value.size, offset, |payload|)
    ensures var t, c', e := c.transfers[id], Stored(c, id, offset, payload, now), ViewOf(c, id).entry.value;
      && Base(c') && Only(c, c', id)
      && ViewOf(c', id) == ViewOf(c, id).(live := Some(StoredT(t, offset, payload, now)),
                                          entry := Some(e.(received := e.received + A.FreshIn(t.asm.value, offset, |payload|))))
  {
    var t' := StoredT(c.transfers[id], offset, payload, now);
    PutView(c, id, t');
    DeliverView(Put(c, id, t'), id, A.FreshIn(c.transfers[id].asm.value, offset, |payload|));
    OnlyTwice(c, Put(c, id, t'), Stored(c, id, offset, payload, now), id);
  }

  lemma StoredKeeps(cfg: ClientConfig, c: Client, id: nat, offset: nat, payload: seq<Byte>, now: real)
    requires Inv(cfg, c) && id in c.transfers && c.transfers[id].asm.Some?
    requires A.AsmOk(c.transfers[id].asm.value) && A.Fits(c.transfers[id].asm.value.size, offset, |payload|)
    ensures Inv(cfg, Stored(c, id, offset, payload, now))
    ensures RestBut(c, id) ==> RestBut(Stored(c, id, offset, payload, now), id)
  {
    assert ViewOk(cfg, id, ViewOf(c, id));
    StoredView(c, id, offset, payload, now);
    StoredOk(cfg, id, ViewOf(c, id), offset, payload, now);
    FromView(cfg, c, Stored(c, id, offset, payload, now), id);
  }

  lemma HandedView(c: Client, id: nat)
    requires Base(c) && id in c.transfers && CanStart(c.transfers[id])
    ensures var t, c' := c.transfers[id], MaybeStart(c, id);
      && Base(c') && Only(c, c', id) && c'.transfers[id] == t.(settled := true)
      && ViewOf(c', id) == ViewOf(c, id).(live := Some(t.(settled := true)),
                                          events := ViewOf(c, id).events + [Handed(id, t.asm.value.size, t.headers.value)])
  {
    var t := c.transfers[id];
    var ev, c1 := Handed(id, t.asm.value.size, t.headers.value), Put(c, id, t.(settled := true));
    OneEvent(ev);
    PutView(c, id, t.(settled := true));
    TellView(c1, [ev], id);
    OnlyTwice(c, c1, MaybeStart(c, id), id);
  }

  lemma HandedOk(cfg: ClientConfig, id: nat, v: View)
    requires v.live.Some? && CanStart(v.live.value) && ViewOk(cfg, id, v)
    ensures var t := v.live.value;
      ViewOk(cfg, id, v.(live := Some(t.(settled := true)), events := v.events + [Handed(id, t.asm.value.size, t.headers.value)]))
  {
    assert Progress(v.live.value.(settled := true)) == Progress(v.live.value);
  }

  lemma MaybeStartKeeps(cfg: ClientConfig, c: Client, id: nat)
    requires Inv(cfg, c) && id in c.transfers
    ensures var c' := MaybeStart(c, id);
      && Inv(cfg, c') && (RestBut(c, id) ==> RestBut(c', id)) && !CanStart(c'.transfers[id])
      && (Whole(c'.transfers[id]) <==> Whole(c.transfers[id]))
  {
    assert ViewOk(cfg, id, ViewOf(c, id));
    if CanStart(c.transfers[id]) {
      HandedView(c, id);
      HandedOk(cfg, id, ViewOf(c, id));
      FromView(cfg, c, MaybeStart(c, id), id);
    }
  }

  lemma ChainedAppend(chunks: seq<Range>, at: int, end: int)
    requires Chained(chunks, at) && 0 <= at < end
    ensures Chained(chunks + [Range(at, end)], end)
  {
    assert (chunks + [Range(at, end)])[..|chunks|] == chunks;
  }

  /** A flush keeps the prefix; it holds back less than one chunk, and nothing at the start or once the body is complete. */
  lemma FlushedOk(t: Transfer, behind: bool)
    requires StreamOk(t) && (t.asm.Some? ==> A.AsmOk(t.asm.value))
    ensures var t' := Flushed(t, behind);
      && StreamOk(t') && t' == t.(stream := t'.stream) && t'.stream.Some? == t.stream.Some?
      && (t.stream.Some? && Whole(t) ==> t'.stream.value.emitted == t.asm.value.size)
      && (t.stream.Some? && t.asm.Some? ==>
            var held := A.Contiguous(t.asm.value) - t'.stream.value.emitted;
            held < STREAM_CHUNK && (t'.stream.value.emitted == 0 || A.Complete(t.asm.value) ==> held == 0))
  {
    if t.stream.Some? && t.asm.Some? {
      var st, m := t.stream.value, t.asm.value;
      A.CompleteHasAll(m);
      if Emits(st, m) { ChainedAppend(st.chunks, st.emitted, A.Contiguous(m)); }
    }
  }

  lemma FlushView(c: Client, id: nat, behind: bool)
    requires Base(c) && id in c.transfers
    ensures var t, c', v := c.transfers[id], Flush(c, id, behind), ViewOf(c, id);
      var t' := Flushed(t, behind);
      && Base(c') && Only(c, c', id)
      && ViewOf(c', id) == v.(live := Some(t'), entry := if v.entry.Some? && JustPaused(t, t') then Some(v.entry.value.(paused := true)) else v.entry)
  {
    var t, t' := c.transfers[id], Flushed(c.transfers[id], behind);
    var m := if JustPaused(t, t') then WithRpcs(c, S.Pause(c.sched.rpcs, id, true)) else c;
    PauseView(c, id, true);
    PutView(m, id, t');
    OnlyTwice(c, m, Put(m, id, t'), id);
  }

  lemma FlushOk(cfg: ClientConfig, id: nat, v: View, behind: bool)
    requires v.live.Some? && ViewOk(cfg, id, v)
    ensures var t, t' := v.live.value, Flushed(v.live.value, behind);
      && ViewOk(cfg, id, v.(live := Some(t'), entry := if v.entry.Some? && JustPaused(t, t') then Some(v.entry.value.(paused := true)) else v.entry))
      && (AtRest(t') <==> AtRest(t))
  {
    FlushedOk(v.live.value, behind);
  }

  lemma FlushKeeps(cfg: ClientConfig, c: Client, id: nat, behind: bool)
    requires Inv(cfg, c) && id in c.transfers
    ensures var c' := Flush(c, id, behind);
      && Inv(cfg, c') && (RestBut(c, id) ==> RestBut(c', id))
      && (AtRest(c'.transfers[id]) <==> AtRest(c.transfers[id])) && c'.transfers[id] == Flushed(c.transfers[id], behind)
  {
    assert ViewOk(cfg, id, ViewOf(c, id));
    FlushView(c, id, behind);
    FlushOk(cfg, id, ViewOf(c, id), behind);
    FromView(cfg, c, Flush(c, id, behind), id);
  }

  // ---- Endings ----

  ghost predicate InvBut(cfg: ClientConfig, c: Client, id: nat) {
    Base(c) && forall j: nat :: j != id ==> ViewOk(cfg, j, ViewOf(c, j))
  }

  /** Fit to be finished: live, but the last attempt may have been one too many. */
  ghost predicate Endable(cfg: ClientConfig, id: nat, t: Transfer, v: View) {
    && v.ended.None? && v.begun == Some(Begun(t.assetId, t.stream.Some?))
    && (t.asm.Some? ==> A.AsmOk(t.asm.value))
    && StreamOk(t)
    && AnswersOk(id, t, v.events)
    && v.recovered <= cfg.maxRecoveries * (SizeOf(t) + 2) + 1
  }

  lemma {:induction false} ReadAll(chunks: seq<Range>, end: nat, bytes: seq<Byte>)
    requires Chained(chunks, end) && end <= |bytes|
    ensures Read(chunks, bytes) == bytes[..end]
  {
    if chunks != [] {
      var r := chunks[|chunks| - 1];
      ReadAll(chunks[..|chunks| - 1], r.start, bytes);
      assert bytes[..end] == bytes[..r.start] + bytes[r.start..end];
    }
  }

  lemma GotWithin(m: A.Asm)
    requires A.AsmOk(m)
    ensures |m.got| <= m.size
  {
    OffsetsSize(0, m.size);
    assert m.got <= Offsets(0, m.size);
    A.CountMinus(Offsets(0, m.size), m.got);
    assert Offsets(0, m.size) * m.got == m.got;
  }

  lemma MoreRounds(limit: nat, a: nat, b: nat)
    requires a <= b
    ensures limit * a <= limit * b
  {
  }

  /** Attempts so far, and one more, stay within the bound for the transfer's size. */
  lemma AttemptsBounded(cfg: ClientConfig, t: Transfer, recovered: nat)
    requires t.asm.Some? ==> A.AsmOk(t.asm.value)
    requires t.recoveries <= cfg.maxRecoveries && recovered <= cfg.maxRecoveries * Progress(t) + t.recoveries
    ensures recovered + 1 <= cfg.maxRecoveries * (SizeOf(t) + 2) + 1
  {
    if t.asm.Some? { GotWithin(t.asm.value); }
    assert recovered <= cfg.maxRecoveries * (Progress(t) + 1) by { assert cfg.maxRecoveries * (Progress(t) + 1) == cfg.maxRecoveries * Progress(t) + cfg.maxRecoveries; }
    MoreRounds(cfg.maxRecoveries, Progress(t) + 1, SizeOf(t) + 2);
  }

  lemma LiveIsEndable(cfg: ClientConfig, id: nat, t: Transfer, v: View)
    requires v.ended.None? && LiveOk(cfg, id, t, v)
    ensures Endable(cfg, id, t, v)
  {
    AttemptsBounded(cfg, t, v.recovered);
  }

  ghost function LastWords(id: nat, t: Transfer, ok: bool): seq<Event> { StreamEnd(id, t, ok) + Answer(id, t, ok) }

  lemma LastWordsAreIds(id: nat, t: Transfer, ok: bool)
    ensures forall j: nat :: EventsOf(LastWords(id, t, ok), j) == if j == id then LastWords(id, t, ok) else []
  {
    forall j: nat ensures EventsOf(LastWords(id, t, ok), j) == if j == id then LastWords(id, t, ok) else [] {
      AllOfOne(LastWords(id, t, ok), id, j);
    }
  }

  /** The last words complete the story exactly once. */
  lemma EndsOnce(cfg: ClientConfig, id: nat, t: Transfer, v: View, ok: bool)
    requires Endable(cfg, id, t, v)
    requires ok ==> Whole(t) && !CanStart(t) && (t.stream.Some? ==> t.stream.value.emitted == t.asm.value.size)
    ensures EndedEvents(id, t, v.events + LastWords(id, t, ok))
  {
    if ok && t.stream.Some? {
      ReadAll(t.stream.value.chunks, t.stream.value.emitted, t.asm.value.bytes);
      assert t.asm.value.bytes[..t.asm.value.size] == t.asm.value.bytes;
    }
  }

  lemma RestWithout(c: Client, id: nat, t: Transfer)
    requires RestBut(c, id)
    ensures Rest(Forget(c, id, t))
  {
  }

  lemma ForgottenKeeps(cfg: ClientConfig, c: Client, id: nat, t: Transfer, words: seq<Event>)
    requires InvBut(cfg, c, id)
    requires forall j: nat :: EventsOf(words, j) == if j == id then words else []
    requires EndedOk(cfg, id, t, ViewOf(c, id).(live := None, ended := Some(t), entry := None, events := ViewOf(c, id).events + words))
    ensures Inv(cfg, Forget(c, id, t).(events := c.events + words))
  {
    var c1 := Forget(c, id, t);
    var c2 := c1.(events := c1.events + words);
    ForgetView(c, id, t);
    TellView(c1, words, id);
    OnlyTwice(c, c1, c2, id);
    forall j: nat ensures ViewOk(cfg, j, ViewOf(c2, j)) {
      if j != id { assert ViewOf(c2, j) == ViewOf(c, j); assert ViewOk(cfg, j, ViewOf(c, j)); }
    }
  }

  /** The state a finish leaves before grants are pumped. */
  ghost function Over(c: Client, id: nat, ok: bool, behind: bool): Client
    requires id in c.transfers
  {
    var t := if ok then Flushed(c.transfers[id], behind) else c.transfers[id];
    Forget(c, id, t).(events := c.events + LastWords(id, t, ok))
  }

  lemma FinishIsOver(c: Client, id: nat, ok: bool, e: Env)
    requires id in c.transfers
    ensures Finish(c, id, ok, e) == Pump(Over(c, id, ok, e.behind), e)
  {
    var t := if ok then Flushed(c.transfers[id], e.behind) else c.transfers[id];
    assert c.events + LastWords(id, t, ok) == c.events + StreamEnd(id, t, ok) + Answer(id, t, ok);
  }

  lemma OverKeeps(cfg: ClientConfig, c: Client, id: nat, ok: bool, behind: bool)
    requires InvBut(cfg, c, id) && id in c.transfers && Endable(cfg, id, c.transfers[id], ViewOf(c, id))
    requires ok ==> Whole(c.transfers[id]) && !CanStart(c.transfers[id])
    ensures Inv(cfg, Over(c, id, ok, behind)) && (RestBut(c, id) ==> Rest(Over(c, id, ok, behind)))
  {
    var t := if ok then Flushed(c.transfers[id], behind) else c.transfers[id];
    if ok { FlushedOk(c.transfers[id], behind); }
    assert Endable(cfg, id, t, ViewOf(c, id));
    EndsOnce(cfg, id, t, ViewOf(c, id), ok);
    LastWordsAreIds(id, t, ok);
    ForgottenKeeps(cfg, c, id, t, LastWords(id, t, ok));
    if RestBut(c, id) { RestWithout(c, id, t); }
  }

  lemma FinishKeeps(cfg: ClientConfig, c: Client, id: nat, ok: bool, e: Env)
    requires InvBut(cfg, c, id) && id in c.transfers && Endable(cfg, id, c.transfers[id], ViewOf(c, id))
    requires ok ==> Whole(c.transfers[id]) && !CanStart(c.transfers[id])
    ensures Inv(cfg, Finish(c, id, ok, e)) && (RestBut(c, id) ==> Rest(Finish(c, id, ok, e)))
  {
    OverKeeps(cfg, c, id, ok, e.behind);
    FinishIsOver(c, id, ok, e);
    PumpKeeps(cfg, Over(c, id, ok, e.behind), e);
  }

  /** Finishing a transfer of a state that satisfies the invariant. */
  lemma FinishLive(cfg: ClientConfig, c: Client, id: nat, ok: bool, e: Env)
    requires Inv(cfg, c) && id in c.transfers
    requires ok ==> Whole(c.transfers[id]) && !CanStart(c.transfers[id])
    ensures Inv(cfg, Finish(c, id, ok, e)) && (RestBut(c, id) ==> Rest(Finish(c, id, ok, e)))
  {
    assert ViewOk(cfg, id, ViewOf(c, id));
    LiveIsEndable(cfg, id, c.transfers[id], ViewOf(c, id));
    FinishKeeps(cfg, c, id, ok, e);
  }

  lemma CancelKeeps(cfg: ClientConfig, c: Client, id: nat, e: Env)
    requires Inv(cfg, c) && id in c.transfers && c.transfers[id].settled
    ensures Inv(cfg, Cancel(c, id, e)) && (RestBut(c, id) ==> Rest(Cancel(c, id, e)))
  {
    var t, v := c.transfers[id], ViewOf(c, id);
    assert ViewOk(cfg, id, v);
    LiveIsEndable(cfg, id, t, v);
    OneEvent(Cancelled(id));
    ForgottenKeeps(cfg, c, id, t, [Cancelled(id)]);
    if RestBut(c, id) { RestWithout(c, id, t); }
    PumpKeeps(cfg, Forget(c, id, t).(events := c.events + [Cancelled(id)]), e);
  }

  lemma ResumedKeeps(cfg: ClientConfig, c: Client, id: nat)
    requires Inv(cfg, c) && id in c.transfers && c.transfers[id].stream.Some? && c.transfers[id].stream.value.paused
    ensures Inv(cfg, Resumed(c, id)) && (Rest(c) ==> Rest(Resumed(c, id)))
  {
    var t := c.transfers[id];
    var t' := t.(stream := Some(t.stream.value.(paused := false)));
    assert ViewOk(cfg, id, ViewOf(c, id));
    PutView(c, id, t');
    PauseView(Put(c, id, t'), id, false);
    OnlyTwice(c, Put(c, id, t'), Resumed(c, id), id);
    FromView(cfg, c, Resumed(c, id), id);
  }

  lemma PullKeeps(cfg: ClientConfig, c: Client, id: nat, e: Env)
    requires Inv(cfg, c) && Rest(c) && id in c.transfers
    ensures Inv(cfg, Pull(c, id, e)) && Rest(Pull(c, id, e))
  {
    if c.transfers[id].stream.Some? && c.transfers[id].stream.value.paused {
      ResumedKeeps(cfg, c, id);
      PumpKeeps(cfg, Resumed(c, id), e);
    }
  }

  // ---- Starting ----

  lemma HelloQuiet(cfg: ClientConfig, c: Client)
    ensures forall j: nat :: ViewOf(Hello'(cfg, c), j) == ViewOf(c, j)
    ensures Hello'(cfg, c).transfers == c.transfers && Hello'(cfg, c).sched == c.sched && Hello'(cfg, c).seqs == c.seqs
  {
    QuietSend(c.(hellos := c.hellos + 1), [Hello(0, SESSION_SEQ)]);
    forall j: nat ensures ViewOf(c.(hellos := c.hellos + 1), j) == ViewOf(c, j) {}
  }

  lemma OneReq(id: nat, g: nat, a: seq<Byte>)
    ensures forall j: nat :: Highest([Req(id, g, a)], j) == if j == id then g else 0
  {
    assert [Req(id, g, a)][..0] == [];
  }

  lemma StartView(cfg: ClientConfig, c: Client, id: nat, b: Begun, cls: S.Class, grant: nat, now: real)
    requires Base(c) && ViewOf(c, id).highest == 0
    ensures var c' := Start(cfg, c, id, b, cls, grant, now);
      && Base(c') && Only(c, c', id)
      && ViewOf(c', id) == ViewOf(c, id).(live := Some(NewTransfer(b.assetId, b.streaming, cls, grant, now)), begun := Some(b), highest := grant)
  {
    var c1 := Put(c, id, NewTransfer(b.assetId, b.streaming, cls, grant, now)).(started := c.started[id := b]);
    var c2 := Hello'(cfg, c1);
    HelloQuiet(cfg, c1);
    OneReq(id, grant, b.assetId);
    SendView(c2, [Req(id, grant, b.assetId)], id);
    var c' := Start(cfg, c, id, b, cls, grant, now);
    forall j: nat | j != id ensures ViewOf(c', j) == ViewOf(c, j) {
      assert ViewOf(c', j) == ViewOf(c2, j) == ViewOf(c1, j);
    }
  }

  lemma StartKeeps(cfg: ClientConfig, c: Client, id: nat, b: Begun, cls: S.Class, grant: nat, now: real)
    requires Inv(cfg, c) && id !in c.started
    ensures var c' := Start(cfg, c, id, b, cls, grant, now); Inv(cfg, c') && (Rest(c) ==> Rest(c'))
  {
    assert ViewOk(cfg, id, ViewOf(c, id));
    StartView(cfg, c, id, b, cls, grant, now);
    FromView(cfg, c, Start(cfg, c, id, b, cls, grant, now), id);
    assert Start(cfg, c, id, b, cls, grant, now).transfers == c.transfers[id := NewTransfer(b.assetId, b.streaming, cls, grant, now)];
  }
}
