/**
 The reader of a stream, told by the session's steps: it falls behind and its
 transfer is no longer granted, it takes some and its transfer is granted again,
 or it cancels and its transfer is gone.
 */
module ClientReaders {
  import opened Intervals
  import opened Packets
  import opened Clients
  import opened ClientRuns
  import opened ClientSteps
  import opened ClientTruth
  import opened ClientAsks
  import CH = ClientHistory
  import S = Scheduling

  predicate Paused(c: Client, id: nat) { id in c.transfers && c.transfers[id].stream.Some? && c.transfers[id].stream.value.paused }

  /** The same entry, but for its grant, which never falls. */
  predicate Regranted(o: Option<S.Entry>, o': Option<S.Entry>) {
    o'.Some? == o.Some? && (o.Some? ==> o'.value == o.value.(granted := o'.value.granted) && o.value.granted <= o'.value.granted)
  }

  /** Only grants rose: everyone's bytes, readers and books are as they were. */
  ghost predicate OnlyGrants(c: Client, c': Client) {
    && c'.transfers.Keys == c.transfers.Keys
    && (forall j :: j in c.transfers ==> c'.transfers[j] == c.transfers[j].(ceiling := c'.transfers[j].ceiling))
    && (forall j: nat :: Regranted(S.Lookup(c.sched.rpcs, j), S.Lookup(c'.sched.rpcs, j)))
    && c'.events == c.events && Appends(c, c', [])
  }

  lemma PumpRegrants(c: Client, e: Env)
    requires Base(c)
    ensures forall j: nat :: Regranted(S.Lookup(c.sched.rpcs, j), S.Lookup(Pump(c, e).sched.rpcs, j))
  {
    forall j: nat ensures Regranted(S.Lookup(c.sched.rpcs, j), S.Lookup(Pump(c, e).sched.rpcs, j)) {
      S.GrantedLookup(c.sched.(budget := e.budget), Reserved(c.transfers), j);
    }
  }

  lemma PumpOnlyGrants(c: Client, e: Env)
    requires Base(c)
    ensures OnlyGrants(c, Pump(c, e))
  {
    PumpRegrants(c, e);
  }

  /** The grant of one transfer rose, and was written. */
  ghost predicate GrantedMore(c: Client, c': Client, j: nat) {
    var o, o' := S.Lookup(c.sched.rpcs, j), S.Lookup(c'.sched.rpcs, j);
    o.Some? && o'.Some? && o.value.granted < o'.value.granted && exists rank :: Wrote(c, c', Grant(j, o'.value.granted, rank))
  }

  /** Someone unpaused has bytes it was not granted. */
  ghost predicate SomeoneWaits(c: Client) { exists x :: x in c.sched.rpcs && !x.paused && x.granted < x.size }

  /** With nothing outstanding, and budget above what new requests reserve, granting reaches someone who waits. */
  lemma PumpReachesSomeone(c: Client, e: Env)
    requires Base(c) && S.Outstanding(c.sched.rpcs) == 0 && e.budget > Reserved(c.transfers) && SomeoneWaits(c)
    ensures exists j :: GrantedMore(c, Pump(c, e), j)
  {
    var st, reserved := c.sched.(budget := e.budget), Reserved(c.transfers);
    var x :| x in c.sched.rpcs && !x.paused && x.granted < x.size;
    S.NoDeadlock(st, reserved, x);
    var ds := S.Decisions(st, reserved);
    var d := ds[0];
    S.GrantedLookup(st, reserved, d.id);
    assert S.GrantFor(ds, d.id) == Some(d.maxOffset);
    var p := Grant(d.id, d.maxOffset, d.priority);
    assert GrantPackets(ds)[0] == p && Pump(c, e).sent[|c.sent|..] == GrantPackets(ds);
    assert Wrote(c, Pump(c, e), p);
    assert GrantedMore(c, Pump(c, e), d.id);
  }

  // ---- The reader takes some ----

  lemma PauseIn(rpcs: seq<S.Entry>, id: nat, paused: bool, next: nat)
    requires S.Listed(rpcs, next)
    ensures forall x :: x in rpcs ==> (if x.id == id then x.(paused := paused) else x) in S.Pause(rpcs, id, paused)
  {
    S.PauseFacts(rpcs, id, paused, next);
    S.LookupIn(rpcs, next);
    S.LookupIn(S.Pause(rpcs, id, paused), next);
  }

  /** What the reader waits for is granted again: as before, but for this transfer's pause. */
  lemma WhatResumingDoes(cfg: ClientConfig, c: Client, id: nat)
    requires Inv(cfg, c) && Paused(c, id)
    ensures var c1, t := Resumed(c, id), c.transfers[id];
      && Inv(cfg, c1) && c1.sent == c.sent && c1.events == c.events
      && c1.transfers == c.transfers[id := t.(stream := Some(t.stream.value.(paused := false)))]
      && (forall j: nat :: S.Lookup(c1.sched.rpcs, j)
            == (var o := S.Lookup(c.sched.rpcs, j); if j == id && o.Some? then Some(o.value.(paused := false)) else o))
      && S.Outstanding(c1.sched.rpcs) == S.Outstanding(c.sched.rpcs)
      && Reserved(c1.transfers) == Reserved(c.transfers)
  {
    ResumedKeeps(cfg, c, id);
    S.PauseFacts(c.sched.rpcs, id, false, c.sched.next);
    S.PauseOutstanding(c.sched.rpcs, id, false);
    SameReserved(c.transfers, Resumed(c, id).transfers);
  }

  lemma {:induction false} SameReserved(m: map<nat, Transfer>, m': map<nat, Transfer>)
    requires m'.Keys == m.Keys && forall j :: j in m ==> m'[j].asm == m[j].asm && m'[j].initialGrant == m[j].initialGrant
    ensures Reserved(m') == Reserved(m)
    decreases |m|
  {
    if m == map[] {
      assert m' == map[];
    } else {
      var j :| j in m && Reserved(m) == (if m[j].asm.None? then m[j].initialGrant else 0) + Reserved(m - {j});
      SameReserved(m - {j}, m' - {j});
      ReservedWithout(m', j);
    }
  }

  /** As before but for grants, and for this transfer's pause, which is over. */
  ghost predicate ResumedOnly(c: Client, c': Client, id: nat)
    requires Paused(c, id)
  {
    && c'.transfers.Keys == c.transfers.Keys && !Paused(c', id)
    && c'.transfers[id] == c.transfers[id].(ceiling := c'.transfers[id].ceiling, stream := Some(c.transfers[id].stream.value.(paused := false)))
    && (forall j :: j in c.transfers && j != id ==> c'.transfers[j] == c.transfers[j].(ceiling := c'.transfers[j].ceiling))
    && (forall j: nat :: Regranted(Unpaused(S.Lookup(c.sched.rpcs, j), j == id), S.Lookup(c'.sched.rpcs, j)))
  }

  function Unpaused(o: Option<S.Entry>, now: bool): Option<S.Entry> { if o.Some? && now then Some(o.value.(paused := false)) else o }

  lemma PullBooks(cfg: ClientConfig, c: Client, id: nat, e: Env)
    requires Inv(cfg, c) && Paused(c, id)
    ensures ResumedOnly(c, Pull(c, id, e), id)
  {
    WhatResumingDoes(cfg, c, id);
    PumpOnlyGrants(Resumed(c, id), e);
  }

  /** The transfer itself, or another that is not paused, has bytes to come it was not granted. */
  ghost predicate WaitsOnceTaken(c: Client, id: nat) {
    exists x :: x in c.sched.rpcs && (x.id == id || !x.paused) && x.granted < x.size
  }

  lemma PullReaches(cfg: ClientConfig, c: Client, id: nat, e: Env) returns (j: nat)
    requires Inv(cfg, c) && Paused(c, id)
    requires S.Outstanding(c.sched.rpcs) == 0 && e.budget > Reserved(c.transfers) && WaitsOnceTaken(c, id)
    ensures GrantedMore(c, Pull(c, id, e), j)
  {
    var c1 := Resumed(c, id);
    WhatResumingDoes(cfg, c, id);
    PauseIn(c.sched.rpcs, id, false, c.sched.next);
    var x :| x in c.sched.rpcs && (x.id == id || !x.paused) && x.granted < x.size;
    assert (if x.id == id then x.(paused := false) else x) in c1.sched.rpcs;
    PumpReachesSomeone(c1, e);
    j :| GrantedMore(c1, Pump(c1, e), j);
    var rank :| Wrote(c1, Pump(c1, e), Grant(j, S.Lookup(Pump(c1, e).sched.rpcs, j).value.granted, rank));
    assert Wrote(c, Pull(c, id, e), Grant(j, S.Lookup(Pump(c1, e).sched.rpcs, j).value.granted, rank));
  }

  /**
   A reader that takes some gets its transfer going again. After the pull of a paused
   stream the stream is not paused, nor is the transfer's place in the schedule, and
   nothing else but grants has changed; and if nothing is outstanding and the budget
   is above what new requests reserve, someone who waits is granted in that step.
   */
  lemma PullResumes(cfg: ClientConfig, c: Client, id: nat, e: Env, c': Client)
    requires Inv(cfg, c) && CH.Moves(cfg, c, CH.Pulled(id, e), c') && Paused(c, id)
    ensures ResumedOnly(c, c', id)
    ensures S.Outstanding(c.sched.rpcs) == 0 && e.budget > Reserved(c.transfers) && WaitsOnceTaken(c, id) ==>
      exists j :: GrantedMore(c, c', j)
  {
    PullBooks(cfg, c, id, e);
    if S.Outstanding(c.sched.rpcs) == 0 && e.budget > Reserved(c.transfers) && WaitsOnceTaken(c, id) {
      var j := PullReaches(cfg, c, id, e);
    }
  }

  /** A pull of a stream that is not paused changes nothing. */
  lemma PullElseNothing(cfg: ClientConfig, c: Client, id: nat, e: Env, c': Client)
    requires CH.Moves(cfg, c, CH.Pulled(id, e), c') && !Paused(c, id)
    ensures c' == c
  {
  }

  // ---- The reader cancels ----

  /** A cancelled transfer is off the books, its end is told, and the others keep all they had. */
  lemma CancelDrops(cfg: ClientConfig, c: Client, id: nat, e: Env, c': Client)
    requires Inv(cfg, c) && CH.Moves(cfg, c, CH.Dropped(id, e), c')
    ensures id !in c'.transfers && S.Lookup(c'.sched.rpcs, id).None? && c'.events == c.events + [Cancelled(id)]
    ensures c'.transfers.Keys == c.transfers.Keys - {id}
    ensures forall j :: j in c.transfers && j != id ==> c'.transfers[j] == c.transfers[j].(ceiling := c'.transfers[j].ceiling)
    ensures forall j: nat :: j != id ==> Regranted(S.Lookup(c.sched.rpcs, j), S.Lookup(c'.sched.rpcs, j))
  {
    var t := c.transfers[id];
    var c1 := Forget(c, id, t).(events := c.events + [Cancelled(id)]);
    S.WithoutFacts(c.sched.rpcs, id, c.sched.next);
    PumpOnlyGrants(c1, e);
  }
}
