/**
 client/src/scheduler.ts: the receiver's grant scheduler. It keeps at most
 `budget` bytes granted but not received, and spends what is free on the waiting
 transfer that comes first by class, then fewest bytes left, then arrival.

 The JavaScript Map of entries is an insertion-ordered list with distinct ids.
 Sizes, grants and the budget are whole numbers.
 */
module Scheduling {
  import opened Intervals

  datatype Class = Critical | Normal | Background

  function Rank(c: Class): nat { match c case Critical => 0 case Normal => 1 case Background => 2 }

  datatype Entry = Entry(id: nat, size: nat, granted: nat, received: nat, paused: bool, order: nat, cls: Class)

  datatype Decision = Decision(id: nat, maxOffset: nat, priority: nat)

  datatype Sched = Sched(rpcs: seq<Entry>, next: nat, budget: int, minIncrement: int, limited: bool)

  const MIN_INCREMENT_BUDGET_SHARE := 4

  function Left(e: Entry): int { e.size - e.received }

  predicate Wants(e: Entry) { e.granted < e.size && !e.paused }

  /** Class first, then shortest remaining, then arrival order. */
  predicate Ahead(a: Entry, b: Entry) {
    || Rank(a.cls) < Rank(b.cls)
    || (a.cls == b.cls && (Left(a) < Left(b) || (Left(a) == Left(b) && a.order < b.order)))
  }

  function Ids(rpcs: seq<Entry>): set<nat> {
    if rpcs == [] then {} else {rpcs[0].id} + Ids(rpcs[1..])
  }

  /** Ids are distinct, and each entry arrived after the ones that came before the next order number. */
  predicate Listed(rpcs: seq<Entry>, next: nat) {
    rpcs == [] ||
    (rpcs[0].id !in Ids(rpcs[1..]) && rpcs[0].order < next && NewOrder(rpcs[0].order, rpcs[1..]) && Listed(rpcs[1..], next))
  }

  predicate NewOrder(order: nat, rpcs: seq<Entry>) {
    forall e :: e in rpcs ==> e.order != order
  }

  function Outstanding(rpcs: seq<Entry>): nat {
    if rpcs == [] then 0 else Max(0, rpcs[0].granted - rpcs[0].received) + Outstanding(rpcs[1..])
  }

  function Waiting(rpcs: seq<Entry>): seq<Entry> {
    if rpcs == [] then [] else (if Wants(rpcs[0]) then [rpcs[0]] else []) + Waiting(rpcs[1..])
  }

  function InsertAhead(e: Entry, es: seq<Entry>): seq<Entry> {
    if es == [] || Ahead(e, es[0]) then [e] + es else [es[0]] + InsertAhead(e, es[1..])
  }

  function SortAhead(es: seq<Entry>): seq<Entry> {
    if es == [] then [] else InsertAhead(es[0], SortAhead(es[1..]))
  }

  function Candidates(rpcs: seq<Entry>): seq<Entry> { SortAhead(Waiting(rpcs)) }

  /** The smallest grant worth sending, capped at a share of the budget in force. */
  function Increment(minIncrement: int, budget: int): int {
    Min(minIncrement, Max(1, budget / MIN_INCREMENT_BUDGET_SHARE))
  }

  /** The decisions for the candidates from `rank` on; `idle` says nothing was in flight before the call. */
  function Decide(cands: seq<Entry>, rank: nat, available: int, inc: int, idle: bool): seq<Decision> {
    if cands == [] || available <= 0 then []
    else
      var e := cands[0];
      var target := Min(e.size, e.granted + available);
      if target - e.granted < inc && target < e.size && !(idle && rank == 0) then []
      else [Decision(e.id, target, Min(rank, 7))]
           + Decide(cands[1..], rank + 1, available - (target - e.granted), inc, idle)
  }

  /** What the decisions spend. */
  function Spent(cands: seq<Entry>, ds: seq<Decision>): int
    requires |ds| <= |cands|
    decreases |ds|
  {
    if ds == [] then 0 else ds[0].maxOffset - cands[0].granted + Spent(cands[1..], ds[1..])
  }

  function SetGranted(rpcs: seq<Entry>, id: nat, g: nat): seq<Entry> {
    if rpcs == [] then []
    else if rpcs[0].id == id then [rpcs[0].(granted := g)] + rpcs[1..]
    else [rpcs[0]] + SetGranted(rpcs[1..], id, g)
  }

  function Apply(rpcs: seq<Entry>, ds: seq<Decision>): seq<Entry>
    decreases |ds|
  {
    if ds == [] then rpcs else Apply(SetGranted(rpcs, ds[0].id, ds[0].maxOffset), ds[1..])
  }

  function Available(st: Sched, reserved: int): int { st.budget - reserved - Outstanding(st.rpcs) }

  function Decisions(st: Sched, reserved: int): seq<Decision> {
    Decide(Candidates(st.rpcs), 0, Available(st, reserved), Increment(st.minIncrement, st.budget), Outstanding(st.rpcs) == 0)
  }

  /** Every candidate has all its bytes granted once the decisions are applied. */
  predicate AllServed(cands: seq<Entry>, ds: seq<Decision>) {
    |ds| == |cands| && forall k :: 0 <= k < |ds| ==> ds[k].maxOffset == cands[k].size
  }

  /**
   Whether the budget, not demand, was the limit: it could not afford one
   increment when someone was waiting, or it ran out before all were served.
   */
  predicate Limited(st: Sched, reserved: int) {
    var cands, available := Candidates(st.rpcs), Available(st, reserved);
    || (cands != [] && available < Increment(st.minIncrement, st.budget))
    || (available > 0 && !AllServed(cands, Decisions(st, reserved)))
  }

  /** The state a grants call leaves. */
  function Granted(st: Sched, reserved: int): Sched {
    st.(rpcs := Apply(st.rpcs, Decisions(st, reserved)), limited := Limited(st, reserved))
  }

  // ---- Looking entries up ----

  function Lookup(rpcs: seq<Entry>, id: nat): Option<Entry> {
    if rpcs == [] then None else if rpcs[0].id == id then Some(rpcs[0]) else Lookup(rpcs[1..], id)
  }

  lemma {:induction false} LookupIn(rpcs: seq<Entry>, next: nat)
    requires Listed(rpcs, next)
    ensures forall e :: e in rpcs <==> Lookup(rpcs, e.id) == Some(e)
    ensures forall id :: id in Ids(rpcs) <==> Lookup(rpcs, id).Some?
    ensures forall id :: Lookup(rpcs, id).Some? ==> Lookup(rpcs, id).value.id == id
  {
    if rpcs != [] {
      LookupIn(rpcs[1..], next);
      assert rpcs == [rpcs[0]] + rpcs[1..];
      forall e | e in rpcs[1..] ensures e.id != rpcs[0].id {
        assert Lookup(rpcs[1..], e.id).Some?;
      }
    }
  }

  lemma {:induction false} SetGrantedLookup(rpcs: seq<Entry>, id: nat, g: nat, j: nat)
    ensures Lookup(SetGranted(rpcs, id, g), j)
            == var o := Lookup(rpcs, j); if j == id && o.Some? then Some(o.value.(granted := g)) else o
  {
    if rpcs != [] {
      SetGrantedLookup(rpcs[1..], id, g, j);
      var r := SetGranted(rpcs, id, g);
      assert r[1..] == if rpcs[0].id == id then rpcs[1..] else SetGranted(rpcs[1..], id, g);
    }
  }

  lemma {:induction false} SetGrantedSum(rpcs: seq<Entry>, id: nat, g: nat)
    requires Lookup(rpcs, id).Some? && Lookup(rpcs, id).value.granted <= g
    ensures Outstanding(SetGranted(rpcs, id, g)) <= Outstanding(rpcs) + g - Lookup(rpcs, id).value.granted
  {
    var r := SetGranted(rpcs, id, g);
    if rpcs[0].id == id {
      assert r[1..] == rpcs[1..];
    } else {
      SetGrantedSum(rpcs[1..], id, g);
      assert r[1..] == SetGranted(rpcs[1..], id, g);
    }
  }

  // ---- The candidates ----

  ghost predicate Sorted(es: seq<Entry>) {
    es == [] || ((forall e :: e in es[1..] ==> !Ahead(e, es[0])) && Sorted(es[1..]))
  }

  /** Distinct ids. */
  ghost predicate Unique(es: seq<Entry>) {
    es == [] || (es[0].id !in Ids(es[1..]) && Unique(es[1..]))
  }

  lemma {:induction false} InsertSorts(e: Entry, es: seq<Entry>)
    requires Sorted(es) && Unique(es) && e.id !in Ids(es)
    ensures Sorted(InsertAhead(e, es)) && Unique(InsertAhead(e, es))
    ensures forall x :: x in InsertAhead(e, es) <==> x == e || x in es
    ensures Ids(InsertAhead(e, es)) == {e.id} + Ids(es)
  {
    if es == [] || Ahead(e, es[0]) {
      assert ([e] + es)[1..] == es;
      if es != [] {
        assert es == [es[0]] + es[1..];
        forall x | x in es ensures !Ahead(x, e) {}
      }
    } else {
      InsertSorts(e, es[1..]);
      assert es == [es[0]] + es[1..];
      assert InsertAhead(e, es)[1..] == InsertAhead(e, es[1..]);
    }
  }

  lemma {:induction false} SortSorts(es: seq<Entry>)
    requires Unique(es)
    ensures Sorted(SortAhead(es)) && Unique(SortAhead(es))
    ensures forall x :: x in SortAhead(es) <==> x in es
    ensures Ids(SortAhead(es)) == Ids(es)
  {
    if es != [] {
      SortSorts(es[1..]);
      InsertSorts(es[0], SortAhead(es[1..]));
      assert es == [es[0]] + es[1..];
    }
  }

  lemma {:induction false} WaitingFacts(rpcs: seq<Entry>, next: nat)
    requires Listed(rpcs, next)
    ensures forall e :: e in Waiting(rpcs) <==> e in rpcs && Wants(e)
    ensures Unique(Waiting(rpcs)) && Ids(Waiting(rpcs)) <= Ids(rpcs)
  {
    if rpcs != [] {
      WaitingFacts(rpcs[1..], next);
      assert rpcs == [rpcs[0]] + rpcs[1..];
      if Wants(rpcs[0]) {
        assert Waiting(rpcs)[1..] == Waiting(rpcs[1..]);
      } else {
        assert Waiting(rpcs) == Waiting(rpcs[1..]);
      }
    }
  }

  lemma CandidateFacts(rpcs: seq<Entry>, next: nat)
    requires Listed(rpcs, next)
    ensures var cands := Candidates(rpcs);
      && Sorted(cands) && Unique(cands) && Ids(cands) <= Ids(rpcs)
      && (forall e :: e in cands <==> e in rpcs && Wants(e))
      && (forall e :: e in cands ==> Lookup(rpcs, e.id) == Some(e))
  {
    WaitingFacts(rpcs, next);
    SortSorts(Waiting(rpcs));
    LookupIn(rpcs, next);
  }

  // ---- The decisions ----

  /** ds serves a prefix of cands: each grant rises, none passes the size, and all but the last are complete. */
  ghost predicate Serves(ds: seq<Decision>, cands: seq<Entry>) {
    ds == [] ||
    (&& cands != []
     && ds[0].id == cands[0].id
     && cands[0].granted < ds[0].maxOffset <= cands[0].size
     && (|ds| > 1 ==> ds[0].maxOffset == cands[0].size)
     && Serves(ds[1..], cands[1..]))
  }

  lemma {:induction false} DecideServes(cands: seq<Entry>, rank: nat, available: int, inc: int, idle: bool)
    requires forall e :: e in cands ==> Wants(e)
    ensures var ds := Decide(cands, rank, available, inc, idle);
      && |ds| <= |cands| && Serves(ds, cands) && Spent(cands, ds) <= Max(0, available)
      && (idle && rank == 0 && cands != [] && available > 0 ==> ds != [])
    decreases |cands|
  {
    var ds := Decide(cands, rank, available, inc, idle);
    if ds != [] {
      var e, target := cands[0], Min(cands[0].size, cands[0].granted + available);
      assert e in cands;
      DecideServes(cands[1..], rank + 1, available - (target - e.granted), inc, idle);
      assert ds[1..] == Decide(cands[1..], rank + 1, available - (target - e.granted), inc, idle);
    }
  }

  lemma {:induction false} ServesAt(ds: seq<Decision>, cands: seq<Entry>, k: nat)
    requires Serves(ds, cands) && k < |ds|
    ensures |ds| <= |cands| && ds[k].id == cands[k].id && cands[k].granted < ds[k].maxOffset <= cands[k].size
    ensures k + 1 < |ds| ==> ds[k].maxOffset == cands[k].size
    decreases k
  {
    if k > 0 { ServesAt(ds[1..], cands[1..], k - 1); } else { ServesLength(ds, cands); }
  }

  lemma {:induction false} ServesLength(ds: seq<Decision>, cands: seq<Entry>)
    requires Serves(ds, cands)
    ensures |ds| <= |cands|
    decreases |ds|
  {
    if ds != [] { ServesLength(ds[1..], cands[1..]); }
  }

  /** Applying the decisions changes the granted ends of exactly the entries they name. */
  lemma {:induction false} ApplyAt(rpcs: seq<Entry>, ds: seq<Decision>, cands: seq<Entry>, id: nat)
    requires Serves(ds, cands) && Unique(cands)
    requires forall e :: e in cands ==> Lookup(rpcs, e.id) == Some(e)
    ensures Lookup(Apply(rpcs, ds), id) ==
      var o := Lookup(rpcs, id); var g := GrantFor(ds, id);
      if o.Some? && g.Some? then Some(o.value.(granted := g.value)) else o
    ensures |ds| <= |cands| && Outstanding(Apply(rpcs, ds)) <= Outstanding(rpcs) + Spent(cands, ds)
    decreases |ds|
  {
    ServesLength(ds, cands);
    if ds != [] {
      var rpcs' := SetGranted(rpcs, ds[0].id, ds[0].maxOffset);
      assert cands[0] in cands;
      SetGrantedSum(rpcs, ds[0].id, ds[0].maxOffset);
      forall e | e in cands[1..] ensures Lookup(rpcs', e.id) == Some(e) {
        assert e in cands;
        IdOf(cands[1..], e);
        SetGrantedLookup(rpcs, ds[0].id, ds[0].maxOffset, e.id);
      }
      ApplyAt(rpcs', ds[1..], cands[1..], id);
      SetGrantedLookup(rpcs, ds[0].id, ds[0].maxOffset, id);
      GrantForIn(ds[1..], cands[1..], id);
    }
  }

  /** The grant the decisions give id, if any. */
  function GrantFor(ds: seq<Decision>, id: nat): Option<nat> {
    if ds == [] then None else if ds[0].id == id then Some(ds[0].maxOffset) else GrantFor(ds[1..], id)
  }

  lemma {:induction false} GrantForIn(ds: seq<Decision>, cands: seq<Entry>, id: nat)
    requires Serves(ds, cands)
    ensures GrantFor(ds, id).Some? ==> id in Ids(cands)
    decreases |ds|
  {
    if ds != [] { GrantForIn(ds[1..], cands[1..], id); }
  }

  lemma {:induction false} IdOf(es: seq<Entry>, e: Entry)
    requires e in es
    ensures e.id in Ids(es)
  {
    if e != es[0] { IdOf(es[1..], e); }
  }

  // ---- What one grants call promises ----

  /** Grants only rise, never past the size, never for a paused RPC; nothing else about an entry changes. */
  lemma GrantsOnlyRaise(st: Sched, reserved: int, id: nat)
    requires Listed(st.rpcs, st.next)
    ensures var before, after := Lookup(st.rpcs, id), Lookup(Granted(st, reserved).rpcs, id);
      && before.Some? == after.Some?
      && (before.Some? ==>
            && after.value == before.value.(granted := after.value.granted)
            && (after.value.granted != before.value.granted ==>
                  Wants(before.value) && before.value.granted < after.value.granted <= before.value.size))
  {
    var cands, ds := Candidates(st.rpcs), Decisions(st, reserved);
    CandidateFacts(st.rpcs, st.next);
    DecideServes(cands, 0, Available(st, reserved), Increment(st.minIncrement, st.budget), Outstanding(st.rpcs) == 0);
    ApplyAt(st.rpcs, ds, cands, id);
    if GrantFor(ds, id).Some? {
      GrantForAt(ds, cands, id);
    }
  }

  /** The candidate a decision serves. */
  lemma {:induction false} GrantForAt(ds: seq<Decision>, cands: seq<Entry>, id: nat)
    requires Serves(ds, cands) && GrantFor(ds, id).Some?
    ensures exists e :: e in cands && e.id == id && e.granted < GrantFor(ds, id).value <= e.size
    decreases |ds|
  {
    if ds[0].id == id { assert cands[0] in cands; } else { GrantForAt(ds[1..], cands[1..], id); }
  }

  /** Reserved and outstanding bytes stay within the budget, or within what they already were. */
  lemma GrantsKeepBudget(st: Sched, reserved: int)
    requires Listed(st.rpcs, st.next)
    ensures reserved + Outstanding(Granted(st, reserved).rpcs)
              <= Max(st.budget, reserved + Outstanding(st.rpcs))
  {
    var cands := Candidates(st.rpcs);
    CandidateFacts(st.rpcs, st.next);
    DecideServes(cands, 0, Available(st, reserved), Increment(st.minIncrement, st.budget), Outstanding(st.rpcs) == 0);
    ApplyAt(st.rpcs, Decisions(st, reserved), cands, 0);
  }

  /** Strict SRPT: when an RPC is granted, every unpaused RPC ahead of it is fully granted afterwards. */
  lemma StrictSrpt(st: Sched, reserved: int, k: nat, e: Entry)
    requires Listed(st.rpcs, st.next) && k < |Decisions(st, reserved)|
    requires e in st.rpcs && !e.paused
    requires Lookup(st.rpcs, Decisions(st, reserved)[k].id).Some?
    requires Ahead(e, Lookup(st.rpcs, Decisions(st, reserved)[k].id).value)
    ensures Lookup(Granted(st, reserved).rpcs, e.id).Some?
            && Lookup(Granted(st, reserved).rpcs, e.id).value.granted >= e.size
  {
    var cands, ds := Candidates(st.rpcs), Decisions(st, reserved);
    CandidateFacts(st.rpcs, st.next);
    LookupIn(st.rpcs, st.next);
    DecideServes(cands, 0, Available(st, reserved), Increment(st.minIncrement, st.budget), Outstanding(st.rpcs) == 0);
    ServesAt(ds, cands, k);
    ApplyAt(st.rpcs, ds, cands, e.id);
    assert cands[k] in cands;
    if Wants(e) {
      assert e in cands;
      var j := EarlierIn(cands, e, k);
      ServesAt(ds, cands, j);
      GrantForIndex(ds, cands, j);
    } else {
      GrantsOnlyRaise(st, reserved, e.id);
    }
  }

  lemma {:induction false} EarlierIn(es: seq<Entry>, e: Entry, k: nat) returns (j: nat)
    requires Sorted(es) && e in es && k < |es| && Ahead(e, es[k])
    ensures j < k && es[j] == e
    decreases |es|
  {
    if es[0] == e {
      j := 0;
    } else {
      assert es == [es[0]] + es[1..];
      assert e in es[1..];
      var i := EarlierIn(es[1..], e, k - 1);
      j := i + 1;
    }
  }

  lemma {:induction false} GrantForIndex(ds: seq<Decision>, cands: seq<Entry>, k: nat)
    requires Serves(ds, cands) && Unique(cands) && k < |ds|
    ensures GrantFor(ds, ds[k].id) == Some(ds[k].maxOffset)
    decreases k
  {
    if k > 0 {
      GrantForIndex(ds[1..], cands[1..], k - 1);
      GrantForIn(ds[1..], cands[1..], ds[k].id);
    }
  }

  /** If the call does not report itself limited, every unpaused RPC is fully granted. */
  lemma NotLimitedIsServed(st: Sched, reserved: int, e: Entry)
    requires Listed(st.rpcs, st.next) && st.minIncrement >= 1
    requires !Granted(st, reserved).limited && e in st.rpcs && !e.paused
    ensures Lookup(Granted(st, reserved).rpcs, e.id).Some?
            && Lookup(Granted(st, reserved).rpcs, e.id).value.granted >= e.size
  {
    var cands, ds := Candidates(st.rpcs), Decisions(st, reserved);
    CandidateFacts(st.rpcs, st.next);
    LookupIn(st.rpcs, st.next);
    DecideServes(cands, 0, Available(st, reserved), Increment(st.minIncrement, st.budget), Outstanding(st.rpcs) == 0);
    ApplyAt(st.rpcs, ds, cands, e.id);
    if Wants(e) {
      assert e in cands;
      var k :| 0 <= k < |cands| && cands[k] == e;
      ServesAt(ds, cands, k);
      GrantForIndex(ds, cands, k);
    } else {
      GrantsOnlyRaise(st, reserved, e.id);
    }
  }

  /** With nothing in flight and budget above what is reserved, someone who waits is granted, whatever minIncrement is. */
  lemma NoDeadlock(st: Sched, reserved: int, e: Entry)
    requires Listed(st.rpcs, st.next) && e in st.rpcs && Wants(e)
    requires Outstanding(st.rpcs) == 0 && st.budget > reserved
    ensures Decisions(st, reserved) != []
  {
    CandidateFacts(st.rpcs, st.next);
    DecideServes(Candidates(st.rpcs), 0, Available(st, reserved), Increment(st.minIncrement, st.budget), true);
    assert e in Candidates(st.rpcs);
  }

  // ---- Every transfer completes ----

  /** No more has arrived than was granted, nor more granted than the size. */
  predicate Sound(rpcs: seq<Entry>) {
    forall e :: e in rpcs ==> e.received <= e.granted <= e.size && !e.paused
  }

  function BytesLeft(rpcs: seq<Entry>): int {
    if rpcs == [] then 0 else rpcs[0].size - rpcs[0].received + BytesLeft(rpcs[1..])
  }

  function Deliver(rpcs: seq<Entry>, id: nat, bytes: nat): seq<Entry> {
    if rpcs == [] then []
    else if rpcs[0].id == id then [rpcs[0].(received := rpcs[0].received + bytes)] + rpcs[1..]
    else [rpcs[0]] + Deliver(rpcs[1..], id, bytes)
  }

  /** One round: a grants call under any positive budget, then some outstanding bytes of one RPC arrive. */
  datatype Round = Round(budget: int, id: nat, bytes: nat)

  predicate RoundOk(st: Sched, r: Round) {
    && r.budget >= 1 && r.bytes >= 1
    && var e := Lookup(Granted(st.(budget := r.budget), 0).rpcs, r.id);
       e.Some? && e.value.received + r.bytes <= e.value.granted
  }

  function AfterRound(st: Sched, r: Round): Sched {
    var g := Granted(st.(budget := r.budget), 0);
    g.(rpcs := Deliver(g.rpcs, r.id, r.bytes))
  }

  predicate RoundsOk(st: Sched, rounds: seq<Round>)
    decreases |rounds|
  {
    rounds == [] || (RoundOk(st, rounds[0]) && RoundsOk(AfterRound(st, rounds[0]), rounds[1..]))
  }

  function AfterRounds(st: Sched, rounds: seq<Round>): Sched
    decreases |rounds|
  {
    if rounds == [] then st else AfterRounds(AfterRound(st, rounds[0]), rounds[1..])
  }

  lemma {:induction false} DeliverFacts(rpcs: seq<Entry>, id: nat, bytes: nat, next: nat)
    requires Listed(rpcs, next)
    ensures Ids(Deliver(rpcs, id, bytes)) == Ids(rpcs) && Listed(Deliver(rpcs, id, bytes), next)
    ensures Lookup(rpcs, id).Some? ==> BytesLeft(Deliver(rpcs, id, bytes)) == BytesLeft(rpcs) - bytes
    ensures forall e :: e in Deliver(rpcs, id, bytes) ==>
              exists b :: b in rpcs && e == (if b.id == id then b.(received := b.received + bytes) else b)
  {
    if rpcs != [] {
      DeliverFacts(rpcs[1..], id, bytes, next);
      var d := Deliver(rpcs, id, bytes);
      assert rpcs == [rpcs[0]] + rpcs[1..];
      if rpcs[0].id == id {
        assert d[1..] == rpcs[1..];
        forall e | e in d ensures exists b :: b in rpcs && e == (if b.id == id then b.(received := b.received + bytes) else b) {
          if e in rpcs[1..] { IdOf(rpcs[1..], e); assert e in rpcs; } else { assert e == d[0] && rpcs[0] in rpcs; }
        }
      } else {
        assert d[1..] == Deliver(rpcs[1..], id, bytes);
        forall e | e in d ensures exists b :: b in rpcs && e == (if b.id == id then b.(received := b.received + bytes) else b) {
          if e in d[1..] {
            var b :| b in rpcs[1..] && e == (if b.id == id then b.(received := b.received + bytes) else b);
            assert b in rpcs;
          } else { assert e == rpcs[0] && rpcs[0] in rpcs; }
        }
      }
    }
  }

  lemma {:induction false} SetGrantedKeeps(rpcs: seq<Entry>, id: nat, g: nat, next: nat)
    requires Listed(rpcs, next)
    ensures Listed(SetGranted(rpcs, id, g), next) && Ids(SetGranted(rpcs, id, g)) == Ids(rpcs)
    ensures BytesLeft(SetGranted(rpcs, id, g)) == BytesLeft(rpcs)
    ensures forall e :: e in SetGranted(rpcs, id, g) ==> exists b :: b in rpcs && b.order == e.order
  {
    if rpcs != [] {
      SetGrantedKeeps(rpcs[1..], id, g, next);
      var r := SetGranted(rpcs, id, g);
      assert r[1..] == if rpcs[0].id == id then rpcs[1..] else SetGranted(rpcs[1..], id, g);
      assert rpcs == [rpcs[0]] + rpcs[1..] && r == [r[0]] + r[1..];
      forall e | e in r ensures exists b :: b in rpcs && b.order == e.order {
        if e in r[1..] {
          var b :| b in rpcs[1..] && b.order == e.order;
          assert b in rpcs;
        } else {
          assert rpcs[0] in rpcs;
        }
      }
    }
  }

  lemma {:induction false} ApplyKeeps(rpcs: seq<Entry>, ds: seq<Decision>, next: nat)
    requires Listed(rpcs, next)
    ensures Listed(Apply(rpcs, ds), next) && Ids(Apply(rpcs, ds)) == Ids(rpcs)
    ensures BytesLeft(Apply(rpcs, ds)) == BytesLeft(rpcs)
    decreases |ds|
  {
    if ds != [] {
      SetGrantedKeeps(rpcs, ds[0].id, ds[0].maxOffset, next);
      ApplyKeeps(SetGranted(rpcs, ds[0].id, ds[0].maxOffset), ds[1..], next);
    }
  }

  lemma GrantedKeepsSound(st: Sched, reserved: int)
    requires Listed(st.rpcs, st.next) && Sound(st.rpcs)
    ensures Listed(Granted(st, reserved).rpcs, st.next) && Sound(Granted(st, reserved).rpcs)
    ensures BytesLeft(Granted(st, reserved).rpcs) == BytesLeft(st.rpcs)
  {
    var after := Granted(st, reserved).rpcs;
    ApplyKeeps(st.rpcs, Decisions(st, reserved), st.next);
    LookupIn(st.rpcs, st.next);
    LookupIn(after, st.next);
    forall e | e in after ensures e.received <= e.granted <= e.size && !e.paused {
      GrantsOnlyRaise(st, reserved, e.id);
      assert Lookup(st.rpcs, e.id).value in st.rpcs;
    }
  }

  lemma RoundKeeps(st: Sched, r: Round)
    requires Listed(st.rpcs, st.next) && Sound(st.rpcs) && RoundOk(st, r)
    ensures Listed(AfterRound(st, r).rpcs, AfterRound(st, r).next) && Sound(AfterRound(st, r).rpcs)
    ensures BytesLeft(AfterRound(st, r).rpcs) == BytesLeft(st.rpcs) - r.bytes
  {
    var g := Granted(st.(budget := r.budget), 0);
    GrantedKeepsSound(st.(budget := r.budget), 0);
    DeliverFacts(g.rpcs, r.id, r.bytes, st.next);
    LookupIn(g.rpcs, st.next);
    forall e | e in AfterRound(st, r).rpcs ensures e.received <= e.granted <= e.size && !e.paused {
      var b :| b in g.rpcs && e == (if b.id == r.id then b.(received := b.received + r.bytes) else b);
    }
  }

  /** While a byte is missing, a grants call under any positive budget leaves something that can arrive. */
  lemma NotStuck(st: Sched, budget: int)
    requires Listed(st.rpcs, st.next) && Sound(st.rpcs) && budget >= 1 && BytesLeft(st.rpcs) > 0
    ensures exists r :: RoundOk(st, r) && r.budget == budget
  {
    var st' := st.(budget := budget);
    var g := Granted(st', 0);
    GrantedKeepsSound(st', 0);
    LookupIn(g.rpcs, st.next);
    if Outstanding(st.rpcs) == 0 {
      var e := Unfinished(st.rpcs);
      OutstandingZero(st.rpcs, e);
      NoDeadlock(st', 0, e);
      var d := Decisions(st', 0)[0];
      var c := Candidates(st.rpcs)[0];
      CandidateFacts(st.rpcs, st.next);
      DecideServes(Candidates(st.rpcs), 0, Available(st', 0), Increment(st.minIncrement, budget), true);
      assert c in Candidates(st.rpcs);
      ApplyAt(st.rpcs, Decisions(st', 0), Candidates(st.rpcs), c.id);
      assert RoundOk(st, Round(budget, c.id, 1));
    } else {
      var e := InFlight(st.rpcs);
      LookupIn(st.rpcs, st.next);
      GrantsOnlyRaise(st', 0, e.id);
      assert RoundOk(st, Round(budget, e.id, 1));
    }
  }

  lemma {:induction false} Unfinished(rpcs: seq<Entry>) returns (e: Entry)
    requires BytesLeft(rpcs) > 0
    ensures e in rpcs && e.received < e.size
  {
    if rpcs[0].received < rpcs[0].size { e := rpcs[0]; } else { e := Unfinished(rpcs[1..]); }
  }

  lemma {:induction false} InFlight(rpcs: seq<Entry>) returns (e: Entry)
    requires Outstanding(rpcs) > 0
    ensures e in rpcs && e.received < e.granted
  {
    if rpcs[0].received < rpcs[0].granted { e := rpcs[0]; } else { e := InFlight(rpcs[1..]); }
  }

  lemma {:induction false} OutstandingZero(rpcs: seq<Entry>, e: Entry)
    requires Outstanding(rpcs) == 0 && e in rpcs
    ensures e.granted <= e.received
  {
    if e != rpcs[0] { OutstandingZero(rpcs[1..], e); }
  }

  lemma {:induction false} NoneLeft(rpcs: seq<Entry>)
    requires Sound(rpcs)
    ensures BytesLeft(rpcs) >= 0
    ensures BytesLeft(rpcs) == 0 ==> forall e :: e in rpcs ==> e.received == e.size
  {
    if rpcs != [] {
      assert rpcs[0] in rpcs && rpcs == [rpcs[0]] + rpcs[1..];
      forall e | e in rpcs[1..] ensures e in rpcs {}
      NoneLeft(rpcs[1..]);
    }
  }

  /**
   Whatever minIncrement is and however the budget moves above zero, granting
   and delivering takes at most one round per missing byte, and a run that
   cannot go on has delivered every transfer in full.
   */
  lemma {:induction false} EveryTransferCompletes(st: Sched, rounds: seq<Round>)
    requires Listed(st.rpcs, st.next) && Sound(st.rpcs) && RoundsOk(st, rounds)
    ensures |rounds| <= BytesLeft(st.rpcs)
    ensures (forall r :: !RoundOk(AfterRounds(st, rounds), r)) ==>
              forall e :: e in AfterRounds(st, rounds).rpcs ==> e.received == e.size
    decreases |rounds|
  {
    NoneLeft(st.rpcs);
    if rounds == [] {
      if BytesLeft(st.rpcs) > 0 { NotStuck(st, 1); }
    } else {
      RoundKeeps(st, rounds[0]);
      EveryTransferCompletes(AfterRound(st, rounds[0]), rounds[1..]);
    }
  }

  // ---- Other changes to the list ----

  function Pause(rpcs: seq<Entry>, id: nat, paused: bool): seq<Entry> {
    if rpcs == [] then []
    else if rpcs[0].id == id then [rpcs[0].(paused := paused)] + rpcs[1..]
    else [rpcs[0]] + Pause(rpcs[1..], id, paused)
  }

  function Without(rpcs: seq<Entry>, id: nat): seq<Entry> {
    if rpcs == [] then [] else if rpcs[0].id == id then rpcs[1..] else [rpcs[0]] + Without(rpcs[1..], id)
  }

  function GrantOf(rpcs: seq<Entry>, id: nat): Option<nat> {
    var e := Lookup(rpcs, id);
    if e.Some? then Some(e.value.granted) else None
  }

  lemma {:induction false} PauseFacts(rpcs: seq<Entry>, id: nat, paused: bool, next: nat)
    requires Listed(rpcs, next)
    ensures Listed(Pause(rpcs, id, paused), next) && Ids(Pause(rpcs, id, paused)) == Ids(rpcs)
    ensures forall e :: e in Pause(rpcs, id, paused) ==> exists b :: b in rpcs && b.order == e.order
    ensures forall j :: Lookup(Pause(rpcs, id, paused), j)
                        == (var o := Lookup(rpcs, j); if j == id && o.Some? then Some(o.value.(paused := paused)) else o)
  {
    if rpcs != [] {
      PauseFacts(rpcs[1..], id, paused, next);
      var r := Pause(rpcs, id, paused);
      assert r[1..] == if rpcs[0].id == id then rpcs[1..] else Pause(rpcs[1..], id, paused);
      forall e | e in r ensures exists b :: b in rpcs && b.order == e.order {
        if e in r[1..] {
          var b :| b in rpcs[1..] && b.order == e.order;
          assert b in rpcs;
        } else {
          assert e == r[0] && rpcs[0] in rpcs;
        }
      }
    }
  }

  lemma {:induction false} PauseOutstanding(rpcs: seq<Entry>, id: nat, paused: bool)
    ensures Outstanding(Pause(rpcs, id, paused)) == Outstanding(rpcs)
  {
    if rpcs != [] && rpcs[0].id != id { PauseOutstanding(rpcs[1..], id, paused); }
  }

  lemma {:induction false} PauseTwice(rpcs: seq<Entry>, id: nat, a: bool, b: bool)
    ensures Pause(Pause(rpcs, id, a), id, b) == Pause(rpcs, id, b)
  {
    if rpcs != [] && rpcs[0].id != id { PauseTwice(rpcs[1..], id, a, b); }
  }

  /**
   What a pause means to the reader's transfer and the rest: while it lasts a
   grants call leaves the transfer as it is, its bytes still count as
   outstanding, and resuming gives back exactly the schedule there was.
   */
  lemma PauseHolds(st: Sched, id: nat, reserved: int)
    requires Listed(st.rpcs, st.next)
    ensures var held := st.(rpcs := Pause(st.rpcs, id, true));
      && Listed(held.rpcs, held.next) && Outstanding(held.rpcs) == Outstanding(st.rpcs)
      && Lookup(Granted(held, reserved).rpcs, id) == Lookup(held.rpcs, id)
      && (forall j :: j != id ==> Lookup(held.rpcs, j) == Lookup(st.rpcs, j))
      && (Lookup(st.rpcs, id).Some? && !Lookup(st.rpcs, id).value.paused ==> Pause(held.rpcs, id, false) == st.rpcs)
  {
    var held := st.(rpcs := Pause(st.rpcs, id, true));
    PauseFacts(st.rpcs, id, true, st.next);
    PauseOutstanding(st.rpcs, id, true);
    GrantsOnlyRaise(held, reserved, id);
    PauseTwice(st.rpcs, id, true, false);
    PauseSame(st.rpcs, id);
  }

  lemma {:induction false} PauseSame(rpcs: seq<Entry>, id: nat)
    ensures Lookup(rpcs, id).Some? && !Lookup(rpcs, id).value.paused ==> Pause(rpcs, id, false) == rpcs
  {
    if rpcs != [] && rpcs[0].id != id { PauseSame(rpcs[1..], id); }
  }

  lemma {:induction false} WithoutFacts(rpcs: seq<Entry>, id: nat, next: nat)
    requires Listed(rpcs, next)
    ensures Listed(Without(rpcs, id), next) && Ids(Without(rpcs, id)) == Ids(rpcs) - {id}
    ensures forall e :: e in Without(rpcs, id) ==> e in rpcs
    ensures forall j :: Lookup(Without(rpcs, id), j) == if j == id then None else Lookup(rpcs, j)
  {
    if rpcs != [] {
      WithoutFacts(rpcs[1..], id, next);
      LookupIn(rpcs[1..], next);
      var r := Without(rpcs, id);
      if rpcs[0].id != id { assert r[1..] == Without(rpcs[1..], id); } else { assert Ids(rpcs) - {id} == Ids(rpcs[1..]); }
    }
  }

  lemma {:induction false} DeliverLookup(rpcs: seq<Entry>, id: nat, bytes: nat, j: nat)
    ensures Lookup(Deliver(rpcs, id, bytes), j)
            == var o := Lookup(rpcs, j); if j == id && o.Some? then Some(o.value.(received := o.value.received + bytes)) else o
  {
    if rpcs != [] {
      DeliverLookup(rpcs[1..], id, bytes, j);
      var r := Deliver(rpcs, id, bytes);
      assert r[1..] == if rpcs[0].id == id then rpcs[1..] else Deliver(rpcs[1..], id, bytes);
    }
  }

  lemma {:induction false} AppendLookup(rpcs: seq<Entry>, e: Entry, j: nat)
    ensures Lookup(rpcs + [e], j) == if Lookup(rpcs, j).Some? then Lookup(rpcs, j) else if j == e.id then Some(e) else None
  {
    if rpcs == [] {
      assert rpcs + [e] == [e];
    } else {
      assert (rpcs + [e])[1..] == rpcs[1..] + [e];
      AppendLookup(rpcs[1..], e, j);
    }
  }

  /** After a grants call an RPC has what its decision says, or what it had. */
  lemma GrantedLookup(st: Sched, reserved: int, id: nat)
    requires Listed(st.rpcs, st.next)
    ensures var before, g := Lookup(st.rpcs, id), GrantFor(Decisions(st, reserved), id);
      && Lookup(Granted(st, reserved).rpcs, id) == (if before.Some? && g.Some? then Some(before.value.(granted := g.value)) else before)
      && (g.Some? ==> before.Some? && before.value.granted < g.value <= before.value.size)
  {
    var cands, ds := Candidates(st.rpcs), Decisions(st, reserved);
    CandidateFacts(st.rpcs, st.next);
    DecideServes(cands, 0, Available(st, reserved), Increment(st.minIncrement, st.budget), Outstanding(st.rpcs) == 0);
    ApplyAt(st.rpcs, ds, cands, id);
    if GrantFor(ds, id).Some? { GrantForAt(ds, cands, id); }
  }

  // ---- The class ----

  class SrptScheduler {
    var rpcs: seq<Entry>
    var next: nat
    var budget: int
    const minIncrement: int
    var limited: bool

    ghost function State(): Sched
      reads this
    {
      Sched(rpcs, next, budget, minIncrement, limited)
    }

    ghost predicate Valid()
      reads this
    {
      Listed(rpcs, next)
    }

    constructor (budget: int, minIncrement: int)
      ensures Valid() && State() == Sched([], 0, budget, minIncrement, false)
    {
      this.rpcs, this.next, this.budget, this.minIncrement, this.limited := [], 0, budget, minIncrement, false;
    }

    method SetBudget(b: int)
      requires Valid()
      modifies this`budget
      ensures Valid() && State() == old(State()).(budget := b)
    {
      budget := b;
    }

    /** Starts scheduling an RPC; the REQ's own grant counts, up to the size. */
    method Add(id: nat, size: nat, granted: nat, received: nat, cls: Class)
      requires Valid() && id !in Ids(rpcs)
      modifies this`rpcs, this`next
      ensures Valid()
      ensures State() == old(State()).(rpcs := old(rpcs) + [Entry(id, size, Min(granted, size), received, false, old(next), cls)],
                                       next := old(next) + 1)
    {
      AppendListed(rpcs, Entry(id, size, Min(granted, size), received, false, next, cls), next);
      rpcs := rpcs + [Entry(id, size, Min(granted, size), received, false, next, cls)];
      next := next + 1;
    }

    method OnData(id: nat, bytes: nat)
      requires Valid()
      modifies this`rpcs
      ensures Valid() && State() == old(State()).(rpcs := Deliver(old(rpcs), id, bytes))
    {
      DeliverFacts(rpcs, id, bytes, next);
      rpcs := Deliver(rpcs, id, bytes);
    }

    /** Stops or resumes granting an RPC; what it holds still counts as outstanding. */
    method SetPaused(id: nat, paused: bool)
      requires Valid()
      modifies this`rpcs
      ensures Valid() && State() == old(State()).(rpcs := Pause(old(rpcs), id, paused))
      ensures forall j :: Lookup(rpcs, j)
                          == (var o := Lookup(old(rpcs), j); if j == id && o.Some? then Some(o.value.(paused := paused)) else o)
      ensures Outstanding(rpcs) == Outstanding(old(rpcs))
    {
      PauseFacts(rpcs, id, paused, next);
      PauseOutstanding(rpcs, id, paused);
      rpcs := Pause(rpcs, id, paused);
    }

    method Remove(id: nat)
      requires Valid()
      modifies this`rpcs
      ensures Valid() && State() == old(State()).(rpcs := Without(old(rpcs), id))
    {
      WithoutFacts(rpcs, id, next);
      rpcs := Without(rpcs, id);
    }

    /** The current grant ceiling of an RPC, if it is scheduled. */
    method GrantedNow(id: nat) returns (g: Option<nat>)
      ensures g == GrantOf(rpcs, id)
    {
      g := GrantOf(rpcs, id);
    }

    method OutstandingNow() returns (n: nat)
      ensures n == Outstanding(rpcs)
    {
      n := 0;
      ghost var rest := rpcs;
      for i := 0 to |rpcs|
        invariant rest == rpcs[i..] && n + Outstanding(rest) == Outstanding(rpcs)
      {
        n := n + Max(0, rpcs[i].granted - rpcs[i].received);
        rest := rest[1..];
      }
    }

    /** Spends whatever budget is free. */
    method Grants(reserved: int) returns (out: seq<Decision>)
      requires Valid()
      modifies this`rpcs, this`limited
      ensures Valid()
      ensures out == Decisions(old(State()), reserved) && State() == Granted(old(State()), reserved)
    {
      var outstanding := OutstandingNow();
      var available := budget - reserved - outstanding;
      var inc := Increment(minIncrement, budget);
      var cands := Candidates(rpcs);
      limited := |cands| > 0 && available < inc;
      if available <= 0 { return []; }
      ServeIsGranted(rpcs, next, available, inc, outstanding == 0);
      var t := Serve(rpcs, cands, available, inc, outstanding == 0);
      rpcs, out := t.rpcs, t.ds;
      // Strict SRPT stopped the loop, or room ran out with someone still wanting more.
      if t.broke || (t.left <= 0 && !AllServed(cands, out)) { limited := true; }
    }

    /** The granting loop: raises each candidate in turn until room runs out or a grant is not worth sending. */
    static method Serve(rpcs: seq<Entry>, cands: seq<Entry>, available: int, inc: int, idle: bool)
      returns (t: Turn)
      ensures t == Turns(rpcs, cands, 0, available, inc, idle)
    {
      t := Turn(rpcs, [], available, false);
      var rest, rank := cands, 0;
      while rest != [] && t.left > 0
        invariant rank == |t.ds| && !t.broke
        invariant Then(t.ds, Turns(t.rpcs, rest, rank, t.left, inc, idle)) == Turns(rpcs, cands, 0, available, inc, idle)
        decreases |rest|
      {
        var e := rest[0];
        var target := Min(e.size, e.granted + t.left);
        var rise := target - e.granted;
        if rise < inc && target < e.size && !(idle && |t.ds| == 0) {
          t := t.(broke := true);
          break;
        }
        rest := rest[1..];
        var d := Decision(e.id, target, Min(rank, 7));
        var rpcs' := SetGranted(t.rpcs, e.id, target);
        Shift(t.ds, [d], Turns(rpcs', rest, rank + 1, t.left - rise, inc, idle).ds);
        t := Turn(rpcs', t.ds + [d], t.left - rise, false);
        rank := rank + 1;
      }
    }
  }

  /** How far the granting loop has come: the entries, the decisions, the room left, and whether it was stopped. */
  datatype Turn = Turn(rpcs: seq<Entry>, ds: seq<Decision>, left: int, broke: bool)

  function Then(ds: seq<Decision>, t: Turn): Turn { t.(ds := ds + t.ds) }

  function Turns(rpcs: seq<Entry>, cands: seq<Entry>, rank: nat, left: int, inc: int, idle: bool): Turn
    decreases |cands|
  {
    if cands == [] || left <= 0 then Turn(rpcs, [], left, false)
    else
      var e := cands[0];
      var target := Min(e.size, e.granted + left);
      if target - e.granted < inc && target < e.size && !(idle && rank == 0) then Turn(rpcs, [], left, true)
      else Then([Decision(e.id, target, Min(rank, 7))],
                Turns(SetGranted(rpcs, e.id, target), cands[1..], rank + 1, left - (target - e.granted), inc, idle))
  }

  /** The loop makes exactly the decisions and applies them. */
  lemma {:induction false} TurnsDecide(rpcs: seq<Entry>, cands: seq<Entry>, rank: nat, left: int, inc: int, idle: bool)
    requires forall e :: e in cands ==> Wants(e)
    ensures var t, ds := Turns(rpcs, cands, rank, left, inc, idle), Decide(cands, rank, left, inc, idle);
      t.ds == ds && t.rpcs == Apply(rpcs, ds) && (t.left, t.broke) == Ending(cands, rank, left, inc, idle)
    decreases |cands|
  {
    if cands != [] && left > 0 {
      var e, target := cands[0], Min(cands[0].size, cands[0].granted + left);
      assert e in cands;
      var rest := Decide(cands[1..], rank + 1, left - (target - e.granted), inc, idle);
      TurnsDecide(SetGranted(rpcs, e.id, target), cands[1..], rank + 1, left - (target - e.granted), inc, idle);
      assert ([Decision(e.id, target, Min(rank, 7))] + rest)[1..] == rest;
    }
  }

  /** What is left when the granting loop ends, and whether a grant not worth sending ended it. */
  function Ending(cands: seq<Entry>, rank: nat, available: int, inc: int, idle: bool): (int, bool) {
    if cands == [] || available <= 0 then (available, false)
    else
      var e := cands[0];
      var target := Min(e.size, e.granted + available);
      if target - e.granted < inc && target < e.size && !(idle && rank == 0) then (available, true)
      else Ending(cands[1..], rank + 1, available - (target - e.granted), inc, idle)
  }

  /** The loop leaves someone unserved if it was stopped, and no one if it ran to the end with room left. */
  lemma {:induction false} EndingServes(cands: seq<Entry>, rank: nat, available: int, inc: int, idle: bool)
    requires forall e :: e in cands ==> Wants(e)
    ensures var (left, broke) := Ending(cands, rank, available, inc, idle);
      var ds := Decide(cands, rank, available, inc, idle);
      && (broke ==> !AllServed(cands, ds))
      && (!broke && left > 0 ==> AllServed(cands, ds))
    decreases |cands|
  {
    if cands != [] && available > 0 {
      var e, target := cands[0], Min(cands[0].size, cands[0].granted + available);
      assert e in cands;
      var ds := Decide(cands, rank, available, inc, idle);
      if !(target - e.granted < inc && target < e.size && !(idle && rank == 0)) {
        var ds' := Decide(cands[1..], rank + 1, available - (target - e.granted), inc, idle);
        EndingServes(cands[1..], rank + 1, available - (target - e.granted), inc, idle);
        EndingBound(cands[1..], rank + 1, available - (target - e.granted), inc, idle);
        assert ds == [Decision(e.id, target, Min(rank, 7))] + ds' && ds[1..] == ds';
        AllServedCons(cands, ds);
      }
    }
  }

  lemma {:induction false} EndingBound(cands: seq<Entry>, rank: nat, available: int, inc: int, idle: bool)
    requires forall e :: e in cands ==> Wants(e)
    ensures Ending(cands, rank, available, inc, idle).0 <= available
    decreases |cands|
  {
    if cands != [] && available > 0 {
      assert cands[0] in cands;
      EndingBound(cands[1..], rank + 1, available - (Min(cands[0].size, cands[0].granted + available) - cands[0].granted), inc, idle);
    }
  }

  lemma AllServedCons(cands: seq<Entry>, ds: seq<Decision>)
    requires cands != [] && ds != []
    ensures AllServed(cands, ds) <==> ds[0].maxOffset == cands[0].size && AllServed(cands[1..], ds[1..])
  {
    if ds[0].maxOffset == cands[0].size && AllServed(cands[1..], ds[1..]) {
      forall k | 0 <= k < |ds| ensures ds[k].maxOffset == cands[k].size {
        if k > 0 { assert ds[1..][k - 1].maxOffset == cands[1..][k - 1].size; }
      }
    }
    if AllServed(cands, ds) {
      forall k | 0 <= k < |ds[1..]| ensures ds[1..][k].maxOffset == cands[1..][k].size {
        assert ds[k + 1].maxOffset == cands[k + 1].size;
      }
    }
  }

  lemma ServeIsGranted(rpcs: seq<Entry>, next: nat, available: int, inc: int, idle: bool)
    requires Listed(rpcs, next) && available > 0
    ensures var cands := Candidates(rpcs);
      var t, ds := Turns(rpcs, cands, 0, available, inc, idle), Decide(cands, 0, available, inc, idle);
      && t.ds == ds && t.rpcs == Apply(rpcs, ds) && Listed(t.rpcs, next)
      && (t.broke || (t.left <= 0 && !AllServed(cands, ds)) <==> !AllServed(cands, ds))
  {
    var cands := Candidates(rpcs);
    CandidateFacts(rpcs, next);
    TurnsDecide(rpcs, cands, 0, available, inc, idle);
    EndingServes(cands, 0, available, inc, idle);
    ApplyKeeps(rpcs, Decide(cands, 0, available, inc, idle), next);
  }

  lemma {:induction false} AppendListed(rpcs: seq<Entry>, e: Entry, next: nat)
    requires Listed(rpcs, next) && e.id !in Ids(rpcs) && e.order == next
    ensures Listed(rpcs + [e], next + 1)
    ensures Ids(rpcs + [e]) == Ids(rpcs) + {e.id}
  {
    if rpcs == [] {
      assert rpcs + [e] == [e];
    } else {
      AppendListed(rpcs[1..], e, next);
      assert (rpcs + [e])[1..] == rpcs[1..] + [e];
    }
  }
}
