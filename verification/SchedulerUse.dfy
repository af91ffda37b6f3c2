/**
 What a grants call does with the budget, in the session's own terms: who goes
 first, how much is left unspent, and when it reports that the budget was short.
 */
module SchedulerUses {
  import opened Intervals
  import opened Scheduling

  // ---- Who goes first ----

  predicate MoreUrgent(a: Class, b: Class) { (a.Critical? && !b.Critical?) || (a.Normal? && b.Background?) }

  /** In a more urgent class, or in the same one with fewer bytes to come, or as many and scheduled earlier. */
  predicate First(a: Entry, b: Entry) {
    || MoreUrgent(a.cls, b.cls)
    || (a.cls == b.cls && a.size - a.received < b.size - b.received)
    || (a.cls == b.cls && a.size - a.received == b.size - b.received && a.order < b.order)
  }

  /** A decision goes to an entry only if every unpaused one that comes first has all its bytes granted, and carries its place among those served. */
  lemma FirstIsServedFirst(st: Sched, reserved: int, k: nat, e: Entry)
    requires Listed(st.rpcs, st.next) && k < |Decisions(st, reserved)|
    ensures var d := Decisions(st, reserved)[k];
      && Lookup(st.rpcs, d.id).Some? && d.priority == Min(k, 7)
      && (e in st.rpcs && !e.paused && First(e, Lookup(st.rpcs, d.id).value) ==>
            Lookup(Granted(st, reserved).rpcs, e.id).Some? && Lookup(Granted(st, reserved).rpcs, e.id).value.granted >= e.size)
  {
    var cands, ds := Candidates(st.rpcs), Decisions(st, reserved);
    CandidateFacts(st.rpcs, st.next);
    DecideServes(cands, 0, Available(st, reserved), Increment(st.minIncrement, st.budget), Outstanding(st.rpcs) == 0);
    ServesAt(ds, cands, k);
    Ranked(cands, 0, Available(st, reserved), Increment(st.minIncrement, st.budget), Outstanding(st.rpcs) == 0, k);
    assert cands[k] in cands;
    if e in st.rpcs && !e.paused && First(e, cands[k]) { StrictSrpt(st, reserved, k, e); }
  }

  lemma {:induction false} Ranked(cands: seq<Entry>, rank: nat, available: int, inc: int, idle: bool, k: nat)
    requires k < |Decide(cands, rank, available, inc, idle)|
    ensures Decide(cands, rank, available, inc, idle)[k].priority == Min(rank + k, 7)
    decreases |cands|
  {
    if k > 0 {
      var target := Min(cands[0].size, cands[0].granted + available);
      Ranked(cands[1..], rank + 1, available - (target - cands[0].granted), inc, idle, k - 1);
    }
  }

  // ---- How much is left ----

  predicate NotAhead(rpcs: seq<Entry>) { forall e :: e in rpcs ==> e.received <= e.granted }

  /** Bytes the waiting entries could still be granted. */
  function Demand(rpcs: seq<Entry>): int {
    if rpcs == [] then 0 else (if rpcs[0].granted < rpcs[0].size && !rpcs[0].paused then rpcs[0].size - rpcs[0].granted else 0) + Demand(rpcs[1..])
  }

  lemma {:induction false} DemandNonNegative(rpcs: seq<Entry>)
    ensures Demand(rpcs) >= 0
    ensures forall e :: e in rpcs && Wants(e) ==> Demand(rpcs) > 0
  {
    if rpcs != [] { DemandNonNegative(rpcs[1..]); }
  }

  lemma {:induction false} DemandInsert(e: Entry, es: seq<Entry>)
    ensures Demand(InsertAhead(e, es)) == Demand([e]) + Demand(es)
  {
    if es == [] || Ahead(e, es[0]) {
      assert ([e] + es)[1..] == es;
    } else {
      DemandInsert(e, es[1..]);
      assert InsertAhead(e, es)[1..] == InsertAhead(e, es[1..]);
    }
  }

  lemma {:induction false} DemandSort(es: seq<Entry>)
    ensures Demand(SortAhead(es)) == Demand(es)
  {
    if es != [] {
      DemandSort(es[1..]);
      DemandInsert(es[0], SortAhead(es[1..]));
    }
  }

  lemma {:induction false} DemandWaiting(rpcs: seq<Entry>)
    ensures Demand(Waiting(rpcs)) == Demand(rpcs)
  {
    if rpcs != [] {
      DemandWaiting(rpcs[1..]);
      if Wants(rpcs[0]) { assert Waiting(rpcs)[1..] == Waiting(rpcs[1..]); } else { assert Waiting(rpcs) == Waiting(rpcs[1..]); }
    }
  }

  lemma CandidateDemand(rpcs: seq<Entry>)
    ensures Demand(Candidates(rpcs)) == Demand(rpcs)
  {
    DemandWaiting(rpcs);
    DemandSort(Waiting(rpcs));
  }

  /** The decisions serve everyone, or leave less than one increment; they serve everyone exactly if what is free covers the demand. */
  lemma {:induction false} DecideUses(cands: seq<Entry>, rank: nat, available: int, inc: int, idle: bool)
    requires forall e :: e in cands ==> Wants(e)
    ensures var ds := Decide(cands, rank, available, inc, idle);
      && |ds| <= |cands|
      && (AllServed(cands, ds) || available - Spent(cands, ds) < Max(1, inc))
      && (AllServed(cands, ds) <==> cands == [] || available >= Demand(cands))
    decreases |cands|
  {
    DemandNonNegative(cands);
    if cands != [] { assert cands[0] in cands; }
    if cands != [] && available > 0 {
      var e, target := cands[0], Min(cands[0].size, cands[0].granted + available);
      var left := available - (target - e.granted);
      DecideUses(cands[1..], rank + 1, left, inc, idle);
      DemandNonNegative(cands[1..]);
      var rest := Decide(cands[1..], rank + 1, left, inc, idle);
      if !(target - e.granted < inc && target < e.size && !(idle && rank == 0)) {
        ServedCons(cands, Decision(e.id, target, Min(rank, 7)), rest);
        if cands[1..] == [] { assert rest == [] && AllServed(cands[1..], rest); }
      }
    }
  }

  lemma ServedCons(cands: seq<Entry>, d: Decision, rest: seq<Decision>)
    requires cands != []
    ensures AllServed(cands, [d] + rest) <==> d.maxOffset == cands[0].size && AllServed(cands[1..], rest)
  {
    var ds := [d] + rest;
    if d.maxOffset == cands[0].size && AllServed(cands[1..], rest) {
      forall k | 0 <= k < |ds| ensures ds[k].maxOffset == cands[k].size {
        if k > 0 { assert ds[k] == rest[k - 1] && cands[k] == cands[1..][k - 1]; }
      }
    }
    if AllServed(cands, ds) {
      assert ds[0] == d;
      forall k | 0 <= k < |rest| ensures rest[k].maxOffset == cands[1..][k].size { assert ds[k + 1] == rest[k]; }
    }
  }

  lemma {:induction false} SetGrantedExact(rpcs: seq<Entry>, id: nat, g: nat)
    requires Lookup(rpcs, id).Some? && Lookup(rpcs, id).value.received <= Lookup(rpcs, id).value.granted <= g
    ensures Outstanding(SetGranted(rpcs, id, g)) == Outstanding(rpcs) + g - Lookup(rpcs, id).value.granted
  {
    var r := SetGranted(rpcs, id, g);
    if rpcs[0].id == id {
      assert r[1..] == rpcs[1..];
    } else {
      SetGrantedExact(rpcs[1..], id, g);
      assert r[1..] == SetGranted(rpcs[1..], id, g);
    }
  }

  /** What the decisions spend is outstanding afterwards. */
  lemma {:induction false} ApplySpends(rpcs: seq<Entry>, ds: seq<Decision>, cands: seq<Entry>)
    requires Serves(ds, cands) && Unique(cands) && NotAhead(cands)
    requires forall e :: e in cands ==> Lookup(rpcs, e.id) == Some(e)
    ensures |ds| <= |cands| && Outstanding(Apply(rpcs, ds)) == Outstanding(rpcs) + Spent(cands, ds)
    decreases |ds|
  {
    ServesLength(ds, cands);
    if ds != [] {
      var rpcs' := SetGranted(rpcs, ds[0].id, ds[0].maxOffset);
      assert cands[0] in cands;
      SetGrantedExact(rpcs, ds[0].id, ds[0].maxOffset);
      forall e | e in cands[1..] ensures Lookup(rpcs', e.id) == Some(e) && e.received <= e.granted {
        assert e in cands;
        IdOf(cands[1..], e);
        SetGrantedLookup(rpcs, ds[0].id, ds[0].maxOffset, e.id);
      }
      ApplySpends(rpcs', ds[1..], cands[1..]);
    }
  }

  function Free(st: Sched, reserved: int): int { st.budget - reserved - Outstanding(st.rpcs) }

  /** The grant a call may hold out for: the one configured, but never more than a quarter of the budget. */
  function Worthwhile(st: Sched): int { Min(st.minIncrement, Max(1, st.budget / 4)) }

  /** A grants call holds nothing back: while anyone still waits afterwards, less than one worthwhile grant of the budget is free. */
  lemma BudgetIsUsed(st: Sched, reserved: int, e: Entry)
    requires Listed(st.rpcs, st.next) && NotAhead(st.rpcs)
    requires Lookup(Granted(st, reserved).rpcs, e.id) == Some(e) && !e.paused && e.granted < e.size
    ensures Free(Granted(st, reserved), reserved) < Max(1, Worthwhile(st))
  {
    var cands, ds := Candidates(st.rpcs), Decisions(st, reserved);
    var inc, idle := Increment(st.minIncrement, st.budget), Outstanding(st.rpcs) == 0;
    CandidateFacts(st.rpcs, st.next);
    DecideServes(cands, 0, Available(st, reserved), inc, idle);
    DecideUses(cands, 0, Available(st, reserved), inc, idle);
    ApplySpends(st.rpcs, ds, cands);
    GrantsOnlyRaise(st, reserved, e.id);
    LookupIn(st.rpcs, st.next);
    var before := Lookup(st.rpcs, e.id).value;
    assert before in cands;
    var k :| 0 <= k < |cands| && cands[k] == before;
    if AllServed(cands, ds) {
      ApplyAt(st.rpcs, ds, cands, e.id);
      ServesAt(ds, cands, k);
      GrantForIndex(ds, cands, k);
      assert false;
    }
  }

  /** The call reports the budget short exactly if someone waits for more than is free, or what is free is not worth a grant. */
  lemma LimitedMeansShort(st: Sched, reserved: int)
    requires Listed(st.rpcs, st.next)
    ensures Granted(st, reserved).limited <==>
      && (exists e :: e in st.rpcs && !e.paused && e.granted < e.size)
      && (Free(st, reserved) < Worthwhile(st) || 0 < Free(st, reserved) < Demand(st.rpcs))
  {
    var cands := Candidates(st.rpcs);
    CandidateFacts(st.rpcs, st.next);
    CandidateDemand(st.rpcs);
    DecideUses(cands, 0, Available(st, reserved), Increment(st.minIncrement, st.budget), Outstanding(st.rpcs) == 0);
    if cands != [] { assert cands[0] in cands; }
  }

  lemma {:induction false} SpentIsPositive(cands: seq<Entry>, ds: seq<Decision>)
    requires Serves(ds, cands) && |ds| <= |cands|
    ensures Spent(cands, ds) >= |ds|
    decreases |ds|
  {
    if ds != [] {
      ServesLength(ds[1..], cands[1..]);
      SpentIsPositive(cands[1..], ds[1..]);
    }
  }

  /** And a call never leaves the session with nothing in flight while someone waits, unless what new requests reserve takes all the budget. */
  lemma NeverIdleWhileWaited(st: Sched, reserved: int, e: Entry)
    requires Listed(st.rpcs, st.next) && NotAhead(st.rpcs)
    requires Lookup(Granted(st, reserved).rpcs, e.id) == Some(e) && !e.paused && e.granted < e.size
    requires Outstanding(Granted(st, reserved).rpcs) == 0
    ensures st.budget <= reserved
  {
    var cands, ds := Candidates(st.rpcs), Decisions(st, reserved);
    CandidateFacts(st.rpcs, st.next);
    DecideServes(cands, 0, Available(st, reserved), Increment(st.minIncrement, st.budget), Outstanding(st.rpcs) == 0);
    ApplySpends(st.rpcs, ds, cands);
    SpentIsPositive(cands, ds);
    GrantsOnlyRaise(st, reserved, e.id);
    LookupIn(st.rpcs, st.next);
    var before := Lookup(st.rpcs, e.id).value;
    if st.budget > reserved { NoDeadlock(st, reserved, before); }
  }
}
