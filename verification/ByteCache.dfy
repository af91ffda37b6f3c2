/**
 server/internal/bytecache/bytecache.go: a byte-bounded LRU. The abstract cache
 is a list of items, most recently used first; the class keeps a map, a list and
 a running byte count, and is shown to agree with it. A zero expiry is None.
 */
module ByteCaches {
  import opened Intervals

  datatype Item<V> = Item(key: string, value: V, size: nat, expires: Option<int>)

  datatype Cache<V> = Cache(capacity: nat, order: seq<Item<V>>)

  predicate Dead<V>(it: Item<V>, now: int) { it.expires.Some? && !(now < it.expires.value) }

  function Total<V>(s: seq<Item<V>>): nat { if s == [] then 0 else s[0].size + Total(s[1..]) }

  function Keys<V>(s: seq<Item<V>>): set<string> { if s == [] then {} else {s[0].key} + Keys(s[1..]) }

  predicate Distinct<V>(s: seq<Item<V>>) { s == [] || (s[0].key !in Keys(s[1..]) && Distinct(s[1..])) }

  function Find<V>(s: seq<Item<V>>, key: string): Option<Item<V>> {
    if s == [] then None else if s[0].key == key then Some(s[0]) else Find(s[1..], key)
  }

  function Without<V>(s: seq<Item<V>>, key: string): seq<Item<V>> {
    if s == [] then [] else if s[0].key == key then s[1..] else [s[0]] + Without(s[1..], key)
  }

  /** The items that have not expired, in the same order. */
  function Live<V>(s: seq<Item<V>>, now: int): seq<Item<V>> {
    if s == [] then [] else (if Dead(s[0], now) then [] else [s[0]]) + Live(s[1..], now)
  }

  /** Drops the least recently used until the rest fits. */
  function Fitting<V>(s: seq<Item<V>>, room: int): (r: seq<Item<V>>) {
    if s == [] || Total(s) <= room then s else Fitting(s[..|s| - 1], room)
  }

  // ---- The operations on the abstract cache ----

  function Got<V>(c: Cache<V>, key: string, now: int): Option<V> {
    var it := Find(c.order, key);
    if c.capacity > 0 && it.Some? && !Dead(it.value, now) then Some(it.value.value) else None
  }

  function AfterGet<V>(c: Cache<V>, key: string, now: int): Cache<V> {
    var it := Find(c.order, key);
    if c.capacity == 0 || it.None? then c
    else if Dead(it.value, now) then c.(order := Without(c.order, key))
    else c.(order := [it.value] + Without(c.order, key))
  }

  /** The other entries a put keeps: all if there is room, else the unexpired ones that fit, most recent first. */
  function Kept<V>(c: Cache<V>, it: Item<V>, now: int): seq<Item<V>> {
    var others := Without(c.order, it.key);
    if Total(others) + it.size <= c.capacity then others else Fitting(Live(others, now), c.capacity - it.size)
  }

  function AfterPut<V>(c: Cache<V>, it: Item<V>, now: int): Cache<V> {
    if c.capacity == 0 || it.size > c.capacity then c else c.(order := [it] + Kept(c, it, now))
  }

  predicate CacheOk<V>(c: Cache<V>) { Distinct(c.order) && Total(c.order) <= c.capacity }

  // ---- What they promise ----

  lemma {:induction false} WithoutFacts<V>(s: seq<Item<V>>, key: string)
    requires Distinct(s)
    ensures Distinct(Without(s, key)) && Keys(Without(s, key)) == Keys(s) - {key}
    ensures Total(Without(s, key)) == Total(s) - if Find(s, key).Some? then Find(s, key).value.size else 0
    ensures forall k :: Find(Without(s, key), k) == if k == key then None else Find(s, k)
    ensures Find(s, key).Some? <==> key in Keys(s)
  {
    if s != [] {
      WithoutFacts(s[1..], key);
      FindIsKey(s[1..], key);
      if s[0].key != key { assert Without(s, key)[1..] == Without(s[1..], key); }
    }
  }

  lemma {:induction false} FindIsKey<V>(s: seq<Item<V>>, key: string)
    ensures Find(s, key).Some? <==> key in Keys(s)
    ensures Find(s, key).Some? ==> Find(s, key).value.key == key && Find(s, key).value in s
  {
    if s != [] { FindIsKey(s[1..], key); }
  }

  lemma {:induction false} LiveFacts<V>(s: seq<Item<V>>, now: int)
    requires Distinct(s)
    ensures Distinct(Live(s, now)) && Keys(Live(s, now)) <= Keys(s) && Total(Live(s, now)) <= Total(s)
    ensures forall it :: it in Live(s, now) <==> it in s && !Dead(it, now)
    ensures forall k :: Find(Live(s, now), k) == (var o := Find(s, k); if o.Some? && !Dead(o.value, now) then o else None)
  {
    if s != [] {
      LiveFacts(s[1..], now);
      FindIsKey(s[1..], s[0].key);
      if !Dead(s[0], now) { assert Live(s, now)[1..] == Live(s[1..], now); } else { assert Live(s, now) == Live(s[1..], now); }
    }
  }

  lemma {:induction false} TakeFacts<V>(s: seq<Item<V>>, n: nat)
    requires n <= |s|
    ensures Keys(s[..n]) <= Keys(s) && (Distinct(s) ==> Distinct(s[..n])) && Total(s[..n]) <= Total(s)
  {
    if n > 0 {
      assert s[..n][1..] == s[1..][..n - 1];
      TakeFacts(s[1..], n - 1);
    }
  }

  /** What is kept is the longest prefix that fits. */
  lemma {:induction false} FittingIsLongest<V>(s: seq<Item<V>>, room: nat)
    ensures var r := Fitting(s, room);
      && |r| <= |s| && r == s[..|r|] && Total(r) <= room
      && forall n :: |r| < n <= |s| ==> Total(s[..n]) > room
  {
    if s != [] && Total(s) > room {
      var front := s[..|s| - 1];
      FittingIsLongest(front, room);
      forall n | |Fitting(s, room)| < n <= |s| ensures Total(s[..n]) > room {
        if n < |s| { assert front[..n] == s[..n]; } else { assert s[..n] == s; }
      }
    } else {
      assert s[..|s|] == s;
    }
  }

  /** What is kept of the other entries, given the room beside the new one. */
  lemma FittingKept<V>(others: seq<Item<V>>, room: nat, now: int)
    requires Distinct(others)
    ensures var kept := Fitting(Live(others, now), room);
      Distinct(kept) && Keys(kept) <= Keys(others) && Total(kept) <= room
  {
    LiveFacts(others, now);
    FittingIsLongest(Live(others, now), room);
    TakeFacts(Live(others, now), |Fitting(Live(others, now), room)|);
  }

  lemma KeptFits<V>(c: Cache<V>, it: Item<V>, now: int)
    requires CacheOk(c) && it.size <= c.capacity
    ensures var kept := Kept(c, it, now);
      && Distinct(kept) && it.key !in Keys(kept) && Total(kept) + it.size <= c.capacity
  {
    WithoutFacts(c.order, it.key);
    FittingKept(Without(c.order, it.key), c.capacity - it.size, now);
  }

  /** Every operation keeps one entry per key and the bytes within the capacity. */
  lemma OperationsKeep<V>(c: Cache<V>, key: string, it: Item<V>, now: int)
    requires CacheOk(c)
    ensures CacheOk(AfterGet(c, key, now)) && CacheOk(AfterPut(c, it, now))
  {
    WithoutFacts(c.order, key);
    FindIsKey(c.order, key);
    if it.size <= c.capacity { KeptFits(c, it, now); }
    var o := Find(c.order, key);
    if o.Some? { assert ([o.value] + Without(c.order, key))[1..] == Without(c.order, key); }
    assert ([it] + Kept(c, it, now))[1..] == Kept(c, it, now);
  }

  /** A get never returns an expired value, and returns the one stored for its key otherwise. */
  lemma GetIsFresh<V>(c: Cache<V>, key: string, now: int)
    ensures Got(c, key, now).Some? ==>
      exists it :: it in c.order && it.key == key && (it.expires.Some? ==> now < it.expires.value) && Got(c, key, now) == Some(it.value)
    ensures c.capacity > 0 && Got(c, key, now).None? && Distinct(c.order) ==>
      forall it :: it in c.order && it.key == key ==> it.expires.Some? && it.expires.value <= now
  {
    FindIsKey(c.order, key);
    if Distinct(c.order) { FindOnly(c.order, key); }
  }

  lemma {:induction false} FindOnly<V>(s: seq<Item<V>>, key: string)
    requires Distinct(s)
    ensures forall it :: it in s && it.key == key ==> Find(s, key) == Some(it)
  {
    if s != [] {
      FindOnly(s[1..], key);
      FindIsKey(s[1..], key);
    }
  }

  lemma {:induction false} FindTake<V>(s: seq<Item<V>>, n: nat, key: string)
    requires n <= |s| && Distinct(s)
    ensures Find(s[..n], key) == if key in Keys(s[..n]) then Find(s, key) else None
  {
    if n > 0 {
      assert s[..n][1..] == s[1..][..n - 1];
      FindTake(s[1..], n - 1, key);
      TakeFacts(s[1..], n - 1);
    }
  }

  /** Sizes add up along the list. */
  lemma {:induction false} TotalUpTo<V>(s: seq<Item<V>>, i: nat, j: nat)
    requires i <= j <= |s|
    ensures Total(s[..i]) <= Total(s[..j])
  {
    if i > 0 {
      assert s[..i][1..] == s[1..][..i - 1] && s[..j][1..] == s[1..][..j - 1];
      TotalUpTo(s[1..], i - 1, j - 1);
    }
  }

  lemma {:induction false} KeyAt<V>(s: seq<Item<V>>, n: nat, key: string)
    requires n <= |s|
    ensures key in Keys(s[..n]) <==> exists i :: 0 <= i < n && s[i].key == key
  {
    if n > 0 {
      assert s[..n][1..] == s[1..][..n - 1];
      KeyAt(s[1..], n - 1, key);
      if exists i :: 0 <= i < n - 1 && s[1..][i].key == key {
        var i :| 0 <= i < n - 1 && s[1..][i].key == key;
        assert s[i + 1].key == key;
      }
      if exists i :: 0 <= i < n && s[i].key == key {
        var i :| 0 <= i < n && s[i].key == key;
        if i > 0 { assert s[1..][i - 1].key == key; }
      }
    }
  }

  /** Dropping the expired keeps the order of the rest. */
  lemma {:induction false} LiveConcat<V>(a: seq<Item<V>>, b: seq<Item<V>>, now: int)
    ensures Live(a + b, now) == Live(a, now) + Live(b, now)
  {
    if a == [] {
      assert a + b == b;
    } else {
      assert (a + b)[1..] == a[1..] + b;
      LiveConcat(a[1..], b, now);
    }
  }

  // ---- What a put leaves ----

  /** The other entries, most recent first. */
  function Others<V>(c: Cache<V>, key: string): seq<Item<V>> { Without(c.order, key) }

  predicate Stores<V>(c: Cache<V>, it: Item<V>) { c.capacity > 0 && it.size <= c.capacity }

  /** There is room for the new entry beside all the others, expired ones included. */
  predicate HasRoom<V>(c: Cache<V>, it: Item<V>) { Total(Others(c, it.key)) + it.size <= c.capacity }

  /** The entry under key has not expired, and it, all unexpired ones more recent and the new one fit together. */
  predicate Survives<V>(c: Cache<V>, it: Item<V>, now: int, key: string) {
    Reaches(Live(Others(c, it.key), now), c.capacity - it.size, key)
  }

  /** A put with room drops nothing: the new entry goes first and the others keep their order. */
  lemma PutWithRoomDropsNothing<V>(c: Cache<V>, it: Item<V>, now: int)
    requires CacheOk(c) && Stores(c, it) && HasRoom(c, it)
    ensures AfterPut(c, it, now).order == [it] + Others(c, it.key)
    ensures forall key, later :: key != it.key ==> Got(AfterPut(c, it, now), key, later) == Got(c, key, later)
  {
    WithoutFacts(c.order, it.key);
    assert ([it] + Others(c, it.key))[1..] == Others(c, it.key);
  }

  /** The room reaches the entry with this key. */
  predicate Reaches<V>(s: seq<Item<V>>, room: int, key: string) {
    exists i :: 0 <= i < |s| && s[i].key == key && Total(s[..i + 1]) <= room
  }

  lemma FindFitting<V>(s: seq<Item<V>>, room: nat, key: string)
    requires Distinct(s)
    ensures Find(Fitting(s, room), key) == if Reaches(s, room, key) then Find(s, key) else None
    ensures Reaches(s, room, key) ==> Find(s, key).Some?
  {
    var kept := Fitting(s, room);
    FittingIsLongest(s, room);
    FindTake(s, |kept|, key);
    KeyAt(s, |kept|, key);
    FindIsKey(s[..|kept|], key);
    if Reaches(s, room, key) {
      var i :| 0 <= i < |s| && s[i].key == key && Total(s[..i + 1]) <= room;
      assert i < |kept|;
      KeyAt(s, |s|, key);
      assert s[..|s|] == s;
      FindIsKey(s, key);
    } else if key in Keys(s[..|kept|]) {
      var i :| 0 <= i < |kept| && s[i].key == key;
      TotalUpTo(s, i + 1, |kept|);
    }
  }

  lemma FindEvicted<V>(c: Cache<V>, it: Item<V>, now: int, key: string)
    requires CacheOk(c) && Stores(c, it) && !HasRoom(c, it) && key != it.key
    ensures Find(AfterPut(c, it, now).order, key) == if Survives(c, it, now, key) then Find(c.order, key) else None
  {
    var live, room := Live(Others(c, it.key), now), c.capacity - it.size;
    WithoutFacts(c.order, it.key);
    LiveFacts(Others(c, it.key), now);
    assert AfterPut(c, it, now).order[1..] == Fitting(live, room);
    FindFitting(live, room, key);
  }

  /**
   A get after a put. A put that does not store changes nothing. Otherwise its key
   gives the new value, unless that has expired; another key gives what it gave, if
   there was room for all or its entry survives the eviction, and nothing otherwise.
   */
  lemma GetAfterPut<V>(c: Cache<V>, it: Item<V>, now: int, key: string, later: int)
    requires CacheOk(c)
    ensures Got(AfterPut(c, it, now), key, later) ==
      if !Stores(c, it) then Got(c, key, later)
      else if key == it.key then if Dead(it, later) then None else Some(it.value)
      else if HasRoom(c, it) || Survives(c, it, now, key) then Got(c, key, later)
      else None
  {
    if Stores(c, it) && key != it.key {
      if HasRoom(c, it) { PutWithRoomDropsNothing(c, it, now); } else { FindEvicted(c, it, now, key); }
    }
  }

  // ---- What a get leaves ----

  /** What is found goes to the front, what has expired goes, and the others keep their order. */
  lemma GetMovesToFront<V>(c: Cache<V>, key: string, now: int)
    requires CacheOk(c) && c.capacity > 0
    ensures var found, order := Find(c.order, key), AfterGet(c, key, now).order;
      if found.None? then order == c.order
      else if Dead(found.value, now) then order == Others(c, key)
      else order == [found.value] + Others(c, key) && Got(c, key, now) == Some(found.value.value)
  {
  }

  /** What was just got is the last to be evicted: a put drops it only if it has expired by then or does not fit beside the new entry alone. */
  lemma JustGotIsLastToGo<V>(c: Cache<V>, key: string, now: int, it: Item<V>, at: int, later: int)
    requires CacheOk(c) && Got(c, key, now).Some? && it.key != key && Stores(c, it)
    requires var got := Find(c.order, key).value; !Dead(got, at) && got.size + it.size <= c.capacity
    ensures Got(AfterPut(AfterGet(c, key, now), it, at), key, later) == Got(c, key, later)
  {
    var got, c1 := Find(c.order, key).value, AfterGet(c, key, now);
    FindIsKey(c.order, key);
    WithoutFacts(c.order, key);
    assert c1.order[1..] == Others(c, key);
    GotStays(c, key, now);
    GetAfterPut(c1, it, at, key, later);
    var live := Live(Others(c1, it.key), at);
    assert Others(c1, it.key)[0] == got && live[0] == got;
    assert live[..1] == [got] && [got][1..] == [];
    assert Total(live[..1]) == got.size;
  }

  lemma GotStays<V>(c: Cache<V>, key: string, now: int)
    requires CacheOk(c) && Got(c, key, now).Some?
    ensures CacheOk(AfterGet(c, key, now)) && Find(AfterGet(c, key, now).order, key) == Find(c.order, key)
  {
    FindIsKey(c.order, key);
    OperationsKeep(c, key, Find(c.order, key).value, now);
  }

  /** A put that must evict leaves exactly the longest prefix, in recency order, of the unexpired others that fits beside it. */
  lemma EvictionKeepsLongestPrefix<V>(c: Cache<V>, it: Item<V>, now: int)
    requires CacheOk(c) && it.size <= c.capacity && Total(Without(c.order, it.key)) + it.size > c.capacity
    ensures var live, kept := Live(Without(c.order, it.key), now), Kept(c, it, now);
      && AfterPut(c, it, now).order == [it] + kept
      && |kept| <= |live| && kept == live[..|kept|] && Total(kept) + it.size <= c.capacity
      && forall n :: |kept| < n <= |live| ==> Total(live[..n]) + it.size > c.capacity
  {
    WithoutFacts(c.order, it.key);
    FittingIsLongest(Live(Without(c.order, it.key), now), c.capacity - it.size);
  }

  // ---- The class ----

  class ByteCache<V> {
    const capacity: nat
    var bytes: nat
    var entries: map<string, Item<V>>
    var order: seq<Item<V>>

    ghost predicate Valid()
      reads this
    {
      && CacheOk(State()) && bytes == Total(order)
      && entries.Keys == Keys(order)
      && forall k :: k in entries ==> Find(order, k) == Some(entries[k])
    }

    ghost function State(): Cache<V>
      reads this
    {
      Cache(capacity, order)
    }

    constructor (megabytes: nat)
      ensures Valid() && State() == Cache(megabytes * 0x10_0000, [])
    {
      capacity, bytes, entries, order := megabytes * 0x10_0000, 0, map[], [];
    }

    method Get(key: string, now: int) returns (r: Option<V>)
      requires Valid()
      modifies this
      ensures Valid() && r == Got(old(State()), key, now) && State() == AfterGet(old(State()), key, now)
    {
      r := None;
      FindIsKey(order, key);
      if capacity == 0 || key !in entries { return; }
      var it := entries[key];
      Remove(it);
      if Dead(it, now) { return; }
      PushFront(it);
      return Some(it.value);
    }

    method Put(key: string, value: V, size: nat, expires: Option<int>, now: int)
      requires Valid()
      modifies this
      ensures Valid() && State() == AfterPut(old(State()), Item(key, value, size, expires), now)
    {
      if capacity == 0 || size > capacity { return; }
      Forget(key);
      MakeRoom(size, now);
      PushFront(Item(key, value, size, expires));
    }

    /** Drops the entry a put replaces, if there is one. */
    method Forget(key: string)
      requires Valid()
      modifies this
      ensures Valid() && order == Without(old(order), key) && key !in entries
    {
      FindIsKey(order, key);
      if key in entries { Remove(entries[key]); } else { WithoutNothing(order, key); }
    }

    /** Reclaims expired entries first, then evicts the least recently used. */
    method MakeRoom(size: nat, now: int)
      requires Valid() && size <= capacity
      modifies this
      ensures Valid() && entries.Keys <= old(entries.Keys) && bytes + size <= capacity
      ensures order == if old(bytes) + size <= capacity then old(order) else Fitting(Live(old(order), now), capacity - size)
    {
      if bytes + size > capacity { SweepExpired(now); }
      ghost var before := order;
      while bytes + size > capacity
        invariant Valid() && entries.Keys <= old(entries.Keys)
        invariant Fitting(order, capacity - size) == Fitting(before, capacity - size)
        decreases |order|
      {
        ghost var s := order;
        RemoveAt(|order| - 1);
        assert order == s[..|s| - 1];
      }
    }

    /** Drops every expired entry, from the back. */
    method SweepExpired(now: int)
      requires Valid()
      modifies this
      ensures Valid() && order == Live(old(order), now) && entries.Keys <= old(entries.Keys)
    {
      var i := |order|;
      while i > 0
        invariant 0 <= i <= |order| && Valid() && entries.Keys <= old(entries.Keys)
        invariant i <= |old(order)| && order[..i] == old(order)[..i]
        invariant order[i..] == Live(old(order)[i..], now)
      {
        i := i - 1;
        SweepStep(old(order), order, i, now);
        if Dead(order[i], now) { RemoveAt(i); }
      }
    }

    /** Removes the element at one place in the list. */
    method RemoveAt(i: nat)
      requires Valid() && i < |order|
      modifies this
      ensures Valid() && order == old(order[..i] + order[i + 1..]) && entries.Keys <= old(entries.Keys)
    {
      FindIsKey(order, order[i].key);
      DropAt(order, i);
      Remove(order[i]);
    }

    method Remove(it: Item<V>)
      requires Valid() && it.key in entries && entries[it.key] == it
      modifies this
      ensures Valid() && order == Without(old(order), it.key) && entries == old(entries) - {it.key} && bytes == old(bytes) - it.size
    {
      WithoutFacts(order, it.key);
      order := Without(order, it.key);
      entries := entries - {it.key};
      bytes := bytes - it.size;
    }

    method PushFront(it: Item<V>)
      requires Valid() && it.key !in entries && bytes + it.size <= capacity
      modifies this
      ensures Valid() && order == [it] + old(order)
    {
      assert ([it] + order)[1..] == order;
      entries := entries[it.key := it];
      order := [it] + order;
      bytes := bytes + it.size;
    }
  }

  lemma {:induction false} WithoutNothing<V>(s: seq<Item<V>>, key: string)
    requires key !in Keys(s)
    ensures Without(s, key) == s
  {
    if s != [] { WithoutNothing(s[1..], key); }
  }

  lemma {:induction false} KeyIn<V>(s: seq<Item<V>>, i: nat)
    requires i < |s|
    ensures s[i].key in Keys(s)
  {
    if i > 0 { KeyIn(s[1..], i - 1); }
  }

  lemma DropTail<V>(s: seq<Item<V>>, i: nat)
    requires 0 < i < |s|
    ensures var t := s[1..]; [s[0]] + (t[..i - 1] + t[i..]) == s[..i] + s[i + 1..]
  {
    assert s[..i] == [s[0]] + s[1..][..i - 1] && s[i + 1..] == s[1..][i..];
  }

  lemma {:induction false} DropAt<V>(s: seq<Item<V>>, i: nat)
    requires i < |s| && Distinct(s)
    ensures Without(s, s[i].key) == s[..i] + s[i + 1..] && Find(s, s[i].key) == Some(s[i])
  {
    if i == 0 {
      assert s[..0] + s[1..] == s[1..];
    } else {
      var t := s[1..];
      assert t[i - 1] == s[i];
      KeyIn(t, i - 1);
      DropAt(t, i - 1);
      assert Without(s, s[i].key) == [s[0]] + Without(t, s[i].key);
      DropTail(s, i);
    }
  }

  /** One step of the sweep, seen from the list it started with. */
  lemma SweepStep<V>(was: seq<Item<V>>, s: seq<Item<V>>, i: nat, now: int)
    requires i < |was| && i < |s| && s[..i + 1] == was[..i + 1]
    requires s[i + 1..] == Live(was[i + 1..], now)
    ensures s[i] == was[i] && s[..i] == was[..i]
    ensures Dead(s[i], now) ==> (s[..i] + s[i + 1..])[i..] == Live(was[i..], now) && (s[..i] + s[i + 1..])[..i] == was[..i]
    ensures !Dead(s[i], now) ==> s[i..] == Live(was[i..], now)
  {
    assert s[i] == s[..i + 1][i] && was[i] == was[..i + 1][i];
    assert s[..i] == s[..i + 1][..i] && was[..i] == was[..i + 1][..i];
    assert was[i..][1..] == was[i + 1..];
    assert s[i..] == [s[i]] + s[i + 1..];
  }
}
