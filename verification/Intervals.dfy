/**
 Half-open ranges of offsets and the sets they denote.

 The client keeps what has arrived as a sorted list of ranges; everything it
 promises about that list is a statement about a plain set of offsets. This
 module holds the set side: the interval set, the gap-free prefix, the
 frontier, and the maximal gaps of a set below a limit.
 */
module Intervals {

  datatype Range = Range(start: int, end: int)

  type Byte = x: int | 0 <= x < 256

  datatype Option<+T> = None | Some(value: T)

  function Min(a: int, b: int): int { if a < b then a else b }

  function Max(a: int, b: int): int { if a < b then b else a }

  predicate Between(a: int, i: int, b: int) { a <= i < b }

  /** Moving what a loop has emitted from the front of the rest to the end of the output. */
  lemma Shift<T>(done: seq<T>, next: seq<T>, rest: seq<T>)
    ensures done + (next + rest) == (done + next) + rest
  {
  }

  lemma Assoc<T>(a: seq<T>, b: seq<T>, c: seq<T>, d: seq<T>)
    ensures a + b + c + d == a + (b + (c + d))
  {
  }

  /** The offsets of [a, b). */
  function Offsets(a: int, b: int): set<int> {
    set i | a <= i < b && Between(a, i, b)
  }

  lemma {:induction false} OffsetsSize(a: int, b: int)
    ensures |Offsets(a, b)| == Max(0, b - a)
    decreases b - a
  {
    if a < b {
      OffsetsSize(a, b - 1);
      assert Offsets(a, b) == Offsets(a, b - 1) + {b - 1};
    } else {
      assert Offsets(a, b) == {};
    }
  }

  /** All the offsets the ranges hold. */
  ghost function Covered(rs: seq<Range>): set<int> {
    if rs == [] then {} else Offsets(rs[0].start, rs[0].end) + Covered(rs[1..])
  }

  lemma {:induction false} CoveredConcat(a: seq<Range>, b: seq<Range>)
    ensures Covered(a + b) == Covered(a) + Covered(b)
  {
    if a == [] {
      assert a + b == b;
    } else {
      assert (a + b)[1..] == a[1..] + b;
      CoveredConcat(a[1..], b);
    }
  }

  /** Non-empty ranges inside [lo, hi), in order, none overlapping the next. */
  ghost predicate Disjoint(rs: seq<Range>, lo: int, hi: int) {
    rs == [] || (lo <= rs[0].start < rs[0].end <= hi && Disjoint(rs[1..], rs[0].end, hi))
  }

  /** Disjoint, and no two ranges even touch: the only such list for its set. */
  ghost predicate Canonical(rs: seq<Range>, lo: int, hi: int) {
    rs == [] || (lo <= rs[0].start < rs[0].end <= hi && Canonical(rs[1..], rs[0].end + 1, hi))
  }

  lemma {:induction false} DisjointBounds(rs: seq<Range>, lo: int, hi: int)
    requires Disjoint(rs, lo, hi)
    ensures forall x :: x in Covered(rs) ==> lo <= x < hi
  {
    if rs != [] { DisjointBounds(rs[1..], rs[0].end, hi); }
  }

  lemma {:induction false} CanonicalIsDisjoint(rs: seq<Range>, lo: int, lo': int, hi: int)
    requires Canonical(rs, lo, hi) && lo' <= lo
    ensures Disjoint(rs, lo', hi) && Canonical(rs, lo', hi)
  {
    if rs != [] { CanonicalIsDisjoint(rs[1..], rs[0].end + 1, rs[0].end, hi); }
  }

  lemma {:induction false} DisjointConcat(a: seq<Range>, b: seq<Range>, lo: int, mid: int, hi: int)
    requires Disjoint(a, lo, mid) && Disjoint(b, mid, hi) && lo <= mid <= hi
    ensures Disjoint(a + b, lo, hi)
    decreases |a|
  {
    if a == [] {
      assert a + b == b;
    } else {
      assert (a + b)[1..] == a[1..] + b;
      DisjointConcat(a[1..], b, a[0].end, mid, hi);
    }
  }

  lemma DisjointWiden(rs: seq<Range>, lo: int, lo': int, hi: int)
    requires Disjoint(rs, lo, hi) && lo' <= lo
    ensures Disjoint(rs, lo', hi)
  {
  }

  lemma HoldsFirst(rs: seq<Range>, lo: int, hi: int)
    requires Canonical(rs, lo, hi)
    ensures if rs == [] then Covered(rs) == {} else rs[0].start in Covered(rs)
  {
  }

  /** A set of offsets has one canonical list of ranges. */
  lemma {:induction false} CanonicalUnique(a: seq<Range>, b: seq<Range>, lo: int, hi: int)
    requires Canonical(a, lo, hi) && Canonical(b, lo, hi)
    requires Covered(a) == Covered(b)
    ensures a == b
    decreases |a|
  {
    HoldsFirst(a, lo, hi);
    HoldsFirst(b, lo, hi);
    if a != [] && b != [] {
      CanonicalIsDisjoint(a[1..], a[0].end + 1, a[0].end + 1, hi);
      CanonicalIsDisjoint(b[1..], b[0].end + 1, b[0].end + 1, hi);
      DisjointBounds(a[1..], a[0].end + 1, hi);
      DisjointBounds(b[1..], b[0].end + 1, hi);
      assert a[0].start in Covered(a) && b[0].start in Covered(b);
      assert a[0].end !in Covered(a) && b[0].end !in Covered(b);
      assert a[0] == b[0];
      assert Covered(a[1..]) == Covered(a) - Offsets(a[0].start, a[0].end);
      assert Covered(b[1..]) == Covered(b) - Offsets(b[0].start, b[0].end);
      CanonicalUnique(a[1..], b[1..], a[0].end + 1, hi);
      assert a == [a[0]] + a[1..] && b == [b[0]] + b[1..];
    }
  }

  /** End of the gap-free prefix that starts at `at`, looking no further than hi. */
  function Prefix(got: set<int>, at: int, hi: int): (e: int)
    requires at <= hi
    ensures at <= e <= hi
    ensures forall i :: at <= i < e ==> i in got
    ensures e == hi || e !in got
    decreases hi - at
  {
    if at < hi && at in got then Prefix(got, at + 1, hi) else at
  }

  /** One past the highest offset of got below hi, or 0. */
  function FrontierOf(got: set<int>, hi: nat): (f: nat)
    ensures f <= hi
    ensures forall i :: f <= i < hi ==> i !in got
    ensures f == 0 || f - 1 in got
  {
    if hi == 0 then 0 else if hi - 1 in got then hi else FrontierOf(got, hi - 1)
  }

  /** The least offset in [at, limit] that is in got, or limit. */
  function NextIn(got: set<int>, at: int, limit: int): (e: int)
    requires at <= limit
    ensures at <= e <= limit
    ensures forall i :: at <= i < e ==> i !in got
    ensures e == limit || e in got
    decreases limit - at
  {
    if at == limit || at in got then at else NextIn(got, at + 1, limit)
  }

  /** The maximal gaps of got in [at, limit), in order. */
  function Gaps(got: set<int>, at: int, limit: int): (rs: seq<Range>)
    decreases limit - at
  {
    if at >= limit then []
    else if at in got then Gaps(got, at + 1, limit)
    else
      var e := NextIn(got, at, limit);
      [Range(at, e)] + Gaps(got, e + 1, limit)
  }

  /** Gaps lists exactly the offsets missing below the limit, as maximal ranges. */
  lemma {:induction false} GapsAreMissing(got: set<int>, at: int, limit: int)
    ensures Canonical(Gaps(got, at, limit), at, Max(at, limit))
    ensures Covered(Gaps(got, at, limit)) == Offsets(at, limit) - got
    decreases limit - at
  {
    var rs := Gaps(got, at, limit);
    if at >= limit {
    } else if at in got {
      GapsAreMissing(got, at + 1, limit);
      CanonicalIsDisjoint(rs, at + 1, at, limit);
    } else {
      var e := NextIn(got, at, limit);
      GapsAreMissing(got, e + 1, limit);
      assert rs[1..] == Gaps(got, e + 1, limit);
      assert Covered(rs) == Offsets(at, e) + Covered(rs[1..]);
    }
  }

  /** A stretch that has all arrived contributes no gap. */
  lemma {:induction false} GapsSkip(got: set<int>, at: int, past: int, limit: int)
    requires at <= past && forall i :: at <= i < past ==> i in got
    ensures Gaps(got, at, limit) == Gaps(got, past, limit)
    decreases past - at
  {
    if at < past && at < limit { GapsSkip(got, at + 1, past, limit); }
  }

  /** A missing stretch up to `next`, where something has arrived, is the first gap. */
  lemma GapsFirst(got: set<int>, at: int, next: int, past: int, limit: int)
    requires at < next < past && at < limit
    requires forall i :: at <= i < next ==> i !in got
    requires forall i :: next <= i < past ==> i in got
    ensures Gaps(got, at, limit) == [Range(at, Min(next, limit))] + Gaps(got, past, limit)
  {
    var e := NextIn(got, at, limit);
    assert next in got;
    assert e == Min(next, limit);
    if e < limit { GapsSkip(got, next + 1, past, limit); }
  }

  lemma GapsLast(got: set<int>, at: int, limit: int)
    requires forall i :: at <= i < limit ==> i !in got
    ensures Gaps(got, at, limit) == if at < limit then [Range(at, limit)] else []
  {
  }
}
