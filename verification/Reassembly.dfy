/**
 client/src/reassembly.ts, class Reassembly: rebuilds one asset from payloads
 that arrive out of order or more than once.

 The abstract state is an Asm: the buffer and the plain set of offsets that have
 arrived. The class keeps a sorted range list instead and is proved to refine it.
 */
module Reassemblies {
  import opened Intervals

  /** What a transfer holds of its asset. */
  datatype Asm = Asm(size: nat, bytes: seq<Byte>, got: set<int>)

  predicate AsmOk(m: Asm) {
    && |m.bytes| == m.size
    && (forall i :: i in m.got ==> 0 <= i < m.size)
  }

  function NewAsm(size: nat): Asm { Asm(size, seq(size, _ => 0), {}) }

  /** Whether [offset, offset + n) lies inside the asset; add throws otherwise. */
  predicate Fits(size: nat, offset: int, n: nat) { 0 <= offset && offset + n <= size }

  function Overwrite(bytes: seq<Byte>, offset: nat, p: seq<Byte>): seq<Byte>
    requires offset + |p| <= |bytes|
  {
    bytes[..offset] + p + bytes[offset + |p|..]
  }

  function AddTo(m: Asm, offset: nat, p: seq<Byte>): (r: Asm)
    requires AsmOk(m) && Fits(m.size, offset, |p|)
    ensures AsmOk(r)
  {
    Asm(m.size, Overwrite(m.bytes, offset, p), m.got + Offsets(offset, offset + |p|))
  }

  /** How many offsets of [offset, offset + n) had not arrived before. */
  function FreshIn(m: Asm, offset: int, n: nat): nat {
    |Offsets(offset, offset + n) - m.got|
  }

  predicate Complete(m: Asm) { |m.got| == m.size }

  function Contiguous(m: Asm): int { Prefix(m.got, 0, m.size) }

  function Frontier(m: Asm): nat { FrontierOf(m.got, m.size) }

  function Missing(m: Asm, limit: int): seq<Range> { Gaps(m.got, 0, limit) }

  lemma CompleteHasAll(m: Asm)
    requires AsmOk(m)
    ensures Complete(m) <==> m.got == Offsets(0, m.size)
    ensures Complete(m) <==> Contiguous(m) == m.size
  {
    var all := Offsets(0, m.size);
    OffsetsSize(0, m.size);
    assert m.got <= all;
    if Complete(m) { SubsetSameSize(m.got, all); }
    assert Contiguous(m) == m.size <==> m.got == all;
  }

  lemma SubsetSameSize(a: set<int>, b: set<int>)
    requires a <= b && |a| == |b|
    ensures a == b
  {
    assert |b - a| == |b| - |a| by { assert b == a + (b - a); }
  }

  /** The range list with [a, b) merged in. */
  function Merged(rs: seq<Range>, a: int, b: int): seq<Range> {
    if rs == [] then [Range(a, b)]
    else if rs[0].end < a then [rs[0]] + Merged(rs[1..], a, b)
    else if rs[0].start <= b then Merged(rs[1..], Min(a, rs[0].start), Max(b, rs[0].end))
    else [Range(a, b)] + rs
  }

  /** How much of [a, b) the ranges already hold. */
  function Overlap(rs: seq<Range>, a: int, b: int): nat {
    if rs == [] then 0
    else Max(0, Min(rs[0].end, b) - Max(rs[0].start, a)) + Overlap(rs[1..], a, b)
  }

  /** Merging adds exactly the offsets of [a, b) and keeps the list canonical. */
  lemma {:induction false} MergedAdds(rs: seq<Range>, a: int, b: int, lo: int, hi: int)
    requires Canonical(rs, lo, hi) && lo <= a < b <= hi
    ensures Canonical(Merged(rs, a, b), lo, hi)
    ensures Covered(Merged(rs, a, b)) == Covered(rs) + Offsets(a, b)
    decreases |rs|
  {
    if rs != [] {
      var r, t := rs[0], rs[1..];
      if r.end < a {
        MergedAdds(t, a, b, r.end + 1, hi);
        assert Merged(rs, a, b)[1..] == Merged(t, a, b);
      } else if r.start <= b {
        var a', b' := Min(a, r.start), Max(b, r.end);
        CanonicalIsDisjoint(t, r.end + 1, lo, hi);
        MergedAdds(t, a', b', lo, hi);
        assert Offsets(a', b') == Offsets(r.start, r.end) + Offsets(a, b);
      } else {
        assert Merged(rs, a, b)[1..] == rs;
      }
    }
  }

  lemma {:induction false} OverlapCounts(rs: seq<Range>, a: int, b: int, lo: int, hi: int)
    requires Canonical(rs, lo, hi)
    ensures Overlap(rs, a, b) == |Offsets(a, b) * Covered(rs)|
    decreases |rs|
  {
    if rs == [] {
      assert Offsets(a, b) * Covered(rs) == {};
    } else {
      OverlapCounts(rs[1..], a, b, rs[0].end + 1, hi);
      CanonicalIsDisjoint(rs[1..], rs[0].end + 1, rs[0].end + 1, hi);
      DisjointBounds(rs[1..], rs[0].end + 1, hi);
      CountSplit(a, b, rs[0], Covered(rs[1..]));
    }
  }

  lemma CountSplit(a: int, b: int, r: Range, rest: set<int>)
    requires forall i :: i in rest ==> r.end < i
    ensures |Offsets(a, b) * (Offsets(r.start, r.end) + rest)|
              == Max(0, Min(r.end, b) - Max(r.start, a)) + |Offsets(a, b) * rest|
  {
    var p, q := Offsets(a, b) * Offsets(r.start, r.end), Offsets(a, b) * rest;
    assert Offsets(a, b) * (Offsets(r.start, r.end) + rest) == p + q;
    assert p !! q;
    assert p == Offsets(Max(r.start, a), Min(r.end, b));
    OffsetsSize(Max(r.start, a), Min(r.end, b));
  }

  lemma CountMinus(s: set<int>, t: set<int>)
    ensures |s - t| == |s| - |s * t|
    ensures |s + t| == |t| + |s - t|
  {
    assert s == (s - t) + (s * t);
    assert s + t == t + (s - t);
  }

  lemma {:induction false} OverlapNone(rs: seq<Range>, a: int, b: int, lo: int, hi: int)
    requires Canonical(rs, lo, hi) && (rs != [] ==> b <= rs[0].start)
    ensures Overlap(rs, a, b) == 0
    decreases |rs|
  {
    if rs != [] { OverlapNone(rs[1..], a, b, rs[0].end + 1, hi); }
  }

  lemma MergeCounts(rs: seq<Range>, a: int, b: int, size: nat)
    requires Canonical(rs, 0, size) && 0 <= a < b <= size
    ensures Canonical(Merged(rs, a, b), 0, size)
    ensures Covered(Merged(rs, a, b)) == Covered(rs) + Offsets(a, b)
    ensures |Offsets(a, b) - Covered(rs)| == b - a - Overlap(rs, a, b)
    ensures |Covered(Merged(rs, a, b))| == |Covered(rs)| + b - a - Overlap(rs, a, b)
  {
    MergedAdds(rs, a, b, 0, size);
    OverlapCounts(rs, a, b, 0, size);
    CountMinus(Offsets(a, b), Covered(rs));
    OffsetsSize(a, b);
  }

  lemma AddNothing(m: Asm, offset: nat)
    requires AsmOk(m) && offset <= m.size
    ensures AddTo(m, offset, []) == m && FreshIn(m, offset, 0) == 0
  {
    assert Offsets(offset, offset) == {};
  }

  datatype Added = Fresh(count: nat) | OutOfRange

  class Reassembly {
    const size: nat
    const bytes: array<Byte>
    var ranges: seq<Range>
    var received: nat

    ghost predicate Valid()
      reads this, bytes
    {
      && bytes.Length == size
      && Canonical(ranges, 0, size)
      && received == |Covered(ranges)|
    }

    ghost function State(): (m: Asm)
      requires Valid()
      reads this, bytes
      ensures AsmOk(m)
    {
      CanonicalIsDisjoint(ranges, 0, 0, size);
      DisjointBounds(ranges, 0, size);
      Asm(size, bytes[..], Covered(ranges))
    }

    constructor (size: nat)
      ensures Valid() && fresh(bytes) && State() == NewAsm(size)
    {
      this.size := size;
      bytes := new Byte[size](_ => 0);
      ranges, received := [], 0;
    }

    method IsComplete() returns (r: bool)
      requires Valid()
      ensures r <==> Complete(State())
    {
      r := received == size;
    }

    method ContiguousEnd() returns (r: int)
      requires Valid()
      ensures r == Contiguous(State())
    {
      r := if ranges != [] && ranges[0].start == 0 then ranges[0].end else 0;
      FirstIsPrefix(ranges, size);
    }

    method FrontierEnd() returns (r: int)
      requires Valid()
      ensures r == Frontier(State())
    {
      r := if ranges != [] then ranges[|ranges| - 1].end else 0;
      LastIsFrontier(ranges, 0, size);
    }

    method Add(offset: int, payload: seq<Byte>) returns (r: Added)
      requires Valid()
      modifies this, bytes
      ensures Valid()
      ensures !Fits(size, offset, |payload|) ==> r == OutOfRange && State() == old(State())
      ensures Fits(size, offset, |payload|) ==>
                && State() == AddTo(old(State()), offset, payload)
                && r == Fresh(FreshIn(old(State()), offset, |payload|))
    {
      var end := offset + |payload|;
      if offset < 0 || end > size { return OutOfRange; }
      ghost var was := State();
      if |payload| == 0 {
        assert payload == [];
        AddNothing(was, offset);
        return Fresh(0);
      }
      Store(offset, payload);
      var count := Mark(offset, end);
      r := Fresh(count);
    }

    /** Marks [offset, end) received; how much of it is new. */
    method Mark(offset: nat, end: nat) returns (count: nat)
      requires Valid() && offset < end <= size
      modifies this
      ensures Valid() && count == |Offsets(offset, end) - old(State()).got|
      ensures State() == old(State()).(got := old(State()).got + Offsets(offset, end))
    {
      var merged, covered := MergeRange(ranges, offset, end, size);
      MergeCounts(ranges, offset, end, size);
      ranges := merged;
      count := end - offset - covered;
      received := received + count;
    }

    /** The two cursor loops of add: the merged list, and how much of [offset, end) it already held. */
    static method MergeRange(ranges: seq<Range>, offset: int, end: int, size: nat)
      returns (merged: seq<Range>, covered: nat)
      requires Canonical(ranges, 0, size) && 0 <= offset < end <= size
      ensures merged == Merged(ranges, offset, end)
      ensures covered == Overlap(ranges, offset, end)
    {
      var i, lo := SkipBefore(ranges, offset, end, size);
      covered := 0;
      var start, stop := offset, end;
      var j := i;
      ghost var rest := ranges[i..];
      while j < |ranges| && ranges[j].start <= end
        invariant i <= j <= |ranges| && rest == ranges[j..]
        invariant Canonical(rest, lo, size) && (j < |ranges| ==> offset <= ranges[j].end)
        invariant start <= offset && stop == Max(end, lo - 1)
        invariant Merged(ranges, offset, end) == ranges[..i] + Merged(rest, start, stop)
        invariant Overlap(ranges, offset, end) == covered + Overlap(rest, offset, end)
      {
        var r := ranges[j];
        covered := covered + Max(0, Min(r.end, end) - Max(r.start, offset));
        start := Min(start, r.start);
        stop := Max(stop, r.end);
        lo := r.end + 1;
        rest := rest[1..];
        j := j + 1;
      }
      OverlapNone(rest, offset, end, lo, size);
      merged := ranges[..i] + [Range(start, stop)] + ranges[j..];
    }

    static method SkipBefore(ranges: seq<Range>, offset: int, end: int, size: nat)
      returns (i: nat, ghost lo: int)
      requires Canonical(ranges, 0, size) && 0 <= offset < end <= size
      ensures i <= |ranges| && (i < |ranges| ==> offset <= ranges[i].end)
      ensures Canonical(ranges[i..], lo, size) && lo <= offset
      ensures Merged(ranges, offset, end) == ranges[..i] + Merged(ranges[i..], offset, end)
      ensures Overlap(ranges, offset, end) == Overlap(ranges[i..], offset, end)
    {
      ghost var rest := ranges;
      i, lo := 0, 0;
      while i < |ranges| && ranges[i].end < offset
        invariant 0 <= i <= |ranges| && rest == ranges[i..]
        invariant Canonical(rest, lo, size) && lo <= offset
        invariant Merged(ranges, offset, end) == ranges[..i] + Merged(rest, offset, end)
        invariant Overlap(ranges, offset, end) == Overlap(rest, offset, end)
      {
        SkipStep(ranges[..i], rest, offset, end);
        assert ranges[..i + 1] == ranges[..i] + [rest[0]];
        lo := ranges[i].end + 1;
        rest := rest[1..];
        i := i + 1;
      }
    }

    method Store(offset: nat, payload: seq<Byte>)
      requires offset + |payload| <= bytes.Length
      modifies bytes
      ensures bytes[..] == Overwrite(old(bytes[..]), offset, payload)
    {
      forall k | 0 <= k < |payload| { bytes[offset + k] := payload[k]; }
    }

    method MissingBelow(limit: int) returns (gaps: seq<Range>)
      requires Valid()
      ensures gaps == Missing(State(), limit)
    {
      gaps := GapsBelow(ranges, limit, size);
    }

    /** The loop of missing, over the range list alone. */
    static method GapsBelow(ranges: seq<Range>, limit: int, size: nat) returns (gaps: seq<Range>)
      requires Canonical(ranges, 0, size)
      ensures gaps == Gaps(Covered(ranges), 0, limit)
    {
      ghost var got, rest := Covered(ranges), ranges;
      gaps := [];
      var at, k := 0, 0;
      while k < |ranges| && at < limit
        invariant 0 <= k <= |ranges| && rest == ranges[k..]
        invariant gaps + Gaps(got, at, limit) == Gaps(got, 0, limit)
        invariant AgreeFrom(got, rest, at) && Canonical(rest, at, size)
      {
        var r := ranges[k];
        GapsStep(rest, got, at, limit, size);
        if r.start > at { gaps := gaps + [Range(at, Min(r.start, limit))]; }
        at := r.end;
        rest := rest[1..];
        k := k + 1;
      }
      GapsEnd(rest, got, at, limit);
      if at < limit { gaps := gaps + [Range(at, limit)]; }
    }
  }

  lemma GapsEnd(rs: seq<Range>, got: set<int>, at: int, limit: int)
    requires AgreeFrom(got, rs, at) && (rs == [] || limit <= at)
    ensures Gaps(got, at, limit) == if at < limit then [Range(at, limit)] else []
  {
    if at < limit { GapsLast(got, at, limit); }
  }

  /** Only a first range that starts at 0 begins the gap-free prefix, and it is all of it. */
  lemma FirstIsPrefix(rs: seq<Range>, size: nat)
    requires Canonical(rs, 0, size)
    ensures Prefix(Covered(rs), 0, size) == if rs != [] && rs[0].start == 0 then rs[0].end else 0
  {
    if rs != [] {
      CanonicalIsDisjoint(rs[1..], rs[0].end + 1, rs[0].end + 1, size);
      DisjointBounds(rs[1..], rs[0].end + 1, size);
      assert Covered(rs) == Offsets(rs[0].start, rs[0].end) + Covered(rs[1..]);
      assert forall x :: rs[0].start <= x < rs[0].end ==> x in Covered(rs);
      assert rs[0].end !in Covered(rs);
    }
  }

  /** A range that ends before the new one starts is passed over unchanged. */
  lemma SkipStep(done: seq<Range>, rest: seq<Range>, offset: int, end: int)
    requires rest != [] && rest[0].start < rest[0].end < offset < end
    ensures done + Merged(rest, offset, end) == done + [rest[0]] + Merged(rest[1..], offset, end)
    ensures Overlap(rest, offset, end) == Overlap(rest[1..], offset, end)
  {
    Shift(done, [rest[0]], Merged(rest[1..], offset, end));
  }

  /** From `at` on, the set and the ranges hold the same offsets. */
  ghost predicate AgreeFrom(got: set<int>, rs: seq<Range>, at: int) {
    forall x :: at <= x ==> (x in got <==> x in Covered(rs))
  }

  /** One turn of the loop that lists the gaps: past the first range, with the gap before it. */
  lemma GapsStep(rs: seq<Range>, got: set<int>, at: int, limit: int, size: nat)
    requires rs != [] && Canonical(rs, at, size) && AgreeFrom(got, rs, at) && at < limit
    ensures AgreeFrom(got, rs[1..], rs[0].end) && Canonical(rs[1..], rs[0].end, size)
    ensures Gaps(got, at, limit)
              == (if rs[0].start > at then [Range(at, Min(rs[0].start, limit))] else [])
                 + Gaps(got, rs[0].end, limit)
  {
    var r, rest := rs[0], rs[1..];
    CanonicalIsDisjoint(rest, r.end + 1, r.end + 1, size);
    DisjointBounds(rest, r.end + 1, size);
    CanonicalIsDisjoint(rest, r.end + 1, r.end, size);
    assert Covered(rs) == Offsets(r.start, r.end) + Covered(rest);
    forall x | at <= x < r.end ensures x in got <==> r.start <= x { assert x in got <==> x in Covered(rs); }
    if r.start > at {
      GapsFirst(got, at, r.start, r.end, limit);
    } else {
      GapsSkip(got, at, r.end, limit);
    }
  }

  lemma {:induction false} LastIsFrontier(rs: seq<Range>, lo: nat, hi: nat)
    requires Canonical(rs, lo, hi)
    ensures FrontierOf(Covered(rs), hi) == if rs == [] then 0 else rs[|rs| - 1].end
    decreases |rs|
  {
    if |rs| == 1 {
      assert rs[1..] == [];
      assert rs[0].end - 1 in Covered(rs);
    } else if |rs| > 1 {
      var t := rs[1..];
      LastIsFrontier(t, rs[0].end + 1, hi);
      CanonicalIsDisjoint(t, rs[0].end + 1, rs[0].end + 1, hi);
      DisjointBounds(t, rs[0].end + 1, hi);
      assert t[|t| - 1] == rs[|rs| - 1];
      assert t[0].start in Covered(t);
      assert FrontierOf(Covered(t), hi) - 1 in Covered(rs);
    }
  }
}
