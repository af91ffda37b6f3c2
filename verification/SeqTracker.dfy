/**
 client/src/reassembly.ts, class SeqTracker and function ranges: session-wide
 loss detection over DATA_SEQ sequence numbers.

 A JavaScript Map iterates in insertion order, and the settled set is trimmed
 oldest first, so each Map is an insertion-ordered list with distinct keys.
 Infinity, the default tail window, is None.
 */
module SeqTracking {
  import opened Intervals

  const MAX_SETTLED := 8192
  const MAX_GAP := 4096
  const CLAIM_TTL_MS := 30000.0

  /** Which transfer's bytes a number carried, or probably carried. */
  datatype Hint = Hint(rpc: nat, start: int, end: int)

  datatype Num<T> = Num(num: nat, info: T)

  datatype Gone = Gone(since: real, hint: Option<Hint>)

  datatype Asked = Asked(at: real, tries: nat, hint: Option<Hint>)

  datatype Arrival = New | Reordered | Spurious | Duplicate

  datatype Seqs = Seqs(
    highest: int,
    last: Option<Hint>,
    missing: seq<Num<Gone>>,
    claimed: seq<Num<Asked>>,
    settled: seq<Num<real>>)

  function NewSeqs(): Seqs { Seqs(-1, None, [], [], []) }

  // ---- Insertion-ordered maps ----

  function Keys<T>(s: seq<Num<T>>): set<nat> {
    if s == [] then {} else {s[0].num} + Keys(s[1..])
  }

  predicate Distinct<T>(s: seq<Num<T>>) {
    s == [] || (s[0].num !in Keys(s[1..]) && Distinct(s[1..]))
  }

  /** The map without the given keys. */
  function Minus<T>(s: seq<Num<T>>, ks: set<nat>): seq<Num<T>> {
    if s == [] then []
    else (if s[0].num in ks then [] else [s[0]]) + Minus(s[1..], ks)
  }

  function Find<T>(s: seq<Num<T>>, k: nat): Option<T> {
    if s == [] then None else if s[0].num == k then Some(s[0].info) else Find(s[1..], k)
  }

  lemma {:induction false} MinusKeys<T>(s: seq<Num<T>>, ks: set<nat>)
    ensures Keys(Minus(s, ks)) == Keys(s) - ks
    ensures Distinct(s) ==> Distinct(Minus(s, ks))
    ensures forall k :: k !in ks ==> Find(Minus(s, ks), k) == Find(s, k)
  {
    if s != [] {
      MinusKeys(s[1..], ks);
      if s[0].num !in ks { assert Minus(s, ks)[1..] == Minus(s[1..], ks); }
      else { assert Minus(s, ks) == Minus(s[1..], ks); }
    }
  }

  lemma {:induction false} MinusMinus<T>(s: seq<Num<T>>, a: set<nat>, b: set<nat>)
    ensures Minus(Minus(s, a), b) == Minus(s, a + b)
  {
    if s != [] {
      MinusMinus(s[1..], a, b);
      var m := Minus(s, a);
      if s[0].num !in a { assert m[1..] == Minus(s[1..], a); } else { assert m == Minus(s[1..], a); }
    }
  }

  lemma {:induction false} KeysConcat<T>(a: seq<Num<T>>, b: seq<Num<T>>)
    ensures Keys(a + b) == Keys(a) + Keys(b)
    ensures Distinct(a) && Distinct(b) && Keys(a) !! Keys(b) ==> Distinct(a + b)
    ensures forall k :: Find(a + b, k) == if k in Keys(a) then Find(a, k) else Find(b, k)
  {
    if a == [] {
      assert a + b == b;
    } else {
      KeysConcat(a[1..], b);
      assert (a + b)[1..] == a[1..] + b;
    }
  }

  // ---- arrive ----

  function GapHint(st: Seqs, n: nat, where: Option<Hint>): Option<Hint> {
    if st.last.Some? && where.Some? && n - st.highest > 1
       && st.last.value.rpc == where.value.rpc && st.last.value.end < where.value.start
    then Some(Hint(where.value.rpc, st.last.value.end, where.value.start))
    else None
  }

  function Fill(from: int, upto: nat, g: Gone): seq<Num<Gone>>
    requires 0 <= from
    decreases upto - from
  {
    if from >= upto then [] else [Num(from, g)] + Fill(from + 1, upto, g)
  }

  function Arrive(st: Seqs, n: nat, now: real, where: Option<Hint>): (Seqs, Arrival)
    requires -1 <= st.highest
  {
    if n > st.highest then
      var more := if n - st.highest - 1 <= MAX_GAP
                  then Fill(st.highest + 1, n, Gone(now, GapHint(st, n, where))) else [];
      (st.(highest := n, last := where, missing := st.missing + more), New)
    else if n in Keys(st.missing) then (st.(missing := Minus(st.missing, {n})), Reordered)
    else if n in Keys(st.claimed) then (st.(claimed := Minus(st.claimed, {n})), Spurious)
    else if n in Keys(st.settled) then (st.(settled := Minus(st.settled, {n})), Spurious)
    else (st, Duplicate)
  }

  // ---- detect ----

  /** Enough later numbers and time, or a whole tail window. */
  predicate IsLost(m: Num<Gone>, highest: int, now: real, allowance: int, window: real, tail: Option<real>) {
    || (highest - m.num >= allowance && now - m.info.since >= window)
    || (tail.Some? && now - m.info.since >= tail.value)
  }

  function LostNums(ms: seq<Num<Gone>>, highest: int, now: real, allowance: int, window: real, tail: Option<real>): seq<nat> {
    if ms == [] then []
    else (if IsLost(ms[0], highest, now, allowance, window, tail) then [ms[0].num] else [])
         + LostNums(ms[1..], highest, now, allowance, window, tail)
  }

  function FirstAsk(nums: seq<nat>, ms: seq<Num<Gone>>, now: real): seq<Num<Asked>> {
    if nums == [] then []
    else
      var f := Find(ms, nums[0]);
      [Num(nums[0], Asked(now, 1, if f.Some? then f.value.hint else None))] + FirstAsk(nums[1..], ms, now)
  }

  function SetOf(nums: seq<nat>): set<nat> { set n | n in nums }

  function Detected(st: Seqs, lost: seq<nat>, now: real): Seqs {
    st.(missing := Minus(st.missing, SetOf(lost)), claimed := st.claimed + FirstAsk(lost, st.missing, now))
  }

  // ---- repeats ----

  predicate Waiting(c: Num<Asked>, now: real, delay: real) { now - c.info.at < delay }

  predicate Done(c: Num<Asked>, maxTries: nat, repaired: Hint -> bool) {
    c.info.tries >= maxTries || (c.info.hint.Some? && repaired(c.info.hint.value))
  }

  function StillAsked(cs: seq<Num<Asked>>, now: real, delay: real, maxTries: nat, repaired: Hint -> bool): seq<Num<Asked>> {
    if cs == [] then []
    else
      var c, rest := cs[0], StillAsked(cs[1..], now, delay, maxTries, repaired);
      if Waiting(c, now, delay) then [c] + rest
      else if Done(c, maxTries, repaired) then rest
      else [Num(c.num, Asked(now, c.info.tries + 1, c.info.hint))] + rest
  }

  function AskedOut(cs: seq<Num<Asked>>, now: real, delay: real, maxTries: nat, repaired: Hint -> bool): seq<Num<real>> {
    if cs == [] then []
    else
      (if !Waiting(cs[0], now, delay) && Done(cs[0], maxTries, repaired) then [Num(cs[0].num, now)] else [])
      + AskedOut(cs[1..], now, delay, maxTries, repaired)
  }

  function Again(cs: seq<Num<Asked>>, now: real, delay: real, maxTries: nat, repaired: Hint -> bool): seq<nat> {
    if cs == [] then []
    else
      (if !Waiting(cs[0], now, delay) && !Done(cs[0], maxTries, repaired) then [cs[0].num] else [])
      + Again(cs[1..], now, delay, maxTries, repaired)
  }

  /** Drops the oldest settled numbers until the bound and the lifetime both hold. */
  function Trim(ss: seq<Num<real>>, now: real): seq<Num<real>> {
    if ss == [] || (|ss| <= MAX_SETTLED && now - ss[0].info <= CLAIM_TTL_MS) then ss else Trim(ss[1..], now)
  }

  function Repeated(st: Seqs, now: real, delay: real, maxTries: nat, repaired: Hint -> bool): Seqs {
    st.(claimed := StillAsked(st.claimed, now, delay, maxTries, repaired),
        settled := Trim(st.settled + AskedOut(st.claimed, now, delay, maxTries, repaired), now))
  }

  // ---- What holds in every run ----

  /** Everything a run has done: numbers that arrived, numbers detect named, and every ask sent. */
  datatype Past = Past(arrived: set<nat>, named: multiset<nat>, asked: multiset<nat>)

  ghost predicate InOrder(ss: seq<Num<real>>, now: real) {
    ss == [] || (ss[0].info <= now && (forall k :: 0 <= k < |ss| ==> ss[0].info <= ss[k].info) && InOrder(ss[1..], now))
  }

  ghost predicate TriesMatch(cs: seq<Num<Asked>>, asked: multiset<nat>, maxTries: nat) {
    forall c :: c in cs ==> 1 <= c.info.tries == asked[c.num] <= Max(1, maxTries)
  }

  /** No number is in two of the lists, and none is past the highest. */
  ghost predicate KeysApart(m: set<nat>, c: set<nat>, s: set<nat>, highest: int) {
    && -1 <= highest
    && m !! c && m !! s && c !! s
    && (forall n :: n in m || n in c || n in s ==> n <= highest)
  }

  /** Each list maps a number once, and the three are apart. */
  ghost predicate ListsOk(st: Seqs) {
    && KeysApart(Keys(st.missing), Keys(st.claimed), Keys(st.settled), st.highest)
    && Distinct(st.missing) && Distinct(st.claimed) && Distinct(st.settled)
  }

  /** What the three key sets promise, and what the past says of the numbers in them. */
  ghost predicate KeysOk(m: set<nat>, c: set<nat>, s: set<nat>, highest: int, past: Past, maxTries: nat) {
    && KeysApart(m, c, s, highest)
    && m !! past.arrived && c !! past.arrived && s !! past.arrived
    && (forall n :: n in past.arrived ==> n <= highest)
    && (forall n :: past.named[n] <= 1 && past.asked[n] <= Max(1, maxTries))
    && (forall n :: n in m || n > highest ==> past.named[n] == 0 && past.asked[n] == 0)
  }

  ghost predicate SeqsOk(st: Seqs, past: Past, now: real, maxTries: nat) {
    && KeysOk(Keys(st.missing), Keys(st.claimed), Keys(st.settled), st.highest, past, maxTries)
    && Distinct(st.missing) && Distinct(st.claimed) && Distinct(st.settled)
    && TriesMatch(st.claimed, past.asked, maxTries)
    && InOrder(st.settled, now)
  }

  lemma {:induction false} FillKeys(from: int, upto: nat, g: Gone)
    requires 0 <= from
    ensures forall n :: n in Keys(Fill(from, upto, g)) <==> from <= n < upto
    ensures Distinct(Fill(from, upto, g))
    decreases upto - from
  {
    if from < upto {
      FillKeys(from + 1, upto, g);
      assert Fill(from, upto, g)[1..] == Fill(from + 1, upto, g);
    }
  }

  lemma ArriveKeeps(st: Seqs, past: Past, before: real, n: nat, now: real, where: Option<Hint>, maxTries: nat)
    requires SeqsOk(st, past, before, maxTries) && before <= now
    ensures SeqsOk(Arrive(st, n, now, where).0, past.(arrived := past.arrived + {n}), now, maxTries)
  {
    LaterInOrder(st.settled, before, now);
    if n > st.highest {
      JumpKeeps(st, past, n, now, where, maxTries);
    } else {
      ForgetKeeps(st, past, n, now, maxTries);
      MinusAbsent(st.missing, n);
      MinusAbsent(st.claimed, n);
      MinusAbsent(st.settled, n);
    }
  }

  lemma JumpKeeps(st: Seqs, past: Past, n: nat, now: real, where: Option<Hint>, maxTries: nat)
    requires SeqsOk(st, past, now, maxTries) && n > st.highest
    ensures SeqsOk(Arrive(st, n, now, where).0, past.(arrived := past.arrived + {n}), now, maxTries)
  {
    var g := Gone(now, GapHint(st, n, where));
    var more := if n - st.highest - 1 <= MAX_GAP then Fill(st.highest + 1, n, g) else [];
    FillKeys(st.highest + 1, n, g);
    var st' := Arrive(st, n, now, where).0;
    assert st' == st.(highest := n, last := where, missing := st.missing + more);
    JumpKeys(Keys(st.missing), Keys(st.claimed), Keys(st.settled), st.highest, past, Keys(more), n, maxTries);
    assert Keys(st.missing) !! Keys(more);
    assert Keys(st'.missing) == Keys(st.missing) + Keys(more) && Distinct(st'.missing) by { KeysConcat(st.missing, more); }
  }

  lemma JumpKeys(m: set<nat>, c: set<nat>, s: set<nat>, highest: int, past: Past, more: set<nat>, n: nat, maxTries: nat)
    requires KeysOk(m, c, s, highest, past, maxTries) && n > highest
    requires forall k :: k in more ==> highest < k < n
    ensures KeysOk(m + more, c, s, n, past.(arrived := past.arrived + {n}), maxTries)
  {
  }

  /** The tracker with n out of every list: what an arriving old number leaves. */
  function Forget(st: Seqs, n: nat): Seqs {
    st.(missing := Minus(st.missing, {n}), claimed := Minus(st.claimed, {n}), settled := Minus(st.settled, {n}))
  }

  lemma ForgetKeeps(st: Seqs, past: Past, n: nat, now: real, maxTries: nat)
    requires SeqsOk(st, past, now, maxTries) && n <= st.highest
    ensures SeqsOk(Forget(st, n), past.(arrived := past.arrived + {n}), now, maxTries)
  {
    MinusKeys(st.missing, {n});
    MinusKeys(st.claimed, {n});
    MinusKeys(st.settled, {n});
    MinusIsPart(st.claimed, {n});
    MinusInOrder(st.settled, {n}, now);
  }

  lemma {:induction false} MinusAbsent<T>(s: seq<Num<T>>, n: nat)
    ensures n !in Keys(s) ==> Minus(s, {n}) == s
  {
    if s != [] { MinusAbsent(s[1..], n); }
  }

  lemma {:induction false} LaterInOrder(ss: seq<Num<real>>, before: real, now: real)
    requires InOrder(ss, before) && before <= now
    ensures InOrder(ss, now)
  {
    if ss != [] { LaterInOrder(ss[1..], before, now); }
  }

  lemma {:induction false} MinusIsPart<T>(s: seq<Num<T>>, ks: set<nat>)
    ensures forall c :: c in Minus(s, ks) ==> c in s
  {
    if s != [] { MinusIsPart(s[1..], ks); }
  }

  lemma {:induction false} MinusInOrder(ss: seq<Num<real>>, ks: set<nat>, now: real)
    requires InOrder(ss, now)
    ensures InOrder(Minus(ss, ks), now)
  {
    if ss != [] {
      MinusInOrder(ss[1..], ks, now);
      MinusIsPart(ss[1..], ks);
      var m := Minus(ss, ks);
      if ss[0].num in ks {
        assert m == Minus(ss[1..], ks);
      } else {
        assert m[1..] == Minus(ss[1..], ks);
        forall k | 0 <= k < |m| ensures m[0].info <= m[k].info {
          assert k > 0 ==> m[k] in ss[1..];
        }
      }
    }
  }

  lemma {:induction false} LostAreMissing(ms: seq<Num<Gone>>, highest: int, now: real, allowance: int, window: real, tail: Option<real>)
    requires Distinct(ms)
    ensures var lost := LostNums(ms, highest, now, allowance, window, tail);
      && (forall n :: n in lost ==> n in Keys(ms))
      && (forall n :: multiset(lost)[n] <= 1)
  {
    if ms != [] {
      LostAreMissing(ms[1..], highest, now, allowance, window, tail);
    }
  }

  lemma {:induction false} FirstAskKeys(nums: seq<nat>, ms: seq<Num<Gone>>, now: real)
    requires forall n :: multiset(nums)[n] <= 1
    ensures forall n :: n in Keys(FirstAsk(nums, ms, now)) <==> n in nums
    ensures Distinct(FirstAsk(nums, ms, now))
    ensures forall c :: c in FirstAsk(nums, ms, now) ==> c.num in nums && c.info.tries == 1
    decreases |nums|
  {
    if nums != [] {
      assert nums == [nums[0]] + nums[1..];
      forall n ensures multiset(nums[1..])[n] <= 1 {
        assert multiset(nums)[n] == multiset([nums[0]])[n] + multiset(nums[1..])[n];
      }
      assert nums[0] !in nums[1..] by { assert multiset(nums)[nums[0]] == 1 + multiset(nums[1..])[nums[0]]; }
      FirstAskKeys(nums[1..], ms, now);
      assert FirstAsk(nums, ms, now)[1..] == FirstAsk(nums[1..], ms, now);
    }
  }

  lemma DetectKeeps(st: Seqs, past: Past, before: real, now: real, allowance: int, window: real, tail: Option<real>, maxTries: nat)
    requires SeqsOk(st, past, before, maxTries) && before <= now
    ensures var lost := LostNums(st.missing, st.highest, now, allowance, window, tail);
      SeqsOk(Detected(st, lost, now),
             past.(named := past.named + multiset(lost), asked := past.asked + multiset(lost)), now, maxTries)
  {
    var lost := LostNums(st.missing, st.highest, now, allowance, window, tail);
    LaterInOrder(st.settled, before, now);
    LostAreMissing(st.missing, st.highest, now, allowance, window, tail);
    FirstAskKeys(lost, st.missing, now);
    MinusKeys(st.missing, SetOf(lost));
    KeysConcat(st.claimed, FirstAsk(lost, st.missing, now));
    assert Keys(FirstAsk(lost, st.missing, now)) == SetOf(lost);
    DetectKeys(Keys(st.missing), Keys(st.claimed), Keys(st.settled), st.highest, past, lost, maxTries);
    DetectTries(st, past.asked, lost, now, maxTries);
  }

  lemma DetectKeys(m: set<nat>, c: set<nat>, s: set<nat>, highest: int, past: Past, lost: seq<nat>, maxTries: nat)
    requires KeysOk(m, c, s, highest, past, maxTries)
    requires (forall n :: n in lost ==> n in m) && forall n :: multiset(lost)[n] <= 1
    ensures KeysOk(m - SetOf(lost), c + SetOf(lost), s, highest,
                   past.(named := past.named + multiset(lost), asked := past.asked + multiset(lost)), maxTries)
  {
    forall n ensures multiset(lost)[n] > 0 <==> n in SetOf(lost) {}
  }

  lemma DetectTries(st: Seqs, asked: multiset<nat>, lost: seq<nat>, now: real, maxTries: nat)
    requires TriesMatch(st.claimed, asked, maxTries) && Keys(st.missing) !! Keys(st.claimed)
    requires (forall n :: n in lost ==> n in Keys(st.missing) && asked[n] == 0) && forall n :: multiset(lost)[n] <= 1
    ensures TriesMatch(Detected(st, lost, now).claimed, asked + multiset(lost), maxTries)
  {
    InKeys(st.claimed);
    FirstAskKeys(lost, st.missing, now);
    forall c | c in Detected(st, lost, now).claimed
      ensures 1 <= c.info.tries == (asked + multiset(lost))[c.num] <= Max(1, maxTries)
    {
      if c in st.claimed {
        assert c.num !in lost;
      } else {
        assert c in FirstAsk(lost, st.missing, now);
        assert multiset(lost)[c.num] == 1;
      }
    }
  }

  lemma {:induction false} InKeys<T>(s: seq<Num<T>>)
    ensures forall c :: c in s ==> c.num in Keys(s)
  {
    if s != [] { InKeys(s[1..]); }
  }

  /** cs split into numbers still asked for and numbers given up; again names some of the former, once each. */
  ghost predicate Splits(ks: set<nat>, still: seq<Num<Asked>>, out: seq<Num<real>>, again: seq<nat>, now: real) {
    && Keys(still) + Keys(out) == ks && Keys(still) !! Keys(out)
    && Distinct(still) && Distinct(out)
    && (forall n :: n in again ==> n in Keys(still))
    && (forall n :: multiset(again)[n] <= 1)
    && (forall c :: c in out ==> c.info == now)
  }

  lemma {:induction false} RepeatsSplit(cs: seq<Num<Asked>>, now: real, delay: real, maxTries: nat, repaired: Hint -> bool)
    requires Distinct(cs)
    ensures Splits(Keys(cs), StillAsked(cs, now, delay, maxTries, repaired),
                   AskedOut(cs, now, delay, maxTries, repaired), Again(cs, now, delay, maxTries, repaired), now)
  {
    if cs != [] {
      var b, t := cs[0], cs[1..];
      var still, out, again := StillAsked(t, now, delay, maxTries, repaired), AskedOut(t, now, delay, maxTries, repaired),
                               Again(t, now, delay, maxTries, repaired);
      RepeatsSplit(t, now, delay, maxTries, repaired);
      if Waiting(b, now, delay) {
        SplitStill(Keys(t), b, still, out, again, now);
        assert [] + out == out && [] + again == again;
      } else if Done(b, maxTries, repaired) {
        SplitOut(Keys(t), b.num, still, out, again, now);
        assert [] + again == again;
      } else {
        SplitAgain(Keys(t), Num(b.num, Asked(now, b.info.tries + 1, b.info.hint)), still, out, again, now);
        assert [] + out == out;
      }
    }
  }

  lemma SplitStill(ks: set<nat>, b: Num<Asked>, still: seq<Num<Asked>>, out: seq<Num<real>>, again: seq<nat>, now: real)
    requires Splits(ks, still, out, again, now) && b.num !in ks
    ensures Splits({b.num} + ks, [b] + still, out, again, now)
  {
    assert ([b] + still)[1..] == still;
  }

  lemma SplitOut(ks: set<nat>, n: nat, still: seq<Num<Asked>>, out: seq<Num<real>>, again: seq<nat>, now: real)
    requires Splits(ks, still, out, again, now) && n !in ks
    ensures Splits({n} + ks, still, [Num(n, now)] + out, again, now)
  {
    assert ([Num(n, now)] + out)[1..] == out;
  }

  lemma SplitAgain(ks: set<nat>, b: Num<Asked>, still: seq<Num<Asked>>, out: seq<Num<real>>, again: seq<nat>, now: real)
    requires Splits(ks, still, out, again, now) && b.num !in ks
    ensures Splits({b.num} + ks, [b] + still, out, [b.num] + again, now)
  {
    assert ([b] + still)[1..] == still;
    assert b.num !in again;
    assert multiset([b.num] + again) == multiset{b.num} + multiset(again);
  }

  lemma {:induction false} RepeatsTries(cs: seq<Num<Asked>>, asked: multiset<nat>, now: real, delay: real, maxTries: nat, repaired: Hint -> bool)
    requires Distinct(cs) && TriesMatch(cs, asked, maxTries)
    ensures TriesMatch(StillAsked(cs, now, delay, maxTries, repaired),
                       asked + multiset(Again(cs, now, delay, maxTries, repaired)), maxTries)
  {
    if cs != [] {
      var b, t := cs[0], cs[1..];
      var still, again := StillAsked(t, now, delay, maxTries, repaired), Again(t, now, delay, maxTries, repaired);
      RepeatsTries(t, asked, now, delay, maxTries, repaired);
      RepeatsSplit(t, now, delay, maxTries, repaired);
      assert b in cs;
      if Waiting(b, now, delay) {
        TriesStill(b, still, again, asked, maxTries);
        assert [] + again == again;
      } else if Done(b, maxTries, repaired) {
        assert [] + again == again;
      } else {
        TriesAgain(Num(b.num, Asked(now, b.info.tries + 1, b.info.hint)), still, again, asked, maxTries);
      }
    }
  }

  lemma TriesStill(b: Num<Asked>, still: seq<Num<Asked>>, again: seq<nat>, asked: multiset<nat>, maxTries: nat)
    requires TriesMatch(still, asked + multiset(again), maxTries) && b.num !in again
    requires 1 <= b.info.tries == asked[b.num] <= Max(1, maxTries)
    ensures TriesMatch([b] + still, asked + multiset(again), maxTries)
  {
  }

  lemma TriesAgain(b: Num<Asked>, still: seq<Num<Asked>>, again: seq<nat>, asked: multiset<nat>, maxTries: nat)
    requires TriesMatch(still, asked + multiset(again), maxTries) && b.num !in again && b.num !in Keys(still)
    requires 1 < b.info.tries == asked[b.num] + 1 <= maxTries
    ensures TriesMatch([b] + still, asked + multiset([b.num] + again), maxTries)
  {
    InKeys(still);
    assert multiset([b.num] + again) == multiset{b.num} + multiset(again);
    forall c | c in still ensures c.num != b.num {}
  }

  // ---- The trimmed set ----

  lemma {:induction false} AppendInOrder(ss: seq<Num<real>>, more: seq<Num<real>>, now: real)
    requires InOrder(ss, now) && forall c :: c in more ==> c.info == now
    ensures InOrder(ss + more, now)
    decreases |ss| + |more|
  {
    if ss == [] {
      assert ss + more == more;
      if more != [] {
        AppendInOrder([], more[1..], now);
        assert [] + more[1..] == more[1..];
        assert forall k :: 0 <= k < |more| ==> more[k] in more;
      }
    } else {
      AppendInOrder(ss[1..], more, now);
      var all := ss + more;
      assert all[1..] == ss[1..] + more;
      forall k | 0 <= k < |all| ensures all[0].info <= all[k].info {
        assert k >= |ss| ==> all[k] in more;
      }
    }
  }

  /** Trimming keeps the newest; what is left meets the bound, and nothing in it has outlived the lifetime. */
  lemma {:induction false} TrimBounds(ss: seq<Num<real>>, now: real)
    requires InOrder(ss, now) && Distinct(ss)
    ensures |Trim(ss, now)| <= MAX_SETTLED
    ensures forall c :: c in Trim(ss, now) ==> now - c.info <= CLAIM_TTL_MS
    ensures InOrder(Trim(ss, now), now) && Distinct(Trim(ss, now)) && Keys(Trim(ss, now)) <= Keys(ss)
    ensures |Trim(ss, now)| <= |ss| && Trim(ss, now) == ss[|ss| - |Trim(ss, now)|..]
  {
    if !(ss == [] || (|ss| <= MAX_SETTLED && now - ss[0].info <= CLAIM_TTL_MS)) {
      TrimBounds(ss[1..], now);
    }
  }

  lemma SettledIsTrimmed(st: Seqs, now: real, delay: real, maxTries: nat, repaired: Hint -> bool)
    requires Distinct(st.settled) && InOrder(st.settled, now) && Distinct(st.claimed) && Keys(st.claimed) !! Keys(st.settled)
    ensures var st' := Repeated(st, now, delay, maxTries, repaired);
      && |st'.settled| <= MAX_SETTLED && (forall c :: c in st'.settled ==> now - c.info <= CLAIM_TTL_MS)
      && Distinct(st'.settled) && InOrder(st'.settled, now)
      && Keys(st'.settled) <= Keys(st.settled) + Keys(AskedOut(st.claimed, now, delay, maxTries, repaired))
  {
    var out := AskedOut(st.claimed, now, delay, maxTries, repaired);
    RepeatsSplit(st.claimed, now, delay, maxTries, repaired);
    KeysConcat(st.settled, out);
    AppendInOrder(st.settled, out, now);
    TrimBounds(st.settled + out, now);
  }

  /** What repeats leaves claimed, and whom it asks again. */
  lemma StillIsClaimed(cs: seq<Num<Asked>>, asked: multiset<nat>, now: real, delay: real, maxTries: nat, repaired: Hint -> bool)
    requires Distinct(cs) && TriesMatch(cs, asked, maxTries)
    ensures var still, again := StillAsked(cs, now, delay, maxTries, repaired), Again(cs, now, delay, maxTries, repaired);
      && Distinct(still) && TriesMatch(still, asked + multiset(again), maxTries)
      && Keys(still) <= Keys(cs) && Keys(AskedOut(cs, now, delay, maxTries, repaired)) <= Keys(cs) - Keys(still)
      && forall n :: n in again ==> n in Keys(still)
  {
    RepeatsSplit(cs, now, delay, maxTries, repaired);
    RepeatsTries(cs, asked, now, delay, maxTries, repaired);
  }

  lemma RepeatsKeep(st: Seqs, past: Past, before: real, now: real, delay: real, maxTries: nat, repaired: Hint -> bool)
    requires SeqsOk(st, past, before, maxTries) && before <= now
    ensures var again := Again(st.claimed, now, delay, maxTries, repaired);
      SeqsOk(Repeated(st, now, delay, maxTries, repaired), past.(asked := past.asked + multiset(again)), now, maxTries)
    ensures |Repeated(st, now, delay, maxTries, repaired).settled| <= MAX_SETTLED
    ensures forall c :: c in Repeated(st, now, delay, maxTries, repaired).settled ==> now - c.info <= CLAIM_TTL_MS
  {
    var st', again := Repeated(st, now, delay, maxTries, repaired), Again(st.claimed, now, delay, maxTries, repaired);
    LaterInOrder(st.settled, before, now);
    StillIsClaimed(st.claimed, past.asked, now, delay, maxTries, repaired);
    SettledIsTrimmed(st, now, delay, maxTries, repaired);
    RepeatsKeys(Keys(st.missing), Keys(st.claimed), Keys(st.settled), Keys(st'.claimed), Keys(st'.settled), st.highest,
                past, again, maxTries, st'.claimed);
  }

  lemma RepeatsKeys(m: set<nat>, c: set<nat>, s: set<nat>, c': set<nat>, s': set<nat>, highest: int, past: Past,
                    again: seq<nat>, maxTries: nat, cs: seq<Num<Asked>>)
    requires KeysOk(m, c, s, highest, past, maxTries)
    requires c' <= c && s' <= s + (c - c') && forall n :: n in again ==> n in c'
    requires TriesMatch(cs, past.asked + multiset(again), maxTries) && Keys(cs) == c'
    ensures KeysOk(m, c', s', highest, past.(asked := past.asked + multiset(again)), maxTries)
  {
    forall n ensures (past.asked + multiset(again))[n] <= Max(1, maxTries) {
      if n in again {
        var k := KeyHolder(cs, n);
      } else {
        assert multiset(again)[n] == 0;
      }
    }
    assert forall n :: n in m || n > highest ==> multiset(again)[n] == 0;
  }

  lemma {:induction false} KeyHolder<T>(s: seq<Num<T>>, n: nat) returns (c: Num<T>)
    requires n in Keys(s)
    ensures c in s && c.num == n
  {
    if s[0].num == n { c := s[0]; } else { c := KeyHolder(s[1..], n); }
  }

  // ---- Whole runs ----

  datatype Event =
    | Arrived(n: nat, where: Option<Hint>)
    | Detect(allowance: int, window: real, tail: Option<real>)
    | Repeat(delay: real, repaired: Hint -> bool)

  datatype Run = Run(st: Seqs, past: Past)

  ghost function StepRun(r: Run, e: Event, now: real, maxTries: nat): Run
    requires -1 <= r.st.highest
  {
    match e
    case Arrived(n, where) =>
      Run(Arrive(r.st, n, now, where).0, r.past.(arrived := r.past.arrived + {n}))
    case Detect(allowance, window, tail) =>
      var lost := LostNums(r.st.missing, r.st.highest, now, allowance, window, tail);
      Run(Detected(r.st, lost, now), r.past.(named := r.past.named + multiset(lost), asked := r.past.asked + multiset(lost)))
    case Repeat(delay, repaired) =>
      var again := Again(r.st.claimed, now, delay, maxTries, repaired);
      Run(Repeated(r.st, now, delay, maxTries, repaired), r.past.(asked := r.past.asked + multiset(again)))
  }

  lemma StepKeeps(r: Run, e: Event, before: real, now: real, maxTries: nat)
    requires SeqsOk(r.st, r.past, before, maxTries) && before <= now
    ensures SeqsOk(StepRun(r, e, now, maxTries).st, StepRun(r, e, now, maxTries).past, now, maxTries)
  {
    match e
    case Arrived(n, where) => ArriveKeeps(r.st, r.past, before, n, now, where, maxTries);
    case Detect(allowance, window, tail) => DetectKeeps(r.st, r.past, before, now, allowance, window, tail, maxTries);
    case Repeat(delay, repaired) => RepeatsKeep(r.st, r.past, before, now, delay, maxTries, repaired);
  }

  /** What r becomes after the events, each with the time it happened. */
  ghost predicate Reaches(r: Run, before: real, events: seq<(Event, real)>, maxTries: nat, r': Run)
    decreases |events|
  {
    if events == [] then r' == r
    else -1 <= r.st.highest && before <= events[0].1
         && Reaches(StepRun(r, events[0].0, events[0].1, maxTries), events[0].1, events[1..], maxTries, r')
  }

  /**
   In every run the three lists stay disjoint and hold no number that has
   arrived, detect names each number at most once, and no number is asked for
   more than maxTries times (once, if maxTries is 0).
   */
  lemma {:induction false} EveryRun(r: Run, before: real, events: seq<(Event, real)>, maxTries: nat, r': Run)
    requires SeqsOk(r.st, r.past, before, maxTries)
    requires Reaches(r, before, events, maxTries, r')
    ensures exists now :: SeqsOk(r'.st, r'.past, now, maxTries)
    decreases |events|
  {
    if events != [] {
      StepKeeps(r, events[0].0, before, events[0].1, maxTries);
      EveryRun(StepRun(r, events[0].0, events[0].1, maxTries), events[0].1, events[1..], maxTries, r');
    }
  }

  lemma FromTheStart(events: seq<(Event, real)>, maxTries: nat, r': Run)
    requires Reaches(Run(NewSeqs(), Past({}, multiset{}, multiset{})), 0.0, events, maxTries, r')
    ensures Keys(r'.st.missing) !! Keys(r'.st.claimed) && Keys(r'.st.missing) !! Keys(r'.st.settled)
    ensures Keys(r'.st.claimed) !! Keys(r'.st.settled)
    ensures (Keys(r'.st.missing) + Keys(r'.st.claimed) + Keys(r'.st.settled)) !! r'.past.arrived
    ensures forall n :: n in Keys(r'.st.missing) + Keys(r'.st.claimed) + Keys(r'.st.settled) ==> n <= r'.st.highest
    ensures forall n :: r'.past.named[n] <= 1 && r'.past.asked[n] <= Max(1, maxTries)
  {
    EveryRun(Run(NewSeqs(), Past({}, multiset{}, multiset{})), 0.0, events, maxTries, r');
  }

  // ---- ranges ----

  function InsertNum(n: nat, nums: seq<nat>): seq<nat> {
    if nums == [] || n <= nums[0] then [n] + nums else [nums[0]] + InsertNum(n, nums[1..])
  }

  function SortNums(nums: seq<nat>): seq<nat> {
    if nums == [] then [] else InsertNum(nums[0], SortNums(nums[1..]))
  }

  predicate Ascending(nums: seq<nat>) {
    nums == [] || ((|nums| > 1 ==> nums[0] < nums[1]) && Ascending(nums[1..]))
  }

  /** The ranges of cur and the ascending numbers after it, each at most maxRange wide. */
  function GroupFrom(cur: Range, nums: seq<nat>, maxRange: nat): seq<Range>
    decreases |nums|
  {
    if nums == [] then [cur]
    else if cur.end == nums[0] && cur.end - cur.start < maxRange then
      GroupFrom(Range(cur.start, nums[0] + 1), nums[1..], maxRange)
    else [cur] + GroupFrom(Range(nums[0], nums[0] + 1), nums[1..], maxRange)
  }

  function Grouped(nums: seq<nat>, maxRange: nat): seq<Range> {
    if nums == [] then [] else GroupFrom(Range(nums[0], nums[0] + 1), nums[1..], maxRange)
  }

  function Ranges(nums: seq<nat>, maxRange: nat): seq<Range> { Grouped(SortNums(nums), maxRange) }

  /** Ranges touch only where the first is as wide as allowed: no shorter list would do. */
  predicate Greedy(rs: seq<Range>, maxRange: nat) {
    |rs| <= 1 || ((rs[0].end == rs[1].start ==> rs[0].end - rs[0].start == maxRange) && Greedy(rs[1..], maxRange))
  }

  predicate Narrow(rs: seq<Range>, maxRange: nat) {
    forall r :: r in rs ==> r.end - r.start <= maxRange
  }

  lemma {:induction false} InsertAscends(n: nat, nums: seq<nat>)
    requires Ascending(nums) && n !in nums
    ensures Ascending(InsertNum(n, nums))
    ensures forall k :: k in InsertNum(n, nums) <==> k == n || k in nums
  {
    if nums != [] {
      assert nums == [nums[0]] + nums[1..];
      if n > nums[0] {
        InsertAscends(n, nums[1..]);
        var t := InsertNum(n, nums[1..]);
        assert InsertNum(n, nums)[1..] == t;
        assert t[0] == n || t[0] == nums[1];
      } else {
        assert ([n] + nums)[1..] == nums;
      }
    }
  }

  lemma {:induction false} SortAscends(nums: seq<nat>)
    requires forall n :: multiset(nums)[n] <= 1
    ensures Ascending(SortNums(nums))
    ensures forall k :: k in SortNums(nums) <==> k in nums
  {
    if nums != [] {
      assert nums == [nums[0]] + nums[1..];
      forall n ensures multiset(nums[1..])[n] <= 1 {
        assert multiset(nums)[n] == multiset([nums[0]])[n] + multiset(nums[1..])[n];
      }
      assert nums[0] !in nums[1..] by { assert multiset(nums)[nums[0]] == 1 + multiset(nums[1..])[nums[0]]; }
      SortAscends(nums[1..]);
      InsertAscends(nums[0], SortNums(nums[1..]));
    }
  }

  lemma {:induction false} GroupFromOk(cur: Range, nums: seq<nat>, maxRange: nat, hi: int)
    requires 0 <= cur.start < cur.end <= hi && cur.end - cur.start <= maxRange
    requires Ascending(nums) && (nums != [] ==> cur.end <= nums[0]) && forall n :: n in nums ==> n < hi
    ensures var rs := GroupFrom(cur, nums, maxRange);
      && rs != [] && rs[0].start == cur.start
      && Disjoint(rs, cur.start, hi) && Narrow(rs, maxRange) && Greedy(rs, maxRange)
      && forall n: nat :: n in Covered(rs) <==> cur.start <= n < cur.end || n in nums
    decreases |nums|
  {
    if nums != [] {
      var n, t := nums[0], nums[1..];
      assert nums == [n] + t && n in nums;
      forall k | k in t ensures k < hi { assert k in nums; }
      if cur.end == n && cur.end - cur.start < maxRange {
        GroupFromOk(Range(cur.start, n + 1), t, maxRange, hi);
      } else {
        GroupFromOk(Range(n, n + 1), t, maxRange, hi);
        var tail := GroupFrom(Range(n, n + 1), t, maxRange);
        assert GroupFrom(cur, nums, maxRange)[1..] == tail;
        DisjointWiden(tail, n, cur.end, hi);
      }
    }
  }

  /** The ranges cover exactly the numbers, in order, each at most maxRange wide, and as few as that allows. */
  lemma RangesCover(nums: seq<nat>, maxRange: nat, hi: int)
    requires maxRange >= 1 && (forall n :: multiset(nums)[n] <= 1) && forall n :: n in nums ==> n < hi
    ensures var rs := Ranges(nums, maxRange);
      && Disjoint(rs, 0, hi) && Narrow(rs, maxRange) && Greedy(rs, maxRange)
      && forall n: nat :: n in Covered(rs) <==> n in nums
  {
    var s := SortNums(nums);
    SortAscends(nums);
    if s != [] {
      assert s == [s[0]] + s[1..] && s[0] in s;
      forall k | k in s[1..] ensures k < hi { assert k in s; }
      GroupFromOk(Range(s[0], s[0] + 1), s[1..], maxRange, hi);
      DisjointWiden(Ranges(nums, maxRange), s[0], 0, hi);
    }
  }

  method MakeRanges(nums: seq<nat>, maxRange: nat) returns (out: seq<Range>)
    ensures out == Ranges(nums, maxRange)
  {
    var sorted := SortNums(nums);
    out := [];
    ghost var rest := sorted;
    for i := 0 to |sorted|
      invariant rest == sorted[i..]
      invariant if out == [] then i == 0 else
        out[..|out| - 1] + GroupFrom(out[|out| - 1], rest, maxRange) == Grouped(sorted, maxRange)
    {
      var s, k := sorted[i], |out| - 1;
      if out != [] && out[k].end == s && out[k].end - out[k].start < maxRange {
        out := out[..k] + [out[k].(end := s + 1)];
      } else {
        if out != [] { Shift(out[..k], [out[k]], GroupFrom(Range(s, s + 1), rest[1..], maxRange)); }
        assert out == [] || out == out[..k] + [out[k]];
        out := out + [Range(s, s + 1)];
      }
      rest := rest[1..];
    }
  }

  // ---- The class ----

  class SeqTracker {
    var highest: int
    var last: Option<Hint>
    var missing: seq<Num<Gone>>
    var claimed: seq<Num<Asked>>
    var settled: seq<Num<real>>

    ghost function State(): Seqs
      reads this
    {
      Seqs(highest, last, missing, claimed, settled)
    }

    ghost predicate Valid()
      reads this
    {
      ListsOk(State())
    }

    constructor ()
      ensures Valid() && State() == NewSeqs()
    {
      highest, last, missing, claimed, settled := -1, None, [], [], [];
    }

    method Arrives(n: nat, now: real, where: Option<Hint>) returns (r: Arrival)
      requires Valid()
      modifies this
      ensures Valid()
      ensures (State(), r) == Arrive(old(State()), n, now, where)
    {
      ArriveApart(State(), n, now, where);
      if n > highest {
        var more := [];
        if n - highest - 1 <= MAX_GAP {
          more := FillTo(highest + 1, n, Gone(now, GapHint(Seqs(highest, last, missing, claimed, settled), n, where)));
        }
        missing, highest, last := missing + more, n, where;
        return New;
      }
      if n in Keys(missing) { missing := Minus(missing, {n}); return Reordered; }
      if n in Keys(claimed) { claimed := Minus(claimed, {n}); return Spurious; }
      if n in Keys(settled) { settled := Minus(settled, {n}); return Spurious; }
      return Duplicate;
    }

    /** The loop that marks every number between the highest and a new higher one. */
    static method FillTo(from: nat, upto: nat, g: Gone) returns (more: seq<Num<Gone>>)
      requires from <= upto
      ensures more == Fill(from, upto, g)
    {
      more := [];
      var s := from;
      while s < upto
        invariant from <= s <= upto
        invariant more + Fill(s, upto, g) == Fill(from, upto, g)
      {
        Shift(more, [Num(s, g)], Fill(s + 1, upto, g));
        more := more + [Num(s, g)];
        s := s + 1;
      }
    }

    method Detects(now: real, allowance: int, window: real, tail: Option<real>, maxRange: nat) returns (rs: seq<Range>)
      requires Valid()
      modifies this
      ensures Valid()
      ensures State() == Detected(old(State()), LostNums(old(missing), highest, now, allowance, window, tail), now)
      ensures rs == Ranges(LostNums(old(missing), highest, now, allowance, window, tail), maxRange)
    {
      var lost := Losses(missing, highest, now, allowance, window, tail);
      LostAreMissing(missing, highest, now, allowance, window, tail);
      DetectApart(State(), lost, now);
      var asks;
      missing, asks := Take(missing, lost, now);
      claimed := claimed + asks;
      rs := MakeRanges(lost, maxRange);
    }

    static method Losses(missing: seq<Num<Gone>>, highest: int, now: real, allowance: int, window: real, tail: Option<real>)
      returns (lost: seq<nat>)
      ensures lost == LostNums(missing, highest, now, allowance, window, tail)
    {
      lost := [];
      ghost var rest := missing;
      for i := 0 to |missing|
        invariant rest == missing[i..]
        invariant lost + LostNums(rest, highest, now, allowance, window, tail)
                  == LostNums(missing, highest, now, allowance, window, tail)
      {
        var m := missing[i];
        LossStep(lost, rest, highest, now, allowance, window, tail);
        if IsLost(m, highest, now, allowance, window, tail) { lost := lost + [m.num]; }
        rest := rest[1..];
      }
    }

    /** The second loop of detect: each lost number leaves missing and is asked for once. */
    static method Take(missing: seq<Num<Gone>>, lost: seq<nat>, now: real)
      returns (left: seq<Num<Gone>>, asks: seq<Num<Asked>>)
      requires forall n :: multiset(lost)[n] <= 1
      ensures left == Minus(missing, SetOf(lost)) && asks == FirstAsk(lost, missing, now)
    {
      left, asks := missing, [];
      ghost var rest := lost;
      MinusNone(missing);
      assert SetOf(lost[..0]) == {};
      for i := 0 to |lost|
        invariant rest == lost[i..]
        invariant left == Minus(missing, SetOf(lost[..i]))
        invariant asks + FirstAsk(rest, missing, now) == FirstAsk(lost, missing, now)
      {
        var s := lost[i];
        OnceOnly(lost, i);
        MinusKeys(missing, SetOf(lost[..i]));
        var f := Find(left, s);
        var ask := Num(s, Asked(now, 1, if f.Some? then f.value.hint else None));
        Shift(asks, [ask], FirstAsk(rest[1..], missing, now));
        asks := asks + [ask];
        MinusMinus(missing, SetOf(lost[..i]), {s});
        left := Minus(left, {s});
        assert SetOf(lost[..i + 1]) == SetOf(lost[..i]) + {s};
        rest := rest[1..];
      }
      assert lost[..|lost|] == lost;
    }

    method Repeats(now: real, delay: real, maxTries: nat, repaired: Hint -> bool, maxRange: nat) returns (rs: seq<Range>)
      requires Valid()
      modifies this
      ensures Valid()
      ensures State() == Repeated(old(State()), now, delay, maxTries, repaired)
      ensures rs == Ranges(Again(old(claimed), now, delay, maxTries, repaired), maxRange)
    {
      var still, out, again := AskAgain(claimed, now, delay, maxTries, repaired);
      RepeatApart(State(), now, delay, maxTries, repaired);
      claimed := still;
      settled := DropOldest(settled + out, now);
      rs := MakeRanges(again, maxRange);
    }

    /** The loop that bounds the settled set, oldest first. */
    static method DropOldest(settled: seq<Num<real>>, now: real) returns (left: seq<Num<real>>)
      ensures left == Trim(settled, now)
    {
      left := settled;
      while left != [] && !(|left| <= MAX_SETTLED && now - left[0].info <= CLAIM_TTL_MS)
        invariant Trim(left, now) == Trim(settled, now)
        decreases |left|
      {
        left := left[1..];
      }
    }

    /** The loop over the claimed numbers: wait, give up, or ask again. */
    static method AskAgain(claimed: seq<Num<Asked>>, now: real, delay: real, maxTries: nat, repaired: Hint -> bool)
      returns (still: seq<Num<Asked>>, out: seq<Num<real>>, due: seq<nat>)
      ensures still == StillAsked(claimed, now, delay, maxTries, repaired)
      ensures out == AskedOut(claimed, now, delay, maxTries, repaired)
      ensures due == Again(claimed, now, delay, maxTries, repaired)
    {
      still, out, due := [], [], [];
      ghost var rest := claimed;
      for i := 0 to |claimed|
        invariant rest == claimed[i..]
        invariant still + StillAsked(rest, now, delay, maxTries, repaired) == StillAsked(claimed, now, delay, maxTries, repaired)
        invariant out + AskedOut(rest, now, delay, maxTries, repaired) == AskedOut(claimed, now, delay, maxTries, repaired)
        invariant due + Again(rest, now, delay, maxTries, repaired) == Again(claimed, now, delay, maxTries, repaired)
      {
        var c := claimed[i];
        if Waiting(c, now, delay) {
          Shift(still, [c], StillAsked(rest[1..], now, delay, maxTries, repaired));
          still := still + [c];
        } else if Done(c, maxTries, repaired) {
          Shift(out, [Num(c.num, now)], AskedOut(rest[1..], now, delay, maxTries, repaired));
          out := out + [Num(c.num, now)];
        } else {
          var c' := Num(c.num, Asked(now, c.info.tries + 1, c.info.hint));
          Shift(still, [c'], StillAsked(rest[1..], now, delay, maxTries, repaired));
          Shift(due, [c.num], Again(rest[1..], now, delay, maxTries, repaired));
          still := still + [c'];
          due := due + [c.num];
        }
        NoneOf(rest, now, delay, maxTries, repaired);
        rest := rest[1..];
      }
    }
  }

  lemma AppendApart(st: Seqs, n: nat, where: Option<Hint>, more: seq<Num<Gone>>)
    requires ListsOk(st) && n > st.highest && Distinct(more) && forall k :: k in Keys(more) ==> st.highest < k < n
    ensures ListsOk(st.(highest := n, last := where, missing := st.missing + more))
  {
    KeysConcat(st.missing, more);
  }

  lemma JumpApart(st: Seqs, n: nat, now: real, where: Option<Hint>)
    requires ListsOk(st) && n > st.highest
    ensures ListsOk(Arrive(st, n, now, where).0)
  {
    var g := Gone(now, GapHint(st, n, where));
    FillKeys(st.highest + 1, n, g);
    AppendApart(st, n, where, if n - st.highest - 1 <= MAX_GAP then Fill(st.highest + 1, n, g) else []);
  }

  lemma ArriveApart(st: Seqs, n: nat, now: real, where: Option<Hint>)
    requires ListsOk(st)
    ensures ListsOk(Arrive(st, n, now, where).0)
  {
    if n > st.highest {
      JumpApart(st, n, now, where);
    } else {
      MinusKeys(st.missing, {n});
      MinusKeys(st.claimed, {n});
      MinusKeys(st.settled, {n});
    }
  }

  lemma DetectApart(st: Seqs, lost: seq<nat>, now: real)
    requires ListsOk(st) && (forall n :: n in lost ==> n in Keys(st.missing)) && forall n :: multiset(lost)[n] <= 1
    ensures ListsOk(Detected(st, lost, now))
  {
    FirstAskKeys(lost, st.missing, now);
    MinusKeys(st.missing, SetOf(lost));
    KeysConcat(st.claimed, FirstAsk(lost, st.missing, now));
  }

  lemma {:induction false} TrimApart(ss: seq<Num<real>>, now: real)
    requires Distinct(ss)
    ensures Distinct(Trim(ss, now)) && Keys(Trim(ss, now)) <= Keys(ss)
  {
    if !(ss == [] || (|ss| <= MAX_SETTLED && now - ss[0].info <= CLAIM_TTL_MS)) { TrimApart(ss[1..], now); }
  }

  /** A number given up leaves the claimed list for the settled one. */
  lemma RepeatApart(st: Seqs, now: real, delay: real, maxTries: nat, repaired: Hint -> bool)
    requires ListsOk(st)
    ensures ListsOk(Repeated(st, now, delay, maxTries, repaired))
  {
    var out := AskedOut(st.claimed, now, delay, maxTries, repaired);
    RepeatsSplit(st.claimed, now, delay, maxTries, repaired);
    KeysConcat(st.settled, out);
    TrimApart(st.settled + out, now);
  }

  lemma LossStep(lost: seq<nat>, rest: seq<Num<Gone>>, highest: int, now: real, allowance: int, window: real, tail: Option<real>)
    requires rest != []
    ensures lost + LostNums(rest, highest, now, allowance, window, tail)
            == (if IsLost(rest[0], highest, now, allowance, window, tail) then lost + [rest[0].num] else lost)
               + LostNums(rest[1..], highest, now, allowance, window, tail)
  {
    Shift(lost, if IsLost(rest[0], highest, now, allowance, window, tail) then [rest[0].num] else [],
          LostNums(rest[1..], highest, now, allowance, window, tail));
  }

  lemma MinusNone<T>(s: seq<Num<T>>)
    ensures Minus(s, {}) == s
  {
    if s != [] { MinusNone(s[1..]); }
  }

  lemma OnceOnly(nums: seq<nat>, i: nat)
    requires i < |nums| && forall n :: multiset(nums)[n] <= 1
    ensures nums[i] !in nums[..i]
  {
    assert nums == nums[..i] + [nums[i]] + nums[i + 1..];
    assert multiset(nums)[nums[i]] == multiset(nums[..i])[nums[i]] + 1 + multiset(nums[i + 1..])[nums[i]];
  }

  /** The lists a claimed number does not go to are those of the rest. */
  lemma NoneOf(cs: seq<Num<Asked>>, now: real, delay: real, maxTries: nat, repaired: Hint -> bool)
    requires cs != []
    ensures Waiting(cs[0], now, delay) || !Done(cs[0], maxTries, repaired) ==>
              AskedOut(cs, now, delay, maxTries, repaired) == AskedOut(cs[1..], now, delay, maxTries, repaired)
    ensures Waiting(cs[0], now, delay) || Done(cs[0], maxTries, repaired) ==>
              Again(cs, now, delay, maxTries, repaired) == Again(cs[1..], now, delay, maxTries, repaired)
  {
  }
}
