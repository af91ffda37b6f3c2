/**
 Session-wide loss detection, one number at a time. The tracker keeps three maps
 in insertion order; what becomes of a number depends only on the history of
 arrivals and calls, and is given here without them.
 */
module SeqFates {
  import opened Intervals
  import opened SeqTracking

  /** Ahead of all that arrived; missing; asked for; or no longer of interest. */
  datatype Fate = Unseen | Gap(since: real, hint: Option<Hint>) | Wanted(at: real, tries: nat, hint: Option<Hint>) | Over

  /** A history: the highest number that arrived, what it carried, and the fate of each number. */
  datatype Known = Known(highest: int, last: Option<Hint>, fate: Fate)

  function FateOf(st: Seqs, n: nat): Fate {
    if n > st.highest then Unseen
    else
      var m, c := Find(st.missing, n), Find(st.claimed, n);
      if m.Some? then Gap(m.value.since, m.value.hint)
      else if c.Some? then Wanted(c.value.at, c.value.tries, c.value.hint)
      else Over
  }

  /** The bytes a gap probably carried: those between its neighbours, if both are of one transfer. */
  function Between(last: Option<Hint>, where: Option<Hint>, gap: int): Option<Hint> {
    if gap > 0 && last.Some? && where.Some? && last.value.rpc == where.value.rpc && last.value.end < where.value.start
    then Some(Hint(where.value.rpc, last.value.end, where.value.start)) else None
  }

  /** A number arrives: those it jumps over are gaps from now on, unless the jump is more than 4096 wide. */
  function Jumped(k: Known, n: nat, m: nat, now: real, where: Option<Hint>): Fate {
    var gap := m - k.highest - 1;
    if n == m then Over
    else if n > m then Unseen
    else if n <= k.highest then k.fate
    else if gap <= 4096 then Gap(now, Between(k.last, where, gap))
    else Over
  }

  predicate TooLong(f: Fate, highest: int, n: nat, now: real, allowance: int, window: real, tail: Option<real>) {
    && f.Gap?
    && (   (highest - n >= allowance && now - f.since >= window)
        || (tail.Some? && now - f.since >= tail.value))
  }

  /** Asked for long enough ago, not often enough, and not known to have been repaired. */
  predicate AskedAgain(f: Fate, now: real, delay: real, maxTries: nat, repaired: Hint -> bool) {
    f.Wanted? && now - f.at >= delay && f.tries < maxTries && (f.hint.Some? ==> !repaired(f.hint.value))
  }

  function Next(k: Known, n: nat, e: Event, now: real, maxTries: nat): Known {
    match e
    case Arrived(m, where) =>
      if m > k.highest then Known(m, where, Jumped(k, n, m, now, where))
      else if n == m then k.(fate := Over)
      else k
    case Detect(allowance, window, tail) =>
      if TooLong(k.fate, k.highest, n, now, allowance, window, tail) then k.(fate := Wanted(now, 1, k.fate.hint)) else k
    case Repeat(delay, repaired) =>
      if AskedAgain(k.fate, now, delay, maxTries, repaired) then k.(fate := Wanted(now, k.fate.tries + 1, k.fate.hint))
      else if k.fate.Wanted? && now - k.fate.at >= delay then k.(fate := Over)
      else k
  }

  /** What a history of arrivals and calls makes of number n. */
  function History(k: Known, events: seq<(Event, real)>, n: nat, maxTries: nat): Known
    decreases |events|
  {
    if events == [] then k else History(Next(k, n, events[0].0, events[0].1, maxTries), events[1..], n, maxTries)
  }

  // ---- Finding in the maps ----

  lemma {:induction false} FindKeys<T>(s: seq<Num<T>>, n: nat)
    ensures Find(s, n).Some? <==> n in Keys(s)
  {
    if s != [] { FindKeys(s[1..], n); }
  }

  lemma FindMinus<T>(s: seq<Num<T>>, ks: set<nat>, n: nat)
    ensures Find(Minus(s, ks), n) == if n in ks then None else Find(s, n)
  {
    MinusKeys(s, ks);
    FindKeys(Minus(s, ks), n);
  }

  lemma {:induction false} FindFill(from: int, upto: nat, g: Gone, n: nat)
    requires 0 <= from
    ensures Find(Fill(from, upto, g), n) == if from <= n < upto then Some(g) else None
    decreases upto - from
  {
    if from < upto {
      FindFill(from + 1, upto, g, n);
      assert Fill(from, upto, g)[1..] == Fill(from + 1, upto, g);
    }
  }

  lemma {:induction false} FindFirstAsk(nums: seq<nat>, ms: seq<Num<Gone>>, now: real, n: nat)
    ensures Find(FirstAsk(nums, ms, now), n)
            == if n in nums then Some(Asked(now, 1, if Find(ms, n).Some? then Find(ms, n).value.hint else None)) else None
    decreases |nums|
  {
    if nums != [] {
      FindFirstAsk(nums[1..], ms, now, n);
      assert FirstAsk(nums, ms, now)[1..] == FirstAsk(nums[1..], ms, now);
      assert nums == [nums[0]] + nums[1..];
    }
  }

  lemma {:induction false} LostIsTooLong(ms: seq<Num<Gone>>, highest: int, now: real, allowance: int, window: real, tail: Option<real>, n: nat)
    requires Distinct(ms)
    ensures n in LostNums(ms, highest, now, allowance, window, tail) <==>
      Find(ms, n).Some? && TooLong(Gap(Find(ms, n).value.since, Find(ms, n).value.hint), highest, n, now, allowance, window, tail)
  {
    if ms != [] {
      LostIsTooLong(ms[1..], highest, now, allowance, window, tail, n);
      FindKeys(ms[1..], ms[0].num);
      FindKeys(ms[1..], n);
      LostAreMissing(ms[1..], highest, now, allowance, window, tail);
    }
  }

  /** What one more call of repeats makes of a number asked for. */
  function Kept(c: Asked, now: real, delay: real, maxTries: nat, repaired: Hint -> bool): Option<Asked> {
    if now - c.at < delay then Some(c)
    else if c.tries < maxTries && (c.hint.Some? ==> !repaired(c.hint.value)) then Some(Asked(now, c.tries + 1, c.hint))
    else None
  }

  lemma {:induction false} FindStill(cs: seq<Num<Asked>>, now: real, delay: real, maxTries: nat, repaired: Hint -> bool, n: nat)
    requires Distinct(cs)
    ensures Find(StillAsked(cs, now, delay, maxTries, repaired), n)
            == if Find(cs, n).Some? then Kept(Find(cs, n).value, now, delay, maxTries, repaired) else None
    ensures n in Again(cs, now, delay, maxTries, repaired) <==>
      && Find(cs, n).Some? && now - Find(cs, n).value.at >= delay && Find(cs, n).value.tries < maxTries
      && (Find(cs, n).value.hint.Some? ==> !repaired(Find(cs, n).value.hint.value))
  {
    if cs != [] {
      var c, rest := cs[0], StillAsked(cs[1..], now, delay, maxTries, repaired);
      FindStill(cs[1..], now, delay, maxTries, repaired, n);
      FindKeys(cs[1..], c.num);
      RepeatsSplit(cs[1..], now, delay, maxTries, repaired);
      FindKeys(rest, n);
      StillStep(cs, now, delay, maxTries, repaired);
    }
  }

  lemma StillStep(cs: seq<Num<Asked>>, now: real, delay: real, maxTries: nat, repaired: Hint -> bool)
    requires cs != []
    ensures var c, rest := cs[0], StillAsked(cs[1..], now, delay, maxTries, repaired);
      var k := Kept(c.info, now, delay, maxTries, repaired);
      StillAsked(cs, now, delay, maxTries, repaired) == (if k.Some? then [Num(c.num, k.value)] + rest else rest)
  {
  }

  // ---- One step ----

  lemma ArriveFate(st: Seqs, n: nat, m: nat, now: real, where: Option<Hint>)
    requires ListsOk(st)
    ensures var st' := Arrive(st, m, now, where).0;
      Known(st'.highest, st'.last, FateOf(st', n)) == Next(Known(st.highest, st.last, FateOf(st, n)), n, Arrived(m, where), now, 0)
  {
    FindKeys(st.missing, n);
    FindKeys(st.claimed, n);
    if m > st.highest {
      JumpFate(st, n, m, now, where);
    } else {
      FindMinus(st.missing, {m}, n);
      FindMinus(st.claimed, {m}, n);
      FindKeys(st.missing, m);
      FindKeys(st.claimed, m);
    }
  }

  lemma JumpFate(st: Seqs, n: nat, m: nat, now: real, where: Option<Hint>)
    requires ListsOk(st) && m > st.highest
    ensures FateOf(Arrive(st, m, now, where).0, n) == Jumped(Known(st.highest, st.last, FateOf(st, n)), n, m, now, where)
  {
    var g := Gone(now, GapHint(st, m, where));
    var more := if m - st.highest - 1 <= MAX_GAP then Fill(st.highest + 1, m, g) else [];
    FindFill(st.highest + 1, m, g, n);
    KeysConcat(st.missing, more);
    FindKeys(st.missing, n);
    FindKeys(st.claimed, n);
  }

  lemma DetectFate(st: Seqs, n: nat, now: real, allowance: int, window: real, tail: Option<real>)
    requires ListsOk(st)
    ensures var lost := LostNums(st.missing, st.highest, now, allowance, window, tail); var k := Known(st.highest, st.last, FateOf(st, n));
      && Known(st.highest, st.last, FateOf(Detected(st, lost, now), n)) == Next(k, n, Detect(allowance, window, tail), now, 0)
      && (n in lost <==> TooLong(FateOf(st, n), st.highest, n, now, allowance, window, tail))
  {
    var lost := LostNums(st.missing, st.highest, now, allowance, window, tail);
    LostIsTooLong(st.missing, st.highest, now, allowance, window, tail, n);
    FindMinus(st.missing, SetOf(lost), n);
    FindFirstAsk(lost, st.missing, now, n);
    KeysConcat(st.claimed, FirstAsk(lost, st.missing, now));
    FindKeys(st.missing, n);
    FindKeys(st.claimed, n);
  }

  lemma RepeatFate(st: Seqs, n: nat, now: real, delay: real, maxTries: nat, repaired: Hint -> bool)
    requires ListsOk(st)
    ensures var k := Known(st.highest, st.last, FateOf(st, n));
      && Known(st.highest, st.last, FateOf(Repeated(st, now, delay, maxTries, repaired), n)) == Next(k, n, Repeat(delay, repaired), now, maxTries)
      && (n in Again(st.claimed, now, delay, maxTries, repaired) <==> AskedAgain(FateOf(st, n), now, delay, maxTries, repaired))
  {
    FindStill(st.claimed, now, delay, maxTries, repaired, n);
    FindKeys(st.missing, n);
    FindKeys(st.claimed, n);
  }

  // ---- Whole runs ----

  function KnownOf(st: Seqs, n: nat): Known { Known(st.highest, st.last, FateOf(st, n)) }

  lemma StepFate(r: Run, e: Event, before: real, now: real, maxTries: nat, n: nat)
    requires SeqsOk(r.st, r.past, before, maxTries) && before <= now
    ensures KnownOf(StepRun(r, e, now, maxTries).st, n) == Next(KnownOf(r.st, n), n, e, now, maxTries)
  {
    match e
    case Arrived(m, where) => ArriveFate(r.st, n, m, now, where);
    case Detect(allowance, window, tail) => DetectFate(r.st, n, now, allowance, window, tail);
    case Repeat(delay, repaired) => RepeatFate(r.st, n, now, delay, maxTries, repaired);
  }

  lemma {:induction false} RunFate(r: Run, before: real, events: seq<(Event, real)>, maxTries: nat, r': Run, n: nat)
    requires SeqsOk(r.st, r.past, before, maxTries) && Reaches(r, before, events, maxTries, r')
    ensures KnownOf(r'.st, n) == History(KnownOf(r.st, n), events, n, maxTries)
    decreases |events|
  {
    if events != [] {
      StepKeeps(r, events[0].0, before, events[0].1, maxTries);
      StepFate(r, events[0].0, before, events[0].1, maxTries, n);
      RunFate(StepRun(r, events[0].0, events[0].1, maxTries), events[0].1, events[1..], maxTries, r', n);
    }
  }

  /** In every run the tracker's three maps hold exactly what the history makes of each number on its own. */
  lemma EachNumberOnItsOwn(events: seq<(Event, real)>, maxTries: nat, r': Run, n: nat)
    requires Reaches(Run(NewSeqs(), SeqTracking.Past({}, multiset{}, multiset{})), 0.0, events, maxTries, r')
    ensures KnownOf(r'.st, n) == History(Known(-1, None, Unseen), events, n, maxTries)
  {
    RunFate(Run(NewSeqs(), SeqTracking.Past({}, multiset{}, multiset{})), 0.0, events, maxTries, r', n);
  }

  // ---- What is said of an arrival, and what is kept of the numbers given up ----

  /** A number is new, late, late after it was asked for, or a duplicate. */
  lemma ArrivalIs(st: Seqs, n: nat, now: real, where: Option<Hint>)
    requires ListsOk(st)
    ensures Arrive(st, n, now, where).1 ==
      match FateOf(st, n)
      case Unseen => New
      case Gap(_, _) => Reordered
      case Wanted(_, _, _) => Spurious
      case Over => if n in Keys(st.settled) then Spurious else Duplicate
  {
    FindKeys(st.missing, n);
    FindKeys(st.claimed, n);
  }

  /** Of the numbers given up the oldest go, and only while there are more than 8192 or they are older than 30 seconds. */
  lemma {:induction false} TrimIsTight(ss: seq<Num<real>>, now: real)
    ensures var r := Trim(ss, now);
      && |r| <= |ss| && r == ss[|ss| - |r|..]
      && (r == [] || (|r| <= 8192 && now - r[0].info <= 30000.0))
      && (|r| < |ss| ==> |r| + 1 > 8192 || now - ss[|ss| - |r| - 1].info > 30000.0)
  {
    if !(ss == [] || (|ss| <= MAX_SETTLED && now - ss[0].info <= CLAIM_TTL_MS)) { TrimIsTight(ss[1..], now); }
  }

  /** A number given up for good joins the end of those kept to spot a late original. */
  lemma GivenUpIsKept(st: Seqs, now: real, delay: real, maxTries: nat, repaired: Hint -> bool, n: nat)
    requires ListsOk(st) && FateOf(st, n).Wanted? && now - FateOf(st, n).at >= delay && !AskedAgain(FateOf(st, n), now, delay, maxTries, repaired)
    ensures var out := AskedOut(st.claimed, now, delay, maxTries, repaired);
      n in Keys(out) && Repeated(st, now, delay, maxTries, repaired).settled == Trim(st.settled + out, now)
  {
    FindKeys(st.missing, n);
    FindKeys(st.claimed, n);
    RepeatsSplit(st.claimed, now, delay, maxTries, repaired);
    FindStill(st.claimed, now, delay, maxTries, repaired, n);
    FindKeys(StillAsked(st.claimed, now, delay, maxTries, repaired), n);
  }
}
