/**
 Session-wide detection as the client runs it: which numbers a step asks for, and
 what it makes of each number, told by the history of that number alone.
 */
module ClientSeqs {
  import opened Intervals
  import opened Packets
  import opened Clients
  import opened ClientRuns
  import opened ClientSteps
  import opened ClientAsks
  import opened SeqFates
  import CH = ClientHistory
  import CN = ClientNumbers
  import CP = ClientRepairs
  import A = Reassemblies
  import Q = SeqTracking

  /** The packet asks for number n. */
  predicate Names(p: Packet, n: nat) { p.ResendSeq? && p.start <= n < p.end }

  ghost predicate AsksFor(c: Client, c': Client, n: nat) { exists p :: Wrote(c, c', p) && Names(p, n) }

  lemma {:induction false} PacketsName(rs: seq<Range>, n: nat, lo: int, hi: int)
    requires Disjoint(rs, lo, hi) && 0 <= lo
    ensures n in Covered(rs) <==> exists p :: p in ResendSeqs(rs) && Names(p, n)
    decreases |rs|
  {
    if rs != [] {
      PacketsName(rs[1..], n, rs[0].end, hi);
      var first, rest := ResendSeq(0, Max(0, rs[0].start), Max(0, rs[0].end)), ResendSeqs(rs[1..]);
      assert ResendSeqs(rs) == [first] + rest;
      assert first in ResendSeqs(rs);
      if exists p :: p in rest && Names(p, n) {
        var p :| p in rest && Names(p, n);
        assert p in ResendSeqs(rs);
      }
    }
  }

  /** Whether the bytes a hint names have all arrived, or their transfer is over. */
  ghost predicate Arrived(transfers: map<nat, Transfer>, h: Q.Hint) {
    h.rpc !in transfers
    || (transfers[h.rpc].asm.Some?
        && forall x :: h.start <= x < h.end && 0 <= x < transfers[h.rpc].asm.value.size ==> x in transfers[h.rpc].asm.value.got)
  }

  /** The gaps below a hint's end show exactly whether its bytes have arrived. */
  lemma RepairedIsArrived(transfers: map<nat, Transfer>, h: Q.Hint)
    ensures Repaired(transfers, h) <==> Arrived(transfers, h)
  {
    if h.rpc in transfers && transfers[h.rpc].asm.Some? {
      var m := transfers[h.rpc].asm.value;
      var limit := Min(h.end, m.size);
      var gaps := A.Missing(m, limit);
      GapsAreMissing(m.got, 0, limit);
      CanonicalIsDisjoint(gaps, 0, 0, limit);
      forall g | g in gaps ensures g.start < g.end && Offsets(g.start, g.end) <= Covered(gaps) { GapCovers(gaps, g, 0, limit); }
      if Repaired(transfers, h) {
        forall x | x in Covered(gaps) ensures x < h.start { var g := GapOf(gaps, x); }
        assert forall x :: 0 <= x < limit && x !in m.got ==> x in Covered(gaps);
      } else {
        var g :| g in gaps && g.end > h.start;
        var x := Max(g.start, h.start);
        assert x in Offsets(g.start, g.end);
        assert x in Covered(gaps);
      }
    }
  }

  lemma {:induction false} GapCovers(gaps: seq<Range>, g: Range, lo: int, hi: int)
    requires Disjoint(gaps, lo, hi) && g in gaps
    ensures g.start < g.end && Offsets(g.start, g.end) <= Covered(gaps)
    decreases |gaps|
  {
    if g != gaps[0] { GapCovers(gaps[1..], g, gaps[0].end, hi); }
  }

  lemma {:induction false} GapOf(gaps: seq<Range>, x: int) returns (g: Range)
    requires x in Covered(gaps)
    ensures g in gaps && g.start <= x < g.end
  {
    if gaps[0].start <= x < gaps[0].end { g := gaps[0]; } else { g := GapOf(gaps[1..], x); }
  }

  // ---- One call of detection ----

  /** The numbers a list names are those the packets written for it ask for. */
  lemma WrittenNames(c: Client, c': Client, nums: seq<nat>, hi: int, n: nat)
    requires c'.sent == c.sent + ResendSeqs(Q.Ranges(nums, MAX_RESEND_SEQ))
    requires (forall k :: multiset(nums)[k] <= 1) && forall k :: k in nums ==> k < hi
    ensures AsksFor(c, c', n) <==> n in nums
  {
    var ps := ResendSeqs(Q.Ranges(nums, MAX_RESEND_SEQ));
    Q.RangesCover(nums, MAX_RESEND_SEQ, hi);
    PacketsName(Q.Ranges(nums, MAX_RESEND_SEQ), n, 0, hi);
    assert c'.sent[|c.sent|..] == ps;
    if n in nums {
      var p :| p in ps && Names(p, n);
      assert Wrote(c, c', p);
    }
  }

  lemma AsksTwice(a: Client, b: Client, c: Client, n: nat)
    requires |a.sent| <= |b.sent| <= |c.sent| && a.sent == b.sent[..|a.sent|] && b.sent == c.sent[..|b.sent|]
    ensures AsksFor(a, c, n) <==> AsksFor(a, b, n) || AsksFor(b, c, n)
  {
    assert c.sent[|a.sent|..] == b.sent[|a.sent|..] + c.sent[|b.sent|..];
    if AsksFor(a, b, n) {
      var p :| Wrote(a, b, p) && Names(p, n);
      assert Wrote(a, c, p);
    }
    if AsksFor(b, c, n) {
      var p :| Wrote(b, c, p) && Names(p, n);
      assert Wrote(a, c, p);
    }
  }

  /** The call that declares numbers lost. */
  function Declares(cfg: ClientConfig, e: Env): Q.Event { Q.Detect(cfg.reorderPackets, e.window, e.tail) }

  /** The call that asks again. */
  function Repeats(transfers: map<nat, Transfer>, e: Env): Q.Event { Q.Repeat(2.0 * e.delay, RepairedIn(transfers)) }

  lemma AskLostFate(cfg: ClientConfig, c: Client, past: Q.Past, e: Env, n: nat)
    requires CN.NumbersInv(c, past, e.now)
    ensures var c', k := AskLost(cfg, c, e), KnownOf(c.seqs, n);
      && KnownOf(c'.seqs, n) == Next(k, n, Declares(cfg, e), e.now, 3)
      && (AsksFor(c, c', n) <==> TooLong(k.fate, k.highest, n, e.now, cfg.reorderPackets, e.window, e.tail))
  {
    DetectFate(c.seqs, n, e.now, cfg.reorderPackets, e.window, e.tail);
    CN.LostFacts(c.seqs, past, e.now, cfg.reorderPackets, e.window, e.tail);
    WrittenNames(c, AskLost(cfg, c, e), Q.LostNums(c.seqs.missing, c.seqs.highest, e.now, cfg.reorderPackets, e.window, e.tail), c.seqs.highest + 1, n);
  }

  lemma AskAgainFate(c: Client, past: Q.Past, e: Env, n: nat)
    requires CN.NumbersInv(c, past, e.now)
    ensures var c', k := AskAgain(c, e), KnownOf(c.seqs, n);
      && KnownOf(c'.seqs, n) == Next(k, n, Repeats(c.transfers, e), e.now, 3)
      && (AsksFor(c, c', n) <==> AskedAgain(k.fate, e.now, 2.0 * e.delay, 3, RepairedIn(c.transfers)))
  {
    RepeatFate(c.seqs, n, e.now, 2.0 * e.delay, 3, RepairedIn(c.transfers));
    AgainWritten(c, past, e, n);
  }

  lemma AgainWritten(c: Client, past: Q.Past, e: Env, n: nat)
    requires CN.NumbersInv(c, past, e.now)
    ensures AsksFor(c, AskAgain(c, e), n) <==> n in DueAgain(c, e)
  {
    DueFacts(c, past, e);
    WrittenNames(c, AskAgain(c, e), DueAgain(c, e), c.seqs.highest + 1, n);
  }

  lemma DueFacts(c: Client, past: Q.Past, e: Env)
    requires CN.NumbersInv(c, past, e.now)
    ensures (forall k :: multiset(DueAgain(c, e))[k] <= 1) && forall k :: k in DueAgain(c, e) ==> k < c.seqs.highest + 1
  {
    var repaired := RepairedIn(c.transfers);
    assert DueAgain(c, e) == Q.Again(c.seqs.claimed, e.now, 2.0 * e.delay, SEQ_RESEND_TRIES, repaired);
    CN.AgainFacts(c.seqs, past, e.now, 2.0 * e.delay, repaired);
  }

  /** What detection makes of number n, and whether it asks for it. */
  function Detected(cfg: ClientConfig, transfers: map<nat, Transfer>, k: Known, e: Env, n: nat): Known {
    if cfg.earlyResend then Next(Next(k, n, Declares(cfg, e), e.now, 3), n, Repeats(transfers, e), e.now, 3) else k
  }

  /** Number n is declared lost now, or was asked for long enough ago, not three times yet, and is not known to have been repaired. */
  ghost predicate Due(cfg: ClientConfig, c: Client, e: Env, n: nat) {
    var k := KnownOf(c.seqs, n);
    cfg.earlyResend
    && (|| TooLong(k.fate, k.highest, n, e.now, cfg.reorderPackets, e.window, e.tail)
        || (var f := Next(k, n, Declares(cfg, e), e.now, 3).fate;
            f.Wanted? && e.now - f.at >= 2.0 * e.delay && f.tries < 3 && (f.hint.Some? ==> !Arrived(c.transfers, f.hint.value))))
  }

  lemma AgainMeans(transfers: map<nat, Transfer>, f: Fate, now: real, delay: real)
    ensures AskedAgain(f, now, delay, 3, RepairedIn(transfers)) <==>
      f.Wanted? && now - f.at >= delay && f.tries < 3 && (f.hint.Some? ==> !Arrived(transfers, f.hint.value))
  {
    if f.Wanted? && f.hint.Some? { RepairedIsArrived(transfers, f.hint.value); }
  }

  lemma BothAsk(cfg: ClientConfig, c: Client, past: Q.Past, e: Env, n: nat)
    requires CN.NumbersInv(c, past, e.now) && cfg.earlyResend
    ensures var c' := AskAgain(AskLost(cfg, c, e), e); KnownOf(c'.seqs, n) == Detected(cfg, c.transfers, KnownOf(c.seqs, n), e, n) && (AsksFor(c, c', n) <==> Due(cfg, c, e, n))
  {
    var c1 := AskLost(cfg, c, e);
    AskLostFate(cfg, c, past, e, n);
    var past1 := CN.AskLostCounts(cfg, c, past, e);
    AskAgainFate(c1, past1, e, n);
    AsksTwice(c, c1, AskAgain(c1, e), n);
    AgainMeans(c.transfers, KnownOf(c1.seqs, n).fate, e.now, 2.0 * e.delay);
  }

  lemma DetectionAsks(cfg: ClientConfig, c: Client, past: Q.Past, e: Env, n: nat)
    requires CN.NumbersInv(c, past, e.now)
    ensures var c' := DetectSeqLoss(cfg, c, e); KnownOf(c'.seqs, n) == Detected(cfg, c.transfers, KnownOf(c.seqs, n), e, n) && (AsksFor(c, c', n) <==> Due(cfg, c, e, n))
  {
    var c1 := c.(lastSeqDetect := Some(e.now));
    assert c1.sent[|c.sent|..] == [];
    if cfg.earlyResend {
      BothAsk(cfg, c1, past, e, n);
      assert AsksFor(c, DetectSeqLoss(cfg, c, e), n) <==> AsksFor(c1, DetectSeqLoss(cfg, c, e), n);
    }
  }

  // ---- The steps of a run ----

  /** In a run whose clock does not go back the tracker is in order when its next step comes. */
  lemma RunNumbers(cfg: ClientConfig, budget: nat, minIncrement: int, steps: seq<CH.Step>, c: Client, start: real, st: CH.Step)
    returns (past: Q.Past)
    requires CH.IsRun(cfg, budget, minIncrement, steps, c) && CP.OnTime(steps + [st], start)
    ensures CN.NumbersInv(c, past, CP.TimeOf(st))
  {
    CH.NewKeeps(cfg, budget, minIncrement);
    CN.NewCounts(cfg, budget, minIncrement, start);
    past := CN.RunEnds(cfg, NewClient(cfg, budget, minIncrement), steps, c, Q.Past({}, multiset{}, multiset{}), start, st);
  }

  /**
   In every such run a tick of session-wide detection asks for exactly the numbers
   that are due, and leaves each number as its own history says.
   */
  lemma TickAsksForTheLost(cfg: ClientConfig, budget: nat, minIncrement: int, steps: seq<CH.Step>, c: Client, start: real, e: Env, c': Client, n: nat)
    requires CH.IsRun(cfg, budget, minIncrement, steps, c) && CP.OnTime(steps + [CH.SeqTicked(e)], start)
    requires CH.Moves(cfg, c, CH.SeqTicked(e), c')
    ensures KnownOf(c'.seqs, n) == Detected(cfg, c.transfers, KnownOf(c.seqs, n), e, n)
    ensures AsksFor(c, c', n) <==> Due(cfg, c, e, n)
  {
    var past := RunNumbers(cfg, budget, minIncrement, steps, c, start, CH.SeqTicked(e));
    DetectionAsks(cfg, c, past, e, n);
  }

  /** What the history of a number becomes when a DATA_SEQ arrives, with detection if none ran in the last millisecond. */
  function Taken(cfg: ClientConfig, c: Client, p: Packet, e: Env, n: nat): Known
    requires p.DataSeq?
  {
    var k := Next(KnownOf(c.seqs, n), n, Q.Arrived(p.num, Some(Q.Hint(p.rpc, p.offset, p.offset + |p.payload|))), e.now, 3);
    if c.lastSeqDetect.None? || e.now - c.lastSeqDetect.value >= 1.0 then Detected(cfg, c.transfers, k, e, n) else k
  }

  lemma CountFate(cfg: ClientConfig, c: Client, past: Q.Past, p: Packet, e: Env, n: nat)
    requires CN.NumbersInv(c, past, e.now) && p.DataSeq?
    ensures var c' := CountNumber(cfg, c, p, e); KnownOf(c'.seqs, n) == Taken(cfg, c, p, e, n) && c'.negotiated
  {
    var past1 := CountedFate(cfg, c, past, p, e, n);
    if Elapsed(c.lastSeqDetect, e.now, DETECT_INTERVAL_MS) {
      DetectionAsks(cfg, Counted(c, p, e.now), past1, e, n);
      DetectionNegotiates(cfg, Counted(c, p, e.now), e);
    }
  }

  lemma DetectionNegotiates(cfg: ClientConfig, c: Client, e: Env)
    ensures DetectSeqLoss(cfg, c, e).negotiated == c.negotiated
  {
  }

  lemma CountedFate(cfg: ClientConfig, c: Client, past: Q.Past, p: Packet, e: Env, n: nat) returns (past': Q.Past)
    requires CN.NumbersInv(c, past, e.now) && p.DataSeq?
    ensures var c1 := Counted(c, p, e.now);
      && CN.NumbersInv(c1, past', e.now) && c1.transfers == c.transfers && c1.negotiated
      && KnownOf(c1.seqs, n) == Next(KnownOf(c.seqs, n), n, Q.Arrived(p.num, Some(Q.Hint(p.rpc, p.offset, p.offset + |p.payload|))), e.now, 3)
  {
    var where := Some(Q.Hint(p.rpc, p.offset, p.offset + |p.payload|));
    past' := past.(arrived := past.arrived + {p.num});
    ArriveFate(c.seqs, n, p.num, e.now, where);
    Q.ArriveKeeps(c.seqs, past, e.now, p.num, e.now, where, SEQ_RESEND_TRIES);
  }

  lemma HandledSeqs(cfg: ClientConfig, c: Client, p: Packet, e: Env)
    requires AsmsOk(c)
    ensures var c' := Pump(HandlePacket(cfg, c, p, e), e); c'.seqs == c.seqs && c'.negotiated == c.negotiated
  {
    var c1 := HandlePacket(cfg, c, p, e);
    CN.PacketQuiet(cfg, c, p, e);
    CN.PumpQuiet(c1, e);
  }

  /** In every such run an arriving number counts, whether or not its transfer is still live, and the server is known to number its DATA. */
  lemma NumberArrives(cfg: ClientConfig, budget: nat, minIncrement: int, steps: seq<CH.Step>, c: Client, start: real, p: Packet, e: Env, c': Client, n: nat)
    requires CH.IsRun(cfg, budget, minIncrement, steps, c) && CP.OnTime(steps + [CH.Took(p, e)], start)
    requires CH.Moves(cfg, c, CH.Took(p, e), c') && p.DataSeq?
    ensures c'.negotiated && KnownOf(c'.seqs, n) == Taken(cfg, c, p, e, n)
  {
    var past := RunNumbers(cfg, budget, minIncrement, steps, c, start, CH.Took(p, e));
    CH.FromTheStart(cfg, budget, minIncrement, steps, c);
    CountFate(cfg, c, past, p, e, n);
    CountKeeps(cfg, c, p, e);
    InvAsmsOk(cfg, CountNumber(cfg, c, p, e));
    HandledSeqs(cfg, CountNumber(cfg, c, p, e), p, e);
  }
}
