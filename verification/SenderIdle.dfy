/**
 Idle eviction, told by the steps of a run: what a sweep drops is exactly what
 no packet has referred to since its cutoff.
 */
module SenderIdles {
  import opened Intervals
  import opened Packets
  import opened Senders
  import opened SenderRuns
  import opened SenderHistory
  import ST = SenderTolds

  /** Number n is asked for the first time, while the ring still holds it, and carried bytes of id. */
  ghost predicate FirstAnswer(a: Server, n: nat, id: nat) {
    && a.s.seqOn && a.s.nextSeq - SEQ_RING_SIZE <= n < a.s.nextSeq && n < |a.ledger.log|
    && a.ledger.requeued[n] == 0 && a.ledger.log[n].rpc == id
  }

  ghost predicate AnswersFor(a: Server, start: nat, end: nat, id: nat) {
    exists n: nat :: start <= n < Min(end, start + MAX_RESEND_SEQ_RANGE) && FirstAnswer(a, n, id)
  }

  /** A packet that arrives is about id: its own REQ, GRANT or RESEND, or a RESEND_SEQ first answered with its bytes. */
  ghost predicate Refers(a: Server, st: Step, id: nat) {
    st.Recv? && match st.p
      case Req(j, _, _) => j == id
      case Grant(j, _, _) => j == id
      case Resend(j, _, _) => j == id
      case ResendSeq(_, start, end) => AnswersFor(a, start, end, id)
      case _ => false
  }

  function TimeOf(st: Step): int
    requires st.Recv? || st.Evict?
  {
    st.now
  }

  // ---- One step ----

  /** A slot that answers for id when its number is asked for. */
  predicate Fresh(s: Session, n: nat, id: nat) { Hit(s, n) && !Slot(s, n).resent && Slot(s, n).rpc == id }

  ghost predicate FreshIn(s: Session, from: nat, end: nat, id: nat) { exists n: nat :: from <= n < end && Fresh(s, n, id) }

  lemma OneTouches(s: Session, m: nat, now: int, id: nat)
    requires |s.ring| == SEQ_RING_SIZE && id in s.rpcs
    ensures var s' := ResendOne(s, m, now);
      && id in s'.rpcs && s'.rpcs[id].lastActive == (if Fresh(s, m, id) then now else s.rpcs[id].lastActive)
      && forall n: nat :: n != m ==> (Fresh(s', n, id) <==> Fresh(s, n, id))
  {
  }

  lemma {:induction false} ManyTouch(s: Session, from: nat, end: nat, now: int, id: nat)
    requires |s.ring| == SEQ_RING_SIZE && id in s.rpcs
    ensures var s' := ResendMany(s, from, end, now);
      id in s'.rpcs && s'.rpcs[id].lastActive == if FreshIn(s, from, end, id) then now else s.rpcs[id].lastActive
    decreases end - from
  {
    if from < end {
      var s1 := ResendOne(s, from, now);
      OneTouches(s, from, now, id);
      ManyTouch(s1, from + 1, end, now, id);
      RestFresh(s, s1, from, end, id);
    }
  }

  lemma RestFresh(s: Session, s1: Session, from: nat, end: nat, id: nat)
    requires from < end && forall n: nat :: n != from ==> (Fresh(s1, n, id) <==> Fresh(s, n, id))
    ensures FreshIn(s, from, end, id) <==> Fresh(s, from, id) || FreshIn(s1, from + 1, end, id)
  {
    if FreshIn(s, from, end, id) && !Fresh(s, from, id) {
      var n: nat :| from <= n < end && Fresh(s, n, id);
      assert Fresh(s1, n, id);
    }
    if FreshIn(s1, from + 1, end, id) {
      var n: nat :| from + 1 <= n < end && Fresh(s1, n, id);
      assert Fresh(s, n, id);
    }
  }

  lemma FreshIsFirst(a: Server, n: nat, id: nat)
    requires Inv(a.s, a.ledger) && a.s.seqOn
    ensures Fresh(a.s, n, id) <==> FirstAnswer(a, n, id)
  {
    RingLookup(a.s, a.ledger, n);
  }

  lemma AnswersAreFresh(a: Server, start: nat, end: nat, id: nat)
    requires Inv(a.s, a.ledger) && a.s.seqOn
    ensures FreshIn(a.s, start, Min(end, start + MAX_RESEND_SEQ_RANGE), id) <==> AnswersFor(a, start, end, id)
  {
    forall n: nat ensures Fresh(a.s, n, id) <==> FirstAnswer(a, n, id) { FreshIsFirst(a, n, id); }
  }

  lemma ResendSeqTouches(cfg: Config, a: Server, rpc: nat, start: nat, end: nat, now: int, id: nat)
    requires Inv(a.s, a.ledger) && id in a.s.rpcs
    ensures var s' := Handle(cfg, a.s, ResendSeq(rpc, start, end), now);
      id in s'.rpcs && s'.rpcs[id].lastActive == if AnswersFor(a, start, end, id) then now else a.s.rpcs[id].lastActive
  {
    if a.s.seqOn {
      AnswersAreFresh(a, start, end, id);
      ManyTouch(a.s, start, Min(end, start + MAX_RESEND_SEQ_RANGE), now, id);
    }
  }

  /** A packet about a live RPC stamps it, and nothing else does. */
  lemma RecvTouches(cfg: Config, a: Server, p: Packet, now: int, b: Server, id: nat)
    requires Inv(a.s, a.ledger) && Moves(cfg, a, Recv(p, now), b) && id in b.s.rpcs
    ensures Refers(a, Recv(p, now), id) ==> b.s.rpcs[id].lastActive == now
    ensures !Refers(a, Recv(p, now), id) ==> id in a.s.rpcs && b.s.rpcs[id].lastActive == a.s.rpcs[id].lastActive
  {
    match p
    case ResendSeq(rpc, start, end) =>
      ST.HandleIds(cfg, a.s, p, now);
      ResendSeqTouches(cfg, a, rpc, start, end, now, id);
    case _ =>
  }

  lemma RecordTouchesNothing(cfg: Config, s: Session, w: Work)
    ensures var s' := Recorded(cfg, s, w);
      s'.rpcs.Keys == s.rpcs.Keys && forall id :: id in s.rpcs ==> s'.rpcs[id].lastActive == s.rpcs[id].lastActive
  {
  }

  lemma SendTouchesNothing(cfg: Config, a: Server, st: Step, b: Server, id: nat)
    requires Moves(cfg, a, st, b) && !st.Recv? && id in b.s.rpcs
    ensures id in a.s.rpcs && b.s.rpcs[id].lastActive == a.s.rpcs[id].lastActive
  {
    if st.Finish? { RecordTouchesNothing(cfg, a.s, a.phase.w); }
  }

  lemma StepTouches(cfg: Config, named: nat -> seq<Byte>, a: Server, st: Step, b: Server, id: nat)
    requires ServerInv(cfg, named, a) && Moves(cfg, a, st, b) && id in b.s.rpcs
    ensures Refers(a, st, id) ==> st.Recv? && b.s.rpcs[id].lastActive == st.now
    ensures !Refers(a, st, id) ==> id in a.s.rpcs && b.s.rpcs[id].lastActive == a.s.rpcs[id].lastActive
  {
    if st.Recv? { RecvTouches(cfg, a, st.p, st.now, b, id); } else { SendTouchesNothing(cfg, a, st, b, id); }
  }

  // ---- Runs ----

  /** id has been live since step j. */
  predicate LiveSince(run: seq<Server>, j: nat, i: nat, id: nat)
    requires j < i < |run|
  {
    forall k :: j < k <= i ==> id in run[k].s.rpcs
  }

  /** Step j is the last before state i that referred to id, which has been live since. */
  ghost predicate LastRef(run: seq<Server>, steps: seq<Step>, i: nat, id: nat, j: nat)
    requires i < |run| == |steps| + 1
  {
    && j < i && Refers(run[j], steps[j], id) && LiveSince(run, j, i, id)
    && forall k :: j < k < i ==> !Refers(run[k], steps[k], id)
  }

  lemma RefNow(run: seq<Server>, steps: seq<Step>, k: nat, id: nat)
    requires k + 1 < |run| == |steps| + 1 && Refers(run[k], steps[k], id) && id in run[k + 1].s.rpcs
    ensures LastRef(run, steps, k + 1, id, k)
  {
  }

  lemma RefGoesOn(run: seq<Server>, steps: seq<Step>, k: nat, id: nat, j: nat)
    requires k + 1 < |run| == |steps| + 1 && LastRef(run, steps, k, id, j) && !Refers(run[k], steps[k], id) && id in run[k + 1].s.rpcs
    ensures LastRef(run, steps, k + 1, id, j)
  {
  }

  /** A live RPC carries the time of the last packet about it. */
  lemma {:induction false} StampIsLast(cfg: Config, named: nat -> seq<Byte>, run: seq<Server>, steps: seq<Step>, i: nat, id: nat) returns (j: nat)
    requires AssetsOk(cfg) && IsRun(cfg, named, run, steps) && i < |run| && id in run[i].s.rpcs
    ensures LastRef(run, steps, i, id, j) && run[i].s.rpcs[id].lastActive == TimeOf(steps[j])
  {
    var k := i - 1;
    EveryRun(cfg, named, run, steps, k);
    StepTouches(cfg, named, run[k], steps[k], run[k + 1], id);
    if Refers(run[k], steps[k], id) {
      j := k;
      RefNow(run, steps, k, id);
    } else {
      j := StampIsLast(cfg, named, run, steps, k, id);
      RefGoesOn(run, steps, k, id, j);
    }
  }

  /** A sweep drops a live RPC if and only if the last packet about it came before the cutoff. */
  lemma SweepDropsTheIdle(cfg: Config, named: nat -> seq<Byte>, run: seq<Server>, steps: seq<Step>, i: nat, id: nat) returns (j: nat)
    requires AssetsOk(cfg) && IsRun(cfg, named, run, steps) && i < |steps| && steps[i].Evict? && id in run[i].s.rpcs
    ensures LastRef(run, steps, i, id, j)
    ensures id !in run[i + 1].s.rpcs <==> TimeOf(steps[j]) < steps[i].now - cfg.idleTimeout
  {
    j := StampIsLast(cfg, named, run, steps, i, id);
    assert Moves(cfg, run[i], steps[i], run[i + 1]);
  }

  /** The receive loop's clock does not go back. */
  predicate OnTime(steps: seq<Step>) { forall i, j :: 0 <= i < j < |steps| && steps[i].Recv? && steps[j].Recv? ==> steps[i].now <= steps[j].now }

  /** With a clock that does not go back: dropped if and only if nothing has referred to it, while it lived, from the cutoff on. */
  lemma DroppedMeansIdle(cfg: Config, named: nat -> seq<Byte>, run: seq<Server>, steps: seq<Step>, i: nat, id: nat)
    requires AssetsOk(cfg) && IsRun(cfg, named, run, steps) && OnTime(steps)
    requires i < |steps| && steps[i].Evict? && id in run[i].s.rpcs
    ensures id !in run[i + 1].s.rpcs <==>
      forall j :: 0 <= j < i && LiveSince(run, j, i, id) && Refers(run[j], steps[j], id) ==> steps[j].now < steps[i].now - cfg.idleTimeout
  {
    var last := SweepDropsTheIdle(cfg, named, run, steps, i, id);
    forall j | 0 <= j < i && LiveSince(run, j, i, id) && Refers(run[j], steps[j], id) ensures steps[j].now <= steps[last].now {
      if j < last { assert steps[j].Recv? && steps[last].Recv?; } else { assert j == last; }
    }
  }

  /** Nothing but a sweep drops an RPC. */
  lemma OnlySweepsDrop(cfg: Config, a: Server, st: Step, b: Server, id: nat)
    requires Inv(a.s, a.ledger) && Moves(cfg, a, st, b) && id in a.s.rpcs && id !in b.s.rpcs
    ensures st.Evict?
  {
    if st.Recv? { HandleGrows(cfg, a.s, st.p, st.now); }
  }
}
