/**
 What the server says of itself, told by the packets it received: which ERRORs
 it owes, and whether its DATA is numbered.
 */
module SenderReplies {
  import opened Intervals
  import opened Packets
  import opened Senders
  import opened SenderRuns
  import opened SenderHistory
  import SD = SenderDrain

  // ---- ERRORs ----

  /** The ERROR a packet earns from a session with these RPCs. */
  function Owed(cfg: Config, rpcs: map<nat, Rpc>, p: Packet): seq<Packet> {
    if p.Req? && p.rpc !in rpcs && cfg.assets(p.assetId).NotFound? then [Error(p.rpc, CODE_NOT_FOUND)]
    else if p.Req? && p.rpc !in rpcs && cfg.assets(p.assetId).Broken? then [Error(p.rpc, CODE_BAD_REQUEST)]
    else if (p.Grant? || p.Resend?) && p.rpc !in rpcs then [Error(p.rpc, CODE_UNKNOWN_RPC)]
    else []
  }

  function OwedBy(cfg: Config, a: Server, st: Step): seq<Packet> { if st.Recv? then Owed(cfg, a.s.rpcs, st.p) else [] }

  /** All the ERRORs earned in the first i steps of a run, in order. */
  function AllOwed(cfg: Config, run: seq<Server>, steps: seq<Step>, i: nat): seq<Packet>
    requires i < |run| == |steps| + 1
  {
    if i == 0 then [] else AllOwed(cfg, run, steps, i - 1) + OwedBy(cfg, run[i - 1], steps[i - 1])
  }

  lemma {:induction false} ManyPending(s: Session, from: nat, end: nat, now: int)
    requires |s.ring| == SEQ_RING_SIZE
    ensures ResendMany(s, from, end, now).pending == s.pending
    decreases end - from
  {
    if from < end { ManyPending(ResendOne(s, from, now), from + 1, end, now); }
  }

  lemma HandleOwes(cfg: Config, s: Session, p: Packet, now: int)
    ensures Handle(cfg, s, p, now).pending == s.pending + Owed(cfg, s.rpcs, p)
  {
    match p
    case ResendSeq(_, start, end) =>
      if s.seqOn && |s.ring| == SEQ_RING_SIZE { ManyPending(s, start, Min(end, start + MAX_RESEND_SEQ_RANGE), now); }
    case _ =>
  }

  lemma RecordSays(cfg: Config, s: Session, w: Work, out: seq<Packet>)
    requires WorkInv(s, w)
    ensures ErrorsIn(out + [Outgoing(s, w)]) + Recorded(cfg, s, w).pending == ErrorsIn(out) + s.pending
  {
    assert (out + [Outgoing(s, w)])[..|out|] == out;
    if w.kind == Control { assert s.pending == [w.pkt] + s.pending[1..]; }
  }

  lemma StepOwes(cfg: Config, named: nat -> seq<Byte>, a: Server, st: Step, b: Server)
    requires ServerInv(cfg, named, a) && Moves(cfg, a, st, b)
    ensures ErrorsIn(b.out) + b.s.pending == ErrorsIn(a.out) + a.s.pending + OwedBy(cfg, a, st)
  {
    match st
    case Recv(p, now) =>
      HandleOwes(cfg, a.s, p, now);
      assert ErrorsIn(a.out) + (a.s.pending + Owed(cfg, a.s.rpcs, p)) == ErrorsIn(a.out) + a.s.pending + Owed(cfg, a.s.rpcs, p);
    case Finish(o) => if Records(a.phase.w, o) { RecordSays(cfg, a.s, a.phase.w, a.out); }
    case _ =>
  }

  /** In every run the ERRORs sent, then those pending, are exactly the ones earned, in the order they were earned. */
  lemma {:induction false} ErrorsAreOwed(cfg: Config, named: nat -> seq<Byte>, run: seq<Server>, steps: seq<Step>, i: nat)
    requires AssetsOk(cfg) && IsRun(cfg, named, run, steps) && i < |run|
    ensures ErrorsIn(run[i].out) + run[i].s.pending == AllOwed(cfg, run, steps, i)
  {
    if i > 0 {
      ErrorsAreOwed(cfg, named, run, steps, i - 1);
      EveryRun(cfg, named, run, steps, i - 1);
      StepOwes(cfg, named, run[i - 1], steps[i - 1], run[i]);
    }
  }

  // ---- Numbering ----

  /** The server may number its DATA and a client offered to read the numbers. */
  predicate Offers(cfg: Config, st: Step) { !cfg.noSeq && st.Recv? && st.p.Hello? && st.p.caps % 2 == 1 }

  lemma {:induction false} ManyOn(s: Session, from: nat, end: nat, now: int)
    requires |s.ring| == SEQ_RING_SIZE
    ensures ResendMany(s, from, end, now).seqOn == s.seqOn
    decreases end - from
  {
    if from < end { ManyOn(ResendOne(s, from, now), from + 1, end, now); }
  }

  lemma HandleTurnsOn(cfg: Config, s: Session, p: Packet, now: int)
    ensures Handle(cfg, s, p, now).seqOn <==> s.seqOn || Offers(cfg, Recv(p, now))
  {
    match p
    case ResendSeq(_, start, end) =>
      if s.seqOn && |s.ring| == SEQ_RING_SIZE { ManyOn(s, start, Min(end, start + MAX_RESEND_SEQ_RANGE), now); }
    case _ =>
  }

  lemma StepTurnsOn(cfg: Config, a: Server, st: Step, b: Server)
    requires Moves(cfg, a, st, b)
    ensures b.s.seqOn <==> a.s.seqOn || Offers(cfg, st)
  {
    if st.Recv? { HandleTurnsOn(cfg, a.s, st.p, st.now); }
  }

  /** Numbers are in use exactly from the first HELLO that offers them to a server that may use them. */
  lemma {:induction false} NumberedOnceOffered(cfg: Config, named: nat -> seq<Byte>, run: seq<Server>, steps: seq<Step>, i: nat)
    requires IsRun(cfg, named, run, steps) && i < |run|
    ensures run[i].s.seqOn <==> exists j :: 0 <= j < i && Offers(cfg, steps[j])
  {
    if i > 0 {
      NumberedOnceOffered(cfg, named, run, steps, i - 1);
      StepTurnsOn(cfg, run[i - 1], steps[i - 1], run[i]);
      if run[i - 1].s.seqOn {
        var j :| 0 <= j < i - 1 && Offers(cfg, steps[j]);
        assert 0 <= j < i;
      }
    }
  }

  /** A DATA picked while numbers are in use and not used up leaves under the next one; otherwise it leaves without. */
  lemma PickNumbers(s: Session, l: Ledger, w: Work)
    requires Inv(s, l) && Picks(s, Some(w)) && w.pkt.Data?
    ensures var p := Outgoing(s, w);
      if s.seqOn && s.nextSeq <= U32_MAX
      then p == DataSeq(w.pkt.rpc, w.pkt.totalSize, w.pkt.offset, s.nextSeq, w.pkt.payload)
      else p == w.pkt
  {
    SD.NoDataPending(s, l, w);
  }

  /** What only a server sends is ignored when a client sends it, and so is a RESEND_SEQ before numbers are in use. */
  lemma OtherwiseIgnored(cfg: Config, s: Session, p: Packet, now: int)
    requires p.Data? || p.DataSeq? || p.Meta? || p.Error? || (p.ResendSeq? && !s.seqOn)
    ensures Handle(cfg, s, p, now) == s
  {
  }
}
