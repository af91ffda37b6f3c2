/**
 The sender and the byte format together: whatever the server decides to send,
 its encoder accepts, so the branch that reports a packet it cannot encode is
 dead, and the client's decoder reads back exactly that packet.
 */
module SenderWire {
  import opened Intervals
  import opened Packets
  import opened Senders
  import opened SenderRuns
  import opened SenderHistory
  import W = Wire

  /** Every asset's META fields obey the format's rules. */
  ghost predicate FieldsValid(cfg: Config) {
    forall a :: cfg.assets(a).Found? ==> W.FieldsOk(cfg.assets(a).fields)
  }

  /** Ids are 64-bit numbers and pending replies are ERRORs with one-byte codes. */
  predicate Addressed(s: Session) {
    && (forall id :: id in s.rpcs ==> id <= U64_MAX)
    && (forall p :: p in s.pending ==> p.Error? && W.WellFormed(p))
  }

  lemma {:induction false} ManyAddressed(s: Session, from: nat, end: nat, now: int)
    requires |s.ring| == SEQ_RING_SIZE && Addressed(s)
    ensures Addressed(ResendMany(s, from, end, now))
    decreases end - from
  {
    if from < end { ManyAddressed(ResendOne(s, from, now), from + 1, end, now); }
  }

  /** A decoded packet keeps it. */
  lemma HandleAddressed(cfg: Config, s: Session, p: Packet, now: int)
    requires Addressed(s) && W.Typed(p)
    ensures Addressed(Handle(cfg, s, p, now))
  {
    match p
    case ResendSeq(_, start, end) =>
      if s.seqOn && |s.ring| == SEQ_RING_SIZE { ManyAddressed(s, start, Min(end, start + MAX_RESEND_SEQ_RANGE), now); }
    case _ =>
  }

  /** What leaves is well formed. */
  lemma OutgoingWellFormed(cfg: Config, named: nat -> seq<Byte>, s: Session, l: Ledger, w: Work)
    requires Inv(s, l) && WorkInv(s, w) && Bound(cfg, named, s) && Addressed(s) && FieldsValid(cfg)
    ensures W.WellFormed(Outgoing(s, w))
  {
    if w.kind == Control {
      assert s.pending[0] in s.pending;
    } else {
      assert RpcInv(s.rpcs[w.rpc], l.of[w.rpc], CeilOf(l, w.rpc));
      assert w.rpc in s.rpcs;
    }
  }

  ghost predicate WireInv(cfg: Config, named: nat -> seq<Byte>, a: Server) {
    ServerInv(cfg, named, a) && Addressed(a.s) && forall p :: p in a.out ==> W.WellFormed(p)
  }

  lemma RecordAddressed(cfg: Config, s: Session, w: Work)
    requires Addressed(s)
    ensures Addressed(Recorded(cfg, s, w))
  {
  }

  lemma FinishWire(cfg: Config, named: nat -> seq<Byte>, a: Server, o: Outcome, b: Server)
    requires WireInv(cfg, named, a) && Moves(cfg, a, Finish(o), b) && FieldsValid(cfg)
    ensures Addressed(b.s) && forall p :: p in b.out ==> W.WellFormed(p)
  {
    OutgoingWellFormed(cfg, named, a.s, a.ledger, a.phase.w);
    RecordAddressed(cfg, a.s, a.phase.w);
  }

  lemma StepWire(cfg: Config, named: nat -> seq<Byte>, a: Server, st: Step, b: Server)
    requires AssetsOk(cfg) && FieldsValid(cfg) && WireInv(cfg, named, a) && Moves(cfg, a, st, b)
    requires st.Recv? ==> NamedBy(named, st.p) && W.Typed(st.p)
    ensures WireInv(cfg, named, b)
  {
    StepKeeps(cfg, named, a, st, b);
    match st
    case Recv(p, now) => HandleAddressed(cfg, a.s, p, now);
    case Finish(o) => FinishWire(cfg, named, a, o, b);
    case _ =>
  }

  lemma {:induction false} RunWire(cfg: Config, named: nat -> seq<Byte>, run: seq<Server>, steps: seq<Step>, i: nat)
    requires AssetsOk(cfg) && FieldsValid(cfg) && IsRun(cfg, named, run, steps) && i < |run|
    requires forall k :: 0 <= k < |steps| && steps[k].Recv? ==> W.Typed(steps[k].p)
    ensures WireInv(cfg, named, run[i])
  {
    if i > 0 {
      RunWire(cfg, named, run, steps, i - 1);
      StepWire(cfg, named, run[i - 1], steps[i - 1], run[i]);
    }
  }

  /** Fed decoded datagrams, the server never fails to encode, and everything it sends decodes to what it meant. */
  lemma EverythingSentDecodes(cfg: Config, named: nat -> seq<Byte>, run: seq<Server>, steps: seq<Step>, i: nat)
    requires AssetsOk(cfg) && FieldsValid(cfg) && IsRun(cfg, named, run, steps) && i < |run|
    requires forall k :: 0 <= k < |steps| && steps[k].Recv? ==> exists b :: W.Decode(b) == Some(steps[k].p)
    ensures forall p :: p in run[i].out ==> W.Decode(W.Encode(p)) == Some(p)
    ensures run[i].phase.Checked? ==> W.WellFormed(Outgoing(run[i].s, run[i].phase.w))
  {
    forall k | 0 <= k < |steps| && steps[k].Recv? ensures W.Typed(steps[k].p) {
      var b :| W.Decode(b) == Some(steps[k].p);
      W.EncodeDecode(b);
    }
    RunWire(cfg, named, run, steps, i);
    forall p | p in run[i].out ensures W.Decode(W.Encode(p)) == Some(p) { W.DecodeEncode(p); }
    if run[i].phase.Checked? { OutgoingWellFormed(cfg, named, run[i].s, run[i].ledger, run[i].phase.w); }
  }
}
