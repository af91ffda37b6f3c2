/**
 Granting keeps up. In a run of both ends every step of the client that may have
 freed budget ends by spending it: while anyone still waits to be granted, less
 than one worthwhile grant is free, and if nothing is in flight, nothing at all.
 */
module SystemFlows {
  import opened Intervals
  import opened Packets
  import opened Clients
  import Senders
  import opened Systems
  import SR = SenderRuns
  import CR = ClientRuns
  import CS = ClientSteps
  import CT = ClientTruth
  import CH = ClientHistory
  import CD = ClientReaders
  import S = Scheduling
  import SU = SchedulerUses

  /** What is true of the bytes implies that no more has come than was granted. */
  lemma NoneAhead(cfg: ClientConfig, truth: nat -> Senders.Asset, c: Client)
    requires CR.Inv(cfg, c) && CT.AllTrue(truth, c)
    ensures SU.NotAhead(c.sched.rpcs)
  {
    S.LookupIn(c.sched.rpcs, c.sched.next);
    forall x | x in c.sched.rpcs ensures x.received <= x.granted {
      assert CR.ViewOk(cfg, x.id, CR.ViewOf(c, x.id));
      assert CT.Truthful(truth(x.id), c.transfers[x.id]);
      GotBelowFrontier(c.transfers[x.id].asm.value);
      CR.GotWithin(c.transfers[x.id].asm.value);
    }
  }

  /** While anyone waits the budget is spent, and never is nothing in flight unless new requests reserve it all. */
  ghost predicate Flows(c: Client) {
    forall x :: x in c.sched.rpcs && !x.paused && x.granted < x.size ==>
      && SU.Free(c.sched, Reserved(c.transfers)) < Max(1, SU.Worthwhile(c.sched))
      && (S.Outstanding(c.sched.rpcs) == 0 ==> c.sched.budget <= Reserved(c.transfers))
  }

  lemma PumpFlows(cfg: ClientConfig, truth: nat -> Senders.Asset, c: Client, e: Env)
    requires CR.Inv(cfg, c) && CT.AllTrue(truth, c)
    ensures Flows(Pump(c, e)) && Pump(c, e).sched.budget == e.budget
  {
    var c' := Pump(c, e);
    var st, reserved := c.sched.(budget := e.budget), Reserved(c.transfers);
    NoneAhead(cfg, truth, c);
    CD.PumpOnlyGrants(c, e);
    CD.SameReserved(c.transfers, c'.transfers);
    S.ApplyKeeps(st.rpcs, S.Decisions(st, reserved), st.next);
    S.LookupIn(c'.sched.rpcs, st.next);
    forall x | x in c'.sched.rpcs && !x.paused && x.granted < x.size
      ensures SU.Free(c'.sched, Reserved(c'.transfers)) < Max(1, SU.Worthwhile(c'.sched))
      ensures S.Outstanding(c'.sched.rpcs) == 0 ==> c'.sched.budget <= Reserved(c'.transfers)
    {
      SU.BudgetIsUsed(st, reserved, x);
      if S.Outstanding(c'.sched.rpcs) == 0 { SU.NeverIdleWhileWaited(st, reserved, x); }
    }
  }

  // ---- The steps that grant ----

  /** A datagram, an end, a reader that takes some, or granting itself. */
  predicate Frees(c: Client, st: CH.Step) {
    st.Took? || st.Dropped? || st.Aborted? || st.Pumped? || (st.Pulled? && CD.Paused(c, st.id))
  }

  lemma TookFlows(cfg: ClientConfig, truth: nat -> Senders.Asset, named: nat -> seq<Byte>, c: Client, p: Packet, e: Env)
    requires CR.Inv(cfg, c) && CR.Rest(c) && AsmsOk(c) && CT.AllTrue(truth, c) && CH.Named(named, c)
    requires CT.TruePacket(truth(p.rpc), CR.Highest(c.sent, p.rpc), p)
    ensures Flows(Arrive(cfg, c, p, e)) && Arrive(cfg, c, p, e).sched.budget == e.budget
  {
    var c1 := if p.DataSeq? then CountNumber(cfg, c, p, e) else c;
    if p.DataSeq? {
      CH.CountTrue(cfg, truth, named, c, p, e);
      CS.CountKeeps(cfg, c, p, e);
    }
    CH.PacketTrue(cfg, truth, named, c1, p, e);
    CS.PacketKeeps(cfg, c1, p, e);
    PumpFlows(cfg, truth, HandlePacket(cfg, c1, p, e), e);
  }

  lemma FinishFlows(cfg: ClientConfig, truth: nat -> Senders.Asset, c: Client, id: nat, e: Env)
    requires CR.Inv(cfg, c) && CT.AllTrue(truth, c) && id in c.transfers
    ensures Flows(Finish(c, id, false, e)) && Finish(c, id, false, e).sched.budget == e.budget
  {
    var c1 := CR.Over(c, id, false, e.behind);
    assert CR.ViewOk(cfg, id, CR.ViewOf(c, id));
    CR.LiveIsEndable(cfg, id, c.transfers[id], CR.ViewOf(c, id));
    CR.OverKeeps(cfg, c, id, false, e.behind);
    CR.FinishIsOver(c, id, false, e);
    CT.OverKept(c, id, false, e.behind);
    CT.KeepsTrue(truth, c, c1);
    PumpFlows(cfg, truth, c1, e);
  }

  lemma CancelFlows(cfg: ClientConfig, truth: nat -> Senders.Asset, c: Client, id: nat, e: Env)
    requires CR.Inv(cfg, c) && CT.AllTrue(truth, c) && id in c.transfers && c.transfers[id].settled
    ensures Flows(Cancel(c, id, e)) && Cancel(c, id, e).sched.budget == e.budget
  {
    var t := c.transfers[id];
    var c1 := Forget(c, id, t).(events := c.events + [Cancelled(id)]);
    assert CR.ViewOk(cfg, id, CR.ViewOf(c, id));
    CR.LiveIsEndable(cfg, id, t, CR.ViewOf(c, id));
    CR.OneEvent(Cancelled(id));
    CR.ForgottenKeeps(cfg, c, id, t, [Cancelled(id)]);
    CT.ForgetKept(c, id, t, [Cancelled(id)]);
    CT.KeepsTrue(truth, c, c1);
    PumpFlows(cfg, truth, c1, e);
  }

  lemma PullFlows(cfg: ClientConfig, truth: nat -> Senders.Asset, c: Client, id: nat, e: Env)
    requires CR.Inv(cfg, c) && CT.AllTrue(truth, c) && CD.Paused(c, id)
    ensures Flows(Pull(c, id, e)) && Pull(c, id, e).sched.budget == e.budget
  {
    CR.ResumedKeeps(cfg, c, id);
    CT.ResumedKept(c, id);
    CT.KeepsTrue(truth, c, Resumed(c, id));
    PumpFlows(cfg, truth, Resumed(c, id), e);
  }

  /**
   In every run of both ends each step of the client that takes a datagram, ends a
   transfer, resumes one or grants leaves the budget then in force spent as far as it
   is worth, and something in flight while anyone waits.
   */
  lemma GrantingKeepsUp(w: Setup, steps: seq<Step>, a: World, st: CH.Step, b: World)
    requires SR.AssetsOk(w.server) && IsRun(w, steps, a) && Moves(w, a, ClientStep(st), b) && Frees(a.client, st)
    ensures Flows(b.client) && b.client.sched.budget == st.e.budget
  {
    FromTheStart(w, steps, a);
    match st
    case Took(p, e) =>
      SentIsTrue(w, a, p);
      TookFlows(w.client, Truth(w), w.named, a.client, p, e);
    case Dropped(id, e) => CancelFlows(w.client, Truth(w), a.client, id, e);
    case Aborted(id, e) => FinishFlows(w.client, Truth(w), a.client, id, e);
    case Pulled(id, e) => PullFlows(w.client, Truth(w), a.client, id, e);
    case Pumped(e) => PumpFlows(w.client, Truth(w), a.client, e);
    case _ =>
  }
}
