/**
 A tail duplicate refused as too large: a run of the server that reaches one,
 and the refusals that follow without end.
 */
module SenderRefusals {
  import opened Intervals
  import opened Packets
  import opened Senders
  import opened SenderRuns
  import opened SenderHistory
  import opened SenderDrain

  // ---- Building runs ----

  function LastOf(run: seq<Server>): Server
    requires run != []
  {
    run[|run| - 1]
  }

  lemma RunAppend(cfg: Config, named: nat -> seq<Byte>, run: seq<Server>, steps: seq<Step>, st: Step, b: Server)
    requires IsRun(cfg, named, run, steps) && Moves(cfg, LastOf(run), st, b) && (st.Recv? ==> NamedBy(named, st.p))
    ensures IsRun(cfg, named, run + [b], steps + [st])
  {
    var run', steps' := run + [b], steps + [st];
    forall i | 0 <= i < |steps'|
      ensures Moves(cfg, run'[i], steps'[i], run'[i + 1]) && (steps'[i].Recv? ==> NamedBy(named, steps'[i].p))
    {
      if i < |steps| { assert run'[i] == run[i] && run'[i + 1] == run[i + 1] && steps'[i] == steps[i]; }
    }
  }

  /** Pick w, check its grant, and hand it over with this outcome. */
  lemma Offer(cfg: Config, named: nat -> seq<Byte>, run: seq<Server>, steps: seq<Step>, w: Work, o: Outcome)
    returns (run': seq<Server>, steps': seq<Step>)
    requires IsRun(cfg, named, run, steps) && LastOf(run).phase.Ready? && Picks(LastOf(run).s, Some(w))
    requires Transmitted(cfg, LastOf(run).s, w, o).1
    ensures IsRun(cfg, named, run', steps') && LastOf(run').phase.Ready?
    ensures LastOf(run').s == Transmitted(cfg, LastOf(run).s, w, o).0
    ensures steps' == steps + [Pick(Some(w)), CheckGrant, Finish(o)]
  {
    var a := LastOf(run);
    var b := a.(phase := Chosen(w));
    var c := b.(phase := Checked(w), ledger := a.ledger.(ungranted := a.ledger.ungranted + Ungranted(a.s, w)));
    var s' := Transmitted(cfg, a.s, w, o).0;
    var d := if Records(w, o) then Server(s', Ready, WriteRecord(a.s, c.ledger, w), a.out + [Outgoing(a.s, w)])
             else Server(s', Ready, c.ledger, a.out);
    RunAppend(cfg, named, run, steps, Pick(Some(w)), b);
    RunAppend(cfg, named, run + [b], steps + [Pick(Some(w))], CheckGrant, c);
    RunAppend(cfg, named, run + [b] + [c], steps + [Pick(Some(w))] + [CheckGrant], Finish(o), d);
    run', steps' := run + [b] + [c] + [d], steps + [Pick(Some(w))] + [CheckGrant] + [Finish(o)];
  }

  // ---- The run ----

  /** A server that repeats small responses, with an asset that fits one datagram and is small enough to repeat. */
  predicate Repeats(cfg: Config, id: seq<Byte>, body: seq<Byte>) {
    && cfg.assets(id) == Found(body, [])
    && 1 <= |body| <= MaxPayload(cfg.initialMaxDatagram) && |body| <= cfg.tailDuplicate
  }

  function Alone(r: Rpc, maxDatagram: int): Session { Session(map[1 := r], [], maxDatagram, false, 0, []) }

  function Fresh(body: seq<Byte>): Rpc { Rpc(body, [], |body|, [], 1, 0, 0, 0, 0, false, None) }

  function MetaGone(body: seq<Byte>): Rpc { Fresh(body).(metaSent := 1) }

  /** The body sent whole in one datagram, its copy due. */
  function CopyDue(body: seq<Byte>): Rpc {
    MetaGone(body).(packet0Sent := 1, next := |body|, tailDuped := true, tailDup := Some(Span(0, |body|)))
  }

  function MetaOf(): Work { Work(Meta(1, []), 1, MetaWork, 1, false, false) }

  function BodyOf(body: seq<Byte>): Work { Work(Data(1, |body|, 0, body), 1, Packet0, 1, false, false) }

  function CopyOf(body: seq<Byte>): Work { Work(Data(1, |body|, 0, body), 1, TailDup, 0, false, false) }

  lemma ReqArrives(cfg: Config, id: seq<Byte>, body: seq<Byte>)
    requires Repeats(cfg, id, body)
    ensures Handle(cfg, NewSession(cfg), Req(1, |body|, id), 0) == Alone(Fresh(body), cfg.initialMaxDatagram)
  {
    var r := NewRpc(body, []);
    assert RaiseGrant(r, |body|).granted == |body|;
    assert Asked(r, |body|, 0) == Fresh(body);
  }

  lemma PicksAlone(r: Rpc, maxDatagram: int, w: Work)
    requires Due(r).Some? && w == WorkOf(1, r, false, Chunk(Alone(r, maxDatagram)))
    ensures Picks(Alone(r, maxDatagram), Some(w))
  {
  }

  lemma MetaLeaves(cfg: Config, body: seq<Byte>, maxDatagram: int)
    ensures Picks(Alone(Fresh(body), maxDatagram), Some(MetaOf()))
    ensures Recorded(cfg, Alone(Fresh(body), maxDatagram), MetaOf()) == Alone(MetaGone(body), maxDatagram)
  {
    PicksAlone(Fresh(body), maxDatagram, MetaOf());
    assert map[1 := Fresh(body)][1 := MetaGone(body)] == map[1 := MetaGone(body)];
  }

  lemma BodyLeaves(cfg: Config, id: seq<Byte>, body: seq<Byte>)
    requires Repeats(cfg, id, body)
    ensures var d := cfg.initialMaxDatagram;
      Picks(Alone(MetaGone(body), d), Some(BodyOf(body))) && Recorded(cfg, Alone(MetaGone(body), d), BodyOf(body)) == Alone(CopyDue(body), d)
  {
    var d, n := cfg.initialMaxDatagram, |body|;
    assert Bytes(MetaGone(body), 0, n) == body;
    PicksAlone(MetaGone(body), d, BodyOf(body));
    assert QueueTail(cfg, SentRpc(MetaGone(body), BodyOf(body), n), BodyOf(body), 0, n) == CopyDue(body);
    assert map[1 := MetaGone(body)][1 := CopyDue(body)] == map[1 := CopyDue(body)];
  }

  /** The copy is picked at its old size, whatever the limit has become. */
  lemma CopyIsPicked(body: seq<Byte>, maxDatagram: int)
    ensures Picks(Alone(CopyDue(body), maxDatagram), Some(CopyOf(body)))
  {
    assert Bytes(CopyDue(body), 0, |body|) == body;
    PicksAlone(CopyDue(body), maxDatagram, CopyOf(body));
  }

  /** One REQ, its META and its body: a run that ends with the copy due and nothing else. */
  lemma CopyBecomesDue(cfg: Config, named: nat -> seq<Byte>, body: seq<Byte>) returns (run: seq<Server>, steps: seq<Step>)
    requires Repeats(cfg, named(1), body)
    ensures IsRun(cfg, named, run, steps) && LastOf(run).phase.Ready?
    ensures LastOf(run).s == Alone(CopyDue(body), cfg.initialMaxDatagram)
    ensures |steps| == 7
  {
    var a := Start(cfg);
    var req := Req(1, |body|, named(1));
    var b := a.(s := Handle(cfg, a.s, req, 0), ledger := WriteHandle(cfg, a.s, a.ledger, req, 0));
    assert IsRun(cfg, named, [a], []);
    RunAppend(cfg, named, [a], [], Recv(req, 0), b);
    ReqArrives(cfg, named(1), body);
    MetaLeaves(cfg, body, cfg.initialMaxDatagram);
    BodyLeaves(cfg, named(1), body);
    run, steps := Offer(cfg, named, [a] + [b], [] + [Recv(req, 0)], MetaOf(), Sent);
    run, steps := Offer(cfg, named, run, steps, BodyOf(body), Sent);
  }

  /**
   The send loop need not get past a refusal. For every body that is repeated and
   every limit its copy no longer fits, a reachable session picks the copy, offers
   it and has it refused n times, for every n, and it is still the only thing picked.
   */
  lemma {:induction false} RefusedForEver(cfg: Config, named: nat -> seq<Byte>, body: seq<Byte>, limit: int, n: nat)
    returns (run: seq<Server>, steps: seq<Step>)
    requires Repeats(cfg, named(1), body) && Max(1, MaxPayload(limit - H3_DATAGRAM_PREFIX_MAX)) < |body|
    ensures IsRun(cfg, named, run, steps) && LastOf(run).phase.Ready?
    ensures LastOf(run).s == Alone(CopyDue(body), if n == 0 then cfg.initialMaxDatagram else limit - H3_DATAGRAM_PREFIX_MAX)
    ensures Picks(LastOf(run).s, Some(CopyOf(body)))
    ensures n > 0 ==> Chunk(LastOf(run).s) < |CopyOf(body).pkt.payload|
    ensures |steps| == 7 + 3 * n && forall k :: 0 <= k < n ==> steps[7 + 3 * k + 2] == Finish(TooLarge(limit))
  {
    if n == 0 {
      run, steps := CopyBecomesDue(cfg, named, body);
    } else {
      var before, first := RefusedForEver(cfg, named, body, limit, n - 1);
      run, steps := Offer(cfg, named, before, first, CopyOf(body), TooLarge(limit));
    }
    CopyIsPicked(body, LastOf(run).s.maxDatagram);
  }
}
