/**
 client/src/transport.ts, class Http4Client: the session object. Its handlers
 change the transfers it holds, the scheduler and the sequence tracker in place,
 and each is shown to do to the session's value what Client.dfy says. Packets
 written and callbacks made are appended to `sent` and `events`.

 The Map of transfers is held by value; ClientTransfer.dfy has one transfer as an
 object with its own buffer.
 */
module Http4Clients {
  import opened Intervals
  import opened Packets
  import opened Clients
  import CR = ClientRuns
  import CS = ClientSteps
  import CH = ClientHistory
  import A = Reassemblies
  import R = Repairs
  import Q = SeqTracking
  import S = Scheduling

  class Http4Client {
    const cfg: ClientConfig
    const scheduler: S.SrptScheduler
    const seqs: Q.SeqTracker
    var transfers: map<nat, Transfer>
    var lastSeqDetect: Option<real>
    var payloadSeen: nat
    var negotiated: bool
    var hellos: nat
    var sent: seq<Packet>
    var events: seq<Event>
    ghost var started: map<nat, Begun>
    ghost var ended: map<nat, Transfer>
    ghost var recovered: multiset<nat>
    ghost var claims: map<nat, seq<R.Batch>>

    ghost predicate Valid()
      reads this, scheduler, seqs
    {
      scheduler.Valid() && seqs.Valid()
    }

    ghost function State(): Client
      reads this, scheduler, seqs
    {
      Client(transfers, scheduler.State(), seqs.State(), lastSeqDetect, payloadSeen, negotiated, hellos,
             started, ended, recovered, claims, sent, events)
    }

    constructor (cfg: ClientConfig, budget: nat, minIncrement: int)
      ensures Valid() && fresh(scheduler) && fresh(seqs) && this.cfg == cfg && State() == NewClient(cfg, budget, minIncrement)
    {
      this.cfg := cfg;
      var s := new S.SrptScheduler(budget, minIncrement);
      var q := new Q.SeqTracker();
      scheduler, seqs := s, q;
      transfers, lastSeqDetect, payloadSeen, negotiated, hellos := map[], None, 0, false, 0;
      sent, events, started, ended, recovered, claims := [], [], map[], map[], multiset{}, map[];
      new;
      SendHello();
    }

    // ---- Granting ----

    /** Initial grants of transfers whose size is not known yet. */
    method ReservedNow() returns (n: nat)
      ensures n == Reserved(transfers)
    {
      n := 0;
      var rest := transfers;
      while rest.Keys != {}
        invariant n + Reserved(rest) == Reserved(transfers)
        decreases |rest|
      {
        var id :| id in rest.Keys;
        CR.ReservedWithout(rest, id);
        if rest[id].asm.None? { n := n + rest[id].initialGrant; }
        rest := rest - {id};
      }
    }

    method PumpGrants(e: Env)
      requires Valid()
      modifies this, scheduler
      ensures Valid() && State() == Pump(old(State()), e)
    {
      ghost var st := scheduler.State().(budget := e.budget);
      scheduler.SetBudget(e.budget);
      var reserved := ReservedNow();
      var out := scheduler.Grants(reserved);
      GrantsOnceEach(st, reserved);
      RaiseCeilings(out);
    }

    /** Sends the GRANTs and raises the ceilings of their transfers. */
    method RaiseCeilings(ds: seq<S.Decision>)
      requires OnceEach(ds)
      modifies this`transfers, this`sent
      ensures transfers == Raised(old(transfers), ds) && sent == old(sent) + GrantPackets(ds)
    {
      ghost var rest := ds;
      for k := 0 to |ds|
        invariant rest == ds[k..] && OnceEach(rest)
        invariant Raised(transfers, rest) == Raised(old(transfers), ds)
        invariant sent + GrantPackets(rest) == old(sent) + GrantPackets(ds)
      {
        var d := ds[k];
        RaisedStep(transfers, rest);
        if d.id in transfers { transfers := transfers[d.id := transfers[d.id].(ceiling := d.maxOffset)]; }
        Shift(sent, [Grant(d.id, d.maxOffset, d.priority)], GrantPackets(rest[1..]));
        sent := sent + [Grant(d.id, d.maxOffset, d.priority)];
        rest := rest[1..];
      }
      RaisedNone(transfers);
    }

    // ---- Telling callers ----

    method BeginStream(id: nat)
      requires Valid() && id in transfers
      modifies this`transfers, this`events
      ensures Valid() && State() == MaybeStart(old(State()), id)
    {
      var t := transfers[id];
      if t.stream.None? || t.settled || t.asm.None? || t.headers.None? { return; }
      transfers := transfers[id := t.(settled := true)];
      events := events + [Handed(id, t.asm.value.size, t.headers.value)];
    }

    method FlushStream(id: nat, behind: bool)
      requires Valid() && id in transfers
      modifies this`transfers, scheduler
      ensures Valid() && State() == Flush(old(State()), id, behind)
    {
      var t, t' := transfers[id], Flushed(transfers[id], behind);
      transfers := transfers[id := t'];
      if JustPaused(t, t') { scheduler.SetPaused(id, true); }
    }

    /** Ends a transfer: its stream, then its caller, then the grants its end frees. */
    method FinishOne(id: nat, ok: bool, e: Env)
      requires Valid() && id in transfers
      modifies this, scheduler
      ensures Valid() && State() == Finish(old(State()), id, ok, e)
    {
      CR.FinishIsOver(State(), id, ok, e);
      EndOne(id, ok, e.behind);
      PumpGrants(e);
    }

    method EndOne(id: nat, ok: bool, behind: bool)
      requires Valid() && id in transfers
      modifies this, scheduler
      ensures Valid() && State() == CR.Over(old(State()), id, ok, behind)
    {
      var t := transfers[id];
      Unlist(id);
      if ok { t := LastFlush(id, t, behind); }
      ended := ended[id := t];
      TellEnd(id, t, ok);
    }

    /** The last flush of a transfer already off the books: pausing it then touches nothing. */
    method LastFlush(id: nat, t: Transfer, behind: bool) returns (t': Transfer)
      requires Valid() && S.Lookup(scheduler.rpcs, id).None?
      modifies scheduler
      ensures Valid() && State() == old(State()) && t' == Flushed(t, behind)
    {
      t' := Flushed(t, behind);
      if JustPaused(t, t') {
        Unscheduled(scheduler.rpcs, id);
        scheduler.SetPaused(id, true);
      }
    }

    /** Takes a transfer off the books. */
    method Unlist(id: nat)
      requires Valid()
      modifies this`transfers, scheduler
      ensures Valid() && transfers == old(transfers) - {id} && S.Lookup(scheduler.rpcs, id).None?
      ensures scheduler.State() == old(scheduler.State()).(rpcs := S.Without(old(scheduler.rpcs), id))
    {
      transfers := transfers - {id};
      S.WithoutFacts(scheduler.rpcs, id, scheduler.next);
      scheduler.Remove(id);
    }

    /** Ends the stream, then answers the caller. */
    method TellEnd(id: nat, t: Transfer, ok: bool)
      modifies this`events
      ensures events == old(events) + CR.LastWords(id, t, ok)
    {
      if t.stream.Some? && !t.stream.value.closed {
        events := events + [if ok then Closed(id, Read(t.stream.value.chunks, BytesOf(t))) else Errored(id)];
      }
      if !t.settled {
        if !ok {
          events := events + [Rejected(id)];
        } else if t.stream.Some? {
          events := events + [Handed(id, |BytesOf(t)|, HeadersOf(t))];
        } else {
          events := events + [Resolved(id, BytesOf(t), HeadersOf(t))];
        }
      }
    }

    /** The reader cancelled: forget the transfer. */
    method DropOne(id: nat, e: Env)
      requires Valid() && id in transfers
      modifies this, scheduler
      ensures Valid() && State() == Cancel(old(State()), id, e)
    {
      ended := ended[id := transfers[id]];
      Unlist(id);
      events := events + [Cancelled(id)];
      PumpGrants(e);
    }

    /** The reader took something: a paused transfer takes grants again. */
    method PullOne(id: nat, e: Env)
      requires Valid() && id in transfers
      modifies this, scheduler
      ensures Valid() && State() == Pull(old(State()), id, e)
    {
      var t := transfers[id];
      if t.stream.None? || !t.stream.value.paused { return; }
      transfers := transfers[id := t.(stream := Some(t.stream.value.(paused := false)))];
      scheduler.SetPaused(id, false);
      PumpGrants(e);
    }

    // ---- Starting ----

    method SendHello()
      requires Valid()
      modifies this`hellos, this`sent
      ensures Valid() && State() == Hello'(cfg, old(State()))
    {
      if !cfg.sessionSeq || negotiated || hellos > HELLO_REPEATS { return; }
      hellos := hellos + 1;
      sent := sent + [Hello(0, SESSION_SEQ)];
    }

    method StartOne(id: nat, assetId: seq<Byte>, streaming: bool, cls: S.Class, initialGrant: nat, now: real)
      requires Valid() && id !in transfers
      modifies this
      ensures Valid() && State() == Start(cfg, old(State()), id, Begun(assetId, streaming), cls, initialGrant, now)
    {
      transfers := transfers[id := NewTransfer(assetId, streaming, cls, initialGrant, now)];
      started := started[id := Begun(assetId, streaming)];
      SendHello();
      sent := sent + [Req(id, initialGrant, assetId)];
    }

    // ---- Repair ----

    /** RESENDs the parts of gaps no live RESEND covers. */
    method ClaimAndSend(id: nat, gaps: seq<Range>, e: Env)
      requires Valid() && id in transfers && transfers[id].asm.Some?
      modifies this`transfers, this`sent, this`claims
      ensures Valid() && State() == ClaimGaps(old(State()), id, gaps, e)
    {
      var t := transfers[id];
      var lacking := R.Lacking(t.asm.value);
      var out := R.ClaimOut(t.repair, lacking, gaps, e.now);
      transfers := transfers[id := t.(repair := R.Claimed(t.repair, lacking, gaps, e.now, e.delay))];
      claims := claims[id := ClaimsOf(State(), id) + [R.Batch(out, e.now, e.now + e.delay)]];
      SendResends(id, out);
    }

    method SendResends(id: nat, rs: seq<Range>)
      modifies this`sent
      ensures sent == old(sent) + Resends(id, rs)
    {
      ghost var rest := rs;
      for k := 0 to |rs|
        invariant rest == rs[k..] && sent + Resends(id, rest) == old(sent) + Resends(id, rs)
      {
        var p := Resend(id, Max(0, rs[k].start), Max(0, rs[k].end));
        Shift(sent, [p], Resends(id, rest[1..]));
        sent := sent + [p];
        rest := rest[1..];
      }
    }

    method SendResendSeqs(rs: seq<Range>)
      modifies this`sent
      ensures sent == old(sent) + ResendSeqs(rs)
    {
      ghost var rest := rs;
      for k := 0 to |rs|
        invariant rest == rs[k..] && sent + ResendSeqs(rest) == old(sent) + ResendSeqs(rs)
      {
        var p := ResendSeq(0, Max(0, rs[k].start), Max(0, rs[k].end));
        Shift(sent, [p], ResendSeqs(rest[1..]));
        sent := sent + [p];
        rest := rest[1..];
      }
    }

    /** How far below the frontier a gap must lie before it is a suspect. */
    method LossLimit(id: nat) returns (limit: int)
      requires Valid() && id in transfers && transfers[id].asm.Some?
      ensures limit == SuspectLimit(cfg, State(), id)
    {
      var m := transfers[id].asm.value;
      var g := scheduler.GrantedNow(id);
      var granted := if g.Some? then g.value else m.size;
      var frontier := A.Frontier(m);
      var payload := if payloadSeen == 0 then DEFAULT_PAYLOAD else payloadSeen;
      limit := if frontier < granted then frontier - cfg.reorderPackets * payload else frontier;
    }

    /** Early loss detection for one transfer. */
    method DetectLossOf(id: nat, e: Env)
      requires Valid() && id in transfers
      modifies this`transfers, this`sent, this`claims
      ensures Valid() && State() == DetectLoss(cfg, old(State()), id, e)
      ensures id in transfers
    {
      var t := transfers[id].(lastDetect := Some(e.now));
      transfers := transfers[id := t];
      if !cfg.earlyResend || t.asm.None? || negotiated { return; }
      var limit := LossLimit(id);
      if limit <= 0 { return; }
      var gaps := A.Missing(t.asm.value, limit);
      transfers := transfers[id := t.(repair := t.repair.(suspects := R.Suspects(t.repair.suspects, gaps, e.now)))];
      ClaimAndSend(id, R.Lost(t.repair.suspects, gaps, e.now, e.window), e);
    }

    /** Session-wide detection: lost numbers are asked for, and asked for again. */
    method DetectLostNumbers(e: Env)
      requires Valid()
      modifies this`lastSeqDetect, this`sent, seqs
      ensures Valid() && State() == DetectSeqLoss(cfg, old(State()), e)
    {
      lastSeqDetect := Some(e.now);
      if !cfg.earlyResend { return; }
      AskForLost(e);
      AskOnceMore(e);
    }

    method AskForLost(e: Env)
      requires Valid()
      modifies this`sent, seqs
      ensures Valid() && State() == AskLost(cfg, old(State()), e)
    {
      var lost := seqs.Detects(e.now, cfg.reorderPackets, e.window, e.tail, MAX_RESEND_SEQ);
      SendResendSeqs(lost);
    }

    method AskOnceMore(e: Env)
      requires Valid()
      modifies this`sent, seqs
      ensures Valid() && State() == AskAgain(old(State()), e)
    {
      var again := seqs.Repeats(e.now, 2.0 * e.delay, SEQ_RESEND_TRIES, RepairedIn(transfers), MAX_RESEND_SEQ);
      assert State() == NextTry(old(State()), e);
      SendResendSeqs(again);
    }

    /** The stall timer: ask again for what is missing, or give up. */
    method RecoverOne(id: nat, granted: nat, e: Env)
      requires Valid() && id in transfers
      modifies this, scheduler
      ensures Valid() && State() == Recover(cfg, old(State()), id, granted, e)
    {
      if transfers[id].recoveries + 1 > cfg.maxRecoveries {
        GiveUpOn(id, e);
        return;
      }
      AttemptOne(id, e.now);
      if transfers[id].asm.Some? { RerequestOne(id, granted, e); }
    }

    method GiveUpOn(id: nat, e: Env)
      requires Valid() && id in transfers
      modifies this, scheduler
      ensures Valid() && State() == GiveUp(old(State()), id, e)
    {
      CountLastTry(id);
      FinishOne(id, false, e);
    }

    method CountLastTry(id: nat)
      requires Valid() && id in transfers
      modifies this`transfers, this`recovered
      ensures Valid() && State() == OutOfTries(old(State()), id)
    {
      recovered := recovered + multiset{id};
      transfers := transfers[id := transfers[id].(recoveries := transfers[id].recoveries + 1)];
    }

    method AttemptOne(id: nat, now: real)
      requires Valid() && id in transfers
      modifies this`transfers, this`recovered, this`sent
      ensures Valid() && State() == Attempted(old(State()), id, now)
    {
      var t := transfers[id];
      recovered := recovered + multiset{id};
      transfers := transfers[id := t.(recoveries := t.recoveries + 1, lastProgress := now)];
      if t.asm.None? || t.headers.None? { sent := sent + [Req(id, t.initialGrant, t.assetId)]; }
    }

    method RerequestOne(id: nat, granted: nat, e: Env)
      requires Valid() && id in transfers && transfers[id].asm.Some?
      modifies this`transfers, this`sent, this`claims
      ensures Valid() && State() == Rerequest(old(State()), id, granted, e)
    {
      var t := transfers[id];
      var payload := if payloadSeen == 0 then DEFAULT_PAYLOAD else payloadSeen;
      assert old(sent) + [] == old(sent);
      if granted > t.initialGrant { sent := sent + [Grant(id, granted, 0)]; }
      ClaimAndSend(id, RecoverGaps(t.asm.value, granted, payload), e);
    }

    /** One transfer's turn on a tick. */
    method TickTransfer(id: nat, e: Env)
      requires Valid() && id in transfers
      modifies this, scheduler
      ensures Valid() && State() == TickOne(cfg, old(State()), id, e)
    {
      if transfers[id].asm.Some? { DetectLossOf(id, e); }
      ProbeOrRecover(id, e);
    }

    /** The probe and the stall timer, unless the transfer is only waiting. */
    method ProbeOrRecover(id: nat, e: Env)
      requires Valid() && id in transfers
      modifies this, scheduler
      ensures Valid() && State() == AfterDetect(cfg, old(State()), id, e)
    {
      var t := transfers[id];
      var g := scheduler.GrantedNow(id);
      var granted := if t.asm.Some? && g.Some? then g.value else 0;
      if Waiting(t, granted) {
        transfers := transfers[id := t.(lastProgress := e.now)];
        return;
      }
      if ProbeDue(cfg, t, granted, e) {
        transfers := transfers[id := t.(tailProbed := true)];
        var payload := if payloadSeen == 0 then DEFAULT_PAYLOAD else payloadSeen;
        ClaimAndSend(id, [LastPacket(t.asm.value, granted, payload)], e);
      }
      if e.now - transfers[id].lastProgress >= e.timeout { RecoverOne(id, granted, e); }
    }

    // ---- Arrivals ----

    method OnMeta(id: nat, fields: seq<Field>, e: Env)
      requires Valid() && id in transfers
      modifies this, scheduler
      ensures Valid() && State() == HandleMeta(old(State()), id, fields, e)
    {
      var t := transfers[id];
      if t.headers.Some? { return; }
      transfers := transfers[id := t.(headers := Some(fields), lastProgress := e.now, recoveries := 0)];
      BeginStream(id);
      if t.asm.Some? && A.Complete(t.asm.value) { FinishOne(id, true, e); }
    }

    method OnData(id: nat, size: nat, offset: nat, payload: seq<Byte>, e: Env)
      requires Valid() && CR.Inv(cfg, State()) && AsmsOk(State()) && id in transfers
      modifies this, scheduler
      ensures Valid() && State() == HandleData(cfg, old(State()), id, size, offset, payload, e)
    {
      SizeOne(id, size);
      var m := transfers[id].asm.value;
      if size != m.size || !A.Fits(m.size, offset, |payload|) {
        FinishOne(id, false, e);
        return;
      }
      StoreOne(id, offset, payload, e.now);
      FollowUp(id, e);
    }

    /** The first DATA reveals the size. */
    method SizeOne(id: nat, size: nat)
      requires Valid() && CR.Inv(cfg, State()) && id in transfers
      modifies this`transfers, scheduler
      ensures Valid() && State() == Sized(old(State()), id, size)
    {
      var t := transfers[id];
      if t.asm.Some? { return; }
      NotListed(cfg, State(), id);
      transfers := transfers[id := t.(asm := Some(A.NewAsm(size)), repair := R.NewRepair())];
      scheduler.Add(id, size, t.initialGrant, 0, t.cls);
    }

    method StoreOne(id: nat, offset: nat, payload: seq<Byte>, now: real)
      requires Valid() && id in transfers && transfers[id].asm.Some? && A.AsmOk(transfers[id].asm.value)
      requires A.Fits(transfers[id].asm.value.size, offset, |payload|)
      modifies this`transfers, this`payloadSeen, scheduler
      ensures Valid() && State() == Stored(old(State()), id, offset, payload, now)
    {
      scheduler.OnData(id, A.FreshIn(transfers[id].asm.value, offset, |payload|));
      transfers := transfers[id := StoredT(transfers[id], offset, payload, now)];
      payloadSeen := Max(payloadSeen, |payload|);
    }

    /** Tells the caller what is new, and either finishes or looks for gaps. */
    method FollowUp(id: nat, e: Env)
      requires Valid() && id in transfers && transfers[id].asm.Some?
      modifies this, scheduler
      ensures Valid() && State() == AfterStored(cfg, old(State()), id, e)
    {
      BeginStream(id);
      FlushStream(id, e.behind);
      var t := transfers[id];
      if A.Complete(t.asm.value) && t.headers.Some? {
        FinishOne(id, true, e);
      } else if Elapsed(t.lastDetect, e.now, DETECT_INTERVAL_MS) {
        DetectLossOf(id, e);
      }
    }

    /** What a datagram does to the transfer it is for, if there is one. */
    method Dispatch(p: Packet, e: Env)
      requires Valid() && CR.Inv(cfg, State()) && AsmsOk(State())
      modifies this, scheduler
      ensures Valid() && State() == HandlePacket(cfg, old(State()), p, e)
    {
      if p.rpc !in transfers { return; }
      if p.Meta? {
        OnMeta(p.rpc, p.fields, e);
      } else if p.Data? || p.DataSeq? {
        OnData(p.rpc, p.totalSize, p.offset, p.payload, e);
      } else if p.Error? {
        FinishOne(p.rpc, false, e);
      }
    }

    /** The read loop's step for one datagram. */
    method OnDatagram(p: Packet, e: Env)
      requires Valid() && CR.Inv(cfg, State()) && AsmsOk(State())
      modifies this, scheduler, seqs
      ensures Valid() && State() == Arrive(cfg, old(State()), p, e)
    {
      if p.DataSeq? {
        CS.CountKeeps(cfg, State(), p, e);
        CountArrival(p, e);
        CS.InvAsmsOk(cfg, State());
      }
      Dispatch(p, e);
      PumpGrants(e);
    }

    /** A DATA_SEQ's number counts whether or not its transfer is still alive. */
    method CountArrival(p: Packet, e: Env)
      requires Valid() && p.DataSeq? && -1 <= seqs.highest
      modifies this`negotiated, this`lastSeqDetect, this`sent, seqs
      ensures Valid() && State() == CountNumber(cfg, old(State()), p, e)
    {
      negotiated := true;
      var arrival := seqs.Arrives(p.num, e.now, Some(Q.Hint(p.rpc, p.offset, p.offset + |p.payload|)));
      if Elapsed(lastSeqDetect, e.now, DETECT_INTERVAL_MS) { DetectLostNumbers(e); }
    }

    // ---- All transfers at once ----

    /** The session failed: each transfer, once, is finished with an error, and nothing else is done. */
    method FailAll(e: Env) returns (ghost order: seq<nat>)
      requires Valid() && CR.Inv(cfg, State()) && CR.Rest(State())
      modifies this, scheduler
      ensures Valid() && transfers == map[]
      ensures EachOnce(order, old(transfers).Keys)
      ensures CH.Reaches(cfg, old(State()), Aborts(order, e), State())
    {
      order := [];
      var left := transfers.Keys;
      ghost var start, ids := State(), transfers.Keys;
      while left != {}
        invariant Valid() && CR.Inv(cfg, State()) && CR.Rest(State())
        invariant left == transfers.Keys && left <= ids && EachOnce(order, ids - left)
        invariant CH.Reaches(cfg, start, Aborts(order, e), State())
        decreases |left|
      {
        var id :| id in left;
        AbortOne(id, e, start, Aborts(order, e));
        AbortsAppend(order, id, e);
        OnceMore(order, ids, left, id);
        order, left := order + [id], left - {id};
      }
    }

    /** One more step of a run: a transfer fails. */
    method AbortOne(id: nat, e: Env, ghost start: Client, ghost steps: seq<CH.Step>)
      requires Valid() && CR.Inv(cfg, State()) && CR.Rest(State()) && id in transfers
      requires CH.Reaches(cfg, start, steps, State())
      modifies this, scheduler
      ensures Valid() && CR.Inv(cfg, State()) && CR.Rest(State()) && transfers.Keys == old(transfers).Keys - {id}
      ensures CH.Reaches(cfg, start, steps + [CH.Aborted(id, e)], State())
    {
      ghost var before := State();
      FinishOne(id, false, e);
      CH.StepKeeps(cfg, before, CH.Aborted(id, e), State());
      CH.OneMore(cfg, start, steps, before, CH.Aborted(id, e), State());
      FinishedKeys(before, id, false, e);
    }

    /** One more step of a run: a transfer's turn. */
    method TurnOne(id: nat, e: Env, ghost start: Client, ghost steps: seq<CH.Step>)
      requires Valid() && CR.Inv(cfg, State()) && CR.Rest(State()) && id in transfers
      requires CH.Reaches(cfg, start, steps, State())
      modifies this, scheduler
      ensures Valid() && CR.Inv(cfg, State()) && CR.Rest(State()) && old(transfers).Keys - {id} <= transfers.Keys
      ensures CH.Reaches(cfg, start, steps + [CH.Ticked(id, e)], State())
    {
      ghost var before := State();
      TickTransfer(id, e);
      CH.StepKeeps(cfg, before, CH.Ticked(id, e), State());
      CH.OneMore(cfg, start, steps, before, CH.Ticked(id, e), State());
      TickedKeys(cfg, before, id, e);
    }

    /** The first step of a tick, if there is one. */
    method TickNumbers(e: Env)
      requires Valid() && CR.Inv(cfg, State()) && CR.Rest(State())
      modifies this, seqs
      ensures Valid() && CR.Inv(cfg, State()) && CR.Rest(State()) && transfers == old(transfers)
      ensures CH.Reaches(cfg, old(State()), First(old(negotiated), e), State())
    {
      ghost var before := State();
      if negotiated {
        DetectLostNumbers(e);
        CH.StepKeeps(cfg, before, CH.SeqTicked(e), State());
        CH.OneMore(cfg, before, [], before, CH.SeqTicked(e), State());
        assert [] + [CH.SeqTicked(e)] == First(old(negotiated), e);
      }
    }

    /**
     One tick: session-wide detection if the server numbers its DATA, then every
     transfer's turn, once, each with its own timeouts, and nothing else.
     */
    method Tick(e: Env, envs: map<nat, Env>) returns (ghost order: seq<nat>)
      requires Valid() && CR.Inv(cfg, State()) && CR.Rest(State()) && transfers.Keys <= envs.Keys
      modifies this, scheduler, seqs
      ensures Valid() && CR.Inv(cfg, State()) && CR.Rest(State())
      ensures EachOnce(order, old(transfers).Keys) && old(transfers).Keys <= envs.Keys
      ensures CH.Reaches(cfg, old(State()), First(old(negotiated), e) + Turns(order, envs), State())
    {
      ghost var start, first := State(), First(negotiated, e);
      TickNumbers(e);
      order := EveryTurn(envs, start, first);
    }

    /** The loop over the transfers there are. */
    method EveryTurn(envs: map<nat, Env>, ghost start: Client, ghost first: seq<CH.Step>) returns (ghost order: seq<nat>)
      requires Valid() && CR.Inv(cfg, State()) && CR.Rest(State()) && transfers.Keys <= envs.Keys
      requires CH.Reaches(cfg, start, first, State())
      modifies this, scheduler
      ensures Valid() && CR.Inv(cfg, State()) && CR.Rest(State())
      ensures EachOnce(order, old(transfers).Keys)
      ensures CH.Reaches(cfg, start, first + Turns(order, envs), State())
    {
      order := [];
      var left := transfers.Keys;
      ghost var ids := transfers.Keys;
      assert first + Turns([], envs) == first;
      while left != {}
        invariant Valid() && CR.Inv(cfg, State()) && CR.Rest(State())
        invariant left <= transfers.Keys && left <= ids && EachOnce(order, ids - left)
        invariant CH.Reaches(cfg, start, first + Turns(order, envs), State())
        decreases |left|
      {
        var id :| id in left;
        TurnOne(id, envs[id], start, first + Turns(order, envs));
        TurnsAppend(first, order, id, envs);
        OnceMore(order, ids, left, id);
        order, left := order + [id], left - {id};
      }
    }
  }

  /** No transfer gets two decisions from one call. */
  ghost predicate OnceEach(ds: seq<S.Decision>) {
    ds == [] || (S.GrantFor(ds[1..], ds[0].id).None? && OnceEach(ds[1..]))
  }

  lemma {:induction false} ServesOnceEach(ds: seq<S.Decision>, cands: seq<S.Entry>)
    requires S.Serves(ds, cands) && S.Unique(cands)
    ensures OnceEach(ds)
    decreases |ds|
  {
    if ds != [] {
      S.GrantForIn(ds[1..], cands[1..], ds[0].id);
      ServesOnceEach(ds[1..], cands[1..]);
    }
  }

  lemma GrantsOnceEach(st: S.Sched, reserved: int)
    requires S.Listed(st.rpcs, st.next)
    ensures OnceEach(S.Decisions(st, reserved))
  {
    var cands := S.Candidates(st.rpcs);
    S.CandidateFacts(st.rpcs, st.next);
    S.DecideServes(cands, 0, S.Available(st, reserved), S.Increment(st.minIncrement, st.budget), S.Outstanding(st.rpcs) == 0);
    ServesOnceEach(S.Decisions(st, reserved), cands);
  }

  lemma RaisedStep(m: map<nat, Transfer>, ds: seq<S.Decision>)
    requires ds != [] && OnceEach(ds)
    ensures var d := ds[0];
      Raised(if d.id in m then m[d.id := m[d.id].(ceiling := d.maxOffset)] else m, ds[1..]) == Raised(m, ds)
  {
  }

  lemma RaisedNone(m: map<nat, Transfer>)
    ensures Raised(m, []) == m
  {
  }

  lemma {:induction false} Unscheduled(rpcs: seq<S.Entry>, id: nat)
    requires S.Lookup(rpcs, id).None?
    ensures S.Pause(rpcs, id, true) == rpcs
  {
    if rpcs != [] { Unscheduled(rpcs[1..], id); }
  }

  /** A transfer without a buffer is not scheduled. */
  lemma NotListed(cfg: ClientConfig, c: Client, id: nat)
    requires CR.Inv(cfg, c) && id in c.transfers && c.transfers[id].asm.None?
    ensures id !in S.Ids(c.sched.rpcs)
  {
    assert CR.ViewOk(cfg, id, CR.ViewOf(c, id));
    S.LookupIn(c.sched.rpcs, c.sched.next);
  }

  lemma FinishedKeys(c: Client, id: nat, ok: bool, e: Env)
    requires id in c.transfers
    ensures Finish(c, id, ok, e).transfers.Keys == c.transfers.Keys - {id}
  {
  }

  // ---- Turns over all transfers ----

  /** Every id of ids occurs in order, once, and no other does. */
  ghost predicate EachOnce(order: seq<nat>, ids: set<nat>) {
    && (forall id :: id in ids <==> id in order)
    && forall i, j :: 0 <= i < j < |order| ==> order[i] != order[j]
  }

  lemma OnceMore(order: seq<nat>, ids: set<nat>, left: set<nat>, id: nat)
    requires left <= ids && id in left && EachOnce(order, ids - left)
    ensures left - {id} <= ids && EachOnce(order + [id], ids - (left - {id}))
  {
    forall i, j | 0 <= i < j < |order + [id]| ensures (order + [id])[i] != (order + [id])[j] {
      assert order[i] in order;
    }
  }

  function Aborts(order: seq<nat>, e: Env): seq<CH.Step> {
    if order == [] then [] else Aborts(order[..|order| - 1], e) + [CH.Aborted(order[|order| - 1], e)]
  }

  lemma AbortsAppend(order: seq<nat>, id: nat, e: Env)
    ensures Aborts(order + [id], e) == Aborts(order, e) + [CH.Aborted(id, e)]
  {
    assert (order + [id])[..|order|] == order;
  }

  function First(negotiated: bool, e: Env): seq<CH.Step> { if negotiated then [CH.SeqTicked(e)] else [] }

  function Turns(order: seq<nat>, envs: map<nat, Env>): seq<CH.Step> {
    if order == [] then []
    else
      var id := order[|order| - 1];
      Turns(order[..|order| - 1], envs) + if id in envs then [CH.Ticked(id, envs[id])] else []
  }

  lemma TurnsAppend(first: seq<CH.Step>, order: seq<nat>, id: nat, envs: map<nat, Env>)
    requires id in envs
    ensures first + Turns(order + [id], envs) == first + Turns(order, envs) + [CH.Ticked(id, envs[id])]
  {
    assert (order + [id])[..|order|] == order;
  }

  /** A transfer's turn ends no other transfer. */
  lemma TickedKeys(cfg: ClientConfig, c: Client, id: nat, e: Env)
    requires id in c.transfers
    ensures c.transfers.Keys - {id} <= TickOne(cfg, c, id, e).transfers.Keys
  {
    var c1 := if c.transfers[id].asm.Some? then DetectLoss(cfg, c, id, e) else c;
    DetectedKeys(cfg, c, id, e);
    var t, granted := c1.transfers[id], TickGrant(c1, id);
    if !Waiting(t, granted) {
      var c2 := TailProbe(cfg, c1, id, granted, e);
      ProbedKeys(cfg, c1, id, granted, e);
      if Stalled(c2.transfers[id], e) { RecoveredKeys(cfg, c2, id, granted, e); }
    }
  }

  lemma DetectedKeys(cfg: ClientConfig, c: Client, id: nat, e: Env)
    requires id in c.transfers
    ensures DetectLoss(cfg, c, id, e).transfers.Keys == c.transfers.Keys
  {
  }

  lemma ProbedKeys(cfg: ClientConfig, c: Client, id: nat, granted: nat, e: Env)
    requires id in c.transfers
    ensures TailProbe(cfg, c, id, granted, e).transfers.Keys == c.transfers.Keys
  {
  }

  lemma RecoveredKeys(cfg: ClientConfig, c: Client, id: nat, granted: nat, e: Env)
    requires id in c.transfers
    ensures c.transfers.Keys - {id} <= Recover(cfg, c, id, granted, e).transfers.Keys
  {
    if c.transfers[id].recoveries + 1 > cfg.maxRecoveries { FinishedKeys(OutOfTries(c, id), id, false, e); }
  }
}
