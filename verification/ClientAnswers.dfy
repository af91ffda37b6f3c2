/**
 How a transfer may end. A step that is not told to fail a transfer leaves it
 live, or ends it by giving its caller the whole body: a request resolved or a
 stream closed cleanly.
 */
module ClientAnswers {
  import opened Intervals
  import opened Packets
  import opened Senders
  import opened Clients
  import opened ClientRuns
  import opened ClientSteps
  import opened ClientTruth
  import opened ClientHistory
  import A = Reassemblies

  predicate IsWhole(ev: Event, id: nat) { ev.id == id && (ev.Resolved? || ev.Closed?) }

  /** The caller was given the whole body. */
  predicate Served(c: Client, id: nat) { exists ev :: ev in c.events && IsWhole(ev, id) }

  /** Callers are told nothing less, and the transfer goes on or its caller was served. */
  predicate Spares(c: Client, c': Client, id: nat) {
    && (forall ev :: ev in c.events ==> ev in c'.events)
    && (id in c.transfers ==> id in c'.transfers || Served(c', id))
  }

  lemma StillServed(c: Client, c': Client, id: nat)
    requires Spares(c, c', id) && Served(c, id)
    ensures Served(c', id)
  {
    var ev :| ev in c.events && IsWhole(ev, id);
    assert ev in c'.events;
  }

  lemma SparesTwice(a: Client, b: Client, c: Client, id: nat)
    requires Spares(a, b, id) && Spares(b, c, id)
    ensures Spares(a, c, id)
  {
    if Served(b, id) { StillServed(b, c, id); }
  }

  lemma PumpSpares(c: Client, e: Env, id: nat)
    ensures Spares(c, Pump(c, e), id)
  {
  }

  // ---- Endings ----

  /** The last words of a complete transfer serve its caller. */
  lemma LastWordsServe(id: nat, t: Transfer)
    requires StreamOk(t) && (t.settled ==> t.stream.Some?)
    ensures exists ev :: ev in LastWords(id, t, true) && IsWhole(ev, id)
  {
    var ev := if t.stream.Some? then Closed(id, Read(t.stream.value.chunks, BytesOf(t))) else Resolved(id, BytesOf(t), HeadersOf(t));
    assert ev in LastWords(id, t, true);
  }

  lemma OverSpares(c: Client, j: nat, ok: bool, behind: bool, id: nat)
    requires j in c.transfers && (j == id ==> ok && StreamOk(Flushed(c.transfers[j], behind)) && (c.transfers[j].settled ==> c.transfers[j].stream.Some?))
    ensures Spares(c, Over(c, j, ok, behind), id)
  {
    if j == id {
      LastWordsServe(id, Flushed(c.transfers[id], behind));
      var ev :| ev in LastWords(id, Flushed(c.transfers[id], behind), true) && IsWhole(ev, id);
      assert ev in Over(c, j, ok, behind).events;
    }
  }

  lemma FinishSpares(cfg: ClientConfig, c: Client, j: nat, ok: bool, e: Env, id: nat)
    requires j in c.transfers && (j == id ==> ok && Inv(cfg, c))
    ensures Spares(c, Finish(c, j, ok, e), id)
  {
    if j == id {
      assert ViewOk(cfg, j, ViewOf(c, j));
      FlushedOk(c.transfers[j], e.behind);
    }
    FinishIsOver(c, j, ok, e);
    OverSpares(c, j, ok, e.behind, id);
    PumpSpares(Over(c, j, ok, e.behind), e, id);
    SparesTwice(c, Over(c, j, ok, e.behind), Finish(c, j, ok, e), id);
  }

  lemma CancelSpares(c: Client, j: nat, e: Env, id: nat)
    requires j in c.transfers && j != id
    ensures Spares(c, Cancel(c, j, e), id)
  {
    var c1 := Forget(c, j, c.transfers[j]).(events := c.events + [Cancelled(j)]);
    PumpSpares(c1, e, id);
    SparesTwice(c, c1, Cancel(c, j, e), id);
  }

  // ---- Steps that end nothing ----

  /** Same transfers, and nothing said. */
  predicate Silent(c: Client, c': Client) { c'.transfers.Keys == c.transfers.Keys && c'.events == c.events }

  lemma DetectSilent(cfg: ClientConfig, c: Client, j: nat, e: Env)
    requires j in c.transfers
    ensures Silent(c, DetectLoss(cfg, c, j, e)) && DetectLoss(cfg, c, j, e).transfers[j].recoveries == c.transfers[j].recoveries
  {
  }

  lemma ProbeSilent(cfg: ClientConfig, c: Client, j: nat, granted: nat, e: Env)
    requires j in c.transfers
    ensures Silent(c, TailProbe(cfg, c, j, granted, e)) && TailProbe(cfg, c, j, granted, e).transfers[j].recoveries == c.transfers[j].recoveries
  {
  }

  lemma SeqLossSilent(cfg: ClientConfig, c: Client, e: Env)
    ensures Silent(c, DetectSeqLoss(cfg, c, e))
  {
  }

  lemma PullSpares(c: Client, j: nat, e: Env, id: nat)
    requires j in c.transfers
    ensures Spares(c, Pull(c, j, e), id)
  {
    if c.transfers[j].stream.Some? && c.transfers[j].stream.value.paused { PumpSpares(Resumed(c, j), e, id); }
  }

  lemma GiveUpSpares(cfg: ClientConfig, c: Client, j: nat, e: Env, id: nat)
    requires j in c.transfers && j != id
    ensures Spares(c, GiveUp(c, j, e), id)
  {
    FinishSpares(cfg, OutOfTries(c, j), j, false, e, id);
    SparesTwice(c, OutOfTries(c, j), GiveUp(c, j, e), id);
  }

  /** A turn of the transfer's own spares it while it has tries left. */
  predicate HasTries(cfg: ClientConfig, c: Client, j: nat, id: nat)
    requires j in c.transfers
  {
    j == id ==> c.transfers[j].recoveries + 1 <= cfg.maxRecoveries
  }

  lemma RecoverSpares(cfg: ClientConfig, c: Client, j: nat, granted: nat, e: Env, id: nat)
    requires j in c.transfers && HasTries(cfg, c, j, id)
    ensures Spares(c, Recover(cfg, c, j, granted, e), id)
  {
    if c.transfers[j].recoveries + 1 > cfg.maxRecoveries {
      GiveUpSpares(cfg, c, j, e, id);
    } else if c.transfers[j].asm.Some? {
      AttemptedOutcome(c, j, e.now);
      RerequestOutcome(Attempted(c, j, e.now), j, granted, e);
    }
  }

  lemma TickSpares(cfg: ClientConfig, c: Client, j: nat, e: Env, id: nat)
    requires j in c.transfers && HasTries(cfg, c, j, id)
    ensures Spares(c, TickOne(cfg, c, j, e), id)
  {
    var c1 := if c.transfers[j].asm.Some? then DetectLoss(cfg, c, j, e) else c;
    DetectSilent(cfg, c, j, e);
    LaterSpares(cfg, c1, j, e, id);
    SparesTwice(c, c1, TickOne(cfg, c, j, e), id);
  }

  lemma LaterSpares(cfg: ClientConfig, c: Client, j: nat, e: Env, id: nat)
    requires j in c.transfers && HasTries(cfg, c, j, id)
    ensures Spares(c, AfterDetect(cfg, c, j, e), id)
  {
    var t, granted := c.transfers[j], TickGrant(c, j);
    if !Waiting(t, granted) {
      var c1 := TailProbe(cfg, c, j, granted, e);
      ProbeSilent(cfg, c, j, granted, e);
      if Stalled(c1.transfers[j], e) {
        RecoverSpares(cfg, c1, j, granted, e, id);
        SparesTwice(c, c1, Recover(cfg, c1, j, granted, e), id);
      }
    }
  }

  // ---- Arrivals ----

  lemma StartedSpares(c: Client, j: nat, id: nat)
    requires j in c.transfers
    ensures Spares(c, MaybeStart(c, j), id)
  {
  }

  lemma FlushSpares(c: Client, j: nat, behind: bool, id: nat)
    requires j in c.transfers
    ensures Spares(c, Flush(c, j, behind), id)
  {
  }

  lemma AfterStoredSpares(cfg: ClientConfig, c: Client, j: nat, e: Env, id: nat)
    requires Inv(cfg, c) && j in c.transfers && c.transfers[j].asm.Some?
    ensures Spares(c, AfterStored(cfg, c, j, e), id)
  {
    var c0 := MaybeStart(c, j);
    var c1 := Flush(c0, j, e.behind);
    MaybeStartKeeps(cfg, c, j);
    FlushKeeps(cfg, c0, j, e.behind);
    StartedSpares(c, j, id);
    FlushSpares(c0, j, e.behind, id);
    SparesTwice(c, c0, c1, id);
    if A.Complete(c1.transfers[j].asm.value) && c1.transfers[j].headers.Some? {
      FinishSpares(cfg, c1, j, true, e, id);
      SparesTwice(c, c1, Finish(c1, j, true, e), id);
    } else if Elapsed(c1.transfers[j].lastDetect, e.now, DETECT_INTERVAL_MS) {
      DetectSilent(cfg, c1, j, e);
      SparesTwice(c, c1, DetectLoss(cfg, c1, j, e), id);
    }
  }

  lemma StoredSilent(c: Client, j: nat, offset: nat, payload: seq<Byte>, now: real)
    requires j in c.transfers && c.transfers[j].asm.Some?
    requires A.AsmOk(c.transfers[j].asm.value) && A.Fits(c.transfers[j].asm.value.size, offset, |payload|)
    ensures Silent(c, Stored(c, j, offset, payload, now))
  {
  }

  lemma SizedSilent(c: Client, j: nat, size: nat)
    requires j in c.transfers
    ensures Silent(c, Sized(c, j, size))
  {
  }

  lemma DataSpares(cfg: ClientConfig, truth: nat -> Asset, c: Client, j: nat, size: nat, off: nat, p: seq<Byte>, e: Env, id: nat)
    requires Inv(cfg, c) && AsmsOk(c) && AllTrue(truth, c) && j in c.transfers
    requires TruePacket(truth(j), c.transfers[j].ceiling, Data(j, size, off, p))
    ensures Spares(c, HandleData(cfg, c, j, size, off, p, e), id)
  {
    var c1 := Sized(c, j, size);
    GenuineIsStored(cfg, truth, c, j, size, off, p, e);
    SizedKeeps(cfg, c, j, size);
    SizedSilent(c, j, size);
    var c2 := Stored(c1, j, off, p, e.now);
    StoredKeeps(cfg, c1, j, off, p, e.now);
    StoredSilent(c1, j, off, p, e.now);
    AfterStoredSpares(cfg, c2, j, e, id);
    SparesTwice(c, c2, AfterStored(cfg, c2, j, e), id);
  }

  lemma MetaSpares(cfg: ClientConfig, truth: nat -> Asset, named: nat -> seq<Byte>, c: Client, j: nat, fields: seq<Field>, e: Env, id: nat)
    requires Inv(cfg, c) && AllTrue(truth, c) && Named(named, c) && j in c.transfers
    requires truth(j).Found? && fields == truth(j).fields
    ensures Spares(c, HandleMeta(c, j, fields, e), id)
  {
    var t := c.transfers[j];
    if t.headers.None? {
      var c0 := Put(c, j, t.(headers := Some(fields), lastProgress := e.now, recoveries := 0));
      var c1 := MetaStored(c, j, fields, e.now);
      MetaStoredTrue(cfg, truth, named, c, j, fields, e.now);
      StartedSpares(c0, j, id);
      SparesTwice(c, c0, c1, id);
      if t.asm.Some? && A.Complete(t.asm.value) {
        FinishSpares(cfg, c1, j, true, e, id);
        SparesTwice(c, c1, Finish(c1, j, true, e), id);
      }
    }
  }

  /** A true datagram ends a transfer only by serving its caller, unless it is the transfer's own ERROR. */
  lemma PacketSpares(cfg: ClientConfig, truth: nat -> Asset, named: nat -> seq<Byte>, c: Client, p: Packet, e: Env, id: nat)
    requires Inv(cfg, c) && AsmsOk(c) && AllTrue(truth, c) && Named(named, c)
    requires TruePacket(truth(p.rpc), Highest(c.sent, p.rpc), p) && (p.Error? ==> p.rpc != id)
    ensures Spares(c, HandlePacket(cfg, c, p, e), id)
  {
    if p.rpc in c.transfers {
      if p.Meta? {
        MetaSpares(cfg, truth, named, c, p.rpc, p.fields, e, id);
      } else if p.Data? || p.DataSeq? {
        assert ViewOk(cfg, p.rpc, ViewOf(c, p.rpc));
        DataSpares(cfg, truth, c, p.rpc, p.totalSize, p.offset, p.payload, e, id);
      } else if p.Error? {
        FinishSpares(cfg, c, p.rpc, false, e, id);
      }
    }
  }

  lemma CountSilent(cfg: ClientConfig, c: Client, p: Packet, e: Env)
    requires p.DataSeq? && -1 <= c.seqs.highest
    ensures Silent(c, CountNumber(cfg, c, p, e))
  {
    SeqLossSilent(cfg, Counted(c, p, e.now), e);
  }

  lemma TookSpares(cfg: ClientConfig, truth: nat -> Asset, named: nat -> seq<Byte>, c: Client, p: Packet, e: Env, id: nat)
    requires Inv(cfg, c) && Rest(c) && AsmsOk(c) && AllTrue(truth, c) && Named(named, c)
    requires TruePacket(truth(p.rpc), Highest(c.sent, p.rpc), p) && (p.Error? ==> p.rpc != id)
    ensures Spares(c, Arrive(cfg, c, p, e), id)
  {
    var c1 := if p.DataSeq? then CountNumber(cfg, c, p, e) else c;
    if p.DataSeq? {
      CountTrue(cfg, truth, named, c, p, e);
      CountSilent(cfg, c, p, e);
    }
    PacketSpares(cfg, truth, named, c1, p, e, id);
    var c2 := HandlePacket(cfg, c1, p, e);
    PumpSpares(c2, e, id);
    SparesTwice(c, c1, c2, id);
    SparesTwice(c, c2, Pump(c2, e), id);
  }

  /** The step does not tell the transfer to fail: no ERROR for it, no cancel or abort, and no tick of its own out of tries. */
  predicate Sparing(cfg: ClientConfig, c: Client, st: Step, id: nat) {
    match st
    case Took(p, _) => p.Error? ==> p.rpc != id
    case Ticked(j, _) => j in c.transfers ==> HasTries(cfg, c, j, id)
    case Dropped(j, _) => j != id
    case Aborted(j, _) => j != id
    case _ => true
  }

  /** Such a step leaves the transfer live, or ends it with its caller served. */
  lemma StepSpares(cfg: ClientConfig, truth: nat -> Asset, named: nat -> seq<Byte>, c: Client, st: Step, c': Client, id: nat)
    requires Inv(cfg, c) && Rest(c) && AllTrue(truth, c) && Named(named, c) && Moves(cfg, c, st, c') && Sparing(cfg, c, st, id)
    requires st.Took? ==> TruePacket(truth(st.p.rpc), Highest(c.sent, st.p.rpc), st.p)
    ensures Spares(c, c', id)
  {
    match st
    case Begin(_, _, _, _, _) =>
    case Took(p, e) => TookSpares(cfg, truth, named, c, p, e, id);
    case Ticked(j, e) => TickSpares(cfg, c, j, e, id);
    case SeqTicked(e) => SeqLossSilent(cfg, c, e);
    case Pulled(j, e) => PullSpares(c, j, e, id);
    case Dropped(j, e) => CancelSpares(c, j, e, id);
    case Aborted(j, e) => FinishSpares(cfg, c, j, false, e, id);
    case Pumped(e) => PumpSpares(c, e, id);
  }
}
