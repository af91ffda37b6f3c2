/**
 What a datagram leaves behind in the client, and how transfers end. Each step
 keeps what was received; a datagram taken stays taken; and unless it is told to
 fail, a transfer ends only by answering its caller in full.
 */
module ClientTakens {
  import opened Intervals
  import opened Packets
  import opened Senders
  import opened Clients
  import opened ClientRuns
  import opened ClientSteps
  import opened ClientTruth
  import opened ClientHistory
  import A = Reassemblies
  import S = Scheduling

  // ---- What was received stays ----

  predicate More(t: Transfer, t': Transfer) {
    && (t.asm.Some? ==> t'.asm.Some? && t.asm.value.got <= t'.asm.value.got)
    && (t.headers.Some? ==> t'.headers.Some?)
  }

  /** Of the transfers that had begun some may be over; the others hold at least what they held. */
  ghost predicate GrowsOn(c: Client, c': Client) {
    && c.started.Keys <= c'.started.Keys
    && forall id :: id in c'.transfers && id in c.started ==> id in c.transfers && More(c.transfers[id], c'.transfers[id])
  }

  lemma GrowsTwice(a: Client, b: Client, c: Client)
    requires GrowsOn(a, b) && GrowsOn(b, c)
    ensures GrowsOn(a, c)
  {
  }

  lemma KeepsGrows(c: Client, c': Client)
    requires Keeps(c, c')
    ensures GrowsOn(c, c')
  {
  }

  /** The datagram's transfer is over, or has what the datagram carried. */
  ghost predicate Holds(c: Client, p: Packet) {
    p.rpc in c.transfers ==>
      && !p.Error?
      && (p.Meta? ==> c.transfers[p.rpc].headers.Some?)
      && (p.Data? || p.DataSeq? ==>
            c.transfers[p.rpc].asm.Some? && Offsets(p.offset, p.offset + |p.payload|) <= c.transfers[p.rpc].asm.value.got)
  }

  ghost predicate Taken(c: Client, p: Packet) { p.rpc in c.started && Holds(c, p) }

  lemma StillTaken(c: Client, c': Client, p: Packet)
    requires GrowsOn(c, c') && Taken(c, p)
    ensures Taken(c', p)
  {
  }

  lemma SizedGrows(c: Client, id: nat, size: nat)
    requires id in c.transfers
    ensures GrowsOn(c, Sized(c, id, size))
  {
  }

  lemma StoredGrows(c: Client, id: nat, offset: nat, payload: seq<Byte>, now: real)
    requires id in c.transfers && c.transfers[id].asm.Some?
    requires A.AsmOk(c.transfers[id].asm.value) && A.Fits(c.transfers[id].asm.value.size, offset, |payload|)
    ensures var c' := Stored(c, id, offset, payload, now);
      GrowsOn(c, c') && Offsets(offset, offset + |payload|) <= c'.transfers[id].asm.value.got && c'.started == c.started
  {
  }

  /** The payload is in the buffer of a transfer that is still live. */
  ghost predicate Stores(c: Client, id: nat, off: nat, n: nat) {
    id in c.transfers ==> c.transfers[id].asm.Some? && Offsets(off, off + n) <= c.transfers[id].asm.value.got
  }

  lemma StoresOn(c: Client, c': Client, id: nat, off: nat, n: nat)
    requires Stores(c, id, off, n) && GrowsOn(c, c') && id in c.started
    ensures Stores(c', id, off, n)
  {
  }

  lemma AfterStoredGrows(cfg: ClientConfig, c: Client, id: nat, e: Env)
    requires Inv(cfg, c) && RestBut(c, id) && id in c.transfers && c.transfers[id].asm.Some?
    ensures GrowsOn(c, AfterStored(cfg, c, id, e))
  {
    AfterStoredKept(cfg, c, id, e);
    KeepsGrows(c, AfterStored(cfg, c, id, e));
  }

  lemma LiveStarted(cfg: ClientConfig, c: Client, id: nat)
    requires Inv(cfg, c) && id in c.transfers
    ensures id in c.started && c.transfers[id].ceiling == Highest(c.sent, id)
  {
    assert ViewOk(cfg, id, ViewOf(c, id));
  }

  lemma DataTaken(cfg: ClientConfig, truth: nat -> Asset, c: Client, id: nat, size: nat, off: nat, p: seq<Byte>, e: Env)
    requires Inv(cfg, c) && Rest(c) && AsmsOk(c) && AllTrue(truth, c) && id in c.transfers
    requires TruePacket(truth(id), c.transfers[id].ceiling, Data(id, size, off, p))
    ensures GrowsOn(c, HandleData(cfg, c, id, size, off, p, e)) && Stores(HandleData(cfg, c, id, size, off, p, e), id, off, |p|)
  {
    var c1 := Sized(c, id, size);
    GenuineIsStored(cfg, truth, c, id, size, off, p, e);
    SizedKeeps(cfg, c, id, size);
    SizedGrows(c, id, size);
    StoredTaken(cfg, c1, id, off, p, e);
    GrowsTwice(c, c1, AfterStored(cfg, Stored(c1, id, off, p, e.now), id, e));
  }

  lemma StoredTaken(cfg: ClientConfig, c: Client, id: nat, off: nat, p: seq<Byte>, e: Env)
    requires Inv(cfg, c) && RestBut(c, id) && id in c.transfers && c.transfers[id].asm.Some?
    requires A.AsmOk(c.transfers[id].asm.value) && A.Fits(c.transfers[id].asm.value.size, off, |p|)
    ensures var c' := AfterStored(cfg, Stored(c, id, off, p, e.now), id, e); GrowsOn(c, c') && Stores(c', id, off, |p|)
  {
    var c2 := Stored(c, id, off, p, e.now);
    LiveStarted(cfg, c, id);
    StoredKeeps(cfg, c, id, off, p, e.now);
    StoredGrows(c, id, off, p, e.now);
    AfterStoredGrows(cfg, c2, id, e);
    GrowsTwice(c, c2, AfterStored(cfg, c2, id, e));
    StoresOn(c2, AfterStored(cfg, c2, id, e), id, off, |p|);
  }

  lemma MetaStoredGrows(c: Client, id: nat, fields: seq<Field>, now: real)
    requires id in c.transfers
    ensures GrowsOn(c, MetaStored(c, id, fields, now)) && MetaStored(c, id, fields, now).transfers[id].headers.Some?
  {
  }

  lemma FinishGrows(cfg: ClientConfig, c: Client, id: nat, ok: bool, e: Env)
    requires Inv(cfg, c) && id in c.transfers && (ok ==> Whole(c.transfers[id]) && !CanStart(c.transfers[id]))
    ensures GrowsOn(c, Finish(c, id, ok, e)) && id !in Finish(c, id, ok, e).transfers
  {
    assert ViewOk(cfg, id, ViewOf(c, id));
    LiveIsEndable(cfg, id, c.transfers[id], ViewOf(c, id));
    FinishKept(cfg, c, id, ok, e);
    KeepsGrows(c, Finish(c, id, ok, e));
    FinishIsOver(c, id, ok, e);
  }

  lemma MetaTaken(cfg: ClientConfig, truth: nat -> Asset, named: nat -> seq<Byte>, c: Client, id: nat, fields: seq<Field>, e: Env)
    requires Inv(cfg, c) && Rest(c) && AllTrue(truth, c) && Named(named, c) && id in c.transfers
    requires truth(id).Found? && fields == truth(id).fields
    ensures var c' := HandleMeta(c, id, fields, e); GrowsOn(c, c') && Holds(c', Meta(id, fields))
  {
    var t := c.transfers[id];
    if t.headers.None? {
      var c1 := MetaStored(c, id, fields, e.now);
      MetaStoredTrue(cfg, truth, named, c, id, fields, e.now);
      MetaStoredGrows(c, id, fields, e.now);
      if t.asm.Some? && A.Complete(t.asm.value) {
        FinishGrows(cfg, c1, id, true, e);
        GrowsTwice(c, c1, Finish(c1, id, true, e));
      }
    }
  }

  lemma DataHolds(cfg: ClientConfig, truth: nat -> Asset, c: Client, p: Packet, e: Env)
    requires Inv(cfg, c) && Rest(c) && AsmsOk(c) && AllTrue(truth, c) && (p.Data? || p.DataSeq?) && p.rpc in c.transfers
    requires TruePacket(truth(p.rpc), Highest(c.sent, p.rpc), p)
    ensures GrowsOn(c, HandlePacket(cfg, c, p, e)) && Holds(HandlePacket(cfg, c, p, e), p)
  {
    LiveStarted(cfg, c, p.rpc);
    DataTaken(cfg, truth, c, p.rpc, p.totalSize, p.offset, p.payload, e);
  }

  lemma PacketTaken(cfg: ClientConfig, truth: nat -> Asset, named: nat -> seq<Byte>, c: Client, p: Packet, e: Env)
    requires Inv(cfg, c) && Rest(c) && AsmsOk(c) && AllTrue(truth, c) && Named(named, c)
    requires TruePacket(truth(p.rpc), Highest(c.sent, p.rpc), p)
    ensures GrowsOn(c, HandlePacket(cfg, c, p, e)) && Holds(HandlePacket(cfg, c, p, e), p)
  {
    if p.rpc in c.transfers {
      if p.Meta? {
        MetaTaken(cfg, truth, named, c, p.rpc, p.fields, e);
      } else if p.Data? || p.DataSeq? {
        DataHolds(cfg, truth, c, p, e);
      } else if p.Error? {
        FinishGrows(cfg, c, p.rpc, false, e);
      }
    }
  }

  lemma PumpGrows(cfg: ClientConfig, c: Client, p: Packet, e: Env)
    requires Inv(cfg, c) && Holds(c, p)
    ensures GrowsOn(c, Pump(c, e)) && Holds(Pump(c, e), p)
  {
    PumpKept(cfg, c, e);
    KeepsGrows(c, Pump(c, e));
  }

  /** A true datagram about a transfer that began is taken. */
  lemma TookTaken(cfg: ClientConfig, truth: nat -> Asset, named: nat -> seq<Byte>, c: Client, p: Packet, e: Env)
    requires Inv(cfg, c) && Rest(c) && AsmsOk(c) && AllTrue(truth, c) && Named(named, c)
    requires TruePacket(truth(p.rpc), Highest(c.sent, p.rpc), p) && p.rpc in c.started
    ensures GrowsOn(c, Arrive(cfg, c, p, e)) && Taken(Arrive(cfg, c, p, e), p)
  {
    var c1 := if p.DataSeq? then CountNumber(cfg, c, p, e) else c;
    if p.DataSeq? {
      CountTrue(cfg, truth, named, c, p, e);
      CountKept(cfg, c, p, e);
      KeepsGrows(c, c1);
    }
    HandledTaken(cfg, truth, named, c1, p, e);
    GrowsTwice(c, c1, Arrive(cfg, c, p, e));
  }

  lemma HandledTaken(cfg: ClientConfig, truth: nat -> Asset, named: nat -> seq<Byte>, c: Client, p: Packet, e: Env)
    requires Inv(cfg, c) && Rest(c) && AsmsOk(c) && AllTrue(truth, c) && Named(named, c)
    requires TruePacket(truth(p.rpc), Highest(c.sent, p.rpc), p)
    ensures var c' := Pump(HandlePacket(cfg, c, p, e), e); GrowsOn(c, c') && Holds(c', p)
  {
    var c1 := HandlePacket(cfg, c, p, e);
    PacketTaken(cfg, truth, named, c, p, e);
    PacketKeeps(cfg, c, p, e);
    PumpGrows(cfg, c1, p, e);
    GrowsTwice(c, c1, Pump(c1, e));
  }

  lemma StartGrows(cfg: ClientConfig, c: Client, id: nat, b: Begun, cls: S.Class, grant: nat, now: real)
    requires id !in c.started
    ensures GrowsOn(c, Start(cfg, c, id, b, cls, grant, now))
  {
  }

  /** Every step keeps what was received. */
  lemma StepGrows(cfg: ClientConfig, truth: nat -> Asset, named: nat -> seq<Byte>, c: Client, st: Step, c': Client)
    requires Inv(cfg, c) && Rest(c) && AllTrue(truth, c) && Named(named, c) && Moves(cfg, c, st, c')
    requires st.Took? ==> TruePacket(truth(st.p.rpc), Highest(c.sent, st.p.rpc), st.p) && st.p.rpc in c.started
    ensures GrowsOn(c, c')
  {
    match st
    case Begin(id, begun, cls, grant, now) => StartGrows(cfg, c, id, begun, cls, grant, now);
    case Took(p, e) => TookTaken(cfg, truth, named, c, p, e);
    case Ticked(id, e) => TickKept(cfg, c, id, e); KeepsGrows(c, c');
    case SeqTicked(e) => SeqLossKept(cfg, c, e); KeepsGrows(c, c');
    case Pulled(id, e) => PullKept(cfg, c, id, e); KeepsGrows(c, c');
    case Dropped(id, e) => CancelKept(cfg, c, id, e); KeepsGrows(c, c');
    case Aborted(id, e) => FinishGrows(cfg, c, id, false, e);
    case Pumped(e) => PumpKept(cfg, c, e); KeepsGrows(c, c');
  }
}
