/**
 What an arriving DATA or META does to its transfer, told by the step: new bytes
 are progress, a reader behind pauses it, and a DATA that contradicts what is
 known fails it aloud.
 */
module ClientArrives {
  import opened Intervals
  import opened Packets
  import opened Clients
  import opened ClientRuns
  import opened ClientSteps
  import opened ClientAsks
  import opened ClientReaders
  import CH = ClientHistory
  import CA = ClientAnswers
  import A = Reassemblies
  import S = Scheduling

  /** What the transfer held of the asset. */
  function Had(t: Transfer): set<int> { if t.asm.Some? then t.asm.value.got else {} }

  /** The DATA agrees with the size known, if one is, and lies inside it. */
  predicate Agrees(t: Transfer, size: nat, off: nat, n: nat) { (t.asm.Some? ==> t.asm.value.size == size) && off + n <= size }

  predicate Behind(t: Transfer) { t.stream.Some? && t.stream.value.paused }

  /** The bytes held ready for the reader: less than a chunk of them, and none at the start or once all have come. */
  predicate HandedOver(t: Transfer) {
    t.stream.Some? && t.asm.Some? ==>
      var held := A.Contiguous(t.asm.value) - t.stream.value.emitted;
      0 <= held < 65536 && (t.stream.value.emitted == 0 || A.Complete(t.asm.value) ==> held == 0)
  }

  /** After the first bytes a reader is given none until there is a chunk of them, or the last. */
  predicate Coalesced(t: Transfer, t': Transfer) {
    t.stream.Some? && t'.stream.Some? && t'.asm.Some? ==>
      var before, after := t.stream.value.emitted, t'.stream.value.emitted;
      before == after || before == 0 || after - before >= 65536 || A.Complete(t'.asm.value)
  }

  /** The transfer after these bytes. */
  ghost predicate TookBytes(t: Transfer, t': Transfer, size: nat, off: nat, n: nat, e: Env) {
    && t'.asm.Some? && t'.asm.value.size == size && t'.asm.value.got == Had(t) + Offsets(off, off + n)
    && t'.headers == t.headers && t'.initialGrant == t.initialGrant && t'.cls == t.cls && t'.assetId == t.assetId
    && (if Offsets(off, off + n) <= Had(t)
        then t'.recoveries == t.recoveries && t'.lastProgress == t.lastProgress && t'.tailProbed == t.tailProbed
        else t'.recoveries == 0 && t'.lastProgress == e.now && !t'.tailProbed)
    && (t'.stream.Some? <==> t.stream.Some?)
    && (t.stream.Some? ==> Behind(t') == (Behind(t) || e.behind))
    && HandedOver(t') && Coalesced(t, t')
    && t'.lastDetect == LooksAgain(t.lastDetect, e.now)
  }

  /** Gaps are looked for if they were not in the last millisecond. */
  function LooksAgain(last: Option<real>, now: real): Option<real> { if last.None? || now - last.value >= 1.0 then Some(now) else last }

  // ---- The steps of one DATA ----

  lemma FreshMeansNew(m: A.Asm, off: nat, n: nat)
    ensures A.FreshIn(m, off, n) > 0 <==> !(Offsets(off, off + n) <= m.got)
  {
    var more := Offsets(off, off + n) - m.got;
    if Offsets(off, off + n) <= m.got {
      assert more == {};
    } else {
      var x :| x in Offsets(off, off + n) && x !in m.got;
      assert x in more;
    }
  }

  lemma StoredBytes(t: Transfer, off: nat, p: seq<Byte>, now: real)
    requires t.asm.Some? && A.AsmOk(t.asm.value) && A.Fits(t.asm.value.size, off, |p|)
    ensures var t' := StoredT(t, off, p, now);
      && t'.asm.Some? && t'.asm.value.size == t.asm.value.size && t'.asm.value.got == t.asm.value.got + Offsets(off, off + |p|)
      && t'.headers == t.headers && t'.initialGrant == t.initialGrant && t'.stream == t.stream && t'.settled == t.settled
      && t'.lastDetect == t.lastDetect && t'.cls == t.cls && t'.assetId == t.assetId
      && (if Offsets(off, off + |p|) <= t.asm.value.got
          then t'.recoveries == t.recoveries && t'.lastProgress == t.lastProgress && t'.tailProbed == t.tailProbed
          else t'.recoveries == 0 && t'.lastProgress == now && !t'.tailProbed)
  {
    FreshMeansNew(t.asm.value, off, |p|);
  }

  lemma HandedFlushed(cfg: ClientConfig, c: Client, id: nat, behind: bool)
    requires Inv(cfg, c) && id in c.transfers
    ensures var t, c0 := c.transfers[id], MaybeStart(c, id); var c1 := Flush(c0, id, behind);
      && c1.transfers[id] == t.(settled := c1.transfers[id].settled, stream := Flushed(t, behind).stream)
  {
  }

  /** Handing over, flushing and looking for gaps touch only these. */
  lemma FollowUpKeeps(cfg: ClientConfig, c: Client, id: nat, e: Env)
    requires Inv(cfg, c) && id in c.transfers && c.transfers[id].asm.Some?
    ensures var t, c' := c.transfers[id], AfterStored(cfg, c, id, e);
      && (id in c'.transfers <==> !Whole(t))
      && (id in c'.transfers ==>
            var t' := c'.transfers[id];
            t' == t.(settled := t'.settled, stream := Flushed(t, e.behind).stream, repair := t'.repair, lastDetect := LooksAgain(t.lastDetect, e.now)))
  {
    var c1 := Flush(MaybeStart(c, id), id, e.behind);
    HandedFlushed(cfg, c, id, e.behind);
    WhatFollows(cfg, c, id, e);
    if Whole(c.transfers[id]) {
      FinishIsOver(c1, id, true, e);
      OverGone(c1, id, true, e);
    } else {
      DetectOnlyRepairs(cfg, c1, id, e);
      DetectMarks(cfg, c1, id, e);
    }
  }

  /** What follows a stored payload and a flush. */
  lemma WhatFollows(cfg: ClientConfig, c: Client, id: nat, e: Env)
    requires Inv(cfg, c) && id in c.transfers && c.transfers[id].asm.Some?
    ensures var t, c1 := c.transfers[id], Flush(MaybeStart(c, id), id, e.behind);
      AfterStored(cfg, c, id, e) ==
        if Whole(t) then Finish(c1, id, true, e)
        else if Elapsed(t.lastDetect, e.now, DETECT_INTERVAL_MS) then DetectLoss(cfg, c1, id, e) else c1
  {
    HandedFlushed(cfg, c, id, e.behind);
  }

  lemma DetectMarks(cfg: ClientConfig, c: Client, id: nat, e: Env)
    requires id in c.transfers
    ensures DetectLoss(cfg, c, id, e).transfers[id].lastDetect == Some(e.now)
  {
  }

  lemma OverGone(c: Client, id: nat, ok: bool, e: Env)
    requires id in c.transfers
    ensures id !in Pump(Over(c, id, ok, e.behind), e).transfers
  {
  }

  lemma FlushedBehind(cfg: ClientConfig, id: nat, t: Transfer, v: View, behind: bool)
    requires LiveOk(cfg, id, t, v) && t.asm.Some?
    ensures var t' := t.(stream := Flushed(t, behind).stream);
      && (t'.stream.Some? <==> t.stream.Some?) && HandedOver(t') && Coalesced(t, t') && (t.stream.Some? ==> Behind(t') == (Behind(t) || behind))
  {
    FlushedOk(t, behind);
  }

  lemma SizedHas(cfg: ClientConfig, c: Client, id: nat, size: nat)
    requires Inv(cfg, c) && id in c.transfers
    ensures var t, t' := c.transfers[id], Sized(c, id, size).transfers[id];
      && t' == t.(asm := t'.asm, repair := t'.repair) && t'.asm.Some? && t'.asm.value.got == Had(t)
      && t'.asm.value.size == if t.asm.Some? then t.asm.value.size else size
  {
  }

  lemma DataTook(cfg: ClientConfig, c: Client, id: nat, size: nat, off: nat, p: seq<Byte>, e: Env)
    requires Inv(cfg, c) && AsmsOk(c) && id in c.transfers && Agrees(c.transfers[id], size, off, |p|)
    ensures var t, c' := c.transfers[id], HandleData(cfg, c, id, size, off, p, e);
      && (id in c'.transfers <==> t.headers.None? || |Had(t) + Offsets(off, off + |p|)| < size)
      && (id in c'.transfers ==> TookBytes(t, c'.transfers[id], size, off, |p|, e))
  {
    var c1 := Sized(c, id, size);
    SizedHas(cfg, c, id, size);
    SizedKeeps(cfg, c, id, size);
    InvAsmsOk(cfg, c1);
    StoredTook(cfg, c1, id, off, p, e);
  }

  lemma StoredTook(cfg: ClientConfig, c: Client, id: nat, off: nat, p: seq<Byte>, e: Env)
    requires Inv(cfg, c) && id in c.transfers && c.transfers[id].asm.Some?
    requires A.AsmOk(c.transfers[id].asm.value) && A.Fits(c.transfers[id].asm.value.size, off, |p|)
    ensures var t, c' := c.transfers[id], AfterStored(cfg, Stored(c, id, off, p, e.now), id, e);
      && (id in c'.transfers <==> t.headers.None? || |Had(t) + Offsets(off, off + |p|)| < t.asm.value.size)
      && (id in c'.transfers ==> TookBytes(t, c'.transfers[id], t.asm.value.size, off, |p|, e))
  {
    var c2 := Stored(c, id, off, p, e.now);
    StoredKeeps(cfg, c, id, off, p, e.now);
    StoredBytes(c.transfers[id], off, p, e.now);
    FollowUpKeeps(cfg, c2, id, e);
    assert ViewOk(cfg, id, ViewOf(c2, id));
    FlushedBehind(cfg, id, c2.transfers[id], ViewOf(c2, id), e.behind);
    GotWithin(c2.transfers[id].asm.value);
  }

  /** A DATA that contradicts the size known, or runs past it, ends the transfer and says so. */
  lemma ContradictionFails(cfg: ClientConfig, c: Client, id: nat, size: nat, off: nat, p: seq<Byte>, e: Env)
    requires Inv(cfg, c) && AsmsOk(c) && id in c.transfers && !Agrees(c.transfers[id], size, off, |p|)
    ensures var c' := HandleData(cfg, c, id, size, off, p, e);
      id !in c'.transfers && (Rejected(id) in c'.events || Errored(id) in c'.events)
  {
    var c1 := Sized(c, id, size);
    SizedHas(cfg, c, id, size);
    SizedKeeps(cfg, c, id, size);
    InvAsmsOk(cfg, c1);
    assert ViewOk(cfg, id, ViewOf(c1, id));
    FinishAloud(c1, id, e);
  }

  lemma FinishAloud(c: Client, id: nat, e: Env)
    requires id in c.transfers && (c.transfers[id].settled ==> c.transfers[id].stream.Some? && !c.transfers[id].stream.value.closed)
    ensures var c' := Finish(c, id, false, e); id !in c'.transfers && (Rejected(id) in c'.events || Errored(id) in c'.events)
  {
    FinishIsOver(c, id, false, e);
    FailsAloud(id, c.transfers[id]);
    OverGone(c, id, false, e);
  }

  // ---- The whole step ----

  /** The transfer goes on but for its grant. */
  predicate SameButCeiling(t: Transfer, t': Transfer) { t' == t.(ceiling := t'.ceiling) }

  lemma ArriveIs(cfg: ClientConfig, c: Client, p: Packet, e: Env)
    requires Inv(cfg, c) && Rest(c) && AsmsOk(c)
    ensures var c1 := if p.DataSeq? then CountNumber(cfg, c, p, e) else c;
      && c1.transfers == c.transfers && Inv(cfg, c1) && AsmsOk(c1) && Rest(c1) && c1.events == c.events
      && var c2, c' := HandlePacket(cfg, c1, p, e), Arrive(cfg, c, p, e);
         GrantedOn(c2, c') && c'.events == c2.events
  {
    if p.DataSeq? {
      CountKeeps(cfg, c, p, e);
      InvAsmsOk(cfg, CountNumber(cfg, c, p, e));
      CA.CountSilent(cfg, c, p, e);
    }
  }

  lemma BytesThenGrant(t: Transfer, t1: Transfer, t': Transfer, size: nat, off: nat, n: nat, e: Env)
    requires TookBytes(t, t1, size, off, n, e) && SameButCeiling(t1, t')
    ensures TookBytes(t, t', size, off, n, e)
  {
  }

  /** What a DATA leaves: the transfer is over exactly if META is known and the last byte has come, or has taken the bytes. */
  ghost predicate Leaves(t: Transfer, c': Client, id: nat, size: nat, off: nat, n: nat, e: Env) {
    && (id in c'.transfers <==> t.headers.None? || |Had(t) + Offsets(off, off + n)| < size)
    && (id in c'.transfers ==> TookBytes(t, c'.transfers[id], size, off, n, e))
  }

  /** The step around one DATA: from the client that handles it to the one that has granted. */
  predicate GrantedOn(c2: Client, c': Client) {
    c'.transfers.Keys == c2.transfers.Keys && forall j :: j in c2.transfers ==> SameButCeiling(c2.transfers[j], c'.transfers[j])
  }

  lemma DataHandled(cfg: ClientConfig, c: Client, id: nat, size: nat, off: nat, p: seq<Byte>, e: Env, c2: Client, c': Client)
    requires Inv(cfg, c) && AsmsOk(c) && id in c.transfers && Agrees(c.transfers[id], size, off, |p|)
    requires c2 == HandleData(cfg, c, id, size, off, p, e) && GrantedOn(c2, c')
    ensures Leaves(c.transfers[id], c', id, size, off, |p|, e)
  {
    DataTook(cfg, c, id, size, off, p, e);
    if id in c'.transfers { BytesThenGrant(c.transfers[id], c2.transfers[id], c'.transfers[id], size, off, |p|, e); }
  }

  lemma PacketIsData(cfg: ClientConfig, c: Client, p: Packet, e: Env)
    requires AsmsOk(c) && (p.Data? || p.DataSeq?) && p.rpc in c.transfers
    ensures HandlePacket(cfg, c, p, e) == HandleData(cfg, c, p.rpc, p.totalSize, p.offset, p.payload, e)
  {
  }

  /** The client before and after it handles the DATA. */
  lemma ArriveOfData(cfg: ClientConfig, c: Client, p: Packet, e: Env) returns (c1: Client, c2: Client)
    requires Inv(cfg, c) && Rest(c) && AsmsOk(c) && (p.Data? || p.DataSeq?) && p.rpc in c.transfers
    ensures Inv(cfg, c1) && AsmsOk(c1) && c1.transfers == c.transfers
    ensures c2 == HandleData(cfg, c1, p.rpc, p.totalSize, p.offset, p.payload, e) && GrantedOn(c2, Arrive(cfg, c, p, e))
  {
    ArriveIs(cfg, c, p, e);
    c1 := if p.DataSeq? then CountNumber(cfg, c, p, e) else c;
    PacketIsData(cfg, c1, p, e);
    c2 := HandlePacket(cfg, c1, p, e);
  }

  lemma DataLeaves(cfg: ClientConfig, c: Client, p: Packet, e: Env)
    requires Inv(cfg, c) && Rest(c) && AsmsOk(c) && (p.Data? || p.DataSeq?) && p.rpc in c.transfers
    requires Agrees(c.transfers[p.rpc], p.totalSize, p.offset, |p.payload|)
    ensures Leaves(c.transfers[p.rpc], Arrive(cfg, c, p, e), p.rpc, p.totalSize, p.offset, |p.payload|, e)
  {
    var c1, c2 := ArriveOfData(cfg, c, p, e);
    DataHandled(cfg, c1, p.rpc, p.totalSize, p.offset, p.payload, e, c2, Arrive(cfg, c, p, e));
  }

  /**
   A DATA that agrees with what is known is taken. Its transfer is over exactly if
   META is known and the last byte has come; otherwise it holds what it held and the
   new bytes, has made progress exactly if some were new, has handed its reader all
   but what is kept back, and is paused if the reader is behind.
   */
  lemma DataArrives(cfg: ClientConfig, c: Client, p: Packet, e: Env, c': Client)
    requires Inv(cfg, c) && Rest(c) && CH.Moves(cfg, c, CH.Took(p, e), c') && (p.Data? || p.DataSeq?)
    requires p.rpc in c.transfers && Agrees(c.transfers[p.rpc], p.totalSize, p.offset, |p.payload|)
    ensures Leaves(c.transfers[p.rpc], c', p.rpc, p.totalSize, p.offset, |p.payload|, e)
  {
    DataLeaves(cfg, c, p, e);
  }

  /** A DATA that contradicts what is known, or an ERROR, fails its transfer, and the caller is told. */
  lemma BadNewsFails(cfg: ClientConfig, c: Client, p: Packet, e: Env, c': Client)
    requires Inv(cfg, c) && Rest(c) && CH.Moves(cfg, c, CH.Took(p, e), c') && p.rpc in c.transfers
    requires p.Error? || ((p.Data? || p.DataSeq?) && !Agrees(c.transfers[p.rpc], p.totalSize, p.offset, |p.payload|))
    ensures p.rpc !in c'.transfers && (Rejected(p.rpc) in c'.events || Errored(p.rpc) in c'.events)
  {
    ArriveIs(cfg, c, p, e);
    var c1 := if p.DataSeq? then CountNumber(cfg, c, p, e) else c;
    if p.Error? {
      assert ViewOk(cfg, p.rpc, ViewOf(c, p.rpc));
      FinishAloud(c, p.rpc, e);
    } else {
      ContradictionFails(cfg, c1, p.rpc, p.totalSize, p.offset, p.payload, e);
    }
  }

  /** The first META is kept and is progress; a later one changes nothing but grants. */
  lemma MetaArrives(cfg: ClientConfig, c: Client, p: Packet, e: Env, c': Client)
    requires Inv(cfg, c) && Rest(c) && CH.Moves(cfg, c, CH.Took(p, e), c') && p.Meta? && p.rpc in c.transfers
    ensures var t := c.transfers[p.rpc];
      && (p.rpc in c'.transfers <==> t.headers.Some? || t.asm.None? || |t.asm.value.got| < t.asm.value.size)
      && (p.rpc in c'.transfers && t.headers.Some? ==> SameButCeiling(t, c'.transfers[p.rpc]))
      && (p.rpc in c'.transfers && t.headers.None? ==>
            var t' := c'.transfers[p.rpc];
            && t' == t.(headers := Some(p.fields), lastProgress := e.now, recoveries := 0, ceiling := t'.ceiling, settled := t'.settled)
            && t'.settled == (t.settled || (t.stream.Some? && t.asm.Some?)))
  {
    ArriveIs(cfg, c, p, e);
    assert ViewOk(cfg, p.rpc, ViewOf(c, p.rpc));
    if c.transfers[p.rpc].headers.None? { FirstMeta(cfg, c, p.rpc, p.fields, e); }
  }

  lemma FirstMeta(cfg: ClientConfig, c: Client, id: nat, fields: seq<Field>, e: Env)
    requires Inv(cfg, c) && id in c.transfers && c.transfers[id].headers.None?
    ensures var t, c' := c.transfers[id], HandleMeta(c, id, fields, e);
      && (id in c'.transfers <==> t.asm.None? || |t.asm.value.got| < t.asm.value.size)
      && (id in c'.transfers ==>
            var t' := c'.transfers[id];
            && t' == t.(headers := Some(fields), lastProgress := e.now, recoveries := 0, settled := t'.settled)
            && t'.settled == (t.settled || (t.stream.Some? && t.asm.Some?)))
  {
    var t := c.transfers[id];
    assert ViewOk(cfg, id, ViewOf(c, id));
    if t.asm.Some? { GotWithin(t.asm.value); }
    var c1 := CH.MetaStored(c, id, fields, e.now);
    if t.asm.Some? && A.Complete(t.asm.value) {
      FinishIsOver(c1, id, true, e);
      OverGone(c1, id, true, e);
    }
  }

  // ---- The largest payload seen ----

  lemma DetectSeesNone(cfg: ClientConfig, c: Client, id: nat, e: Env)
    requires id in c.transfers
    ensures DetectLoss(cfg, c, id, e).payloadSeen == c.payloadSeen
  {
  }

  lemma FollowUpSeesNone(cfg: ClientConfig, c: Client, id: nat, e: Env)
    requires id in c.transfers && c.transfers[id].asm.Some?
    ensures AfterStored(cfg, c, id, e).payloadSeen == c.payloadSeen
  {
    var c1 := Flush(MaybeStart(c, id), id, e.behind);
    assert c1.payloadSeen == c.payloadSeen;
    DetectSeesNone(cfg, c1, id, e);
  }

  lemma CountSeesNone(cfg: ClientConfig, c: Client, p: Packet, e: Env)
    requires p.DataSeq? && -1 <= c.seqs.highest
    ensures CountNumber(cfg, c, p, e).payloadSeen == c.payloadSeen
  {
  }

  /** Whatever becomes of its transfer, a DATA that agrees is remembered if its payload is the largest so far. */
  lemma LargestIsRemembered(cfg: ClientConfig, c: Client, p: Packet, e: Env, c': Client)
    requires Inv(cfg, c) && Rest(c) && CH.Moves(cfg, c, CH.Took(p, e), c') && (p.Data? || p.DataSeq?)
    requires p.rpc in c.transfers && Agrees(c.transfers[p.rpc], p.totalSize, p.offset, |p.payload|)
    ensures c'.payloadSeen == Max(c.payloadSeen, |p.payload|)
  {
    var c1 := if p.DataSeq? then CountNumber(cfg, c, p, e) else c;
    ArriveIs(cfg, c, p, e);
    if p.DataSeq? { CountSeesNone(cfg, c, p, e); }
    PacketIsData(cfg, c1, p, e);
    DataSees(cfg, c1, p.rpc, p.totalSize, p.offset, p.payload, e);
  }

  lemma DataSees(cfg: ClientConfig, c: Client, id: nat, size: nat, off: nat, p: seq<Byte>, e: Env)
    requires Inv(cfg, c) && AsmsOk(c) && id in c.transfers && Agrees(c.transfers[id], size, off, |p|)
    ensures HandleData(cfg, c, id, size, off, p, e).payloadSeen == Max(c.payloadSeen, |p|)
  {
    var c1 := Sized(c, id, size);
    SizedHas(cfg, c, id, size);
    SizedKeeps(cfg, c, id, size);
    InvAsmsOk(cfg, c1);
    assert c1.payloadSeen == c.payloadSeen;
    FollowUpSeesNone(cfg, Stored(c1, id, off, p, e.now), id, e);
  }

  // ---- A transfer's place in the schedule ----

  /** The entry's class and its place among arrivals. */
  predicate Placed(c: Client, id: nat, cls: S.Class, order: nat) {
    var x := S.Lookup(c.sched.rpcs, id);
    x.Some? && x.value.cls == cls && x.value.order == order
  }

  lemma FollowUpPlaced(cfg: ClientConfig, c: Client, id: nat, e: Env, cls: S.Class, order: nat)
    requires Inv(cfg, c) && id in c.transfers && c.transfers[id].asm.Some? && !Whole(c.transfers[id]) && Placed(c, id, cls, order)
    ensures Placed(AfterStored(cfg, c, id, e), id, cls, order) && AfterStored(cfg, c, id, e).sched.next == c.sched.next
  {
    FlushPlaced(cfg, c, id, e.behind, cls, order);
    WhatFollows(cfg, c, id, e);
    DetectOnlyRepairs(cfg, Flush(MaybeStart(c, id), id, e.behind), id, e);
  }

  lemma FlushPlaced(cfg: ClientConfig, c: Client, id: nat, behind: bool, cls: S.Class, order: nat)
    requires Inv(cfg, c) && id in c.transfers && Placed(c, id, cls, order)
    ensures var c1 := Flush(MaybeStart(c, id), id, behind); Placed(c1, id, cls, order) && c1.sched.next == c.sched.next
  {
    S.PauseFacts(c.sched.rpcs, id, true, c.sched.next);
  }

  lemma StoredPlaced(c: Client, id: nat, off: nat, p: seq<Byte>, now: real, cls: S.Class, order: nat)
    requires Base(c) && id in c.transfers && c.transfers[id].asm.Some? && Placed(c, id, cls, order)
    requires A.AsmOk(c.transfers[id].asm.value) && A.Fits(c.transfers[id].asm.value.size, off, |p|)
    ensures Placed(Stored(c, id, off, p, now), id, cls, order) && Stored(c, id, off, p, now).sched.next == c.sched.next
  {
    StoredView(c, id, off, p, now);
    assert S.Lookup(Stored(c, id, off, p, now).sched.rpcs, id) == ViewOf(Stored(c, id, off, p, now), id).entry;
  }

  lemma SizedPlaced(cfg: ClientConfig, c: Client, id: nat, size: nat)
    requires Inv(cfg, c) && id in c.transfers && c.transfers[id].asm.None?
    ensures Placed(Sized(c, id, size), id, c.transfers[id].cls, c.sched.next) && Sized(c, id, size).sched.next == c.sched.next + 1
  {
    assert ViewOk(cfg, id, ViewOf(c, id));
    SizedView(c, id, size);
    assert S.Lookup(Sized(c, id, size).sched.rpcs, id) == ViewOf(Sized(c, id, size), id).entry;
  }

  lemma DataPlaced(cfg: ClientConfig, c: Client, id: nat, size: nat, off: nat, p: seq<Byte>, e: Env)
    requires Inv(cfg, c) && AsmsOk(c) && id in c.transfers && Agrees(c.transfers[id], size, off, |p|) && c.transfers[id].asm.None?
    ensures var c' := HandleData(cfg, c, id, size, off, p, e);
      id in c'.transfers ==> Placed(c', id, c.transfers[id].cls, c.sched.next) && c'.sched.next == c.sched.next + 1
  {
    var c1 := Sized(c, id, size);
    var c2 := Stored(c1, id, off, p, e.now);
    SizedHas(cfg, c, id, size);
    SizedKeeps(cfg, c, id, size);
    SizedPlaced(cfg, c, id, size);
    InvAsmsOk(cfg, c1);
    StoredKeeps(cfg, c1, id, off, p, e.now);
    StoredPlaced(c1, id, off, p, e.now, c.transfers[id].cls, c.sched.next);
    FollowUpKeeps(cfg, c2, id, e);
    if !Whole(c2.transfers[id]) { FollowUpPlaced(cfg, c2, id, e, c.transfers[id].cls, c.sched.next); }
  }

  /** The first DATA of a transfer schedules it, in its request's class and after all that were scheduled before. */
  lemma FirstDataSchedules(cfg: ClientConfig, c: Client, p: Packet, e: Env, c': Client)
    requires Inv(cfg, c) && Rest(c) && CH.Moves(cfg, c, CH.Took(p, e), c') && (p.Data? || p.DataSeq?)
    requires p.rpc in c.transfers && c.transfers[p.rpc].asm.None? && Agrees(c.transfers[p.rpc], p.totalSize, p.offset, |p.payload|)
    ensures p.rpc in c'.transfers ==> Placed(c', p.rpc, c.transfers[p.rpc].cls, c.sched.next) && c'.sched.next == c.sched.next + 1
  {
    var c1 := if p.DataSeq? then CountNumber(cfg, c, p, e) else c;
    ArriveIs(cfg, c, p, e);
    if p.DataSeq? { CountSchedulesNone(cfg, c, p, e); }
    PacketIsData(cfg, c1, p, e);
    DataPlaced(cfg, c1, p.rpc, p.totalSize, p.offset, p.payload, e);
    InvPacket(cfg, c1, p, e);
    PumpOnlyGrants(HandlePacket(cfg, c1, p, e), e);
  }

  lemma CountSchedulesNone(cfg: ClientConfig, c: Client, p: Packet, e: Env)
    requires p.DataSeq? && -1 <= c.seqs.highest
    ensures CountNumber(cfg, c, p, e).sched == c.sched
  {
  }

  lemma InvPacket(cfg: ClientConfig, c: Client, p: Packet, e: Env)
    requires Inv(cfg, c) && Rest(c) && AsmsOk(c)
    ensures Base(HandlePacket(cfg, c, p, e))
  {
    PacketKeeps(cfg, c, p, e);
  }
}
