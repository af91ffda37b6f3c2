/**
 client/src/transport.ts: one client session as a value, and what each of its
 handlers does to it. Times are real numbers and come from outside, as do the
 budget, the reordering window, the delays and whether a reader is behind.

 A stream's chunk is a view on the reassembly buffer, so it is kept as the
 range it shows. What the callers have been told, and every packet handed to
 the datagram writer, are kept as histories.
 */
module Clients {
  import opened Intervals
  import opened Packets
  import A = Reassemblies
  import R = Repairs
  import Q = SeqTracking
  import S = Scheduling

  const DETECT_INTERVAL_MS := 1.0
  const MAX_RESEND_RANGES := 16
  const DEFAULT_PAYLOAD := 1183
  const STREAM_CHUNK := 65536
  const HELLO_REPEATS := 3
  const SEQ_RESEND_TRIES := 3
  const MAX_RESEND_SEQ := 1024
  const SESSION_SEQ := 1

  datatype ClientConfig = ClientConfig(maxRecoveries: nat, earlyResend: bool, reorderPackets: nat, sessionSeq: bool)

  /** What one step takes from outside: the clock, the budget, the measured windows, and the reader. */
  datatype Env = Env(
    now: real,
    budget: nat,
    behind: bool,            // the reader's queue is full
    window: real,            // the reordering window
    delay: real,             // how long a repair gets
    tail: Option<real>,      // the reordering window plus a round trip
    probeAfter: Option<real>, // the tail probe's timeout, once there is a round-trip sample
    timeout: real)           // the stall timeout

  datatype Stream = Stream(chunks: seq<Range>, emitted: nat, paused: bool, closed: bool)

  datatype Transfer = Transfer(
    assetId: seq<Byte>,
    cls: S.Class,
    initialGrant: nat,
    asm: Option<A.Asm>,
    repair: R.Repair,
    lastDetect: Option<real>,
    tailProbed: bool,
    headers: Option<seq<Field>>,
    stream: Option<Stream>,
    settled: bool,
    ceiling: nat,
    lastProgress: real,
    recoveries: nat)

  /** What callers see: a request answered or refused, a stream handed over, and how a stream ended. */
  datatype Event =
    | Resolved(id: nat, body: seq<Byte>, headers: seq<Field>)
    | Handed(id: nat, size: nat, headers: seq<Field>)
    | Rejected(id: nat)
    | Closed(id: nat, body: seq<Byte>)
    | Errored(id: nat)
    | Cancelled(id: nat)

  datatype Begun = Begun(assetId: seq<Byte>, streaming: bool)

  datatype Client = Client(
    transfers: map<nat, Transfer>,
    sched: S.Sched,
    seqs: Q.Seqs,
    lastSeqDetect: Option<real>,
    payloadSeen: nat,
    negotiated: bool,
    hellos: nat,
    started: map<nat, Begun>,     // history: every transfer ever begun,
    ended: map<nat, Transfer>,    // what each was when it was forgotten,
    recovered: multiset<nat>,     // every run of the stall timer's recovery,
    claims: map<nat, seq<R.Batch>>, // the RESENDs of every claim, by transfer,
    sent: seq<Packet>,            // every packet written,
    events: seq<Event>)           // and everything callers were told

  /** A new session offers sequence numbers at once. */
  function NewClient(cfg: ClientConfig, budget: nat, minIncrement: int): Client {
    Hello'(cfg, Client(map[], S.Sched([], 0, budget, minIncrement, false), Q.NewSeqs(), None, 0, false, 0, map[], map[], multiset{}, map[], [], []))
  }

  function NewTransfer(assetId: seq<Byte>, streaming: bool, cls: S.Class, initialGrant: nat, now: real): Transfer {
    Transfer(assetId, cls, initialGrant, None, R.NewRepair(), None, false, None,
             if streaming then Some(Stream([], 0, false, false)) else None, false, initialGrant, now, 0)
  }

  function Put(c: Client, id: nat, t: Transfer): Client { c.(transfers := c.transfers[id := t]) }

  function Send(c: Client, ps: seq<Packet>): Client { c.(sent := c.sent + ps) }

  function WithRpcs(c: Client, rpcs: seq<S.Entry>): Client { c.(sched := c.sched.(rpcs := rpcs)) }

  function PayloadOf(c: Client): nat { if c.payloadSeen == 0 then DEFAULT_PAYLOAD else c.payloadSeen }

  // ---- Granting ----

  /** The initial grants of transfers whose size is not known yet. */
  ghost function Reserved(m: map<nat, Transfer>): nat {
    if m == map[] then 0
    else
      var id :| id in m;
      (if m[id].asm.None? then m[id].initialGrant else 0) + Reserved(m - {id})
  }

  function GrantPackets(ds: seq<S.Decision>): seq<Packet> {
    if ds == [] then [] else [Grant(ds[0].id, ds[0].maxOffset, ds[0].priority)] + GrantPackets(ds[1..])
  }

  function Ceiling(t: Transfer, g: Option<nat>): Transfer { if g.Some? then t.(ceiling := g.value) else t }

  function Raised(m: map<nat, Transfer>, ds: seq<S.Decision>): map<nat, Transfer> {
    map id | id in m :: Ceiling(m[id], S.GrantFor(ds, id))
  }

  ghost function Pump(c: Client, e: Env): Client {
    var st, reserved := c.sched.(budget := e.budget), Reserved(c.transfers);
    var ds := S.Decisions(st, reserved);
    c.(sched := S.Granted(st, reserved), transfers := Raised(c.transfers, ds), sent := c.sent + GrantPackets(ds))
  }

  // ---- Streams and answers ----

  function Pending(st: Stream, end: int): int { end - st.emitted }

  /** Bytes are handed over at once at first, then in larger chunks, and the rest when the body is complete. */
  predicate Emits(st: Stream, m: A.Asm) {
    var pending := Pending(st, A.Contiguous(m));
    pending > 0 && (st.emitted == 0 || pending >= STREAM_CHUNK || A.Complete(m))
  }

  function Flushed(t: Transfer, behind: bool): Transfer {
    if t.stream.None? || t.stream.value.closed || t.asm.None? then t
    else
      var st, m := t.stream.value, t.asm.value;
      var st1 := if Emits(st, m) then st.(chunks := st.chunks + [Range(st.emitted, A.Contiguous(m))], emitted := A.Contiguous(m)) else st;
      t.(stream := Some(if behind then st1.(paused := true) else st1))
  }

  predicate JustPaused(t: Transfer, t': Transfer) {
    t.stream.Some? && t'.stream.Some? && !t.stream.value.paused && t'.stream.value.paused
  }

  ghost function Flush(c: Client, id: nat, behind: bool): (c': Client)
    requires id in c.transfers
    ensures id in c'.transfers && c'.transfers[id].asm == c.transfers[id].asm
  {
    var t, t' := c.transfers[id], Flushed(c.transfers[id], behind);
    Put(if JustPaused(t, t') then WithRpcs(c, S.Pause(c.sched.rpcs, id, true)) else c, id, t')
  }

  /** What a reader that takes every chunk has read, given what the buffer holds. */
  function Read(chunks: seq<Range>, bytes: seq<Byte>): seq<Byte> {
    if chunks == [] then []
    else
      var r := chunks[|chunks| - 1];
      Read(chunks[..|chunks| - 1], bytes) + if 0 <= r.start <= r.end <= |bytes| then bytes[r.start..r.end] else []
  }

  predicate CanStart(t: Transfer) { t.stream.Some? && !t.settled && t.asm.Some? && t.headers.Some? }

  /** Hands a streaming caller its body once the size and META are both known. */
  function MaybeStart(c: Client, id: nat): (c': Client)
    requires id in c.transfers
    ensures id in c'.transfers && c'.transfers[id].asm == c.transfers[id].asm
  {
    var t := c.transfers[id];
    if CanStart(t) then Put(c, id, t.(settled := true)).(events := c.events + [Handed(id, t.asm.value.size, t.headers.value)])
    else c
  }

  function BytesOf(t: Transfer): seq<Byte> { if t.asm.Some? then t.asm.value.bytes else [] }

  function HeadersOf(t: Transfer): seq<Field> { if t.headers.Some? then t.headers.value else [] }

  function StreamEnd(id: nat, t: Transfer, ok: bool): seq<Event> {
    if t.stream.None? || t.stream.value.closed then []
    else if ok then [Closed(id, Read(t.stream.value.chunks, BytesOf(t)))]
    else [Errored(id)]
  }

  function Answer(id: nat, t: Transfer, ok: bool): seq<Event> {
    if t.settled then []
    else if !ok then [Rejected(id)]
    else if t.stream.Some? then [Handed(id, |BytesOf(t)|, HeadersOf(t))]
    else [Resolved(id, BytesOf(t), HeadersOf(t))]
  }

  function Forget(c: Client, id: nat, t: Transfer): Client {
    WithRpcs(c, S.Without(c.sched.rpcs, id)).(transfers := c.transfers - {id}, ended := c.ended[id := t])
  }

  ghost function Finish(c: Client, id: nat, ok: bool, e: Env): Client
    requires id in c.transfers
  {
    var t := if ok then Flushed(c.transfers[id], e.behind) else c.transfers[id];
    Pump(Forget(c, id, t).(events := c.events + StreamEnd(id, t, ok) + Answer(id, t, ok)), e)
  }

  /** The reader cancelled: forget the transfer. */
  ghost function Cancel(c: Client, id: nat, e: Env): Client
    requires id in c.transfers
  {
    Pump(Forget(c, id, c.transfers[id]).(events := c.events + [Cancelled(id)]), e)
  }

  /** The reader took something: the transfer may be granted again. */
  function Resumed(c: Client, id: nat): Client
    requires id in c.transfers && c.transfers[id].stream.Some?
  {
    var t := c.transfers[id];
    WithRpcs(Put(c, id, t.(stream := Some(t.stream.value.(paused := false)))), S.Pause(c.sched.rpcs, id, false))
  }

  ghost function Pull(c: Client, id: nat, e: Env): Client
    requires id in c.transfers
  {
    var t := c.transfers[id];
    if t.stream.Some? && t.stream.value.paused then Pump(Resumed(c, id), e) else c
  }

  // ---- Starting ----

  function Hello'(cfg: ClientConfig, c: Client): Client {
    if !cfg.sessionSeq || c.negotiated || c.hellos > HELLO_REPEATS then c
    else Send(c.(hellos := c.hellos + 1), [Hello(0, SESSION_SEQ)])
  }

  function Start(cfg: ClientConfig, c: Client, id: nat, b: Begun, cls: S.Class, initialGrant: nat, now: real): Client {
    Send(Hello'(cfg, Put(c, id, NewTransfer(b.assetId, b.streaming, cls, initialGrant, now)).(started := c.started[id := b])),
         [Req(id, initialGrant, b.assetId)])
  }

  // ---- Repair ----

  function Resends(id: nat, rs: seq<Range>): seq<Packet> {
    if rs == [] then [] else [Resend(id, Max(0, rs[0].start), Max(0, rs[0].end))] + Resends(id, rs[1..])
  }

  function ResendSeqs(rs: seq<Range>): seq<Packet> {
    if rs == [] then [] else [ResendSeq(0, Max(0, rs[0].start), Max(0, rs[0].end))] + ResendSeqs(rs[1..])
  }

  function ClaimsOf(c: Client, id: nat): seq<R.Batch> { if id in c.claims then c.claims[id] else [] }

  /** RESENDs the parts of gaps no live RESEND covers. */
  ghost function ClaimGaps(c: Client, id: nat, gaps: seq<Range>, e: Env): Client
    requires id in c.transfers && c.transfers[id].asm.Some?
  {
    var t := c.transfers[id];
    var lacking := R.Lacking(t.asm.value);
    var out := R.ClaimOut(t.repair, lacking, gaps, e.now);
    Send(Put(c, id, t.(repair := R.Claimed(t.repair, lacking, gaps, e.now, e.delay)))
           .(claims := c.claims[id := ClaimsOf(c, id) + [R.Batch(out, e.now, e.now + e.delay)]]),
         Resends(id, out))
  }

  function GrantedOr(c: Client, id: nat, other: nat): nat {
    var g := S.GrantOf(c.sched.rpcs, id);
    if g.Some? then g.value else other
  }

  /** How far below the frontier a gap must lie before it is a suspect. */
  function SuspectLimit(cfg: ClientConfig, c: Client, id: nat): int
    requires id in c.transfers && c.transfers[id].asm.Some?
  {
    var m := c.transfers[id].asm.value;
    if A.Frontier(m) < GrantedOr(c, id, m.size) then A.Frontier(m) - cfg.reorderPackets * PayloadOf(c) else A.Frontier(m)
  }

  ghost function DetectLoss(cfg: ClientConfig, c: Client, id: nat, e: Env): (c': Client)
    requires id in c.transfers
    ensures id in c'.transfers
  {
    var t := c.transfers[id].(lastDetect := Some(e.now));
    var c1 := Put(c, id, t);
    if !cfg.earlyResend || t.asm.None? || c.negotiated then c1
    else
      var m, limit := t.asm.value, SuspectLimit(cfg, c1, id);
      if limit <= 0 then c1
      else
        var gaps := A.Missing(m, limit);
        ClaimGaps(Put(c1, id, t.(repair := t.repair.(suspects := R.Suspects(t.repair.suspects, gaps, e.now)))),
                  id, R.Lost(t.repair.suspects, gaps, e.now, e.window), e)
  }

  /** Whether the bytes a hint names have all arrived, or their transfer is over. */
  predicate Repaired(transfers: map<nat, Transfer>, h: Q.Hint) {
    h.rpc in transfers ==>
      transfers[h.rpc].asm.Some?
      && var m := transfers[h.rpc].asm.value; forall g :: g in A.Missing(m, Min(h.end, m.size)) ==> g.end <= h.start
  }

  function RepairedIn(transfers: map<nat, Transfer>): Q.Hint -> bool { (h: Q.Hint) => Repaired(transfers, h) }

  /** Numbers just declared lost are asked for. */
  function AskLost(cfg: ClientConfig, c: Client, e: Env): Client {
    var lost := Q.LostNums(c.seqs.missing, c.seqs.highest, e.now, cfg.reorderPackets, e.window, e.tail);
    Send(c.(seqs := Q.Detected(c.seqs, lost, e.now)), ResendSeqs(Q.Ranges(lost, MAX_RESEND_SEQ)))
  }

  function DueAgain(c: Client, e: Env): seq<nat> {
    Q.Again(c.seqs.claimed, e.now, 2.0 * e.delay, SEQ_RESEND_TRIES, RepairedIn(c.transfers))
  }

  function NextTry(c: Client, e: Env): Client {
    c.(seqs := Q.Repeated(c.seqs, e.now, 2.0 * e.delay, SEQ_RESEND_TRIES, RepairedIn(c.transfers)))
  }

  /** Numbers asked for long enough ago are asked for again, unless repaired or given up. */
  function AskAgain(c: Client, e: Env): Client { Send(NextTry(c, e), ResendSeqs(Q.Ranges(DueAgain(c, e), MAX_RESEND_SEQ))) }

  function DetectSeqLoss(cfg: ClientConfig, c: Client, e: Env): Client {
    var c1 := c.(lastSeqDetect := Some(e.now));
    if cfg.earlyResend then AskAgain(AskLost(cfg, c1, e), e) else c1
  }

  predicate Elapsed(since: Option<real>, now: real, interval: real) { since.None? || now - since.value >= interval }

  /** The tail has stopped arriving for the probe's timeout, and was not probed since. */
  predicate ProbeDue(cfg: ClientConfig, t: Transfer, granted: nat, e: Env) {
    cfg.earlyResend && t.asm.Some? && !t.tailProbed && e.probeAfter.Some?
    && A.Frontier(t.asm.value) < granted && e.now - t.lastProgress >= e.probeAfter.value
  }

  /** The last packet of what is granted past the frontier. */
  function LastPacket(m: A.Asm, granted: nat, payload: nat): Range {
    Range(Max(A.Frontier(m), granted - payload), granted)
  }

  /** Once per stall, well before the stall timer: re-request the tail's last packet. */
  ghost function TailProbe(cfg: ClientConfig, c: Client, id: nat, granted: nat, e: Env): (c': Client)
    requires id in c.transfers
    ensures id in c'.transfers
  {
    var t := c.transfers[id];
    if ProbeDue(cfg, t, granted, e)
    then ClaimGaps(Put(c, id, t.(tailProbed := true)), id, [LastPacket(t.asm.value, granted, PayloadOf(c))], e)
    else c
  }

  function FirstSixteen(rs: seq<Range>): seq<Range> {
    if |rs| <= MAX_RESEND_RANGES then rs else rs[..MAX_RESEND_RANGES]
  }

  /** The first and last packet of what is granted past the frontier. */
  function TailGaps(frontier: nat, granted: nat, payload: nat): seq<Range> {
    if frontier >= granted then []
    else
      var first := Range(frontier, Min(granted, frontier + payload));
      var last := Range(Max(first.end, granted - payload), granted);
      [first] + if last.start < last.end then [last] else []
  }

  function RecoverGaps(m: A.Asm, granted: nat, payload: nat): seq<Range> {
    FirstSixteen(A.Missing(m, Min(A.Frontier(m), granted))) + TailGaps(A.Frontier(m), granted, payload)
  }

  /** One attempt too many: the transfer fails. */
  ghost function GiveUp(c: Client, id: nat, e: Env): Client
    requires id in c.transfers
  {
    Finish(OutOfTries(c, id), id, false, e)
  }

  function OutOfTries(c: Client, id: nat): (c': Client)
    requires id in c.transfers
    ensures id in c'.transfers
  {
    Put(c.(recovered := c.recovered + multiset{id}), id, c.transfers[id].(recoveries := c.transfers[id].recoveries + 1))
  }

  /** The attempt itself: counted, and a REQ again if the size or META is missing. */
  function Attempted(c: Client, id: nat, now: real): (c': Client)
    requires id in c.transfers
    ensures id in c'.transfers && c'.transfers[id].asm == c.transfers[id].asm
  {
    var t := c.transfers[id];
    Send(Put(c.(recovered := c.recovered + multiset{id}), id, t.(recoveries := t.recoveries + 1, lastProgress := now)),
         if t.asm.None? || t.headers.None? then [Req(id, t.initialGrant, t.assetId)] else [])
  }

  /** The grant again, and RESENDs for what is missing below it. */
  ghost function Rerequest(c: Client, id: nat, granted: nat, e: Env): Client
    requires id in c.transfers && c.transfers[id].asm.Some?
  {
    var t := c.transfers[id];
    ClaimGaps(Send(c, if granted > t.initialGrant then [Grant(id, granted, 0)] else []), id,
              RecoverGaps(t.asm.value, granted, PayloadOf(c)), e)
  }

  /** The stall timer's recovery: ask again for what is missing, or give up. */
  ghost function Recover(cfg: ClientConfig, c: Client, id: nat, granted: nat, e: Env): Client
    requires id in c.transfers
  {
    if c.transfers[id].recoveries + 1 > cfg.maxRecoveries then GiveUp(c, id, e)
    else if c.transfers[id].asm.None? then Attempted(c, id, e.now)
    else Rerequest(Attempted(c, id, e.now), id, granted, e)
  }

  /** Nothing outstanding, or its own reader is behind: not a stall. */
  predicate Waiting(t: Transfer, granted: nat) {
    (t.asm.Some? && t.headers.Some? && |t.asm.value.got| >= granted) || (t.stream.Some? && t.stream.value.paused)
  }

  function TickGrant(c: Client, id: nat): nat
    requires id in c.transfers
  {
    if c.transfers[id].asm.Some? then GrantedOr(c, id, 0) else 0
  }

  /** One transfer's turn on a tick. */
  ghost function TickOne(cfg: ClientConfig, c: Client, id: nat, e: Env): Client
    requires id in c.transfers
  {
    AfterDetect(cfg, if c.transfers[id].asm.Some? then DetectLoss(cfg, c, id, e) else c, id, e)
  }

  /** The probe and the stall timer, unless the transfer is only waiting. */
  ghost function AfterDetect(cfg: ClientConfig, c: Client, id: nat, e: Env): Client
    requires id in c.transfers
  {
    var t, granted := c.transfers[id], TickGrant(c, id);
    if Waiting(t, granted) then Put(c, id, t.(lastProgress := e.now))
    else
      var c1 := TailProbe(cfg, c, id, granted, e);
      if Stalled(c1.transfers[id], e) then Recover(cfg, c1, id, granted, e) else c1
  }

  predicate Stalled(t: Transfer, e: Env) { e.now - t.lastProgress >= e.timeout }

  // ---- Arrivals ----

  ghost function HandleMeta(c: Client, id: nat, fields: seq<Field>, e: Env): Client
    requires id in c.transfers
  {
    var t := c.transfers[id];
    if t.headers.Some? then c
    else
      var c1 := MaybeStart(Put(c, id, t.(headers := Some(fields), lastProgress := e.now, recoveries := 0)), id);
      if t.asm.Some? && A.Complete(t.asm.value) then Finish(c1, id, true, e) else c1
  }

  /** The first DATA reveals the size: the transfer gets its buffer and is scheduled. */
  ghost function Sized(c: Client, id: nat, size: nat): (c': Client)
    requires id in c.transfers
    ensures id in c'.transfers && c'.transfers[id].asm.Some?
    ensures c'.transfers[id].asm == if c.transfers[id].asm.Some? then c.transfers[id].asm else Some(A.NewAsm(size))
  {
    var t := c.transfers[id];
    if t.asm.Some? then c
    else
      Put(c, id, t.(asm := Some(A.NewAsm(size)), repair := R.NewRepair()))
        .(sched := c.sched.(rpcs := c.sched.rpcs + [S.Entry(id, size, Min(t.initialGrant, size), 0, false, c.sched.next, t.cls)],
                            next := c.sched.next + 1))
  }

  /** A transfer with a payload stored. */
  function StoredT(t: Transfer, offset: nat, payload: seq<Byte>, now: real): Transfer
    requires t.asm.Some? && A.AsmOk(t.asm.value) && A.Fits(t.asm.value.size, offset, |payload|)
  {
    var t' := t.(asm := Some(A.AddTo(t.asm.value, offset, payload)));
    if A.FreshIn(t.asm.value, offset, |payload|) > 0 then t'.(lastProgress := now, recoveries := 0, tailProbed := false) else t'
  }

  /** Stores a payload that fits. */
  ghost function Stored(c: Client, id: nat, offset: nat, payload: seq<Byte>, now: real): (c': Client)
    requires id in c.transfers && c.transfers[id].asm.Some?
    requires A.AsmOk(c.transfers[id].asm.value) && A.Fits(c.transfers[id].asm.value.size, offset, |payload|)
    ensures id in c'.transfers && c'.transfers[id].asm.Some?
  {
    WithRpcs(Put(c, id, StoredT(c.transfers[id], offset, payload, now)),
             S.Deliver(c.sched.rpcs, id, A.FreshIn(c.transfers[id].asm.value, offset, |payload|)))
      .(payloadSeen := Max(c.payloadSeen, |payload|))
  }

  /** What follows a stored payload: tell the caller, and either finish or look for gaps. */
  ghost function AfterStored(cfg: ClientConfig, c: Client, id: nat, e: Env): Client
    requires id in c.transfers && c.transfers[id].asm.Some?
  {
    var c1 := Flush(MaybeStart(c, id), id, e.behind);
    var t := c1.transfers[id];
    if A.Complete(t.asm.value) && t.headers.Some? then Finish(c1, id, true, e)
    else if Elapsed(t.lastDetect, e.now, DETECT_INTERVAL_MS) then DetectLoss(cfg, c1, id, e)
    else c1
  }

  ghost function HandleData(cfg: ClientConfig, c: Client, id: nat, size: nat, offset: nat, payload: seq<Byte>, e: Env): Client
    requires id in c.transfers && (c.transfers[id].asm.Some? ==> A.AsmOk(c.transfers[id].asm.value))
  {
    var c1 := Sized(c, id, size);
    var m := c1.transfers[id].asm.value;
    if size != m.size || !A.Fits(m.size, offset, |payload|) then Finish(c1, id, false, e)
    else AfterStored(cfg, Stored(c1, id, offset, payload, e.now), id, e)
  }

  function Counted(c: Client, p: Packet, now: real): Client
    requires p.DataSeq? && -1 <= c.seqs.highest
  {
    c.(seqs := Q.Arrive(c.seqs, p.num, now, Some(Q.Hint(p.rpc, p.offset, p.offset + |p.payload|))).0, negotiated := true)
  }

  /** A DATA_SEQ's number counts whether or not its transfer is still alive. */
  ghost function CountNumber(cfg: ClientConfig, c: Client, p: Packet, e: Env): Client
    requires p.DataSeq? && -1 <= c.seqs.highest
  {
    if Elapsed(c.lastSeqDetect, e.now, DETECT_INTERVAL_MS) then DetectSeqLoss(cfg, Counted(c, p, e.now), e) else Counted(c, p, e.now)
  }

  ghost predicate AsmsOk(c: Client) {
    forall id :: id in c.transfers && c.transfers[id].asm.Some? ==> A.AsmOk(c.transfers[id].asm.value)
  }

  ghost function HandlePacket(cfg: ClientConfig, c: Client, p: Packet, e: Env): Client
    requires AsmsOk(c)
  {
    if p.rpc !in c.transfers then c
    else if p.Meta? then HandleMeta(c, p.rpc, p.fields, e)
    else if p.Data? || p.DataSeq? then HandleData(cfg, c, p.rpc, p.totalSize, p.offset, p.payload, e)
    else if p.Error? then Finish(c, p.rpc, false, e)
    else c
  }

  /** The read loop's step for one datagram. */
  ghost function Arrive(cfg: ClientConfig, c: Client, p: Packet, e: Env): Client
    requires AsmsOk(c) && -1 <= c.seqs.highest
  {
    Pump(HandlePacket(cfg, if p.DataSeq? then CountNumber(cfg, c, p, e) else c, p, e), e)
  }
}
