/**
 server/internal/sender/sender.go: the passive sender's session state and the
 steps of its two loops. The receive loop's step is Handle. The send loop picks
 under the lock, transmits with the lock released, and records under the lock
 again, so Handle steps fall between Pick, the G2 check and Record; EvictIdle
 runs on the send loop only, so it never does.

 Go iterates a map in no fixed order, so which of two equally good RPCs is
 picked is left open.
 */
module Senders {
  import opened Intervals
  import opened Packets

  const H3_DATAGRAM_PREFIX_MAX := 8
  const SEQ_RING_SIZE := 65536
  const MAX_RESEND_SEQ_RANGE := 1024
  const QUIC_SEND_QUEUE := 32

  datatype Span = Span(start: nat, end: nat)

  /** Assets.Get: a fixed function from asset IDs. */
  datatype Asset = Found(body: seq<Byte>, fields: seq<Field>) | NotFound | Broken

  datatype Config = Config(assets: seq<Byte> -> Asset, initialMaxDatagram: int, idleTimeout: int, noSeq: bool, tailDuplicate: int)

  datatype Rpc = Rpc(
    asset: seq<Byte>,
    meta: seq<Field>,
    granted: nat,
    resends: seq<Span>,
    packet0Req: nat,
    lastActive: int,
    next: nat,
    metaSent: nat,
    packet0Sent: nat,
    tailDuped: bool,
    tailDup: Option<Span>)
  {
    function Size(): nat { |asset| }
  }

  /** What one DATA_SEQ carried. */
  datatype SeqEntry = SeqEntry(num: nat, valid: bool, resent: bool, rpc: nat, off: nat, n: nat)

  datatype Session = Session(
    rpcs: map<nat, Rpc>,
    pending: seq<Packet>,
    maxDatagram: int,
    seqOn: bool,
    nextSeq: nat,
    ring: seq<SeqEntry>)

  datatype Kind = Control | MetaWork | Packet0 | Resending | NewData | TailDup

  /** One packet the send loop has chosen, and what to record once it is sent. */
  datatype Work = Work(pkt: Packet, rpc: nat, kind: Kind, packet0: nat, useSeq: bool, bulk: bool)

  /** How a transmission ended: a drop is recorded like a send. */
  datatype Outcome = Sent | Dropped | TooLarge(maxPayload: int) | Failed

  function NewSession(cfg: Config): Session {
    Session(map[], [], cfg.initialMaxDatagram, false, 0, [])
  }

  function EmptyEntry(): SeqEntry { SeqEntry(0, false, false, 0, 0, 0) }

  // ---- The receive loop's step ----

  function RaiseGrant(r: Rpc, g: nat): Rpc { r.(granted := Max(r.granted, Min(g, r.Size()))) }

  function NewRpc(body: seq<Byte>, fields: seq<Field>): Rpc {
    Rpc(body, fields, 0, [], 0, 0, 0, 0, 0, false, None)
  }

  function Reply(s: Session, p: Packet): Session { s.(pending := s.pending + [p]) }

  function OnReq(cfg: Config, s: Session, id: nat, grant: nat, assetId: seq<Byte>, now: int): Session {
    if id in s.rpcs then s.(rpcs := s.rpcs[id := Asked(s.rpcs[id], grant, now)])
    else match cfg.assets(assetId)
      case NotFound => Reply(s, Error(id, CODE_NOT_FOUND))
      case Broken => Reply(s, Error(id, CODE_BAD_REQUEST))
      case Found(body, fields) => s.(rpcs := s.rpcs[id := Asked(NewRpc(body, fields), grant, now)])
  }

  /** A REQ asks for META and packet 0 (again); its initial grant counts like any other. */
  function Asked(r: Rpc, grant: nat, now: int): Rpc {
    RaiseGrant(r, grant).(packet0Req := r.packet0Req + 1, lastActive := now)
  }

  function OnGrant(s: Session, id: nat, g: nat, now: int): Session {
    if id in s.rpcs then s.(rpcs := s.rpcs[id := RaiseGrant(s.rpcs[id], g).(lastActive := now)])
    else Reply(s, Error(id, CODE_UNKNOWN_RPC))
  }

  /** The requested range, clipped to what was granted and already sent. */
  function Clip(r: Rpc, end: nat): nat { Min(end, Min(r.granted, r.next)) }

  function OnResend(s: Session, id: nat, start: nat, end: nat, now: int): Session {
    if id !in s.rpcs then Reply(s, Error(id, CODE_UNKNOWN_RPC))
    else
      var r := s.rpcs[id].(lastActive := now);
      s.(rpcs := s.rpcs[id := if start < Clip(r, end) then r.(resends := r.resends + [Span(start, Clip(r, end))]) else r])
  }

  function OnHello(cfg: Config, s: Session, caps: nat): Session {
    if !cfg.noSeq && OffersSeq(caps) && !s.seqOn
    then s.(seqOn := true, ring := seq(SEQ_RING_SIZE, _ => EmptyEntry()))
    else s
  }

  /** The ring has what number n carried. */
  predicate Hit(s: Session, n: nat) {
    |s.ring| == SEQ_RING_SIZE && s.ring[n % SEQ_RING_SIZE].valid && s.ring[n % SEQ_RING_SIZE].num == n
  }

  function Slot(s: Session, n: nat): SeqEntry
    requires |s.ring| == SEQ_RING_SIZE
  {
    s.ring[n % SEQ_RING_SIZE]
  }

  /** Queues [off, end) again, merging it with the last range if that ends where it starts. */
  function Requeue(r: Rpc, off: nat, end: nat): Rpc {
    var k := |r.resends|;
    if k > 0 && r.resends[k - 1].end == off then r.(resends := r.resends[k - 1 := r.resends[k - 1].(end := end)])
    else r.(resends := r.resends + [Span(off, end)])
  }

  function ResendOne(s: Session, n: nat, now: int): Session
    requires |s.ring| == SEQ_RING_SIZE
  {
    if !Hit(s, n) || Slot(s, n).resent then s
    else
      var e := Slot(s, n);
      var s' := s.(ring := s.ring[n % SEQ_RING_SIZE := e.(resent := true)]);
      if e.rpc !in s.rpcs then s'
      else
        var r := s.rpcs[e.rpc].(lastActive := now);
        s'.(rpcs := s.rpcs[e.rpc := if e.off < Clip(r, e.off + e.n) then Requeue(r, e.off, Clip(r, e.off + e.n)) else r])
  }

  function ResendMany(s: Session, from: nat, end: nat, now: int): (s': Session)
    requires |s.ring| == SEQ_RING_SIZE
    ensures |s'.ring| == SEQ_RING_SIZE
    decreases end - from
  {
    if from >= end then s else ResendMany(ResendOne(s, from, now), from + 1, end, now)
  }

  function OnResendSeq(s: Session, start: nat, end: nat, now: int): Session {
    if s.seqOn && |s.ring| == SEQ_RING_SIZE then ResendMany(s, start, Min(end, start + MAX_RESEND_SEQ_RANGE), now) else s
  }

  /** Applies one client packet. DATA, DATA_SEQ, ERROR and META only flow the other way and change nothing. */
  function Handle(cfg: Config, s: Session, p: Packet, now: int): Session {
    match p
    case Req(id, grant, assetId) => OnReq(cfg, s, id, grant, assetId, now)
    case Grant(id, g, _) => OnGrant(s, id, g, now)
    case Resend(id, start, end) => OnResend(s, id, start, end, now)
    case Hello(_, caps) => OnHello(cfg, s, caps)
    case ResendSeq(_, start, end) => OnResendSeq(s, start, end, now)
    case _ => s
  }

  // ---- The send loop's steps ----

  function Due(r: Rpc): Option<Kind> {
    if r.packet0Req > r.metaSent then Some(MetaWork)
    else if r.packet0Req > r.packet0Sent then Some(Packet0)
    else if |r.resends| > 0 then Some(Resending)
    else if r.next < r.granted then Some(NewData)
    else if r.tailDup.Some? then Some(TailDup)
    else None
  }

  function KindRank(k: Kind): nat {
    match k case Control => 0 case MetaWork => 1 case Packet0 => 2 case Resending => 3 case NewData => 4 case TailDup => 5
  }

  /** a is strictly more urgent than b: its kind comes first, or the kinds agree and fewer of its bytes are unsent. */
  predicate Better(a: Rpc, b: Rpc)
    requires Due(a).Some? && Due(b).Some?
  {
    var ka, kb := KindRank(Due(a).value), KindRank(Due(b).value);
    ka < kb || (ka == kb && a.Size() - a.next < b.Size() - b.next)
  }

  predicate UsesSeq(s: Session) { s.seqOn && s.nextSeq <= U32_MAX }

  function Chunk(s: Session): nat {
    Max(1, if UsesSeq(s) then MaxPayloadSeq(s.maxDatagram) else MaxPayload(s.maxDatagram))
  }

  function Bytes(r: Rpc, off: nat, n: nat): seq<Byte> {
    if off + n <= |r.asset| then r.asset[off..off + n] else []
  }

  function DataOf(id: nat, r: Rpc, off: nat, n: nat): Packet { Data(id, r.Size(), off, Bytes(r, off, n)) }

  /** The packet an RPC that is due sends next, with DATA of at most chunk bytes. */
  function WorkOf(id: nat, r: Rpc, u: bool, chunk: nat): Work
    requires Due(r).Some?
  {
    match Due(r).value
    case MetaWork => Work(Meta(id, r.meta), id, MetaWork, r.packet0Req, false, false)
    case Packet0 => Work(DataOf(id, r, 0, Min(chunk, r.granted)), id, Packet0, r.packet0Req, u, false)
    case TailDup =>
      var sp := r.tailDup.value;
      Work(DataOf(id, r, sp.start, Max(0, sp.end - sp.start)), id, TailDup, 0, u, false)
    case Resending =>
      var sp := r.resends[0];
      Work(DataOf(id, r, sp.start, Min(chunk, Max(0, sp.end - sp.start))), id, Resending, 0, u, false)
    case NewData =>
      Work(DataOf(id, r, r.next, Min(chunk, r.granted - r.next)), id, NewData, 0, u,
           r.Size() - r.next > QUIC_SEND_QUEUE * chunk)
  }

  function WorkFor(s: Session, id: nat): Work
    requires id in s.rpcs && Due(s.rpcs[id]).Some?
  {
    WorkOf(id, s.rpcs[id], UsesSeq(s), Chunk(s))
  }

  /** id may be picked: it is due and nothing due is strictly more urgent. */
  predicate MostUrgent(s: Session, id: nat) {
    id in s.rpcs && Due(s.rpcs[id]).Some?
    && forall j :: j in s.rpcs && Due(s.rpcs[j]).Some? ==> !Better(s.rpcs[j], s.rpcs[id])
  }

  /** What pick may return: control replies first, then the most urgent RPC, and nothing only if nothing is due. */
  predicate Picks(s: Session, w: Option<Work>) {
    if s.pending != [] then w == Some(Work(s.pending[0], 0, Control, 0, false, false))
    else if w.None? then forall j :: j in s.rpcs ==> Due(s.rpcs[j]).None?
    else MostUrgent(s, w.value.rpc) && w.value == WorkFor(s, w.value.rpc)
  }

  /** How far a DATA about to leave runs past the grant: what the G2 counter adds. */
  function Ungranted(s: Session, w: Work): nat {
    if w.pkt.Data? && w.rpc in s.rpcs && w.pkt.offset + |w.pkt.payload| > s.rpcs[w.rpc].granted
    then w.pkt.offset + |w.pkt.payload| - Max(w.pkt.offset, s.rpcs[w.rpc].granted)
    else 0
  }

  /** What leaves: DATA goes out as DATA_SEQ under the next number when the session has them. */
  function Outgoing(s: Session, w: Work): Packet {
    if w.pkt.Data? && w.useSeq
    then DataSeq(w.pkt.rpc, w.pkt.totalSize, w.pkt.offset, s.nextSeq % (U32_MAX + 1), w.pkt.payload)
    else w.pkt
  }

  function SentRpc(r: Rpc, w: Work, n: nat): Rpc {
    match w.kind
    case Packet0 => r.(packet0Sent := w.packet0, next := Max(r.next, n))
    case Resending =>
      if r.resends == [] then r
      else if r.resends[0].start + n >= r.resends[0].end then r.(resends := r.resends[1..])
      else r.(resends := r.resends[0 := r.resends[0].(start := r.resends[0].start + n)])
    case NewData => r.(next := r.next + n)
    case TailDup => r.(tailDup := None)
    case _ => r
  }

  /** A small response's last packet is repeated once, unless it was itself a resend. */
  function QueueTail(cfg: Config, r: Rpc, w: Work, off: nat, n: nat): Rpc {
    if cfg.tailDuplicate > 0 && !r.tailDuped && w.kind != Resending
       && r.Size() > 0 && r.Size() <= cfg.tailDuplicate && r.next == r.Size()
    then r.(tailDuped := true, tailDup := Some(Span(off, off + n)))
    else r
  }

  /** The state after w was sent, or dropped on the way, which is recorded alike. */
  function Recorded(cfg: Config, s: Session, w: Work): Session {
    if w.kind == Control then s.(pending := if s.pending == [] then [] else s.pending[1..])
    else if w.rpc !in s.rpcs then s
    else if w.kind == MetaWork then s.(rpcs := s.rpcs[w.rpc := s.rpcs[w.rpc].(metaSent := w.packet0)])
    else if !w.pkt.Data? then s
    else
      var off, n := w.pkt.offset, |w.pkt.payload|;
      var s' := s.(rpcs := s.rpcs[w.rpc := QueueTail(cfg, SentRpc(s.rpcs[w.rpc], w, n), w, off, n)]);
      if w.useSeq && |s.ring| == SEQ_RING_SIZE then
        s'.(ring := s.ring[s.nextSeq % SEQ_RING_SIZE := SeqEntry(s.nextSeq % (U32_MAX + 1), true, false, w.rpc, off, n)],
            nextSeq := s.nextSeq + 1)
      else s'
  }

  /** What transmitting w does: a DATA refused as too large only shrinks later ones; any other failure ends the session. */
  function Transmitted(cfg: Config, s: Session, w: Work, o: Outcome): (Session, bool) {
    match o
    case Sent => (Recorded(cfg, s, w), true)
    case Dropped => if w.pkt.Data? || w.pkt.Meta? then (Recorded(cfg, s, w), true) else (s, false)
    case TooLarge(m) => if w.pkt.Data? then (s.(maxDatagram := m - H3_DATAGRAM_PREFIX_MAX), true) else (s, false)
    case Failed => (s, false)
  }

  function Evicted(cfg: Config, s: Session, now: int): Session {
    s.(rpcs := map id | id in s.rpcs && !(s.rpcs[id].lastActive < now - cfg.idleTimeout) :: s.rpcs[id])
  }
}
