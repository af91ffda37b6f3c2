/**
 client/src/transport.ts, interface Transfer: one request in flight as an object
 whose fields its handlers change, with the buffer and the repair bookkeeping it
 owns. What each change amounts to is a function of the values in Client.dfy.
 */
module ClientTransfers {
  import opened Intervals
  import opened Packets
  import opened Clients
  import A = Reassemblies
  import R = Repairs
  import S = Scheduling
  import Q = SeqTracking

  class LiveTransfer {
    const assetId: seq<Byte>
    const cls: S.Class
    const initialGrant: nat
    var asm: A.Reassembly?
    var repair: R.RepairTracker?
    var lastDetect: Option<real>
    var tailProbed: bool
    var headers: Option<seq<Field>>
    var stream: Option<Stream>
    var settled: bool
    var ceiling: nat
    var lastProgress: real
    var recoveries: nat
    ghost var Repr: set<object>

    ghost predicate Valid()
      reads this, Repr
      ensures Valid() ==> this in Repr
    {
      && this in Repr
      && (asm == null <==> repair == null)
      && (asm != null ==>
            && asm in Repr && asm.bytes in Repr && repair in Repr
            && asm.Valid() && R.DisjointP(repair.pending, 0, asm.size))
    }

    ghost function State(): (t: Transfer)
      requires Valid()
      reads this, Repr
      ensures t.asm.Some? == (asm != null) && (t.asm.Some? ==> A.AsmOk(t.asm.value) && t.asm.value == asm.State())
    {
      Transfer(assetId, cls, initialGrant,
               if asm == null then None else Some(asm.State()),
               if repair == null then R.NewRepair() else repair.State(),
               lastDetect, tailProbed, headers, stream, settled, ceiling, lastProgress, recoveries)
    }

    constructor (assetId: seq<Byte>, streaming: bool, cls: S.Class, initialGrant: nat, now: real)
      ensures Valid() && fresh(Repr) && State() == NewTransfer(assetId, streaming, cls, initialGrant, now)
    {
      this.assetId, this.cls, this.initialGrant := assetId, cls, initialGrant;
      asm, repair, lastDetect, tailProbed, headers := null, null, None, false, None;
      stream := if streaming then Some(Stream([], 0, false, false)) else None;
      settled, ceiling, lastProgress, recoveries := false, initialGrant, now, 0;
      Repr := {this};
    }

    /** The first DATA reveals the size. */
    method Size(size: nat)
      requires Valid() && asm == null
      modifies this
      ensures Valid() && fresh(Repr - old(Repr)) && asm != null
      ensures State() == old(State()).(asm := Some(A.NewAsm(size)), repair := R.NewRepair())
    {
      asm := new A.Reassembly(size);
      repair := new R.RepairTracker();
      Repr := {this, asm, asm.bytes, repair};
    }

    /** Stores a payload if it fits: how many of its bytes are new. */
    method Store(offset: nat, payload: seq<Byte>, now: real) returns (r: A.Added)
      requires Valid() && asm != null
      modifies Repr
      ensures Valid() && Repr == old(Repr) && asm == old(asm)
      ensures var m := old(State()).asm.value;
        if A.Fits(m.size, offset, |payload|)
        then r == A.Fresh(A.FreshIn(m, offset, |payload|)) && State() == StoredT(old(State()), offset, payload, now)
        else r.OutOfRange? && State() == old(State())
    {
      r := asm.Add(offset, payload);
      if r.Fresh? && r.count > 0 {
        lastProgress, recoveries, tailProbed := now, 0, false;
      }
    }

    /** Hands the bytes that have become contiguous to the reader; whether that pauses the transfer. */
    method FlushStream(behind: bool) returns (pause: bool)
      requires Valid()
      modifies this
      ensures Valid() && Repr == old(Repr)
      ensures State() == Flushed(old(State()), behind) && pause == JustPaused(old(State()), State())
    {
      pause := false;
      if stream.None? || stream.value.closed || asm == null { return; }
      var st := stream.value;
      var upto := asm.ContiguousEnd();
      var complete := asm.IsComplete();
      var pending := upto - st.emitted;
      if pending > 0 && (st.emitted == 0 || pending >= STREAM_CHUNK || complete) {
        st := st.(chunks := st.chunks + [Range(st.emitted, upto)], emitted := upto);
      }
      if behind && !st.paused {
        pause := true;
        st := st.(paused := true);
      }
      stream := Some(st);
    }

    /** The parts of these gaps no live RESEND covers, recorded as RESENT. */
    method ClaimRanges(gaps: seq<Range>, now: real, delay: real) returns (out: seq<Range>)
      requires Valid() && asm != null && Disjoint(gaps, 0, asm.size)
      modifies repair
      ensures Valid() && Repr == old(Repr) && asm == old(asm)
      ensures var t := old(State()); var lacking := R.Lacking(t.asm.value);
        && out == R.ClaimOut(t.repair, lacking, gaps, now)
        && State() == t.(repair := R.Claimed(t.repair, lacking, gaps, now, delay))
    {
      R.ClaimEffect(repair.State(), R.Lacking(asm.State()), gaps, now, delay, asm.size);
      out := repair.Claim(asm, gaps, now, delay);
    }

    /** The gaps below limit that have stayed missing for the window, claimed. */
    method DetectGaps(limit: int, now: real, window: real, delay: real) returns (out: seq<Range>)
      requires Valid() && asm != null && limit <= asm.size
      modifies repair
      ensures Valid() && Repr == old(Repr) && asm == old(asm)
      ensures var t := old(State()); var lacking, gaps := R.Lacking(t.asm.value), A.Missing(t.asm.value, limit);
        && out == R.ClaimOut(t.repair, lacking, R.Lost(t.repair.suspects, gaps, now, window), now)
        && State() == t.(repair := R.Claimed(t.repair.(suspects := R.Suspects(t.repair.suspects, gaps, now)), lacking,
                                             R.Lost(t.repair.suspects, gaps, now, window), now, delay))
    {
      R.LostFits(repair.suspects, asm.State(), limit, now, window);
      R.ClaimEffect(repair.State().(suspects := R.Suspects(repair.suspects, A.Missing(asm.State(), limit), now)), R.Lacking(asm.State()),
                    R.Lost(repair.suspects, A.Missing(asm.State(), limit), now, window), now, delay, asm.size);
      out := repair.Detect(asm, limit, now, window, delay);
    }

    /** The stall timer's gaps: up to sixteen real ones, then the ends of the tail. */
    method GapsToRecover(granted: nat, payload: nat) returns (gaps: seq<Range>)
      requires Valid() && asm != null
      ensures gaps == RecoverGaps(State().asm.value, granted, payload)
    {
      var frontier := asm.FrontierEnd();
      gaps := asm.MissingBelow(Min(frontier, granted));
      gaps := FirstSixteen(gaps);
      if frontier < granted {
        var first := Range(frontier, Min(granted, frontier + payload));
        var last := Range(Max(first.end, granted - payload), granted);
        gaps := gaps + ([first] + if last.start < last.end then [last] else []);
      }
    }

    /** Whether the bytes a hint names have all arrived. */
    method HasHinted(h: Q.Hint) returns (all: bool)
      requires Valid()
      ensures all == (asm != null && var m := State().asm.value; forall g :: g in A.Missing(m, Min(h.end, m.size)) ==> g.end <= h.start)
    {
      if asm == null { return false; }
      var gaps := asm.MissingBelow(Min(h.end, asm.size));
      for i := 0 to |gaps|
        invariant forall k :: 0 <= k < i ==> gaps[k].end <= h.start
      {
        if gaps[i].end > h.start { return false; }
      }
      return true;
    }
  }
}
