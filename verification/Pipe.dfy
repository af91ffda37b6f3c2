/**
 server/internal/impair/proxy.go: one direction of the proxy. push admits each
 packet in arrival order and queues it; run forwards the queued packet that is
 due first. The queue is a heap by delivery time, then arrival order; here it is
 the list of what it holds, and popping takes the least.
 */
module Pipes {
  import opened Intervals
  import opened Links

  datatype Pkt = Pkt(at: int, num: nat, b: seq<Byte>)

  datatype Pipe = Pipe(
    link: Link,
    queue: seq<Pkt>,
    num: nat,
    arrived: nat,
    forwarded: nat,
    lost: nat,
    overflowed: nat)

  function NewPipe(): Pipe { Pipe(NewLink(), [], 0, 0, 0, 0, 0) }

  /** The heap's order: earlier delivery, then earlier arrival. */
  predicate Less(a: Pkt, b: Pkt) { a.at < b.at || (a.at == b.at && a.num < b.num) }

  function Pushed(d: Direction, p: Pipe, now: int, b: seq<Byte>, r: Draws): Pipe {
    var (link, v) := Admit(d, p.link, now, |b|, r);
    var p1 := p.(link := link, arrived := p.arrived + 1);
    match v
    case DropLoss => p1.(lost := p.lost + 1)
    case DropQueue => p1.(overflowed := p.overflowed + 1)
    case Deliver(at) => p1.(num := p.num + 1, queue := p.queue + [Pkt(at, p.num + 1, b)])
  }

  /** x is the head of the heap. */
  predicate IsNext(queue: seq<Pkt>, i: nat) {
    i < |queue| && forall j :: 0 <= j < |queue| && j != i ==> Less(queue[i], queue[j])
  }

  function Forwarded(p: Pipe, i: nat): Pipe
    requires i < |p.queue|
  {
    p.(queue := p.queue[..i] + p.queue[i + 1..], forwarded := p.forwarded + 1)
  }

  // ---- Runs ----

  datatype Step = Push(now: int, b: seq<Byte>, r: Draws) | Forward(now: int, i: nat)

  /** What a run has done: packets admitted to the queue, and packets forwarded, each in order. */
  datatype Run = Run(p: Pipe, admitted: seq<Pkt>, out: seq<Pkt>)

  predicate Moves(d: Direction, a: Run, s: Step, b: Run) {
    match s
    case Push(now, bytes, r) =>
      && b.p == Pushed(d, a.p, now, bytes, r) && b.out == a.out
      && b.admitted == a.admitted + b.p.queue[|a.p.queue|..]
    case Forward(now, i) =>
      && IsNext(a.p.queue, i) && a.p.queue[i].at <= now
      && b.p == Forwarded(a.p, i) && b.out == a.out + [a.p.queue[i]] && b.admitted == a.admitted
  }

  /** Arrival numbers go up by one, and with reordering off so do delivery times, weakly, up to the link's last. */
  predicate InTurn(ps: seq<Pkt>, first: nat) {
    forall i :: 0 <= i < |ps| ==> ps[i].num == first + i
  }

  predicate TimesUp(ps: seq<Pkt>, last: Option<int>) {
    && (forall i, j :: 0 <= i < j < |ps| ==> ps[i].at <= ps[j].at)
    && (ps != [] ==> last.Some? && ps[|ps| - 1].at <= last.value)
  }

  predicate Conserved(p: Pipe) { p.arrived == p.forwarded + p.lost + p.overflowed + |p.queue| }

  predicate RunInv(d: Direction, r: Run) {
    && Conserved(r.p) && r.p.forwarded == |r.out| && r.p.num == |r.admitted| == |r.out| + |r.p.queue|
    && InTurn(r.admitted, 1)
    && (forall k :: k in r.p.queue ==> k in r.admitted) && (forall k :: k in r.out ==> k in r.admitted)
    && multiset(r.admitted) == multiset(r.out) + multiset(r.p.queue)
    && (!d.reorder ==> TimesUp(r.admitted, r.p.link.lastDeliver) && r.admitted == r.out + r.p.queue)
  }

  lemma PushKeeps(d: Direction, a: Run, s: Step, b: Run)
    requires RunInv(d, a) && s.Push? && Moves(d, a, s, b)
    ensures RunInv(d, b)
  {
    FifoOrReorder(d, a.p.link, s.now, |s.b|, s.r);
    var v := Admit(d, a.p.link, s.now, |s.b|, s.r).1;
    if v.Deliver? {
      var x := Pkt(v.at, a.p.num + 1, s.b);
      assert b.p.queue[|a.p.queue|..] == [x];
      QueueGrows(a, x);
      Shift(a.out, a.p.queue, [x]);
      if !d.reorder { TimesUpAppend(a.admitted, a.p.link.lastDeliver, x); }
    } else {
      assert b.p.queue[|a.p.queue|..] == [];
      assert b.admitted == a.admitted;
    }
  }

  lemma QueueGrows(a: Run, x: Pkt)
    requires multiset(a.admitted) == multiset(a.out) + multiset(a.p.queue)
    requires (forall k :: k in a.p.queue ==> k in a.admitted) && (forall k :: k in a.out ==> k in a.admitted)
    ensures var ad, q := a.admitted + [x], a.p.queue + [x];
      && multiset(ad) == multiset(a.out) + multiset(q)
      && (forall k :: k in q ==> k in ad) && (forall k :: k in a.out ==> k in ad)
  {
  }

  lemma TimesUpAppend(ps: seq<Pkt>, last: Option<int>, x: Pkt)
    requires TimesUp(ps, last) && (last.Some? ==> last.value <= x.at)
    ensures TimesUp(ps + [x], Some(x.at))
  {
    if ps != [] {
      forall i | 0 <= i < |ps| ensures ps[i].at <= x.at { assert ps[i].at <= ps[|ps| - 1].at || i == |ps| - 1; }
    }
  }

  lemma FifoOrReorder(d: Direction, l: Link, now: int, size: nat, r: Draws)
    ensures !d.reorder ==> var (l', v) := Admit(d, l, now, size, r);
      && (v.Deliver? ==> l'.lastDeliver == Some(v.at) && (l.lastDeliver.Some? ==> l.lastDeliver.value <= v.at))
      && (!v.Deliver? ==> l'.lastDeliver == l.lastDeliver)
  {
    if !d.reorder { FifoDelivery(d, l, now, size, r); }
  }

  lemma MultisetDrop(q: seq<Pkt>, i: nat)
    requires i < |q|
    ensures multiset(q) == multiset(q[..i] + q[i + 1..]) + multiset{q[i]}
    ensures forall k :: k in q[..i] + q[i + 1..] ==> k in q
  {
    assert q == q[..i] + [q[i]] + q[i + 1..];
  }

  lemma NotBefore(d: Direction, a: Run, k: nat)
    requires RunInv(d, a) && !d.reorder && 0 < k < |a.p.queue|
    ensures !Less(a.p.queue[k], a.p.queue[0])
  {
    var n := |a.out|;
    assert a.admitted[n] == a.p.queue[0] && a.admitted[n + k] == a.p.queue[k];
    assert a.admitted[n].at <= a.admitted[n + k].at;
  }

  /** With reordering off the packet due first is the one that arrived first. */
  lemma FirstIsNext(d: Direction, a: Run, i: nat)
    requires RunInv(d, a) && !d.reorder && IsNext(a.p.queue, i)
    ensures i == 0
  {
    forall k | 0 < k < |a.p.queue| ensures !Less(a.p.queue[k], a.p.queue[0]) { NotBefore(d, a, k); }
  }

  lemma HeadLeaves(d: Direction, a: Run, s: Step, b: Run)
    requires RunInv(d, a) && !d.reorder && s.Forward? && Moves(d, a, s, b)
    ensures b.out + b.p.queue == a.out + a.p.queue
  {
    FirstIsNext(d, a, s.i);
    TakeHead(a.p.queue);
    Shift(a.out, [a.p.queue[0]], a.p.queue[1..]);
  }

  lemma TakeHead(q: seq<Pkt>)
    requires q != []
    ensures q[..0] + q[1..] == q[1..] && q == [q[0]] + q[1..]
  {
  }

  /** One packet goes from the queue to those forwarded. */
  lemma QueueShrinks(a: Run, i: nat)
    requires i < |a.p.queue| && multiset(a.admitted) == multiset(a.out) + multiset(a.p.queue)
    requires (forall k :: k in a.p.queue ==> k in a.admitted) && (forall k :: k in a.out ==> k in a.admitted)
    ensures var q, out := a.p.queue[..i] + a.p.queue[i + 1..], a.out + [a.p.queue[i]];
      && |q| == |a.p.queue| - 1 && multiset(a.admitted) == multiset(out) + multiset(q)
      && (forall k :: k in q ==> k in a.admitted) && (forall k :: k in out ==> k in a.admitted)
  {
    MultisetDrop(a.p.queue, i);
    assert a.p.queue[i] in a.p.queue;
  }

  lemma ForwardKeeps(d: Direction, a: Run, s: Step, b: Run)
    requires RunInv(d, a) && s.Forward? && Moves(d, a, s, b)
    ensures RunInv(d, b)
  {
    QueueShrinks(a, s.i);
    if !d.reorder { HeadLeaves(d, a, s, b); }
  }

  predicate IsRun(d: Direction, runs: seq<Run>, steps: seq<Step>) {
    && |runs| == |steps| + 1 && runs[0] == Run(NewPipe(), [], [])
    && forall i :: 0 <= i < |steps| ==> Moves(d, runs[i], steps[i], runs[i + 1])
  }

  lemma {:induction false} EveryRun(d: Direction, runs: seq<Run>, steps: seq<Step>, i: nat)
    requires IsRun(d, runs, steps) && i < |runs|
    ensures RunInv(d, runs[i])
  {
    if i > 0 {
      EveryRun(d, runs, steps, i - 1);
      assert Moves(d, runs[i - 1], steps[i - 1], runs[i]);
      if steps[i - 1].Push? {
        PushKeeps(d, runs[i - 1], steps[i - 1], runs[i]);
      } else {
        ForwardKeeps(d, runs[i - 1], steps[i - 1], runs[i]);
      }
    }
  }

  /** Every packet is accounted for, and with reordering off they leave in the order they arrived. */
  lemma NothingLostOrReordered(d: Direction, runs: seq<Run>, steps: seq<Step>, i: nat)
    requires IsRun(d, runs, steps) && i < |runs|
    ensures var r := runs[i]; r.p.arrived == r.p.forwarded + r.p.lost + r.p.overflowed + |r.p.queue|
    ensures multiset(runs[i].admitted) == multiset(runs[i].out) + multiset(runs[i].p.queue)
    ensures !d.reorder ==> |runs[i].out| <= |runs[i].admitted| && runs[i].out == runs[i].admitted[..|runs[i].out|] && InTurn(runs[i].out, 1)
  {
    EveryRun(d, runs, steps, i);
  }

  // ---- Told by the steps ----

  /** The link's state after these steps; forwarding does not touch it. */
  function LinkAfter(d: Direction, steps: seq<Step>): Link {
    if steps == [] then NewLink()
    else
      var front, s := steps[..|steps| - 1], steps[|steps| - 1];
      if s.Push? then Admit(d, LinkAfter(d, front), s.now, |s.b|, s.r).0 else LinkAfter(d, front)
  }

  /** What the link says of the last of these steps, if it is a push. */
  function LastVerdict(d: Direction, steps: seq<Step>): Option<Verdict>
    requires steps != []
  {
    var s := steps[|steps| - 1];
    if s.Push? then Some(Admit(d, LinkAfter(d, steps[..|steps| - 1]), s.now, |s.b|, s.r).1) else None
  }

  /** The bytes pushed and not dropped, each with the time the link gave it, in order. */
  function Passed(d: Direction, steps: seq<Step>): seq<(seq<Byte>, int)> {
    if steps == [] then []
    else
      var v := LastVerdict(d, steps);
      Passed(d, steps[..|steps| - 1]) + if v.Some? && v.value.Deliver? then [(steps[|steps| - 1].b, v.value.at)] else []
  }

  /** How many pushes the link gave this verdict. */
  function Dropped(d: Direction, steps: seq<Step>, v: Verdict): nat {
    if steps == [] then 0 else Dropped(d, steps[..|steps| - 1], v) + if LastVerdict(d, steps) == Some(v) then 1 else 0
  }

  function Pushes(steps: seq<Step>): nat {
    if steps == [] then 0 else Pushes(steps[..|steps| - 1]) + if steps[|steps| - 1].Push? then 1 else 0
  }

  /** The packets carry these bytes, at these times. */
  predicate Carry(ps: seq<Pkt>, what: seq<(seq<Byte>, int)>) {
    |ps| == |what| && forall k :: 0 <= k < |ps| ==> ps[k].b == what[k].0 && ps[k].at == what[k].1
  }

  lemma MoveTold(d: Direction, a: Run, s: Step, b: Run, before: seq<Step>)
    requires Moves(d, a, s, b) && a.p.link == LinkAfter(d, before) && Carry(a.admitted, Passed(d, before))
    ensures b.p.link == LinkAfter(d, before + [s]) && Carry(b.admitted, Passed(d, before + [s]))
    ensures b.p.lost == a.p.lost + (if LastVerdict(d, before + [s]) == Some(DropLoss) then 1 else 0)
    ensures b.p.overflowed == a.p.overflowed + (if LastVerdict(d, before + [s]) == Some(DropQueue) then 1 else 0)
    ensures b.p.arrived == a.p.arrived + (if s.Push? then 1 else 0) && b.p.forwarded == a.p.forwarded + if s.Forward? then 1 else 0
  {
    assert (before + [s])[..|before|] == before;
    if s.Push? {
      var v := Admit(d, a.p.link, s.now, |s.b|, s.r).1;
      if v.Deliver? {
        assert b.p.queue[|a.p.queue|..] == [Pkt(v.at, a.p.num + 1, s.b)];
      } else {
        assert b.p.queue[|a.p.queue|..] == [];
      }
    }
  }

  /**
   In every run the packets admitted are, in order, exactly the bytes of the pushes
   the link did not drop, each at the time the link gave it; and every push and every
   drop is counted once.
   */
  lemma {:induction false} AdmittedIsWhatWasPushed(d: Direction, runs: seq<Run>, steps: seq<Step>, n: nat)
    requires IsRun(d, runs, steps) && n < |runs|
    ensures var done := steps[..n];
      && runs[n].p.link == LinkAfter(d, done) && Carry(runs[n].admitted, Passed(d, done))
      && runs[n].p.lost == Dropped(d, done, DropLoss) && runs[n].p.overflowed == Dropped(d, done, DropQueue)
      && runs[n].p.arrived == Pushes(done) && runs[n].p.forwarded == n - Pushes(done)
  {
    if n > 0 {
      AdmittedIsWhatWasPushed(d, runs, steps, n - 1);
      assert Moves(d, runs[n - 1], steps[n - 1], runs[n]);
      MoveTold(d, runs[n - 1], steps[n - 1], runs[n], steps[..n - 1]);
      assert steps[..n] == steps[..n - 1] + [steps[n - 1]];
      assert steps[..n][..n - 1] == steps[..n - 1];
    }
  }

  /** With reordering off the bytes forwarded are, in order, the first of the bytes pushed and not dropped. */
  lemma ForwardedIsWhatWasPushed(d: Direction, runs: seq<Run>, steps: seq<Step>, n: nat)
    requires IsRun(d, runs, steps) && n < |runs| && !d.reorder
    ensures |runs[n].out| <= |Passed(d, steps[..n])|
    ensures forall k :: 0 <= k < |runs[n].out| ==> runs[n].out[k].b == Passed(d, steps[..n])[k].0
  {
    AdmittedIsWhatWasPushed(d, runs, steps, n);
    NothingLostOrReordered(d, runs, steps, n);
  }

  /** Queued packets have numbers of their own. */
  predicate OwnNumbers(queue: seq<Pkt>) { forall i, j :: 0 <= i < j < |queue| ==> queue[i].num != queue[j].num }

  /** A nonempty queue whose packets have their own numbers has a head. */
  lemma {:induction false} HeadOf(queue: seq<Pkt>) returns (i: nat)
    requires queue != [] && OwnNumbers(queue)
    ensures IsNext(queue, i)
  {
    var front, k := queue[..|queue| - 1], |queue| - 1;
    i := k;
    if front != [] {
      var h := HeadOf(front);
      if Less(queue[h], queue[k]) { i := h; }
      forall j | 0 <= j < |queue| && j != i ensures Less(queue[i], queue[j]) {
        if j < k && j != h { assert Less(front[h], front[j]); }
      }
    }
  }

  /** Every admitted packet, out or queued, has its own number. */
  lemma QueueHasOwnNumbers(d: Direction, r: Run)
    requires RunInv(d, r)
    ensures OwnNumbers(r.p.queue)
  {
    var q := r.p.queue;
    forall i, j | 0 <= i < j < |q| ensures q[i].num != q[j].num {
      assert q[i] in r.admitted && q[j] in r.admitted;
      var a :| 0 <= a < |r.admitted| && r.admitted[a] == q[i];
      var b :| 0 <= b < |r.admitted| && r.admitted[b] == q[j];
      TwiceCounts(q, i, j);
      OnceInTurn(r.admitted, 1, a);
      assert multiset(r.admitted)[q[i]] == multiset(r.out)[q[i]] + multiset(q)[q[i]];
    }
  }

  lemma TwiceCounts(q: seq<Pkt>, i: nat, j: nat)
    requires i < j < |q|
    ensures q[i] == q[j] ==> multiset(q)[q[i]] >= 2
  {
    assert q == q[..j] + [q[j]] + q[j + 1..];
    assert q[i] in q[..j];
  }

  lemma {:induction false} OnceInTurn(ps: seq<Pkt>, first: nat, a: nat)
    requires InTurn(ps, first) && a < |ps|
    ensures multiset(ps)[ps[a]] == 1
    decreases |ps|
  {
    var k := |ps| - 1;
    assert ps == ps[..k] + [ps[k]];
    if a < k {
      OnceInTurn(ps[..k], first, a);
    } else {
      assert ps[k] !in ps[..k];
    }
  }

  /**
   The run loop is never stuck. While packets are queued exactly one is the head,
   it leaves exactly if its own time has come, and that is so exactly if any
   packet's time has come.
   */
  lemma SomethingLeaves(d: Direction, runs: seq<Run>, steps: seq<Step>, n: nat, now: int) returns (i: nat)
    requires IsRun(d, runs, steps) && n < |runs| && runs[n].p.queue != []
    ensures i < |runs[n].p.queue| && forall j :: IsNext(runs[n].p.queue, j) <==> j == i
    ensures runs[n].p.queue[i].at <= now <==> exists b :: Moves(d, runs[n], Forward(now, i), b)
    ensures runs[n].p.queue[i].at <= now <==> exists k :: k in runs[n].p.queue && k.at <= now
  {
    EveryRun(d, runs, steps, n);
    QueueHasOwnNumbers(d, runs[n]);
    var a := runs[n];
    i := HeadOf(a.p.queue);
    var head := a.p.queue[i];
    assert head in a.p.queue;
    var b := Run(Forwarded(a.p, i), a.admitted, a.out + [head]);
    assert head.at <= now ==> Moves(d, a, Forward(now, i), b);
    forall k | k in a.p.queue ensures head.at <= k.at {
      var j :| 0 <= j < |a.p.queue| && a.p.queue[j] == k;
      assert j == i || Less(head, a.p.queue[j]);
    }
    forall j | 0 <= j < |a.p.queue| && j != i ensures !IsNext(a.p.queue, j) { assert Less(head, a.p.queue[j]); }
  }

  class ProxyPipe {
    const d: Direction
    const link: ImpairedLink
    var queue: seq<Pkt>
    var num: nat
    var arrived: nat
    var forwarded: nat
    var lost: nat
    var overflowed: nat

    ghost predicate Valid()
      reads this, link
    {
      && link.d == d
      && OwnNumbers(queue)
      && (forall i :: 0 <= i < |queue| ==> queue[i].num <= num)
    }

    ghost function State(): Pipe
      reads this, link
    {
      Pipe(link.State(), queue, num, arrived, forwarded, lost, overflowed)
    }

    constructor (d: Direction)
      ensures this.d == d && Valid() && fresh(link) && State() == NewPipe()
    {
      this.d := d;
      var l := new ImpairedLink(d);
      link := l;
      queue, num, arrived, forwarded, lost, overflowed := [], 0, 0, 0, 0, 0;
    }

    method Push(now: int, b: seq<Byte>, r: Draws)
      requires Valid()
      modifies this, link
      ensures Valid() && State() == Pushed(d, old(State()), now, b, r)
    {
      arrived := arrived + 1;
      var v := link.AdmitPacket(now, |b|, r);
      match v
      case DropLoss => lost := lost + 1;
      case DropQueue => overflowed := overflowed + 1;
      case Deliver(at) =>
        num := num + 1;
        queue := queue + [Pkt(at, num, b)];
    }

    /** One turn of the run loop: the head of the heap leaves if it is due. */
    method RunOnce(now: int) returns (sent: Option<Pkt>)
      requires Valid()
      modifies this
      ensures Valid()
      ensures sent.None? ==> State() == old(State()) && forall k :: k in queue ==> k.at > now
      ensures sent.Some? ==> exists i: nat :: && IsNext(old(queue), i) && sent.value == old(queue)[i] && sent.value.at <= now
                                              && State() == Forwarded(old(State()), i)
    {
      if queue == [] { return None; }
      var i := 0;
      for j := 1 to |queue|
        invariant 0 <= i < j
        invariant forall k :: 0 <= k < j && k != i ==> Less(queue[i], queue[k])
      {
        if Less(queue[j], queue[i]) { i := j; }
      }
      if queue[i].at > now { return None; }
      sent := Some(queue[i]);
      queue := queue[..i] + queue[i + 1..];
      forwarded := forwarded + 1;
      assert IsNext(old(queue), i);
    }
  }
}
