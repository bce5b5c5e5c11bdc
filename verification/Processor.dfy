/** The fast-sync processor, and its lockstep with the scheduler. */
module Processor {
  import opened Basics
  import opened Scheduler

  datatype Item = Item(block: Block, peer: PeerID)

  /** A block that has been stored and applied, with the next block, whose commit confirmed it. */
  datatype Applied = Applied(block: Block, next: Block)

  datatype Proc = Proc(
    height: nat,                      // last applied block
    queue: map<nat, Item>,
    draining: bool,
    blocksSynced: nat,
    applied: seq<Applied>)

  /** Checks and effects outside the processor: commit verification and block execution. */
  datatype Context = Context(verify: (Block, nat) -> bool, applies: Block -> bool)

  datatype ProcEvent = SchedulerFinished | PeerFailed(p: PeerID) | Received(p: PeerID, block: Option<Block>) | ProcessBlock

  datatype ProcOutput =
    | Nothing
    | ProcFinished(blocksSynced: nat)
    | Processed(h: nat, p: PeerID)
    | VerificationFailure(h: nat, first: PeerID, second: PeerID)
    | ProcPanic

  function Purged(q: map<nat, Item>, p: PeerID): map<nat, Item> {
    map h | h in q && q[h].peer != p :: q[h]
  }

  function Enqueue(s: Proc, p: PeerID, b: Block): (Proc, ProcOutput) {
    if b.height <= s.height then (s, Nothing)
    else if b.height in s.queue then (s, ProcPanic)
    else (s.(queue := s.queue[b.height := Item(b, p)]), Nothing)
  }

  function Advance(x: Context, s: Proc): (Proc, ProcOutput) {
    if s.height + 1 !in s.queue || s.height + 2 !in s.queue then
      (s, if s.draining then ProcFinished(s.blocksSynced) else Nothing)
    else
      var first, second := s.queue[s.height + 1], s.queue[s.height + 2];
      if !x.verify(first.block, second.block.lastCommit) then
        var q := Purged(s.queue, first.peer);
        (s.(queue := if first.peer != second.peer then Purged(q, second.peer) else q),
         VerificationFailure(first.block.height, first.peer, second.peer))
      else if !x.applies(first.block) then (s, ProcPanic)
      else
        (s.(height := first.block.height, queue := s.queue - {first.block.height}, blocksSynced := s.blocksSynced + 1,
            applied := s.applied + [Applied(first.block, second.block)]),
         Processed(first.block.height, first.peer))
  }

  function HandleProc(x: Context, s: Proc, ev: ProcEvent): (Proc, ProcOutput) {
    match ev
    case SchedulerFinished =>
      if |s.queue| <= 1 then (s, ProcFinished(s.blocksSynced)) else (s.(draining := true), Nothing)
    case PeerFailed(p) => (s.(queue := Purged(s.queue, p)), Nothing)
    case Received(p, b) => if b.None? then (s, Nothing) else Enqueue(s, p, b.value)
    case ProcessBlock => Advance(x, s)
  }

  function NewProc(height: nat): Proc { Proc(height, map[], false, 0, []) }

  /** Block i has height start + 1 + i, and the block after it carried a commit that verifies for it. */
  ghost predicate Confirmed(x: Context, start: nat, a: Applied, i: nat) {
    && a.block.height == start + 1 + i && a.next.height == a.block.height + 1
    && x.verify(a.block, a.next.lastCommit)
  }

  /** Queued blocks are above the height and filed under their own; applied blocks are consecutive and confirmed. */
  ghost predicate ProcInv(x: Context, start: nat, s: Proc) {
    && (forall h | h in s.queue :: s.height < h && s.queue[h].block.height == h)
    && s.height == start + |s.applied| && s.blocksSynced == |s.applied|
    && (forall i | 0 <= i < |s.applied| :: Confirmed(x, start, s.applied[i], i))
  }

  lemma HandleProcInv(x: Context, start: nat, s: Proc, ev: ProcEvent)
    requires ProcInv(x, start, s)
    ensures var (s', out) := HandleProc(x, s, ev);
            && ProcInv(x, start, s') && s.applied <= s'.applied
            && s'.height == s.height + (if out.Processed? then 1 else 0)
            && (out.Processed? ==> out.h == s'.height)
  {}

  /** Only blocks of the peers ps left the queue. */
  ghost predicate Dropped(q: map<nat, Item>, q': map<nat, Item>, ps: set<PeerID>) {
    && (forall h :: h in q' <==> h in q && q[h].peer !in ps)
    && (forall h | h in q' :: q'[h] == q[h])
  }

  /** A block is queued exactly if it is above the height and nothing is queued for its height, which would be a panic. */
  lemma ReceiveEffect(x: Context, s: Proc, p: PeerID, b: Block)
    ensures var (s', out) := HandleProc(x, s, ProcEvent.Received(p, Some(b)));
            && s' == s.(queue := s'.queue)
            && (out == ProcPanic <==> b.height > s.height && b.height in s.queue) && (out == ProcPanic || out == Nothing)
            && (forall h :: h in s'.queue <==> h in s.queue || (h == b.height && h > s.height))
            && (forall h | h in s'.queue :: s'.queue[h] == if h in s.queue then s.queue[h] else Item(b, p))
  {}

  /** The next block is applied exactly if it and its successor are queued, it verifies and it applies. */
  lemma AdvanceEffect(x: Context, start: nat, s: Proc)
    requires ProcInv(x, start, s)
    ensures var (s', out) := HandleProc(x, s, ProcessBlock);
            var k := s.height + 1;
            && s'.draining == s.draining
            && if k !in s.queue || k + 1 !in s.queue
               then s' == s && out == if s.draining then ProcFinished(|s.applied|) else Nothing
               else
                 var (first, second) := (s.queue[k], s.queue[k + 1]);
                 if !x.verify(first.block, second.block.lastCommit)
                 then && out == VerificationFailure(k, first.peer, second.peer) && s' == s.(queue := s'.queue)
                      && Dropped(s.queue, s'.queue, {first.peer, second.peer})
                 else if !x.applies(first.block) then s' == s && out == ProcPanic
                 else && out == Processed(k, first.peer) && s'.height == k
                      && s'.applied == s.applied + [Applied(first.block, second.block)]
                      && (forall h :: h in s'.queue <==> h in s.queue && h != k)
                      && (forall h | h in s'.queue :: s'.queue[h] == s.queue[h])
  {
    if s.height + 1 in s.queue { assert s.queue[s.height + 1].block.height == s.height + 1; }
  }

  /** A failed peer's blocks go; when the scheduler is done, blocks that can still be applied are waited for. */
  lemma EndEffects(x: Context, s: Proc, p: PeerID)
    ensures var (s', out) := HandleProc(x, s, PeerFailed(p));
            out == Nothing && s' == s.(queue := s'.queue) && Dropped(s.queue, s'.queue, {p})
    ensures var (s', out) := HandleProc(x, s, SchedulerFinished);
            if |s.queue| <= 1 then s' == s && out == ProcFinished(s.blocksSynced)
            else s' == s.(draining := true) && out == Nothing
    ensures HandleProc(x, s, ProcEvent.Received(p, None)) == (s, Nothing)
  {}

  class Pc {
    const x: Context
    var s: Proc

    constructor (x: Context, height: nat)
      ensures this.x == x && s == NewProc(height)
    {
      this.x := x;
      s := NewProc(height);
    }

    method PurgePeer(p: PeerID)
      modifies this
      ensures s == old(s).(queue := Purged(old(s).queue, p))
    {
      ghost var s0 := s;
      var todo := s.queue.Keys;
      while todo != {}
        invariant todo <= s0.queue.Keys
        invariant s == s0.(queue := s.queue)
        invariant s.queue == map h | h in s0.queue && (s0.queue[h].peer != p || h in todo) :: s0.queue[h]
        decreases |todo|
      {
        var h :| h in todo;
        todo := todo - {h};
        if s.queue[h].peer == p { s := s.(queue := s.queue - {h}); }
      }
    }

    method ProcessNext() returns (out: ProcOutput)
      requires forall h | h in s.queue :: s.queue[h].block.height == h
      modifies this
      ensures (s, out) == Advance(x, old(s))
    {
      if s.height + 1 !in s.queue || s.height + 2 !in s.queue {
        return if s.draining then ProcFinished(s.blocksSynced) else Nothing;
      }
      var first, second := s.queue[s.height + 1], s.queue[s.height + 2];
      if !x.verify(first.block, second.block.lastCommit) {
        PurgePeer(first.peer);
        if first.peer != second.peer { PurgePeer(second.peer); }
        return VerificationFailure(first.block.height, first.peer, second.peer);
      }
      if !x.applies(first.block) { return ProcPanic; }
      s := s.(applied := s.applied + [Applied(first.block, second.block)], height := first.block.height);
      s := s.(queue := s.queue - {first.block.height});
      s := s.(blocksSynced := s.blocksSynced + 1);
      return Processed(first.block.height, first.peer);
    }

    method Handle(ev: ProcEvent) returns (out: ProcOutput)
      requires forall h | h in s.queue :: s.queue[h].block.height == h
      modifies this
      ensures (s, out) == HandleProc(x, old(s), ev)
    {
      match ev {
        case SchedulerFinished =>
          if |s.queue| <= 1 { return ProcFinished(s.blocksSynced); }
          s := s.(draining := true);
          return Nothing;
        case PeerFailed(p) =>
          PurgePeer(p);
          return Nothing;
        case Received(p, b) =>
          if b.None? { return Nothing; }
          if b.value.height > s.height {
            if b.value.height in s.queue { return ProcPanic; }
            s := s.(queue := s.queue[b.value.height := Item(b.value, p)]);
          }
          return Nothing;
        case ProcessBlock => out := ProcessNext();
      }
    }
  }
}

module FastSync {
  import opened Basics
  import opened Scheduler
  import opened Processor

  /** Both machines, and the processed events on their way from the processor to the scheduler. */
  datatype System = System(sc: Scheduler.State, pr: Proc, inflight: seq<nat>)

  /** Any event at the scheduler but a processed block, any event at the processor, or the oldest processed event arriving. */
  datatype Action = AtScheduler(ev: Event) | AtProcessor(pev: ProcEvent) | Deliver(clock: int)

  ghost predicate Allowed(y: System, a: Action) {
    match a
    case AtScheduler(ev) => !ev.BlockProcessed?
    case AtProcessor(_) => true
    case Deliver(_) => |y.inflight| > 0
  }

  ghost function SchedulerEvent(y: System, a: Action): Event
    requires Allowed(y, a) && !a.AtProcessor?
  {
    if a.Deliver? then BlockProcessed(y.inflight[0], a.clock) else a.ev
  }

  ghost function Next(c: Config, x: Context, y: System, a: Action): System
    requires Allowed(y, a)
  {
    match a
    case AtScheduler(ev) => y.(sc := Handle(c, y.sc, ev).0)
    case Deliver(clock) =>
      y.(sc := Handle(c, y.sc, SchedulerEvent(y, a)).0, inflight := y.inflight[1..])
    case AtProcessor(ev) =>
      var (pr, out) := HandleProc(x, y.pr, ev);
      y.(pr := pr, inflight := if out.Processed? then y.inflight + [out.h] else y.inflight)
  }

  ghost predicate Aligned(y: System) {
    && (forall i | 0 <= i < |y.inflight| :: y.inflight[i] == y.sc.height + i)
    && y.sc.height + |y.inflight| == y.pr.height + 1
  }

  ghost predicate SystemInv(c: Config, x: Context, start: nat, y: System) {
    Inv(c, y.sc) && ProcInv(x, start, y.pr) && Aligned(y)
  }

  lemma NextInv(c: Config, x: Context, start: nat, y: System, a: Action)
    requires SystemInv(c, x, start, y) && Allowed(y, a)
    ensures SystemInv(c, x, start, Next(c, x, y, a))
    ensures !a.AtProcessor? ==> Handle(c, y.sc, SchedulerEvent(y, a)).1 != Panic
  {
    hide Inv, ProcInv, Handle, HandleProc;
    if a.AtProcessor? {
      HandleProcInv(x, start, y.pr, a.pev);
    } else {
      HandleInv(c, y.sc, SchedulerEvent(y, a));
    }
  }

  ghost predicate IsRun(c: Config, x: Context, start: nat, ys: seq<System>, acts: seq<Action>) {
    && |ys| == |acts| + 1 && ys[0] == System(NewScheduler(start + 1, ys[0].sc.lastAdvance), NewProc(start), [])
    && forall k {:trigger acts[k]} | 0 <= k < |acts| :: Allowed(ys[k], acts[k]) && ys[k + 1] == Next(c, x, ys[k], acts[k])
  }

  lemma {:induction false} RunInv(c: Config, x: Context, start: nat, ys: seq<System>, acts: seq<Action>, i: nat)
    requires IsRun(c, x, start, ys, acts) && i <= |acts|
    ensures SystemInv(c, x, start, ys[i])
  {
    hide SystemInv, Next, Allowed;
    if i == 0 {
      StartInv(c, x, start, ys[0].sc.lastAdvance);
    } else {
      RunInv(c, x, start, ys, acts, i - 1);
      assert Allowed(ys[i - 1], acts[i - 1]) && ys[i] == Next(c, x, ys[i - 1], acts[i - 1]);
      NextInv(c, x, start, ys[i - 1], acts[i - 1]);
    }
  }

  lemma StartInv(c: Config, x: Context, start: nat, time: int)
    ensures SystemInv(c, x, start, System(NewScheduler(start + 1, time), NewProc(start), []))
  {}

  /**
   With processed events delivered in order and both machines starting at the same height: the scheduler's height plus
   the events in flight is always the processor's height plus one, so the scheduler never sees an unexpected height.
   */
  lemma Lockstep(c: Config, x: Context, start: nat, ys: seq<System>, acts: seq<Action>, i: nat)
    requires IsRun(c, x, start, ys, acts) && i < |acts|
    ensures ys[i].sc.height + |ys[i].inflight| == ys[i].pr.height + 1
    ensures Allowed(ys[i], acts[i])
    ensures !acts[i].AtProcessor? ==> Handle(c, ys[i].sc, SchedulerEvent(ys[i], acts[i])).1 != Panic
  {
    RunInv(c, x, start, ys, acts, i);
    hide Next, Handle, Inv, ProcInv;
    assert Allowed(ys[i], acts[i]);
    NextInv(c, x, start, ys[i], acts[i]);
  }

  /** The processor applies consecutive heights, each confirmed by the commit in the block after it, and never takes one back. */
  lemma AppliesInOrder(c: Config, x: Context, start: nat, ys: seq<System>, acts: seq<Action>, i: nat, k: nat)
    requires IsRun(c, x, start, ys, acts) && i <= |acts| && k < |ys[i].pr.applied|
    ensures Confirmed(x, start, ys[i].pr.applied[k], k)
    ensures ys[i].pr.height == start + |ys[i].pr.applied|
    ensures i < |acts| ==> ys[i].pr.applied <= ys[i + 1].pr.applied
  {
    RunInv(c, x, start, ys, acts, i);
    if i < |acts| && acts[i].AtProcessor? {
      assert ys[i + 1] == Next(c, x, ys[i], acts[i]);
      HandleProcInv(x, start, ys[i].pr, acts[i].pev);
    }
    hide Handle, Inv, HandleProc;
  }
}
