/** What the scheduler promises about requests, over single events and over whole runs. */
module SchedulerRuns {
  import opened Basics
  import opened Scheduler

  /** No Ready peer can serve the lowest New height. */
  ghost predicate Unserved(s: State) { exists h :: LowestNew(s, h) && forall p :: !Covers(s, p, h) }

  /**
   A request is for the lowest New height and goes to the best peer, and it is always accepted. There is none exactly
   when time is up, when nothing is New, or when every Ready peer that reaches the lowest New height starts above it.
   */
  lemma ScheduleOutcome(c: Config, s: State, time: int, clock: int)
    requires Inv(c, s)
    ensures var (s', out) := HandleTrySchedule(c, s, time, clock);
            && (out == Finished <==> clock - s.lastAdvance > c.syncTimeout)
            && (out == NoOp <==> clock - s.lastAdvance <= c.syncTimeout && forall h :: !IsNew(s, h))
            && (out == SchedulerFail <==> clock - s.lastAdvance <= c.syncTimeout && Unserved(s))
            && (out.Finished? || out.NoOp? || out.SchedulerFail? || out.BlockRequest?)
            && (out.BlockRequest? ==> LowestNew(s, out.h) && Best(s, out.h, out.p) && s.height <= out.h)
            && (out.BlockRequest? ==> Some(s') == MarkPending(s, out.p, out.h, time))
  {
    hide MapsInv, IsMax, MaxReady, Load;
  }

  lemma {:induction false} RemovedAll(s: State, ps: seq<PeerID>)
    ensures var s' := RemovePeers(s, ps);
            && s'.peers.Keys == s.peers.Keys
            && forall p | p in s.peers :: s'.peers[p] == if p in ps then s.peers[p].(state := Removed) else s.peers[p]
    decreases |ps|
  {
    if ps != [] {
      var front, last := ps[..|ps| - 1], ps[|ps| - 1];
      RemovedAll(s, front);
      assert ps == front + [last];
    }
  }

  /** Pruning removes exactly the slow peers, in the order of their identifiers, and does nothing if there are none. */
  lemma PruneOutcome(c: Config, s: State, time: int, clock: int)
    ensures var (s1, (s', out)) := (DropLate(c, s, clock), HandleTryPrunePeer(c, s, time, clock));
            var slow := SlowPeers(c, s1, time);
            && (out == NoOp <==> slow == {}) && (out == NoOp ==> s' == s1)
            && s'.peers.Keys == s1.peers.Keys
            && (forall p | p in s1.peers :: s'.peers[p] == if p in slow then s1.peers[p].(state := Removed) else s1.peers[p])
            && (out != NoOp ==> if AllBlocksProcessed(s') then out == Finished else out.PeersPruned? && Lists(out.peers, slow))
  {
    hide DropLate, RemovePeers, AllBlocksProcessed, SlowPeers, Lists;
    var s1 := DropLate(c, s, clock);
    var l := Prunable(c, s1, time);
    RemovedAll(s1, l);
    EmptyLists(l, SlowPeers(c, s1, time));
    assert forall p :: p in l <==> p in SlowPeers(c, s1, time) by { Listed(l, SlowPeers(c, s1, time)); }
  }

  lemma Listed(l: seq<PeerID>, ps: set<PeerID>)
    requires Lists(l, ps)
    ensures forall p :: p in l <==> p in ps
  {}

  /** Some Ready peer reaches every height a request could be for; a request fails only on the bases. */
  lemma FailureIsAboutBases(c: Config, s: State, h: nat)
    requires Inv(c, s) && LowestNew(s, h) && forall p :: !Covers(s, p, h)
    ensures exists p :: IsReady(s.peers, p) && h <= s.peers[p].height && h < s.peers[p].base
  {
    var m := MaxReady(s.peers);
    assert 1 <= s.height <= h <= m;
    var p :| IsReady(s.peers, p) && s.peers[p].height == m;
    assert !Covers(s, p, h);
  }

  /** Such a failure can happen: one peer that keeps only blocks above the starting height. */
  lemma RequestCanFail(c: Config)
    requires c == Config(10, 100, 100, 0)
    ensures var s := SetPeerRange(c, NewScheduler(1, 0), 7, 5, 9).0;
            Inv(c, s) && HandleTrySchedule(c, s, 1, 1).1 == SchedulerFail
  {
    hide Inv, SetPeerRange, HandleTrySchedule;
    var s := SetPeerRange(c, NewScheduler(1, 0), 7, 5, 9).0;
    NewSchedulerInv(c, 1, 0);
    SetPeerRangeInv(c, NewScheduler(1, 0), 7, 5, 9);
    OnePeer(c, NewScheduler(1, 0));
    BaseTooHigh(s);
    ScheduleOutcome(c, s, 1, 1);
  }

  lemma BaseTooHigh(s: State)
    requires s.peers == map[7 := Peer(Ready, 5, 9, 0, 0)] && forall h :: IsNew(s, h) <==> 1 <= h <= 9
    ensures Unserved(s)
  {
    assert LowestNew(s, 1);
  }

  lemma OnePeer(c: Config, s0: State)
    requires c.targetPending == 10 && s0 == NewScheduler(1, 0)
    ensures var s := SetPeerRange(c, s0, 7, 5, 9).0;
            && s.peers == map[7 := Peer(Ready, 5, 9, 0, 0)] && s.lastAdvance == 0
            && forall h :: IsNew(s, h) <==> 1 <= h <= 9
  {
    hide MaxReady, Window, Filled;
    var ps := map[7 := Peer(Ready, 5, 9, 0, 0)];
    var s1 := s0.(peers := ps);
    assert EnsurePeer(s0, 7).peers == map[7 := NEW_PEER];
    assert map[7 := NEW_PEER][7 := Peer(Ready, 5, 9, 0, 0)] == ps;
    assert MaxReady(ps) == 9 by { assert IsReady(ps, 7); }
    assert FillSize(c, s1) == 9;
    assert SetPeerRange(c, s0, 7, 5, 9).0 == s1.(blockStates := Filled(map[], Window(1, 9)));
    assert forall h :: h in Filled(map[], Window(1, 9)) <==> 1 <= h <= 9 by { FilledSpan(map[], 1, 0, 9); }
    FilledNew(Window(1, 9));
  }

  lemma FilledNew(hs: set<nat>)
    ensures forall h | h in Filled(map[], hs) :: Filled(map[], hs)[h] == BlockState.New
  {}

  /** A block is accepted exactly from the Ready peer it was last asked from, later than it was asked for. */
  lemma AcceptedAnswersRequest(c: Config, s: State, p: PeerID, block: Block, size: nat, time: int)
    requires Inv(c, s)
    ensures var (s', out) := HandleBlockResponse(s, p, block, size, time);
            var h := block.height;
            && (out == BlockReceived(p, block) <==>
                  && IsReady(s.peers, p) && h in s.pendingBlocks && s.pendingBlocks[h] == p
                  && h in s.pendingTime && s.pendingTime[h] < time)
            && (out.BlockReceived? ==> h !in s'.pendingBlocks && h in s'.receivedBlocks && s'.receivedBlocks[h] == p)
            && (out.NoOp? <==> !IsReady(s.peers, p))
            && (out.NoOp? || out == PeerError(p) || out == BlockReceived(p, block))
  {}

  // ---------------------------------------------------------------- runs

  ghost predicate Step(c: Config, s: State, ev: Event, s': State) { s' == Handle(c, s, ev).0 }

  /** A run from a new scheduler; the k-th event leads from the state before it to the one after it. */
  ghost predicate IsRun(c: Config, states: seq<State>, events: seq<Event>) {
    && |states| == |events| + 1
    && states[0].height >= 1 && states[0] == NewScheduler(states[0].height, states[0].lastAdvance)
    && forall k {:trigger events[k]} | 0 <= k < |events| :: Step(c, states[k], events[k], states[k + 1])
  }

  lemma RunStep(c: Config, states: seq<State>, events: seq<Event>, k: nat)
    requires IsRun(c, states, events) && k < |events|
    ensures |states| == |events| + 1 && states[k + 1] == Handle(c, states[k], events[k]).0
  {}

  lemma {:induction false} RunInv(c: Config, states: seq<State>, events: seq<Event>, i: nat)
    requires IsRun(c, states, events) && i <= |events|
    ensures |states| == |events| + 1 && Inv(c, states[i])
  {
    hide Inv, Handle, Step;
    if i == 0 {
      NewSchedulerInv(c, states[0].height, states[0].lastAdvance);
    } else {
      RunStep(c, states, events, i - 1);
      RunInv(c, states, events, i - 1);
      HandleInv(c, states[i - 1], events[i - 1]);
    }
  }

  /** h was asked from p: it is still with p, or done, or p is gone. */
  ghost predicate With(s: State, p: PeerID, h: nat) {
    || h < s.height
    || (h in s.pendingBlocks && s.pendingBlocks[h] == p)
    || (h in s.receivedBlocks && s.receivedBlocks[h] == p)
    || Gone(s, p)
  }

  ghost predicate Gone(s: State, p: PeerID) { p in s.peers && s.peers[p].state == Removed }

  lemma RemovalKeepsWith(s: State, q: PeerID, p: PeerID, h: nat)
    requires With(s, p, h)
    ensures With(RemovePeer(s, q), p, h)
  {}

  lemma {:induction false} RemovalsKeepWith(s: State, qs: seq<PeerID>, p: PeerID, h: nat)
    requires With(s, p, h)
    ensures With(RemovePeers(s, qs), p, h)
    decreases |qs|
  {
    hide With, RemovePeer;
    if qs != [] {
      RemovalsKeepWith(s, qs[..|qs| - 1], p, h);
      RemovalKeepsWith(RemovePeers(s, qs[..|qs| - 1]), qs[|qs| - 1], p, h);
    }
  }

  lemma HandleKeepsWith(c: Config, s: State, ev: Event, p: PeerID, h: nat)
    requires Inv(c, s) && With(s, p, h)
    ensures With(Handle(c, s, ev).0, p, h)
  {
    hide WindowInv, MapsInv, RemovePeer, SetPeerRange, HandleBlockResponse, HandleTrySchedule, HandleTryPrunePeer, MarkProcessed,
      AllBlocksProcessed, With;
    match ev
    case StatusResponse(q, base, height) => RangeKeepsWith(c, s, q, base, height, p, h);
    case BlockResponse(q, block, size, time) => ResponseKeepsWith(s, q, block, size, time, p, h);
    case NoBlockResponse(q) => RemovalKeepsWith(s, q, p, h);
    case TrySchedule(time, clock) => ScheduleKeepsWith(c, s, time, clock, p, h);
    case AddNewPeer(q) => NewRangeKeepsWith(s, EnsurePeer(s, q), p, h);
    case RemovePeerEv(q) => RemovalKeepsWith(s, q, p, h);
    case TryPrunePeer(time, clock) => PruneKeepsWith(c, s, time, clock, p, h);
    case BlockProcessed(k, clock) => ProcessedKeepsWith(c, s, clock, p, h);
    case BlockProcessError(first, second) =>
      RemovalKeepsWith(s, first, p, h);
      RemovalKeepsWith(RemovePeer(s, first), second, p, h);
  }

  lemma RangeKeepsWith(c: Config, s: State, q: PeerID, base: nat, height: nat, p: PeerID, h: nat)
    requires With(s, p, h)
    ensures With(SetPeerRange(c, s, q, base, height).0, p, h)
  {
    hide RemovePeer, AddNewBlocks, With;
    var s1 := EnsurePeer(s, q);
    NewRangeKeepsWith(s, s1, p, h);
    RemovalKeepsWith(s1, q, p, h);
    if s1.peers[q].state != Removed {
      var s2 := s1.(peers := s1.peers[q := s1.peers[q].(base := base, height := height, state := Ready)]);
      NewRangeKeepsWith(s1, s2, p, h);
      AddKeepsWith(c, s2, p, h);
    }
  }

  lemma NewRangeKeepsWith(s: State, s': State, p: PeerID, h: nat)
    requires With(s, p, h) && s' == s.(peers := s'.peers) && (Gone(s, p) ==> Gone(s', p))
    ensures With(s', p, h)
  {}

  lemma AddKeepsWith(c: Config, s: State, p: PeerID, h: nat)
    requires With(s, p, h)
    ensures With(AddNewBlocks(c, s), p, h)
  {}

  lemma ResponseKeepsWith(s: State, q: PeerID, block: Block, size: nat, time: int, p: PeerID, h: nat)
    requires MapsInv(s) && With(s, p, h)
    ensures With(HandleBlockResponse(s, q, block, size, time).0, p, h)
  {}

  lemma ScheduleKeepsWith(c: Config, s: State, time: int, clock: int, p: PeerID, h: nat)
    requires Inv(c, s) && With(s, p, h)
    ensures With(HandleTrySchedule(c, s, time, clock).0, p, h)
  {}

  lemma PruneKeepsWith(c: Config, s: State, time: int, clock: int, p: PeerID, h: nat)
    requires With(s, p, h)
    ensures With(HandleTryPrunePeer(c, s, time, clock).0, p, h)
  {
    hide With, RemovePeer, RemovePeers, AllBlocksProcessed, Prunable;
    var s1 := s;
    if s.height in s.pendingTime && clock - s.pendingTime[s.height] > c.peerTimeout && s.height in s.pendingBlocks {
      RemovalKeepsWith(s, s.pendingBlocks[s.height], p, h);
      s1 := RemovePeer(s, s.pendingBlocks[s.height]);
    }
    RemovalsKeepWith(s1, Prunable(c, s1, time), p, h);
  }

  lemma ProcessedKeepsWith(c: Config, s: State, clock: int, p: PeerID, h: nat)
    requires With(s, p, h)
    ensures With(MarkProcessed(c, s, s.height, clock), p, h)
  {}

  lemma {:induction false} WithFrom(c: Config, states: seq<State>, events: seq<Event>, i: nat, j: nat, p: PeerID, h: nat)
    requires IsRun(c, states, events) && i <= j <= |events| && With(states[i], p, h)
    ensures With(states[j], p, h)
  {
    hide Inv, Handle, With, Step;
    if i < j {
      WithFrom(c, states, events, i, j - 1, p, h);
      RunStep(c, states, events, j - 1);
      RunInv(c, states, events, j - 1);
      HandleKeepsWith(c, states[j - 1], events[j - 1], p, h);
    }
  }

  ghost predicate Requests(c: Config, s: State, ev: Event, p: PeerID, h: nat) {
    Handle(c, s, ev).1 == BlockRequest(p, h)
  }

  lemma RequestFacts(c: Config, s: State, ev: Event, p: PeerID, h: nat)
    requires Inv(c, s) && Requests(c, s, ev, p, h)
    ensures IsReady(s.peers, p) && s.height <= h && IsNew(s, h) && h !in s.pendingBlocks && h !in s.receivedBlocks
    ensures With(Handle(c, s, ev).0, p, h)
  {
    hide WindowInv, RemovePeer, RemovePeers, AddNewBlocks, MarkProcessed, AllBlocksProcessed, HandleTrySchedule, SetPeerRange,
      MarkReceived;
    if ev.TrySchedule? { ScheduleOutcome(c, s, ev.time, ev.clock); }
  }

  /**
   At most one request per height is open: in every run a height is asked for again only after the peer it was asked
   from before has been removed, and then from another peer.
   */
  lemma AskedAgainOnlyAfterRemoval(c: Config, states: seq<State>, events: seq<Event>, i: nat, j: nat,
                                   p: PeerID, q: PeerID, h: nat)
    requires IsRun(c, states, events) && i < j < |events|
    requires Requests(c, states[i], events[i], p, h) && Requests(c, states[j], events[j], q, h)
    ensures Gone(states[j], p) && q != p
  {
    hide Inv, Handle, Requests, Step;
    RunInv(c, states, events, i);
    RunInv(c, states, events, j);
    RunStep(c, states, events, i);
    RequestFacts(c, states[i], events[i], p, h);
    WithFrom(c, states, events, i + 1, j, p, h);
    RequestFacts(c, states[j], events[j], q, h);
  }
}
