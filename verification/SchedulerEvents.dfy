/** What each event does to the scheduler, height by height and peer by peer. */
module SchedulerEvents {
  import opened Basics
  import opened Scheduler

  /** What the scheduler knows of a height: the four maps in one. */
  datatype Entry = Untracked | Free | Asked(p: PeerID, time: int) | Got(p: PeerID)

  ghost function At(s: State, h: nat): Entry {
    if h !in s.blockStates then Untracked
    else if s.blockStates[h] == BlockState.New then Free
    else if h in s.pendingBlocks && h in s.pendingTime then Asked(s.pendingBlocks[h], s.pendingTime[h])
    else if h in s.receivedBlocks then Got(s.receivedBlocks[h])
    else Untracked
  }

  predicate OwnedIn(e: Entry, ps: set<PeerID>) { (e.Asked? || e.Got?) && e.p in ps }

  /** Some Ready peer has the height. */
  ghost predicate Reached(ps: map<PeerID, Peer>, h: nat) { exists p :: IsReady(ps, p) && h <= ps[p].height }

  /** Nobody is ahead of the next height. */
  ghost predicate CaughtUp(s: State) { s.peers != map[] && !Reached(s.peers, s.height + 1) }

  /** Next height, start and clock are as before. */
  predicate SameClock(s: State, s': State) {
    s'.height == s.height && s'.initHeight == s.initHeight && s'.lastAdvance == s.lastAdvance
  }

  /** Entries as they were, and the rest of the window free to be asked for. */
  ghost predicate Refilled(c: Config, s: State, s': State, h: nat) {
    At(s', h) == if At(s, h) != Untracked then At(s, h)
                 else if s'.height <= h < s'.height + c.targetPending && Reached(s'.peers, h) then Free
                 else Untracked
  }

  /** Entries of the peers ps are free again, those nobody reaches are dropped, and the others are as they were. */
  ghost predicate Freed(s: State, s': State, ps: set<PeerID>, h: nat) {
    At(s', h) == if !Reached(s'.peers, h) then Untracked else if OwnedIn(At(s, h), ps) then Free else At(s, h)
  }

  /** The peers ps, as far as they are known, are marked as removed. */
  ghost predicate Marked(ps: map<PeerID, Peer>, ps': map<PeerID, Peer>, gone: set<PeerID>) {
    && ps'.Keys == ps.Keys
    && forall p | p in ps :: ps'[p] == if p in gone then ps[p].(state := Removed) else ps[p]
  }

  // ---------------------------------------------------------------- the maps as entries

  lemma ReachedIsMax(ps: map<PeerID, Peer>, h: nat)
    requires h >= 1
    ensures Reached(ps, h) <==> h <= MaxReady(ps)
  {
    hide MaxReady;
    assert IsMax(ps, MaxReady(ps));
  }

  lemma CaughtUpIsDone(s: State)
    requires s.height >= 1
    ensures AllBlocksProcessed(s) <==> CaughtUp(s)
  {
    hide MaxReady, Reached;
    ReachedIsMax(s.peers, s.height + 1);
  }

  lemma Tracked(s: State, h: nat)
    requires MapsInv(s)
    ensures At(s, h) != Untracked <==> h in s.blockStates
    ensures At(s, h).Free? <==> IsNew(s, h)
    ensures h in s.pendingBlocks <==> At(s, h).Asked?
    ensures At(s, h).Asked? <==> h in s.blockStates && s.blockStates[h] == Pending
    ensures h in s.pendingBlocks ==> h in s.pendingTime && At(s, h) == Asked(s.pendingBlocks[h], s.pendingTime[h])
    ensures h in s.receivedBlocks <==> At(s, h).Got?
    ensures h in s.receivedBlocks ==> At(s, h) == Got(s.receivedBlocks[h])
  {}

  /** Exactly the heights of the window that some Ready peer has are tracked. */
  lemma TrackedExactly(c: Config, s: State, h: nat)
    requires Inv(c, s)
    ensures At(s, h) != Untracked <==> s.height <= h < s.height + c.targetPending && Reached(s.peers, h)
  {
    hide WindowInv, MapsInv, Full, MaxReady, Reached, At;
    assert s.height >= 1 by { WindowStart(c, s); }
    Tracked(s, h);
    WindowExact(c, s);
    if s.height <= h { ReachedIsMax(s.peers, h); }
  }

  lemma WindowStart(c: Config, s: State)
    requires WindowInv(c, s)
    ensures s.height >= 1
  {}

  lemma InvParts(c: Config, s: State)
    requires Inv(c, s)
    ensures WindowInv(c, s) && MapsInv(s) && Full(c, s)
  {}

  lemma FillEffect(c: Config, s: State, h: nat)
    requires WindowInv(c, s) && MapsInv(s)
    ensures Refilled(c, s, AddNewBlocks(c, s), h)
    ensures AddNewBlocks(c, s).peers == s.peers && SameClock(s, AddNewBlocks(c, s))
  {
    hide Inv, WindowInv, MapsInv, Reached, AddNewBlocks;
    var s' := AddNewBlocks(c, s);
    AddNewBlocksInv(c, s);
    FillStates(c, s, h);
    TrackedExactly(c, s', h);
    Tracked(s, h);
    assert MapsInv(s') by { InvParts(c, s'); }
    Tracked(s', h);
  }

  lemma FillStates(c: Config, s: State, h: nat)
    ensures var s' := AddNewBlocks(c, s);
            && s' == s.(blockStates := s'.blockStates)
            && (h in s.blockStates ==> h in s'.blockStates && s'.blockStates[h] == s.blockStates[h])
            && (h in s'.blockStates && h !in s.blockStates ==> s'.blockStates[h] == BlockState.New)
  {
    hide FillSize, Window;
  }

  lemma RemovalEffect(c: Config, s: State, p: PeerID, h: nat)
    requires Inv(c, s)
    ensures var s' := RemovePeer(s, p); SameClock(s, s') && Marked(s.peers, s'.peers, {p}) && Freed(s, s', {p}, h)
  {
    hide Inv, RemovePeer, Marked, SameClock, Reached, At, OwnedIn, MapsInv, WindowInv, Full;
    var s' := RemovePeer(s, p);
    RemovePeerInv(c, s, p);
    TrackedExactly(c, s, h);
    TrackedExactly(c, s', h);
    RemovalMarks(s, p, h);
    assert MapsInv(s) && MapsInv(s') && s.height >= 1 by { InvParts(c, s); InvParts(c, s'); WindowStart(c, s); }
    Tracked(s', h);
    RemovalStates(s, p, h);
  }

  lemma RemovalMarks(s: State, p: PeerID, h: nat)
    ensures var s' := RemovePeer(s, p);
            SameClock(s, s') && Marked(s.peers, s'.peers, {p}) && (Reached(s'.peers, h) ==> Reached(s.peers, h))
  {
    hide MaxReady, Renewed, UpTo, OwnedBy;
    var ps := RemovePeer(s, p).peers;
    assert forall q | IsReady(ps, q) :: IsReady(s.peers, q) && s.peers[q].height == ps[q].height;
  }

  lemma RemovalStates(s: State, p: PeerID, h: nat)
    requires MapsInv(s)
    ensures h in RemovePeer(s, p).blockStates ==>
              At(RemovePeer(s, p), h) == if OwnedIn(At(s, h), {p}) then Free else At(s, h)
    ensures OwnedIn(At(s, h), {p}) ==> At(s, h) != Untracked
  {
    hide MaxReady;
    if !IsReady(s.peers, p) { NotOwner(s, p, h); }
  }

  lemma NotOwner(s: State, p: PeerID, h: nat)
    requires MapsInv(s) && !IsReady(s.peers, p)
    ensures !OwnedIn(At(s, h), {p})
  {}

  // ---------------------------------------------------------------- events

  /** A status: ignored from a removed peer; one that goes back or contradicts itself gets the peer removed. */
  lemma StatusEffect(c: Config, s: State, p: PeerID, base: nat, height: nat, h: nat)
    requires Inv(c, s)
    ensures var (s', out) := Handle(c, s, StatusResponse(p, base, height));
            var peer := if p in s.peers then s.peers[p] else NEW_PEER;
            && SameClock(s, s')
            && (out == NoOp <==> peer.state == Removed || (peer.height <= height && base <= height))
            && (out == NoOp || out == PeerError(p))
            && (peer.state == Removed ==> s' == s)
            && (peer.state != Removed && out == NoOp ==>
                  s'.peers == s.peers[p := peer.(state := Ready, base := base, height := height)] && Refilled(c, s, s', h))
            && (out != NoOp ==> s'.peers == s.peers[p := peer.(state := Removed)] && Freed(s, s', {p}, h))
  {
    hide Inv, AddNewBlocks, RemovePeer, Refilled, Freed;
    var s1 := EnsurePeer(s, p);
    if s1.peers[p].state != Removed {
      if height < s1.peers[p].height || base > height { BadStatus(c, s, p, h); } else { GoodStatus(c, s, p, base, height, h); }
    }
  }

  lemma BadStatus(c: Config, s: State, p: PeerID, h: nat)
    requires Inv(c, s)
    ensures var s1 := EnsurePeer(s, p);
            var s' := RemovePeer(s1, p);
            SameClock(s, s') && s'.peers == s.peers[p := s1.peers[p].(state := Removed)] && Freed(s, s', {p}, h)
  {
    hide Inv, RemovePeer, At, Reached;
    var s1 := EnsurePeer(s, p);
    EnsurePeerInv(c, s, p);
    SameEntries(s, s1, h);
    RemovalEffect(c, s1, p, h);
    assert RemovePeer(s1, p).peers == s1.peers[p := s1.peers[p].(state := Removed)];
  }

  lemma GoodStatus(c: Config, s: State, p: PeerID, base: nat, height: nat, h: nat)
    requires Inv(c, s) && EnsurePeer(s, p).peers[p].height <= height
    ensures var s1 := EnsurePeer(s, p);
            var s2 := s1.(peers := s1.peers[p := s1.peers[p].(base := base, height := height, state := Ready)]);
            var s' := AddNewBlocks(c, s2);
            SameClock(s, s') && s'.peers == s2.peers && Refilled(c, s, s', h)
  {
    hide Inv, WindowInv, MapsInv, AddNewBlocks, At, Reached;
    var s1 := EnsurePeer(s, p);
    var s2 := s1.(peers := s1.peers[p := s1.peers[p].(base := base, height := height, state := Ready)]);
    EnsurePeerInv(c, s, p);
    SameEntries(s, s2, h);
    assert PeersGrow(s1.peers, s2.peers);
    PeersInv(c, s1, s2);
    FillEffect(c, s2, h);
  }

  lemma SameEntries(s: State, s': State, h: nat)
    requires s' == s.(peers := s'.peers)
    ensures At(s', h) == At(s, h)
  {}

  /** A block: accepted exactly from the Ready peer it is asked from, later than it was asked for; else its sender goes. */
  lemma ResponseEffect(c: Config, s: State, p: PeerID, block: Block, size: nat, time: int, h: nat)
    requires Inv(c, s)
    ensures var (s', out) := Handle(c, s, BlockResponse(p, block, size, time));
            var asked := At(s, block.height);
            && SameClock(s, s') && (!IsReady(s.peers, p) ==> out == NoOp && s' == s)
            && (IsReady(s.peers, p) ==>
                  var peer := s.peers[p].(lastTouched := time);
                  if asked.Asked? && asked.p == p && asked.time < time
                  then && out == BlockReceived(p, block)
                       && s'.peers == s.peers[p := peer.(lastRate := size / (time - asked.time))]
                       && At(s', h) == if h == block.height then Got(p) else At(s, h)
                  else && out == PeerError(p)
                       && s'.peers == s.peers[p := peer.(state := Removed)]
                       && Freed(s, s', {p}, h))
  {
    hide Inv, RemovePeer, At, Freed, MarkReceived;
    if IsReady(s.peers, p) {
      var s1 := s.(peers := s.peers[p := s.peers[p].(lastTouched := time)]);
      SamePeer(s.peers, p, s1.peers[p]);
      PeersInv(c, s, s1);
      SameEntries(s, s1, h);
      SameEntries(s, s1, block.height);
      ReceiveEffect(c, s1, p, block.height, size, time, h);
      TouchedGoes(c, s, s1, p, h);
    }
  }

  lemma ReceiveEffect(c: Config, s: State, p: PeerID, k: nat, size: nat, time: int, h: nat)
    requires Inv(c, s) && p in s.peers
    ensures var r, e := MarkReceived(s, p, k, size, time), At(s, k);
            && (r.Some? <==> e.Asked? && e.p == p && e.time < time)
            && (r.Some? ==> && SameClock(s, r.value)
                            && r.value.peers == s.peers[p := s.peers[p].(lastRate := size / (time - e.time))]
                            && At(r.value, h) == if h == k then Got(p) else At(s, h))
  {
    hide WindowInv, MapsInv, Full;
    assert k in s.blockStates ==> s.height <= k by { if k in s.blockStates { InWindow(c, s, k); } }
    Tracked(s, k);
    Tracked(s, h);
  }

  lemma TouchedGoes(c: Config, s: State, s1: State, p: PeerID, h: nat)
    requires Inv(c, s1) && p in s.peers && p in s1.peers && s1 == s.(peers := s.peers[p := s1.peers[p]])
    ensures var s' := RemovePeer(s1, p);
            SameClock(s, s') && s'.peers == s.peers[p := s1.peers[p].(state := Removed)] && Freed(s, s', {p}, h)
  {
    hide Inv, RemovePeer, At, Reached;
    SameEntries(s, s1, h);
    RemovalEffect(c, s1, p, h);
    assert RemovePeer(s1, p).peers == s1.peers[p := s1.peers[p].(state := Removed)];
  }

  lemma InWindow(c: Config, s: State, h: nat)
    requires Inv(c, s) && h in s.blockStates
    ensures s.height <= h
  {}

  /** A request: the lowest free height is asked from a peer that has it, and nothing else changes. */
  lemma ScheduleEffect(c: Config, s: State, time: int, clock: int, h: nat)
    requires Inv(c, s)
    ensures var (s', out) := Handle(c, s, TrySchedule(time, clock));
            && SameClock(s, s') && s'.peers == s.peers && (!out.BlockRequest? ==> s' == s)
            && (out.BlockRequest? ==> At(s, out.h) == Free && Covers(s, out.p, out.h))
            && (out.BlockRequest? ==> At(s', h) == if h == out.h then Asked(out.p, time) else At(s, h))
  {
    hide WindowInv, Full, Load, Best, LowestNew;
  }

  /** A peer that has no block, or that left, is removed. */
  lemma LeaveEffect(c: Config, s: State, p: PeerID, h: nat)
    requires Inv(c, s)
    ensures var (s', out) := Handle(c, s, NoBlockResponse(p));
            && SameClock(s, s') && Marked(s.peers, s'.peers, {p}) && Freed(s, s', {p}, h)
            && out == if p in s.peers && s.peers[p].state != Removed then PeerError(p) else NoOp
    ensures var (s', out) := Handle(c, s, RemovePeerEv(p));
            && SameClock(s, s') && Marked(s.peers, s'.peers, {p}) && Freed(s, s', {p}, h)
            && out == if CaughtUp(s') then Finished else PeerError(p)
  {
    hide Inv, At, Reached, AllBlocksProcessed, CaughtUp;
    RemovalEffect(c, s, p, h);
    assert s.height >= 1 by { InvParts(c, s); }
    CaughtUpIsDone(RemovePeer(s, p));
  }

  /** A block that failed verification: both peers it may come from are removed. */
  lemma FailureEffect(c: Config, s: State, p: PeerID, q: PeerID, h: nat)
    requires Inv(c, s)
    ensures var (s', out) := Handle(c, s, BlockProcessError(p, q));
            && SameClock(s, s') && Marked(s.peers, s'.peers, {p, q}) && Freed(s, s', {p, q}, h)
            && out == if CaughtUp(s') then Finished else NoOp
  {
    hide Inv, RemovePeer, At, Reached, AllBlocksProcessed, CaughtUp;
    var s1 := RemovePeer(s, p);
    RemovePeerInv(c, s, p);
    RemovalEffect(c, s, p, h);
    RemovalEffect(c, s1, q, h);
    assert {p} + {q} == {p, q};
    FreedUnion(s, s1, RemovePeer(s1, q), {p}, {q}, h);
    if p == q { assert {p, q} == {p}; }
    assert s.height >= 1 by { InvParts(c, s); }
    CaughtUpIsDone(s1);
    CaughtUpIsDone(RemovePeer(s1, q));
  }

  /** A processed block: the window moves by one and is full again. */
  lemma ProcessedEffect(c: Config, s: State, clock: int, h: nat)
    requires Inv(c, s)
    ensures var (s', out) := Handle(c, s, BlockProcessed(s.height, clock));
            && s'.height == s.height + 1 && s'.initHeight == s.initHeight && s'.lastAdvance == clock && s'.peers == s.peers
            && (At(s', h) == if h <= s.height then Untracked else if At(s, h) != Untracked then At(s, h)
                             else if h <= s.height + c.targetPending && Reached(s.peers, h) then Free else Untracked)
            && out == if CaughtUp(s') then Finished else NoOp
  {
    hide Inv, WindowInv, MapsInv, AddNewBlocks, Reached, AllBlocksProcessed, CaughtUp;
    var s1 := Forget(s, s.height, clock);
    ForgetInv(c, s, clock);
    FillEffect(c, s1, h);
    TrackedExactly(c, s, h);
    assert At(s1, h) == if h == s.height then Untracked else At(s, h);
    CaughtUpIsDone(AddNewBlocks(c, s1));
  }

  /** Another processed height stops the program; a new peer is noted once. */
  lemma OtherEffects(c: Config, s: State, k: nat, clock: int, p: PeerID)
    ensures k != s.height ==> Handle(c, s, BlockProcessed(k, clock)) == (s, Panic)
    ensures var (s', out) := Handle(c, s, AddNewPeer(p));
            out == NoOp && s' == if p in s.peers then s else s.(peers := s.peers[p := NEW_PEER])
  {}

  lemma {:induction false} RemovalsEffect(c: Config, s: State, ps: seq<PeerID>, h: nat)
    requires Inv(c, s)
    ensures var s' := RemovePeers(s, ps);
            SameClock(s, s') && Marked(s.peers, s'.peers, Elements(ps)) && Freed(s, s', Elements(ps), h)
    decreases |ps|
  {
    hide Inv, RemovePeer, At, Reached, Freed, Marked;
    if ps == [] {
      NobodyGoes(c, s, h);
      assert Elements(ps) == {};
    } else {
      var front, last := ps[..|ps| - 1], ps[|ps| - 1];
      var s1 := RemovePeers(s, front);
      RemovalsEffect(c, s, front, h);
      RemovePeersInv(c, s, front);
      RemovalEffect(c, s1, last, h);
      FreedUnion(s, s1, RemovePeer(s1, last), Elements(front), {last}, h);
      assert ps == front + [last];
      assert Elements(ps) == Elements(front) + {last};
    }
  }

  ghost function Elements(ps: seq<PeerID>): set<PeerID> { set p | p in ps }

  lemma NobodyGoes(c: Config, s: State, h: nat)
    requires Inv(c, s)
    ensures Marked(s.peers, s.peers, {}) && Freed(s, s, {}, h)
  {
    hide Inv, Reached, At;
    TrackedExactly(c, s, h);
  }

  /** The peer that owes the next block for too long, if there is one. */
  ghost function LatePeers(c: Config, s: State, clock: int): set<PeerID> {
    var e := At(s, s.height);
    if e.Asked? && clock - e.time > c.peerTimeout then {e.p} else {}
  }

  /** Pruning: the late peer goes, and then the slow ones, with their entries. */
  lemma PruneEffect(c: Config, s: State, time: int, clock: int, h: nat)
    requires Inv(c, s)
    ensures var (s', out) := Handle(c, s, TryPrunePeer(time, clock));
            var late, s1 := LatePeers(c, s, clock), DropLate(c, s, clock);
            var slow := SlowPeers(c, s1, time);
            && SameClock(s, s') && Marked(s.peers, s1.peers, late)
            && Marked(s.peers, s'.peers, late + slow) && Freed(s, s', late + slow, h)
            && (slow == {} ==> out == NoOp)
            && (slow != {} ==> if CaughtUp(s') then out == Finished else out.PeersPruned? && Lists(out.peers, slow))
  {
    hide Inv, RemovePeer, RemovePeers, At, Reached, Freed, Marked, SlowPeers, Lists, AllBlocksProcessed, CaughtUp, LatePeers,
      DropLate;
    var late, s1 := LatePeers(c, s, clock), DropLate(c, s, clock);
    LateEffect(c, s, clock, h);
    var l := Prunable(c, s1, time);
    var s2 := RemovePeers(s1, l);
    RemovalsEffect(c, s1, l, h);
    EmptyLists(l, SlowPeers(c, s1, time));
    ListedElements(l, SlowPeers(c, s1, time));
    FreedUnion(s, s1, s2, late, SlowPeers(c, s1, time), h);
    RemovedNone(s1);
    assert s.height >= 1 by { InvParts(c, s); }
    CaughtUpIsDone(s2);
  }

  lemma RemovedNone(s: State)
    ensures RemovePeers(s, []) == s
  {}

  lemma LateEffect(c: Config, s: State, clock: int, h: nat)
    requires Inv(c, s)
    ensures var late, s1 := LatePeers(c, s, clock), DropLate(c, s, clock);
            Inv(c, s1) && SameClock(s, s1) && Marked(s.peers, s1.peers, late) && Freed(s, s1, late, h)
  {
    hide Inv, RemovePeer, Freed, Marked, MapsInv;
    assert MapsInv(s) by { InvParts(c, s); }
    Tracked(s, s.height);
    NobodyGoes(c, s, h);
    if s.height in s.pendingBlocks {
      RemovePeerInv(c, s, s.pendingBlocks[s.height]);
      RemovalEffect(c, s, s.pendingBlocks[s.height], h);
    }
  }

  lemma ListedElements(l: seq<PeerID>, ps: set<PeerID>)
    requires Lists(l, ps)
    ensures Elements(l) == ps
  {}

  lemma FreedUnion(s: State, s1: State, s2: State, a: set<PeerID>, b: set<PeerID>, h: nat)
    requires Marked(s.peers, s1.peers, a) && Freed(s, s1, a, h) && Marked(s1.peers, s2.peers, b) && Freed(s1, s2, b, h)
    ensures Marked(s.peers, s2.peers, a + b) && Freed(s, s2, a + b, h)
  {
    hide At;
    assert forall p | IsReady(s2.peers, p) :: IsReady(s1.peers, p) && s1.peers[p].height == s2.peers[p].height;
  }
}
