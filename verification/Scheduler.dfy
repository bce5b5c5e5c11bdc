/** The fast-sync scheduler as a function of its state and an event, and what every event keeps. */
module Scheduler {
  import opened Basics

  // A peer's number is its rank in the byte order of peer identifiers.
  type PeerID = nat

  datatype Block = Block(height: nat, id: nat, lastCommit: nat)

  datatype PeerState = New | Ready | Removed
  datatype Peer = Peer(state: PeerState, base: nat, height: nat, lastTouched: int, lastRate: int)
  const NEW_PEER := Peer(PeerState.New, 0, 0, 0, 0)

  /** States of tracked blocks. Blocks below the height are processed, other untracked ones unknown. */
  datatype BlockState = New | Pending | Received

  datatype State = State(
    initHeight: nat,
    height: nat,                          // next block to be processed
    lastAdvance: int,
    peers: map<PeerID, Peer>,
    blockStates: map<nat, BlockState>,
    pendingBlocks: map<nat, PeerID>,      // whom a block was asked from
    pendingTime: map<nat, int>,
    receivedBlocks: map<nat, PeerID>)     // whom a block came from

  datatype Config = Config(targetPending: nat, peerTimeout: int, syncTimeout: int, minRecvRate: int)

  datatype Event =
    | StatusResponse(p: PeerID, base: nat, height: nat)
    | BlockResponse(p: PeerID, block: Block, size: nat, time: int)
    | NoBlockResponse(p: PeerID)
    | TrySchedule(time: int, clock: int)
    | AddNewPeer(p: PeerID)
    | RemovePeerEv(p: PeerID)
    | TryPrunePeer(time: int, clock: int)
    | BlockProcessed(h: nat, clock: int)
    | BlockProcessError(first: PeerID, second: PeerID)

  datatype Output =
    | NoOp
    | BlockRequest(p: PeerID, h: nat)
    | BlockReceived(p: PeerID, block: Block)
    | PeerError(p: PeerID)
    | PeersPruned(peers: seq<PeerID>)
    | Finished
    | SchedulerFail
    | Panic

  // ---------------------------------------------------------------- reading the state

  predicate IsReady(peers: map<PeerID, Peer>, p: PeerID) { p in peers && peers[p].state == Ready }

  ghost predicate IsMax(peers: map<PeerID, Peer>, m: nat) {
    && (forall p | IsReady(peers, p) :: peers[p].height <= m)
    && (m == 0 || exists p :: IsReady(peers, p) && peers[p].height == m)
  }

  /** Height of the best Ready peer, or zero. */
  ghost function MaxReady(peers: map<PeerID, Peer>): (m: nat)
    ensures IsMax(peers, m)
    decreases |peers|
  {
    if peers == map[] then 0
    else
      var p :| p in peers;
      var rest := peers - {p};
      assert |rest| < |peers| by {
        assert rest.Keys == peers.Keys - {p};
      }
      assert forall q :: IsReady(rest, q) <==> q != p && IsReady(peers, q);
      var m := MaxReady(rest);
      if peers[p].state == Ready && peers[p].height > m then
        assert IsReady(peers, p);
        peers[p].height
      else
        assert m != 0 ==> exists q :: IsReady(peers, q) && peers[q].height == m;
        m
  }

  ghost function MaxHeight(s: State): int {
    var m := MaxReady(s.peers);
    if m > s.height - 1 then m else s.height - 1
  }

  ghost predicate AllBlocksProcessed(s: State) {
    s.peers != map[] && s.height >= MaxHeight(s)
  }

  function Load(s: State, p: PeerID): nat {
    |set h | h in s.pendingBlocks && s.pendingBlocks[h] == p|
  }

  predicate Covers(s: State, p: PeerID, h: nat) {
    IsReady(s.peers, p) && s.peers[p].base <= h <= s.peers[p].height
  }

  /** p can serve h and no peer that can has fewer requests open, or as many and a smaller identifier. */
  ghost predicate Best(s: State, h: nat, p: PeerID) {
    && Covers(s, p, h)
    && forall q | Covers(s, q, h) :: Load(s, p) < Load(s, q) || (Load(s, p) == Load(s, q) && p <= q)
  }

  predicate IsNew(s: State, h: nat) { h in s.blockStates && s.blockStates[h] == BlockState.New }

  ghost predicate LowestNew(s: State, h: nat) {
    IsNew(s, h) && forall k | IsNew(s, k) :: h <= k
  }

  // ---------------------------------------------------------------- changing the state

  function EnsurePeer(s: State, p: PeerID): State {
    if p in s.peers then s else s.(peers := s.peers[p := NEW_PEER])
  }

  function OwnedBy(m: map<nat, PeerID>, p: PeerID): set<nat> { set h | h in m && m[h] == p }

  /** The states after the blocks of a peer have gone back to New. */
  function Renewed(bs: map<nat, BlockState>, hs: set<nat>): map<nat, BlockState> {
    map h | h in bs.Keys + hs :: if h in hs then BlockState.New else bs[h]
  }

  function UpTo(bs: map<nat, BlockState>, m: nat): map<nat, BlockState> {
    map h | h in bs && h <= m :: bs[h]
  }

  /** Its pending and received blocks are free to be asked for again, and blocks no other Ready peer reaches are dropped. */
  ghost function RemovePeer(s: State, p: PeerID): State {
    if p !in s.peers || s.peers[p].state == Removed then s
    else
      var pending, received := OwnedBy(s.pendingBlocks, p), OwnedBy(s.receivedBlocks, p);
      var peers := s.peers[p := s.peers[p].(state := Removed)];
      s.(peers := peers,
         blockStates := UpTo(Renewed(s.blockStates, pending + received), MaxReady(peers)),
         pendingBlocks := s.pendingBlocks - pending,
         pendingTime := s.pendingTime - pending,
         receivedBlocks := s.receivedBlocks - received)
  }

  /** The n heights from lo on. */
  function Window(lo: nat, n: nat): (hs: set<nat>)
    ensures forall h :: h in hs <==> lo <= h < lo + n
    ensures |hs| == n
  {
    if n == 0 then {} else Window(lo, n - 1) + {lo + n - 1}
  }

  /** Unknown blocks of the window that some Ready peer reaches become New, unless the window is full. */
  ghost function AddNewBlocks(c: Config, s: State): State {
    if |s.blockStates| >= c.targetPending then s
    else
      s.(blockStates := Filled(s.blockStates, Window(s.height, FillSize(c, s))))
  }

  /** How many heights of a window starting at the next height some Ready peer reaches. */
  ghost function FillSize(c: Config, s: State): nat {
    var reach := MaxHeight(s) + 1 - s.height;
    if reach < c.targetPending then reach else c.targetPending
  }

  function Filled(bs: map<nat, BlockState>, hs: set<nat>): map<nat, BlockState> {
    map h | h in bs.Keys + hs :: if h in bs then bs[h] else BlockState.New
  }

  ghost function SetPeerRange(c: Config, s: State, p: PeerID, base: nat, height: nat): (State, bool) {
    var s1 := EnsurePeer(s, p);
    var peer := s1.peers[p];
    if peer.state == Removed then (s1, true)
    else if height < peer.height || base > height then (RemovePeer(s1, p), false)
    else
      (AddNewBlocks(c, s1.(peers := s1.peers[p := peer.(base := base, height := height, state := Ready)])), true)
  }

  /** A block counts as received only from the peer it was asked from, and later than it was asked for. */
  function MarkReceived(s: State, p: PeerID, h: nat, size: nat, now: int): Option<State>
    requires p in s.peers
  {
    if h < s.height || h !in s.blockStates || s.blockStates[h] != Pending then None
    else if h !in s.pendingBlocks || s.pendingBlocks[h] != p then None
    else if h !in s.pendingTime || now - s.pendingTime[h] <= 0 then None
    else
      Some(s.(peers := s.peers[p := s.peers[p].(lastRate := size / (now - s.pendingTime[h]))],
              blockStates := s.blockStates[h := Received],
              pendingBlocks := s.pendingBlocks - {h},
              pendingTime := s.pendingTime - {h},
              receivedBlocks := s.receivedBlocks[h := p]))
  }

  function MarkPending(s: State, p: PeerID, h: nat, time: int): Option<State> {
    if h < s.height || !IsNew(s, h) then None
    else if !Covers(s, p, h) then None
    else
      Some(s.(blockStates := s.blockStates[h := Pending],
              pendingBlocks := s.pendingBlocks[h := p],
              pendingTime := s.pendingTime[h := time]))
  }

  /** The height moves past h, and h is forgotten. */
  function Forget(s: State, h: nat, clock: int): State {
    s.(lastAdvance := clock, height := h + 1,
       pendingBlocks := s.pendingBlocks - {h}, pendingTime := s.pendingTime - {h},
       receivedBlocks := s.receivedBlocks - {h}, blockStates := s.blockStates - {h})
  }

  ghost function MarkProcessed(c: Config, s: State, h: nat, clock: int): State { AddNewBlocks(c, Forget(s, h, clock)) }

  // ---------------------------------------------------------------- events

  ghost function HandleBlockResponse(s: State, p: PeerID, block: Block, size: nat, time: int): (State, Output) {
    if !IsReady(s.peers, p) then (s, NoOp)
    else
      var s1 := s.(peers := s.peers[p := s.peers[p].(lastTouched := time)]);
      var r := MarkReceived(s1, p, block.height, size, time);
      if r.None? then (RemovePeer(s1, p), PeerError(p)) else (r.value, BlockReceived(p, block))
  }

  ghost function HandleTrySchedule(c: Config, s: State, time: int, clock: int): (State, Output) {
    if clock - s.lastAdvance > c.syncTimeout then (s, Finished)
    else if forall h :: !IsNew(s, h) then (s, NoOp)
    else
      LowestNewExists(s);
      var h :| LowestNew(s, h);
      if forall p :: !Covers(s, p, h) then (s, SchedulerFail)
      else
        BestExists(s, h);
        var p :| Best(s, h, p);
        var r := MarkPending(s, p, h, time);
        if r.None? then (s, SchedulerFail) else (r.value, BlockRequest(p, h))
  }

  ghost function RemovePeers(s: State, ps: seq<PeerID>): State
    decreases |ps|
  {
    if ps == [] then s else RemovePeer(RemovePeers(s, ps[..|ps| - 1]), ps[|ps| - 1])
  }

  /** Pruning is on as soon as some peer, in whatever state, is no further than the starting height. */
  predicate IsPrunable(s: State) { exists p :: p in s.peers && s.peers[p].height <= s.initHeight }

  /** A Ready peer that has been silent for too long, or whose last block came too slowly. */
  predicate Slow(c: Config, s: State, p: PeerID, time: int) {
    && IsReady(s.peers, p)
    && (time - s.peers[p].lastTouched > c.peerTimeout || s.peers[p].lastRate < c.minRecvRate)
  }

  function SlowPeers(c: Config, s: State, time: int): set<PeerID> {
    set p | p in s.peers && Slow(c, s, p, time) && IsPrunable(s)
  }

  /** l holds the peers of ps in the order of their identifiers. */
  ghost predicate Lists(l: seq<PeerID>, ps: set<PeerID>) {
    && (forall i, j | 0 <= i < j < |l| :: l[i] < l[j])
    && (forall p :: p in l <==> p in ps)
  }

  function Insert(l: seq<PeerID>, p: PeerID): seq<PeerID> {
    if l == [] then [p] else if p < l[0] then [p] + l else [l[0]] + Insert(l[1..], p)
  }

  lemma {:induction false} InsertLists(l: seq<PeerID>, ps: set<PeerID>, p: PeerID)
    requires Lists(l, ps) && p !in ps
    ensures Lists(Insert(l, p), ps + {p})
  {
    hide Lists;
    if l == [] {
      EmptyLists(l, ps);
      OneLists(p);
      assert ps + {p} == {p};
    } else {
      TailLists(l, ps);
      if p < l[0] {
        ConsLists(p, l, ps);
      } else {
        InsertLists(l[1..], ps - {l[0]}, p);
        ConsLists(l[0], Insert(l[1..], p), ps - {l[0]} + {p});
        assert ps - {l[0]} + {p} + {l[0]} == ps + {p};
      }
    }
  }

  lemma EmptyLists(l: seq<PeerID>, ps: set<PeerID>)
    requires Lists(l, ps)
    ensures l == [] <==> ps == {}
  {
    if l != [] { assert l[0] in l; }
  }

  lemma OneLists(p: PeerID)
    ensures Lists([p], {p})
  {}

  lemma ConsLists(p: PeerID, l: seq<PeerID>, ps: set<PeerID>)
    requires Lists(l, ps) && forall q | q in ps :: p < q
    ensures Lists([p] + l, ps + {p})
  {
    assert forall i | 0 <= i < |l| :: l[i] in l;
    assert forall q :: q in [p] + l <==> q == p || q in l;
  }

  lemma TailLists(l: seq<PeerID>, ps: set<PeerID>)
    requires Lists(l, ps) && l != []
    ensures Lists(l[1..], ps - {l[0]}) && l[0] in ps && forall q | q in ps && q != l[0] :: l[0] < q
  {
    assert l[0] in l && l == [l[0]] + l[1..];
    assert forall q :: q in l <==> q == l[0] || q in l[1..];
    forall q | q in l[1..] ensures l[0] < q {
      var i :| 0 <= i < |l[1..]| && l[1..][i] == q;
      assert l[i + 1] == q;
    }
  }

  lemma {:induction false} ListExists(ps: set<PeerID>)
    ensures exists l :: Lists(l, ps)
    decreases |ps|
  {
    if ps == {} {
      assert Lists([], ps);
    } else {
      hide Lists;
      var p :| p in ps;
      ListExists(ps - {p});
      var l :| Lists(l, ps - {p});
      InsertLists(l, ps - {p}, p);
      assert ps - {p} + {p} == ps;
    }
  }

  lemma {:induction false} ListUnique(a: seq<PeerID>, b: seq<PeerID>, ps: set<PeerID>)
    requires Lists(a, ps) && Lists(b, ps)
    ensures a == b
    decreases |a|
  {
    hide Lists;
    EmptyLists(a, ps);
    EmptyLists(b, ps);
    if a != [] {
      TailLists(a, ps);
      TailLists(b, ps);
      assert a[0] == b[0];
      ListUnique(a[1..], b[1..], ps - {a[0]});
    }
  }

  /** The peers to prune, in the order of their identifiers. */
  ghost function Prunable(c: Config, s: State, time: int): (l: seq<PeerID>)
    ensures Lists(l, SlowPeers(c, s, time))
  {
    ListExists(SlowPeers(c, s, time));
    var l :| Lists(l, SlowPeers(c, s, time));
    l
  }

  /** The peer that owes the next block for too long is removed. */
  ghost function DropLate(c: Config, s: State, clock: int): State {
    var late := s.height in s.pendingTime && clock - s.pendingTime[s.height] > c.peerTimeout && s.height in s.pendingBlocks;
    if late then RemovePeer(s, s.pendingBlocks[s.height]) else s
  }

  ghost function HandleTryPrunePeer(c: Config, s: State, time: int, clock: int): (State, Output) {
    var s1 := DropLate(c, s, clock);
    var prunable := Prunable(c, s1, time);
    if prunable == [] then (s1, NoOp)
    else
      var s2 := RemovePeers(s1, prunable);
      (s2, if AllBlocksProcessed(s2) then Finished else PeersPruned(prunable))
  }

  ghost function Handle(c: Config, s: State, ev: Event): (State, Output) {
    match ev
    case StatusResponse(p, base, height) =>
      var (s', ok) := SetPeerRange(c, s, p, base, height);
      (s', if ok then NoOp else PeerError(p))
    case BlockResponse(p, block, size, time) => HandleBlockResponse(s, p, block, size, time)
    case NoBlockResponse(p) =>
      if p !in s.peers || s.peers[p].state == Removed then (s, NoOp) else (RemovePeer(s, p), PeerError(p))
    case TrySchedule(time, clock) => HandleTrySchedule(c, s, time, clock)
    case AddNewPeer(p) => (EnsurePeer(s, p), NoOp)
    case RemovePeerEv(p) =>
      var s' := RemovePeer(s, p);
      (s', if AllBlocksProcessed(s') then Finished else PeerError(p))
    case TryPrunePeer(time, clock) => HandleTryPrunePeer(c, s, time, clock)
    case BlockProcessed(h, clock) =>
      if h != s.height then (s, Panic)
      else
        var s' := MarkProcessed(c, s, h, clock);
        (s', if AllBlocksProcessed(s') then Finished else NoOp)
    case BlockProcessError(first, second) =>
      var s1 := RemovePeer(s, first);
      var s' := if first != second then RemovePeer(s1, second) else s1;
      (s', if AllBlocksProcessed(s') then Finished else NoOp)
  }

  // ---------------------------------------------------------------- choices exist and are unique

  lemma {:induction false} LowestNewExists(s: State)
    requires exists h :: IsNew(s, h)
    ensures exists h :: LowestNew(s, h)
  {
    var h :| IsNew(s, h);
    LowestBelow(s, h);
  }

  lemma {:induction false} LowestBelow(s: State, h: nat)
    requires IsNew(s, h)
    ensures exists k :: LowestNew(s, k)
  {
    if k: nat :| k < h && IsNew(s, k) {
      LowestBelow(s, k);
    } else {
      assert LowestNew(s, h);
    }
  }

  lemma BestExists(s: State, h: nat)
    requires exists p :: Covers(s, p, h)
    ensures exists p :: Best(s, h, p)
  {
    var p :| Covers(s, p, h);
    BestBelow(s, h, p);
  }

  lemma {:induction false} BestBelow(s: State, h: nat, p: PeerID)
    requires Covers(s, p, h)
    ensures exists q :: Best(s, h, q)
    decreases Load(s, p), p
  {
    if q: PeerID :| Covers(s, q, h) && (Load(s, q) < Load(s, p) || (Load(s, q) == Load(s, p) && q < p)) {
      BestBelow(s, h, q);
    } else {
      assert Best(s, h, p);
    }
  }

  lemma BestUnique(s: State, h: nat, p: PeerID, q: PeerID)
    requires Best(s, h, p) && Best(s, h, q)
    ensures p == q
  {}

  // ---------------------------------------------------------------- invariant

  /** The tracked heights are the n from lo on. */
  ghost predicate Spans(bs: map<nat, BlockState>, lo: nat, n: nat) {
    forall h :: h in bs <==> lo <= h < lo + n
  }

  /** Tracked heights start at the next height without gaps, are at most targetPending many, and some Ready peer reaches each. */
  ghost predicate WindowInv(c: Config, s: State) {
    && s.height >= 1
    && Spans(s.blockStates, s.height, |s.blockStates|)
    && |s.blockStates| <= c.targetPending
    && forall h | h in s.blockStates :: h <= MaxReady(s.peers)
  }

  /** The owner of a block is a Ready peer that has said it has it. */
  ghost predicate Owned(s: State, p: PeerID, h: nat) { IsReady(s.peers, p) && h <= s.peers[p].height }

  ghost predicate PendingInv(s: State) {
    && (forall h :: h in s.pendingBlocks <==> h in s.blockStates && s.blockStates[h] == Pending)
    && (forall h :: h in s.pendingTime <==> h in s.pendingBlocks)
    && (forall h | h in s.pendingBlocks :: Owned(s, s.pendingBlocks[h], h))
  }

  ghost predicate ReceivedInv(s: State) {
    && (forall h :: h in s.receivedBlocks <==> h in s.blockStates && s.blockStates[h] == Received)
    && (forall h | h in s.receivedBlocks :: Owned(s, s.receivedBlocks[h], h))
  }

  /** The four maps agree. */
  ghost predicate MapsInv(s: State) { PendingInv(s) && ReceivedInv(s) }

  /** Every height within targetPending of the next one that a Ready peer reaches is tracked. */
  ghost predicate Full(c: Config, s: State) {
    forall h | s.height <= h < s.height + c.targetPending && h <= MaxReady(s.peers) :: h in s.blockStates
  }

  ghost predicate Inv(c: Config, s: State) { WindowInv(c, s) && MapsInv(s) && Full(c, s) }

  /** So exactly those heights are tracked. */
  lemma WindowExact(c: Config, s: State)
    requires WindowInv(c, s) && Full(c, s)
    ensures forall h :: h in s.blockStates <==> s.height <= h < s.height + c.targetPending && h <= MaxReady(s.peers)
  {
    hide MaxReady;
  }

  /** Peers that are Ready now were Ready before at the same height. */
  ghost predicate Fewer(ps: map<PeerID, Peer>, ps': map<PeerID, Peer>) {
    forall p | IsReady(ps', p) :: IsReady(ps, p) && ps[p].height == ps'[p].height
  }

  lemma MaxFalls(ps: map<PeerID, Peer>, ps': map<PeerID, Peer>)
    requires Fewer(ps, ps')
    ensures MaxReady(ps') <= MaxReady(ps)
  {
    hide MaxReady;
    assert IsMax(ps, MaxReady(ps)) && IsMax(ps', MaxReady(ps'));
  }

  function NewScheduler(initHeight: nat, startTime: int): State {
    State(initHeight, initHeight, startTime, map[], map[], map[], map[], map[])
  }

  lemma NewSchedulerInv(c: Config, initHeight: nat, startTime: int)
    requires initHeight >= 1
    ensures Inv(c, NewScheduler(initHeight, startTime))
  {}

  lemma SizeOf(bs: map<nat, BlockState>, lo: nat, n: nat)
    requires Spans(bs, lo, n)
    ensures |bs| == n
  {
    assert bs.Keys == Window(lo, n);
    assert |bs.Keys| == |bs|;
  }

  /** A peer's removal hands its blocks back, and what remains above the best other peer is its own. */
  lemma RemovePeerInv(c: Config, s: State, p: PeerID)
    requires Inv(c, s)
    ensures Inv(c, RemovePeer(s, p)) && RemovePeer(s, p).height == s.height
  {
    hide WindowInv, MapsInv, Full;
    if p in s.peers && s.peers[p].state != Removed {
      RemovePeerMaps(s, p);
      RemovePeerWindow(c, s, p);
      RemovePeerFull(c, s, p);
    }
  }

  lemma RemovePeerFull(c: Config, s: State, p: PeerID)
    requires Full(c, s) && p in s.peers && s.peers[p].state != Removed
    ensures Full(c, RemovePeer(s, p))
  {
    hide MaxReady, IsMax, OwnedBy;
    var s' := RemovePeer(s, p);
    assert Fewer(s.peers, s'.peers);
    MaxFalls(s.peers, s'.peers);
  }

  lemma MapsParts(s: State)
    requires PendingInv(s) && ReceivedInv(s)
    ensures MapsInv(s)
  {}

  lemma RemovePeerMaps(s: State, p: PeerID)
    requires MapsInv(s) && p in s.peers && s.peers[p].state != Removed
    ensures MapsInv(RemovePeer(s, p))
  {
    var s' := RemovePeer(s, p);
    var m := MaxReady(s'.peers);
    assert forall q | IsReady(s.peers, q) && q != p :: IsReady(s'.peers, q) && s'.peers[q] == s.peers[q];
    hide MaxReady, IsMax;
    OthersReach(s, p, m);
    assert Cleared(s, s', p, m);
    hide MapsInv, PendingInv, ReceivedInv, RemovePeer, Cleared;
    ClearedPending(s, s', p, m);
    ClearedReceived(s, s', p, m);
    MapsParts(s');
  }

  /** What remains of the four maps when p's blocks go back to New and those above m are dropped. */
  ghost predicate Cleared(s: State, s': State, p: PeerID, m: nat) {
    && (forall q | IsReady(s.peers, q) && q != p :: IsReady(s'.peers, q) && s'.peers[q] == s.peers[q])
    && s'.blockStates == UpTo(Renewed(s.blockStates, OwnedBy(s.pendingBlocks, p) + OwnedBy(s.receivedBlocks, p)), m)
    && s'.pendingBlocks == s.pendingBlocks - OwnedBy(s.pendingBlocks, p)
    && s'.pendingTime == s.pendingTime - OwnedBy(s.pendingBlocks, p)
    && s'.receivedBlocks == s.receivedBlocks - OwnedBy(s.receivedBlocks, p)
  }

  lemma ClearedPending(s: State, s': State, p: PeerID, m: nat)
    requires MapsInv(s) && Cleared(s, s', p, m)
    requires forall h | h in s.pendingBlocks && s.pendingBlocks[h] != p :: h <= m
    ensures PendingInv(s')
  {
    forall h | h in s'.pendingBlocks ensures Owned(s', s'.pendingBlocks[h], h) {
      assert Owned(s, s.pendingBlocks[h], h);
    }
  }

  lemma ClearedReceived(s: State, s': State, p: PeerID, m: nat)
    requires MapsInv(s) && Cleared(s, s', p, m)
    requires forall h | h in s.receivedBlocks && s.receivedBlocks[h] != p :: h <= m
    ensures ReceivedInv(s')
  {}

  /** Blocks of other peers are below the height those peers reach. */
  lemma OthersReach(s: State, p: PeerID, m: nat)
    requires MapsInv(s)
    requires forall q | IsReady(s.peers, q) && q != p :: s.peers[q].height <= m
    ensures forall h | h in s.pendingBlocks && s.pendingBlocks[h] != p :: h <= m
    ensures forall h | h in s.receivedBlocks && s.receivedBlocks[h] != p :: h <= m
  {}

  lemma TruncatedSpan(bs: map<nat, BlockState>, hs: set<nat>, lo: nat, n: nat, m: nat)
    requires Spans(bs, lo, n) && hs <= bs.Keys
    ensures Spans(UpTo(Renewed(bs, hs), m), lo, if m < lo then 0 else if m - lo + 1 < n then m - lo + 1 else n)
  {}

  lemma OwnedTracked(s: State, p: PeerID)
    requires MapsInv(s)
    ensures OwnedBy(s.pendingBlocks, p) + OwnedBy(s.receivedBlocks, p) <= s.blockStates.Keys
  {}

  lemma UpToBound(bs: map<nat, BlockState>, m: nat)
    ensures forall h | h in UpTo(bs, m) :: h <= m
  {}

  lemma RemovePeerWindow(c: Config, s: State, p: PeerID)
    requires Inv(c, s) && p in s.peers && s.peers[p].state != Removed
    ensures WindowInv(c, RemovePeer(s, p))
  {
    hide MaxReady, IsMax, Renewed, OwnedBy, MapsInv, Spans, UpTo;
    var s' := RemovePeer(s, p);
    var hs := OwnedBy(s.pendingBlocks, p) + OwnedBy(s.receivedBlocks, p);
    var m, n := MaxReady(s'.peers), |s.blockStates|;
    OwnedTracked(s, p);
    UpToBound(Renewed(s.blockStates, hs), m);
    TruncatedSpan(s.blockStates, hs, s.height, n, m);
    SizeOf(s'.blockStates, s.height, if m < s.height then 0 else if m - s.height + 1 < n then m - s.height + 1 else n);
  }

  lemma AddNewBlocksInv(c: Config, s: State)
    requires WindowInv(c, s) && MapsInv(s)
    ensures Inv(c, AddNewBlocks(c, s)) && AddNewBlocks(c, s).height == s.height
  {
    AddNewBlocksFull(c, s);
    hide Full;
    if |s.blockStates| < c.targetPending {
      var s' := AddNewBlocks(c, s);
      var n := |s.blockStates|;
      var n' := FillSize(c, s);
      assert n > 0 ==> s.height + n - 1 in s.blockStates;
      hide MaxReady, IsMax, MapsInv, Window;
      FilledSpan(s.blockStates, s.height, n, n');
      SizeOf(s'.blockStates, s.height, n');
      AddedMaps(s, s');
    }
  }

  lemma AddNewBlocksFull(c: Config, s: State)
    requires WindowInv(c, s)
    ensures Full(c, AddNewBlocks(c, s))
  {
    hide MaxReady, IsMax;
  }

  lemma FilledSpan(bs: map<nat, BlockState>, lo: nat, n: nat, n': nat)
    requires Spans(bs, lo, n) && n <= n'
    ensures Spans(Filled(bs, Window(lo, n')), lo, n')
  {}

  // New entries leave the other maps' conditions as they were.
  lemma AddedMaps(s: State, s': State)
    requires MapsInv(s) && s' == s.(blockStates := s'.blockStates)
    requires forall h | h in s.blockStates :: h in s'.blockStates && s'.blockStates[h] == s.blockStates[h]
    requires forall h | h in s'.blockStates && h !in s.blockStates :: s'.blockStates[h] == BlockState.New
    ensures MapsInv(s')
  {}

  lemma SetPeerRangeInv(c: Config, s: State, p: PeerID, base: nat, height: nat)
    requires Inv(c, s)
    ensures var s' := SetPeerRange(c, s, p, base, height).0; Inv(c, s') && s'.height == s.height
  {
    hide Inv, RemovePeer, AddNewBlocks;
    var s1 := EnsurePeer(s, p);
    EnsurePeerInv(c, s, p);
    var peer := s1.peers[p];
    if peer.state == Removed {
    } else if height < peer.height || base > height {
      RemovePeerInv(c, s1, p);
    } else {
      var s2 := s1.(peers := s1.peers[p := peer.(base := base, height := height, state := Ready)]);
      PeersInv(c, s1, s2);
      AddNewBlocksInv(c, s2);
    }
  }

  /** Ready peers stay Ready, at no lower height. */
  ghost predicate PeersGrow(ps: map<PeerID, Peer>, ps': map<PeerID, Peer>) {
    forall q | IsReady(ps, q) :: IsReady(ps', q) && ps[q].height <= ps'[q].height
  }

  lemma PeersInv(c: Config, s: State, s': State)
    requires Inv(c, s) && s' == s.(peers := s'.peers) && PeersGrow(s.peers, s'.peers)
    ensures WindowInv(c, s') && MapsInv(s') && (Fewer(s.peers, s'.peers) ==> Inv(c, s'))
  {
    hide MapsInv, Spans, MaxReady, Fewer;
    assert MapsInv(s') by { PeersMaps(s, s'); }
    MaxGrows(s.peers, s'.peers);
    if Fewer(s.peers, s'.peers) { MaxFalls(s.peers, s'.peers); }
  }

  lemma MaxGrows(ps: map<PeerID, Peer>, ps': map<PeerID, Peer>)
    requires PeersGrow(ps, ps')
    ensures MaxReady(ps) <= MaxReady(ps')
  {
    hide MaxReady;
    assert IsMax(ps, MaxReady(ps)) && IsMax(ps', MaxReady(ps'));
  }

  lemma PeersMaps(s: State, s': State)
    requires MapsInv(s) && s' == s.(peers := s'.peers) && PeersGrow(s.peers, s'.peers)
    ensures MapsInv(s')
  {}

  lemma EnsurePeerInv(c: Config, s: State, p: PeerID)
    requires Inv(c, s)
    ensures Inv(c, EnsurePeer(s, p)) && EnsurePeer(s, p).height == s.height
  {
    hide Inv;
    var s' := EnsurePeer(s, p);
    assert PeersGrow(s.peers, s'.peers) && Fewer(s.peers, s'.peers);
    PeersInv(c, s, s');
  }

  lemma MarkReceivedInv(c: Config, s: State, p: PeerID, h: nat, size: nat, now: int)
    requires Inv(c, s) && IsReady(s.peers, p) && MarkReceived(s, p, h, size, now).Some?
    ensures Inv(c, MarkReceived(s, p, h, size, now).value)
  {
    hide PeersGrow, WindowInv, MapsInv, ChangedAt;
    var s1 := s.(peers := s.peers[p := s.peers[p].(lastRate := size / (now - s.pendingTime[h]))]);
    var s' := MarkReceived(s, p, h, size, now).value;
    SamePeer(s.peers, p, s1.peers[p]);
    PeersInv(c, s, s1);
    ReceivedChange(s1, s', p, h);
    StateChangeInv(c, s1, s', h);
  }

  lemma SamePeer(ps: map<PeerID, Peer>, p: PeerID, q: Peer)
    requires p in ps && q.state == ps[p].state && q.height == ps[p].height
    ensures PeersGrow(ps, ps[p := q]) && Fewer(ps, ps[p := q])
  {}

  lemma ReceivedChange(s: State, s': State, p: PeerID, h: nat)
    requires MapsInv(s) && h in s.pendingBlocks && s.pendingBlocks[h] == p
    requires s' == s.(blockStates := s.blockStates[h := Received], pendingBlocks := s.pendingBlocks - {h},
                      pendingTime := s.pendingTime - {h}, receivedBlocks := s.receivedBlocks[h := p])
    ensures ChangedAt(s, s', h)
  {}

  /** Only one tracked block changed, and its entries in the other maps fit its new state. */
  ghost predicate ChangedAt(s: State, s': State, h: nat) {
    && h in s.blockStates && s'.height == s.height && s'.peers == s.peers
    && h in s'.blockStates && s'.blockStates == s.blockStates[h := s'.blockStates[h]]
    && s'.pendingBlocks - {h} == s.pendingBlocks - {h} && s'.pendingTime - {h} == s.pendingTime - {h}
    && s'.receivedBlocks - {h} == s.receivedBlocks - {h}
    && (h in s'.pendingBlocks <==> s'.blockStates[h] == Pending)
    && (h in s'.pendingTime <==> h in s'.pendingBlocks)
    && (h in s'.receivedBlocks <==> s'.blockStates[h] == Received)
    && (h in s'.pendingBlocks ==> Owned(s, s'.pendingBlocks[h], h))
    && (h in s'.receivedBlocks ==> Owned(s, s'.receivedBlocks[h], h))
  }

  lemma StateChangeInv(c: Config, s: State, s': State, h: nat)
    requires Inv(c, s) && ChangedAt(s, s', h)
    ensures Inv(c, s')
  {
    hide MaxReady, IsMax, MapsInv;
    ChangedMaps(s, s', h);
    SizeOf(s'.blockStates, s.height, |s.blockStates|);
  }

  lemma ChangedMaps(s: State, s': State, h: nat)
    requires MapsInv(s) && ChangedAt(s, s', h)
    ensures MapsInv(s')
  {
    hide PendingInv, ReceivedInv, ChangedAt;
    ChangedPending(s, s', h);
    ChangedReceived(s, s', h);
  }

  lemma ChangedPending(s: State, s': State, h: nat)
    requires PendingInv(s) && ChangedAt(s, s', h)
    ensures PendingInv(s')
  {
    SameElsewhere(s.pendingBlocks, s'.pendingBlocks, h);
    SameElsewhere(s.pendingTime, s'.pendingTime, h);
  }

  lemma ChangedReceived(s: State, s': State, h: nat)
    requires ReceivedInv(s) && ChangedAt(s, s', h)
    ensures ReceivedInv(s')
  {
    SameElsewhere(s.receivedBlocks, s'.receivedBlocks, h);
  }

  lemma SameElsewhere<V>(m: map<nat, V>, m': map<nat, V>, h: nat)
    requires m' - {h} == m - {h}
    ensures forall k | k != h :: k in m' <==> k in m
    ensures forall k | k != h && k in m :: m'[k] == m[k]
  {
    forall k | k != h ensures (k in m' <==> k in m) && (k in m ==> m'[k] == m[k]) {
      assert k in m' <==> k in m' - {h};
      assert k in m <==> k in m - {h};
      if k in m { assert (m' - {h})[k] == (m - {h})[k]; }
    }
  }

  lemma MarkPendingInv(c: Config, s: State, p: PeerID, h: nat, time: int)
    requires Inv(c, s) && MarkPending(s, p, h, time).Some?
    ensures Inv(c, MarkPending(s, p, h, time).value)
  {
    hide WindowInv, MapsInv, ChangedAt;
    var s' := MarkPending(s, p, h, time).value;
    PendingChange(s, s', p, h, time);
    StateChangeInv(c, s, s', h);
  }

  lemma PendingChange(s: State, s': State, p: PeerID, h: nat, time: int)
    requires MapsInv(s) && IsNew(s, h) && Owned(s, p, h)
    requires s' == s.(blockStates := s.blockStates[h := Pending], pendingBlocks := s.pendingBlocks[h := p],
                      pendingTime := s.pendingTime[h := time])
    ensures ChangedAt(s, s', h)
  {}

  lemma MarkProcessedInv(c: Config, s: State, clock: int)
    requires Inv(c, s)
    ensures Inv(c, MarkProcessed(c, s, s.height, clock)) && MarkProcessed(c, s, s.height, clock).height == s.height + 1
  {
    hide Inv, AddNewBlocks, WindowInv, MapsInv;
    ForgetInv(c, s, clock);
    AddNewBlocksInv(c, Forget(s, s.height, clock));
  }

  lemma ForgetInv(c: Config, s: State, clock: int)
    requires Inv(c, s)
    ensures WindowInv(c, Forget(s, s.height, clock)) && MapsInv(Forget(s, s.height, clock))
  {
    var h, n, s' := s.height, |s.blockStates|, Forget(s, s.height, clock);
    hide MaxReady, IsMax, MapsInv, Spans;
    ForgottenMaps(s, s', h);
    SpanTail(s.blockStates, h, n);
    SizeOf(s'.blockStates, h + 1, if n == 0 then 0 else n - 1);
  }

  lemma SpanTail(bs: map<nat, BlockState>, lo: nat, n: nat)
    requires Spans(bs, lo, n)
    ensures Spans(bs - {lo}, lo + 1, if n == 0 then 0 else n - 1)
  {}

  lemma ForgottenMaps(s: State, s': State, h: nat)
    requires MapsInv(s) && s'.peers == s.peers
    requires s'.pendingBlocks == s.pendingBlocks - {h} && s'.pendingTime == s.pendingTime - {h}
    requires s'.receivedBlocks == s.receivedBlocks - {h} && s'.blockStates == s.blockStates - {h}
    ensures MapsInv(s')
  {}

  lemma RemovePeersInv(c: Config, s: State, ps: seq<PeerID>)
    requires Inv(c, s)
    ensures Inv(c, RemovePeers(s, ps)) && RemovePeers(s, ps).height == s.height
    decreases |ps|
  {
    hide Inv, RemovePeer;
    if ps != [] {
      RemovePeersInv(c, s, ps[..|ps| - 1]);
      RemovePeerInv(c, RemovePeers(s, ps[..|ps| - 1]), ps[|ps| - 1]);
    }
  }

  /** Every event keeps the window and the agreement of the maps; only a processed block moves the height, by one. */
  lemma HandleInv(c: Config, s: State, ev: Event)
    requires Inv(c, s)
    ensures var (s', out) := Handle(c, s, ev);
            && Inv(c, s') && s'.height == s.height + (if ev.BlockProcessed? && out != Panic then 1 else 0)
            && (out == Panic <==> ev.BlockProcessed? && ev.h != s.height)
  {
    hide Inv, RemovePeer, SetPeerRange, HandleBlockResponse, HandleTrySchedule, HandleTryPrunePeer, MarkProcessed,
      AllBlocksProcessed, EnsurePeer;
    match ev
    case StatusResponse(p, base, height) => SetPeerRangeInv(c, s, p, base, height);
    case BlockResponse(p, block, size, time) => HandleBlockResponseInv(c, s, p, block, size, time);
    case NoBlockResponse(p) => RemovePeerInv(c, s, p);
    case TrySchedule(time, clock) => HandleTryScheduleInv(c, s, time, clock);
    case AddNewPeer(p) => EnsurePeerInv(c, s, p);
    case RemovePeerEv(p) => RemovePeerInv(c, s, p);
    case TryPrunePeer(time, clock) => HandleTryPruneInv(c, s, time, clock);
    case BlockProcessed(h, clock) => MarkProcessedInv(c, s, clock);
    case BlockProcessError(first, second) =>
      RemovePeerInv(c, s, first);
      RemovePeerInv(c, RemovePeer(s, first), second);
  }

  lemma HandleBlockResponseInv(c: Config, s: State, p: PeerID, block: Block, size: nat, time: int)
    requires Inv(c, s)
    ensures var (s', out) := HandleBlockResponse(s, p, block, size, time); Inv(c, s') && s'.height == s.height && out != Panic
  {
    if IsReady(s.peers, p) {
      var s1 := s.(peers := s.peers[p := s.peers[p].(lastTouched := time)]);
      assert PeersGrow(s.peers, s1.peers);
      hide Inv, RemovePeer, PeersGrow;
      PeersInv(c, s, s1);
      if MarkReceived(s1, p, block.height, size, time).Some? {
        MarkReceivedInv(c, s1, p, block.height, size, time);
      } else {
        RemovePeerInv(c, s1, p);
      }
    }
  }

  lemma HandleTryScheduleInv(c: Config, s: State, time: int, clock: int)
    requires Inv(c, s)
    ensures var (s', out) := HandleTrySchedule(c, s, time, clock); Inv(c, s') && s'.height == s.height && out != Panic
  {
    hide Inv, Best, LowestNew;
    var (s', out) := HandleTrySchedule(c, s, time, clock);
    if out.BlockRequest? {
      MarkPendingInv(c, s, out.p, out.h, time);
    }
  }

  lemma HandleTryPruneInv(c: Config, s: State, time: int, clock: int)
    requires Inv(c, s)
    ensures var (s', out) := HandleTryPrunePeer(c, s, time, clock); Inv(c, s') && s'.height == s.height && out != Panic
  {
    hide Inv, RemovePeer, RemovePeers, AllBlocksProcessed, Prunable;
    var s1 := s;
    if s.height in s.pendingTime && clock - s.pendingTime[s.height] > c.peerTimeout && s.height in s.pendingBlocks {
      RemovePeerInv(c, s, s.pendingBlocks[s.height]);
      s1 := RemovePeer(s, s.pendingBlocks[s.height]);
    }
    RemovePeersInv(c, s1, Prunable(c, s1, time));
  }
}
