/** The scheduler as an object whose handlers update it in place. */
module SchedulerState {
  import opened Basics
  import opened Scheduler

  lemma RenewedStep(bs: map<nat, BlockState>, hs: set<nat>, h: nat)
    ensures Renewed(bs, hs)[h := BlockState.New] == Renewed(bs, hs + {h})
  {}

  lemma RenewedTwice(bs: map<nat, BlockState>, a: set<nat>, b: set<nat>)
    ensures Renewed(Renewed(bs, a), b) == Renewed(bs, a + b)
  {}

  lemma RenewedNone(bs: map<nat, BlockState>)
    ensures Renewed(bs, {}) == bs
  {}

  lemma TodoStep(m: map<nat, PeerID>, p: PeerID, todo: set<nat>, h: nat)
    requires h in todo && h in m
    ensures OwnedBy(m, p) - (todo - {h}) == if m[h] == p then OwnedBy(m, p) - todo + {h} else OwnedBy(m, p) - todo
    ensures (m - (OwnedBy(m, p) - todo))[h] == m[h]
  {}

  lemma TodoEnds(m: map<nat, PeerID>, p: PeerID)
    ensures OwnedBy(m, p) - m.Keys == {} && OwnedBy(m, p) - {} == OwnedBy(m, p)
  {}

  lemma MinusStep<V>(m: map<nat, V>, hs: set<nat>, h: nat)
    ensures m - hs - {h} == m - (hs + {h}) && m - {} == m
  {}

  /** The states while those above m are being dropped; the ones in todo have not been looked at. */
  function Dropping(bs: map<nat, BlockState>, m: nat, todo: set<nat>): map<nat, BlockState> {
    map h | h in bs && (h <= m || h in todo) :: bs[h]
  }

  lemma DroppingEnds(bs: map<nat, BlockState>, m: nat)
    ensures Dropping(bs, m, bs.Keys) == bs && Dropping(bs, m, {}) == UpTo(bs, m)
  {}

  lemma DroppingStep(bs: map<nat, BlockState>, m: nat, todo: set<nat>, h: nat)
    requires h in todo && h in bs
    ensures Dropping(bs, m, todo - {h}) == if h > m then Dropping(bs, m, todo) - {h} else Dropping(bs, m, todo)
  {}

  /** Each of the peers was found once. */
  ghost predicate Collected(found: seq<PeerID>, ps: set<PeerID>) {
    && (forall i, j | 0 <= i < j < |found| :: found[i] != found[j])
    && (forall p :: p in found <==> p in ps)
  }

  ghost function Elements(l: seq<PeerID>): set<PeerID> { set p | p in l }

  lemma CollectStep(found: seq<PeerID>, ps: set<PeerID>, todo: set<PeerID>, p: PeerID)
    requires p in todo && Collected(found, ps - todo)
    ensures Collected(if p in ps then found + [p] else found, ps - (todo - {p}))
  {}

  lemma SortStart(found: seq<PeerID>)
    ensures Lists([], Elements(found[..0]))
  {}

  lemma SortStep(found: seq<PeerID>, ps: set<PeerID>, i: nat, l: seq<PeerID>)
    requires Collected(found, ps) && i < |found| && Lists(l, Elements(found[..i]))
    ensures Lists(Insert(l, found[i]), Elements(found[..i + 1]))
  {
    hide Lists, Insert;
    assert found[..i + 1] == found[..i] + [found[i]];
    assert Elements(found[..i + 1]) == Elements(found[..i]) + {found[i]};
    InsertLists(l, Elements(found[..i]), found[i]);
  }

  lemma Sorted(found: seq<PeerID>, ps: set<PeerID>, l: seq<PeerID>)
    requires Collected(found, ps) && Lists(l, Elements(found[..|found|]))
    ensures Lists(l, ps)
  {
    hide Lists;
    assert found[..|found|] == found;
    assert Elements(found) == ps;
  }

  class Sched {
    const c: Config
    var s: State

    constructor (c: Config, initHeight: nat, startTime: int)
      ensures this.c == c && s == NewScheduler(initHeight, startTime)
    {
      this.c := c;
      s := NewScheduler(initHeight, startTime);
    }

    // -------------------------------------------------------------- reading loops

    /** Best height of a Ready peer, starting from low. */
    method BestHeight(low: nat) returns (m: nat)
      ensures m == if MaxReady(s.peers) > low then MaxReady(s.peers) else low
    {
      m := low;
      var todo := s.peers.Keys;
      while todo != {}
        invariant todo <= s.peers.Keys && m >= low
        invariant forall p | IsReady(s.peers, p) && p !in todo :: s.peers[p].height <= m
        invariant m == low || exists p :: IsReady(s.peers, p) && s.peers[p].height == m
        decreases |todo|
      {
        var p :| p in todo;
        todo := todo - {p};
        if s.peers[p].state == Ready && s.peers[p].height > m {
          assert IsReady(s.peers, p);
          m := s.peers[p].height;
        }
      }
      ghost var k := MaxReady(s.peers);
      hide MaxReady;
      if k > 0 { ghost var q :| IsReady(s.peers, q) && s.peers[q].height == k; }
    }

    method MaxHeight() returns (m: nat)
      requires s.height >= 1
      ensures m == Scheduler.MaxHeight(s)
    {
      m := BestHeight(s.height - 1);
    }

    method AllBlocksProcessed() returns (b: bool)
      requires s.height >= 1
      ensures b == Scheduler.AllBlocksProcessed(s)
    {
      if s.peers == map[] { return false; }
      var m := MaxHeight();
      return s.height >= m;
    }

    method NextHeightToSchedule() returns (h: Option<nat>)
      ensures h.None? ==> forall k :: !IsNew(s, k)
      ensures h.Some? ==> LowestNew(s, h.value)
    {
      h := None;
      var todo := s.blockStates.Keys;
      while todo != {}
        invariant todo <= s.blockStates.Keys
        invariant h.None? ==> forall k | IsNew(s, k) :: k in todo
        invariant h.Some? ==> IsNew(s, h.value) && forall k | IsNew(s, k) :: k in todo || h.value <= k
        decreases |todo|
      {
        var k :| k in todo;
        todo := todo - {k};
        if s.blockStates[k] == BlockState.New && (h.None? || k < h.value) { h := Some(k); }
      }
    }

    method GetPeersWithHeight(h: nat) returns (ps: set<PeerID>)
      ensures forall p :: p in ps <==> Covers(s, p, h)
    {
      ps := {};
      var todo := s.peers.Keys;
      while todo != {}
        invariant todo <= s.peers.Keys
        invariant forall p :: p in ps <==> Covers(s, p, h) && p !in todo
        decreases |todo|
      {
        var p :| p in todo;
        todo := todo - {p};
        if s.peers[p].state == Ready && s.peers[p].base <= h && s.peers[p].height >= h { ps := ps + {p}; }
      }
    }

    method PendingFrom(p: PeerID) returns (n: nat)
      ensures n == Load(s, p)
    {
      var heights: set<nat> := {};
      var todo := s.pendingBlocks.Keys;
      while todo != {}
        invariant todo <= s.pendingBlocks.Keys
        invariant heights == set h | h in s.pendingBlocks && s.pendingBlocks[h] == p && h !in todo
        decreases |todo|
      {
        var h :| h in todo;
        todo := todo - {h};
        if s.pendingBlocks[h] == p { heights := heights + {h}; }
      }
      assert heights == set h | h in s.pendingBlocks && s.pendingBlocks[h] == p;
      return |heights|;
    }

    /** Groups the peers that can serve h by their open requests, and takes the first of the least loaded group. */
    method SelectPeer(h: nat) returns (best: Option<PeerID>)
      ensures best.None? ==> forall p :: !Covers(s, p, h)
      ensures best.Some? ==> Best(s, h, best.value)
    {
      var peers := GetPeersWithHeight(h);
      if peers == {} { return None; }
      var groups := GroupByLoad(peers);
      var p0 :| p0 in peers;
      assert Load(s, p0) in groups;
      var n := LeastKey(groups);
      var p := LeastID(groups[n]);
      hide Load;
      assert Best(s, h, p);
      return Some(p);
    }

    method GroupByLoad(peers: set<PeerID>) returns (groups: map<nat, set<PeerID>>)
      ensures forall n | n in groups :: groups[n] != {} && forall p | p in groups[n] :: p in peers && Load(s, p) == n
      ensures forall p | p in peers :: Load(s, p) in groups && p in groups[Load(s, p)]
    {
      hide Load;
      groups := map[];
      var todo := peers;
      while todo != {}
        invariant todo <= peers
        invariant forall n | n in groups :: groups[n] != {} && forall p | p in groups[n] :: p in peers && Load(s, p) == n
        invariant forall p | p in peers && p !in todo :: Load(s, p) in groups && p in groups[Load(s, p)]
        decreases |todo|
      {
        var p :| p in todo;
        todo := todo - {p};
        var n := PendingFrom(p);
        groups := groups[n := (if n in groups then groups[n] else {}) + {p}];
      }
    }

    static method LeastKey(groups: map<nat, set<PeerID>>) returns (n: nat)
      requires groups != map[]
      ensures n in groups && forall k | k in groups :: n <= k
    {
      n :| n in groups;
      var todo := groups.Keys;
      while todo != {}
        invariant todo <= groups.Keys && n in groups
        invariant forall k | k in groups :: k in todo || n <= k
        decreases |todo|
      {
        var k :| k in todo;
        todo := todo - {k};
        if k < n { n := k; }
      }
    }

    static method LeastID(ps: set<PeerID>) returns (p: PeerID)
      requires ps != {}
      ensures p in ps && forall q | q in ps :: p <= q
    {
      p :| p in ps;
      var todo := ps;
      while todo != {}
        invariant todo <= ps && p in ps
        invariant forall q | q in ps :: q in todo || p <= q
        decreases |todo|
      {
        var q :| q in todo;
        todo := todo - {q};
        if q < p { p := q; }
      }
    }

    // -------------------------------------------------------------- changing loops

    method ClearPending(p: PeerID)
      modifies this
      ensures var hs := OwnedBy(old(s).pendingBlocks, p);
              s == old(s).(blockStates := Renewed(old(s).blockStates, hs),
                           pendingBlocks := old(s).pendingBlocks - hs, pendingTime := old(s).pendingTime - hs)
    {
      var todo := s.pendingBlocks.Keys;
      ghost var s0, owned, done: set<nat> := s, OwnedBy(s.pendingBlocks, p), {};
      TodoEnds(s.pendingBlocks, p);
      RenewedNone(s.blockStates);
      MinusStep(s.pendingBlocks, {}, 0);
      MinusStep(s.pendingTime, {}, 0);
      hide Renewed, OwnedBy;
      while todo != {}
        invariant todo <= s0.pendingBlocks.Keys && done == owned - todo
        invariant s == s0.(blockStates := Renewed(s0.blockStates, done),
                           pendingBlocks := s0.pendingBlocks - done, pendingTime := s0.pendingTime - done)
        decreases |todo|
      {
        var h :| h in todo;
        TodoStep(s0.pendingBlocks, p, todo, h);
        todo := todo - {h};
        if s.pendingBlocks[h] == p {
          RenewedStep(s0.blockStates, done, h);
          MinusStep(s0.pendingBlocks, done, h);
          MinusStep(s0.pendingTime, done, h);
          ReopenPending(h);
          done := done + {h};
        }
      }
      assert done == owned;
    }

    method ReopenPending(h: nat)
      modifies this
      ensures s == old(s).(blockStates := old(s).blockStates[h := BlockState.New],
                           pendingBlocks := old(s).pendingBlocks - {h}, pendingTime := old(s).pendingTime - {h})
    {
      s := s.(blockStates := s.blockStates[h := BlockState.New]);
      s := s.(pendingTime := s.pendingTime - {h});
      s := s.(pendingBlocks := s.pendingBlocks - {h});
    }

    method ClearReceived(p: PeerID)
      modifies this
      ensures var hs := OwnedBy(old(s).receivedBlocks, p);
              s == old(s).(blockStates := Renewed(old(s).blockStates, hs), receivedBlocks := old(s).receivedBlocks - hs)
    {
      var todo := s.receivedBlocks.Keys;
      ghost var s0, owned, done: set<nat> := s, OwnedBy(s.receivedBlocks, p), {};
      TodoEnds(s.receivedBlocks, p);
      RenewedNone(s.blockStates);
      MinusStep(s.receivedBlocks, {}, 0);
      hide Renewed, OwnedBy;
      while todo != {}
        invariant todo <= s0.receivedBlocks.Keys && done == owned - todo
        invariant s == s0.(blockStates := Renewed(s0.blockStates, done), receivedBlocks := s0.receivedBlocks - done)
        decreases |todo|
      {
        var h :| h in todo;
        TodoStep(s0.receivedBlocks, p, todo, h);
        todo := todo - {h};
        if s.receivedBlocks[h] == p {
          RenewedStep(s0.blockStates, done, h);
          MinusStep(s0.receivedBlocks, done, h);
          ReopenReceived(h);
          done := done + {h};
        }
      }
      assert done == owned;
    }

    method ReopenReceived(h: nat)
      modifies this
      ensures s == old(s).(blockStates := old(s).blockStates[h := BlockState.New], receivedBlocks := old(s).receivedBlocks - {h})
    {
      s := s.(blockStates := s.blockStates[h := BlockState.New]);
      s := s.(receivedBlocks := s.receivedBlocks - {h});
    }

    method DropAbove(m: nat)
      modifies this
      ensures s == old(s).(blockStates := UpTo(old(s).blockStates, m))
    {
      var todo := s.blockStates.Keys;
      ghost var s0 := s;
      DroppingEnds(s0.blockStates, m);
      while todo != {}
        invariant todo <= s0.blockStates.Keys
        invariant s == s0.(blockStates := Dropping(s0.blockStates, m, todo))
        decreases |todo|
      {
        var h :| h in todo;
        DroppingStep(s0.blockStates, m, todo, h);
        todo := todo - {h};
        if h > m { s := s.(blockStates := s.blockStates - {h}); }
      }
    }

    method RemovePeer(p: PeerID)
      modifies this
      ensures s == Scheduler.RemovePeer(old(s), p)
    {
      if p !in s.peers { return; }
      if s.peers[p].state == Removed { return; }
      ghost var s0 := s;
      hide MaxReady, Renewed, UpTo;
      ClearPending(p);
      ClearReceived(p);
      RenewedTwice(s0.blockStates, OwnedBy(s0.pendingBlocks, p), OwnedBy(s0.receivedBlocks, p));
      s := s.(peers := s.peers[p := s.peers[p].(state := Removed)]);
      var m := BestHeight(0);
      DropAbove(m);
    }

    method AddNewBlocks()
      requires s.height >= 1
      modifies this
      ensures s == Scheduler.AddNewBlocks(c, old(s))
    {
      if |s.blockStates| >= c.targetPending { return; }
      var max := MaxHeight();
      hide MaxReady, Window, Filled;
      FillWindow(max);
    }

    method FillWindow(max: nat)
      requires s.height <= max + 1
      modifies this
      ensures var reach := max + 1 - old(s).height;
              var n := if reach < c.targetPending then reach else c.targetPending;
              s == old(s).(blockStates := Filled(old(s).blockStates, Window(old(s).height, n)))
    {
      ghost var s0 := s;
      var i := s.height;
      FilledNone(s0.blockStates, s0.height);
      hide Window, Filled, WithNew;
      while i < c.targetPending + s.height && i <= max
        invariant s0.height <= i <= max + 1 && i <= s0.height + c.targetPending
        invariant s == s0.(blockStates := Filled(s0.blockStates, Window(s0.height, i - s0.height)))
      {
        FilledStep(s0.blockStates, s0.height, i - s0.height);
        AddNewBlock(i);
        i := i + 1;
      }
    }

    method AddNewBlock(h: nat)
      modifies this
      ensures s == old(s).(blockStates := WithNew(old(s).blockStates, h))
    {
      if h !in s.blockStates { s := s.(blockStates := s.blockStates[h := BlockState.New]); }
    }

    method SetPeerRange(p: PeerID, base: nat, height: nat) returns (ok: bool)
      requires s.height >= 1
      modifies this
      ensures (s, ok) == Scheduler.SetPeerRange(c, old(s), p, base, height)
    {
      hide Scheduler.RemovePeer, Scheduler.AddNewBlocks;
      if p !in s.peers { s := s.(peers := s.peers[p := NEW_PEER]); }
      var peer := s.peers[p];
      if peer.state == Removed { return true; }
      if height < peer.height {
        RemovePeer(p);
        return false;
      }
      if base > height {
        RemovePeer(p);
        return false;
      }
      s := s.(peers := s.peers[p := peer.(base := base, height := height, state := Ready)]);
      AddNewBlocks();
      return true;
    }

    // -------------------------------------------------------------- handlers

    method HandleBlockResponse(p: PeerID, block: Block, size: nat, time: int) returns (out: Output)
      modifies this
      ensures (s, out) == Scheduler.HandleBlockResponse(old(s), p, block, size, time)
    {
      hide Scheduler.RemovePeer;
      if p !in s.peers || s.peers[p].state != Ready { return NoOp; }
      s := s.(peers := s.peers[p := s.peers[p].(lastTouched := time)]);
      var r := MarkReceived(s, p, block.height, size, time);
      if r.None? {
        RemovePeer(p);
        return PeerError(p);
      }
      s := r.value;
      return BlockReceived(p, block);
    }

    method HandleTrySchedule(time: int, clock: int) returns (out: Output)
      modifies this
      ensures (s, out) == Scheduler.HandleTrySchedule(c, old(s), time, clock)
    {
      if clock - s.lastAdvance > c.syncTimeout { return Finished; }
      hide Load;
      var next := NextHeightToSchedule();
      if next.None? { return NoOp; }
      var best := SelectPeer(next.value);
      if best.None? { return SchedulerFail; }
      forall q | Best(s, next.value, q) ensures q == best.value { BestUnique(s, next.value, q, best.value); }
      var r := MarkPending(s, best.value, next.value, time);
      if r.None? { return SchedulerFail; }
      s := r.value;
      return BlockRequest(best.value, next.value);
    }

    method CheckPrunable() returns (b: bool)
      ensures b <==> IsPrunable(s)
    {
      var todo := s.peers.Keys;
      while todo != {}
        invariant todo <= s.peers.Keys && forall p | p in s.peers && p !in todo :: s.peers[p].height > s.initHeight
        decreases |todo|
      {
        var p :| p in todo;
        if s.peers[p].height <= s.initHeight { return true; }
        todo := todo - {p};
      }
      return false;
    }

    /** Goes through the peers in any order, then sorts what it found. */
    method PrunablePeers(time: int) returns (l: seq<PeerID>)
      ensures l == Prunable(c, s, time)
    {
      hide Lists, Insert;
      var found: seq<PeerID>, todo := [], s.peers.Keys;
      while todo != {}
        invariant todo <= s.peers.Keys && Collected(found, SlowPeers(c, s, time) - todo)
        decreases |todo|
      {
        var p :| p in todo;
        ghost var before := found;
        if s.peers[p].state == Ready {
          if time - s.peers[p].lastTouched > c.peerTimeout || s.peers[p].lastRate < c.minRecvRate {
            var pruning := CheckPrunable();
            if pruning { found := found + [p]; }
          }
        }
        CollectStep(before, SlowPeers(c, s, time), todo, p);
        todo := todo - {p};
      }
      assert SlowPeers(c, s, time) - todo == SlowPeers(c, s, time);
      l := [];
      SortStart(found);
      for i := 0 to |found|
        invariant Lists(l, Elements(found[..i]))
      {
        SortStep(found, SlowPeers(c, s, time), i, l);
        l := Insert(l, found[i]);
      }
      Sorted(found, SlowPeers(c, s, time), l);
      ListUnique(l, Prunable(c, s, time), SlowPeers(c, s, time));
    }

    method HandleTryPrunePeer(time: int, clock: int) returns (out: Output)
      requires s.height >= 1
      modifies this
      ensures (s, out) == Scheduler.HandleTryPrunePeer(c, old(s), time, clock)
    {
      hide Scheduler.RemovePeer, Scheduler.AllBlocksProcessed, Prunable;
      if s.height in s.pendingTime && clock - s.pendingTime[s.height] > c.peerTimeout && s.height in s.pendingBlocks {
        RemoveKeepsHeight(s, s.pendingBlocks[s.height]);
        RemovePeer(s.pendingBlocks[s.height]);
      }
      var prunable := PrunablePeers(time);
      if prunable == [] { return NoOp; }
      ghost var s1 := s;
      var i := 0;
      assert prunable[..0] == [];
      while i < |prunable|
        invariant 0 <= i <= |prunable| && s == RemovePeers(s1, prunable[..i]) && s.height == s1.height
      {
        assert prunable[..i + 1][..i] == prunable[..i];
        RemoveKeepsHeight(s, prunable[i]);
        RemovePeer(prunable[i]);
        i := i + 1;
      }
      assert prunable[..i] == prunable;
      var done := AllBlocksProcessed();
      return if done then Finished else PeersPruned(prunable);
    }

    /** One event; a processed height other than the expected one stops the program. */
    method Handle(ev: Event) returns (out: Output)
      requires s.height >= 1
      modifies this
      ensures (s, out) == Scheduler.Handle(c, old(s), ev)
    {
      hide Scheduler.RemovePeer, Scheduler.AllBlocksProcessed, Scheduler.SetPeerRange, Scheduler.HandleBlockResponse,
        Scheduler.HandleTrySchedule, Scheduler.HandleTryPrunePeer, Scheduler.AddNewBlocks;
      match ev {
        case StatusResponse(p, base, height) =>
          var ok := SetPeerRange(p, base, height);
          out := if ok then NoOp else PeerError(p);
        case BlockResponse(p, block, size, time) => out := HandleBlockResponse(p, block, size, time);
        case NoBlockResponse(p) =>
          if p !in s.peers || s.peers[p].state == Removed { return NoOp; }
          RemovePeer(p);
          out := PeerError(p);
        case TrySchedule(time, clock) => out := HandleTrySchedule(time, clock);
        case AddNewPeer(p) =>
          if p !in s.peers { s := s.(peers := s.peers[p := NEW_PEER]); }
          out := NoOp;
        case RemovePeerEv(p) =>
          RemoveKeepsHeight(s, p);
          RemovePeer(p);
          var done := AllBlocksProcessed();
          out := if done then Finished else PeerError(p);
        case TryPrunePeer(time, clock) => out := HandleTryPrunePeer(time, clock);
        case BlockProcessed(h, clock) =>
          if h != s.height { return Panic; }
          s := Forget(s, h, clock);
          AddKeepsHeight(c, s);
          AddNewBlocks();
          var done := AllBlocksProcessed();
          out := if done then Finished else NoOp;
        case BlockProcessError(first, second) =>
          RemoveKeepsHeight(s, first);
          RemovePeer(first);
          if first != second {
            RemoveKeepsHeight(s, second);
            RemovePeer(second);
          }
          var done := AllBlocksProcessed();
          out := if done then Finished else NoOp;
      }
    }
  }

  function WithNew(bs: map<nat, BlockState>, h: nat): map<nat, BlockState> {
    if h in bs then bs else bs[h := BlockState.New]
  }

  lemma FilledNone(bs: map<nat, BlockState>, lo: nat)
    ensures Filled(bs, Window(lo, 0)) == bs
  {}

  lemma FilledStep(bs: map<nat, BlockState>, lo: nat, n: nat)
    ensures Filled(bs, Window(lo, n + 1)) == WithNew(Filled(bs, Window(lo, n)), lo + n)
  {
    assert Window(lo, n + 1) == Window(lo, n) + {lo + n};
    hide Window, WithNew, Filled;
    FilledOne(bs, Window(lo, n), lo + n);
  }

  lemma FilledOne(bs: map<nat, BlockState>, hs: set<nat>, h: nat)
    ensures Filled(bs, hs + {h}) == WithNew(Filled(bs, hs), h)
  {}

  lemma RemoveKeepsHeight(s: State, p: PeerID)
    ensures RemovePeer(s, p).height == s.height
  {}

  lemma AddKeepsHeight(c: Config, s: State)
    ensures AddNewBlocks(c, s).height == s.height
  {}
}
