/** No waiting step without a timer: every step a timeout is meant to end has one scheduled, and it moves the node on. */
module RoundProgress {
  import opened Basics
  import opened VotingPower
  import opened VoteSets
  import opened RoundMachine
  import opened RoundInvariant
  import opened Agreement
  import opened Network
  import opened TimeoutTicker

  predicate Armed(n: Node, step: Step) { Timeout(n.height, n.round, step) in n.scheduled }

  /** The step waits for its timeout. A new round waits only when empty blocks are made after an interval. */
  predicate Waiting(c: Config, step: Step) {
    step in {NEW_HEIGHT, PROPOSE, PREVOTE_WAIT} || (step == NEW_ROUND && c.emptyBlocksInterval)
  }

  ghost predicate WaitInv(c: Config, n: Node) {
    n.panicked.None? ==>
      && (Waiting(c, n.step) ==> Armed(n, n.step))
      && (n.triggeredTimeoutPrecommit ==> Armed(n, PRECOMMIT_WAIT))
      && (n.step in {NEW_HEIGHT, NEW_ROUND} ==> n.round == 1)
  }

  lemma PrevoteWaits(c: Config, n: Node, height: nat, round: Round)
    requires WaitInv(c, n) && round <= n.round
    ensures WaitInv(c, EnterPrevote(c, n, height, round))
  {
    hide PrevoteChoice;
  }

  lemma ProposeWaits(c: Config, n: Node, height: nat, round: Round)
    requires round == n.round && (n.triggeredTimeoutPrecommit ==> Armed(n, PRECOMMIT_WAIT))
    requires n.panicked.None? && n.height == height && n.step < PROPOSE
    ensures WaitInv(c, EnterPropose(c, n, height, round))
  {
    var n1 := Schedule(n, round, PROPOSE).(round := round, step := PROPOSE);
    assert n1.scheduled[|n.scheduled|] == Timeout(height, round, PROPOSE);
    hide EnterPrevote, IsProposalComplete;
    PrevoteWaits(c, n1, height, round);
  }

  lemma NewRoundWaits(c: Config, n: Node, height: nat, round: Round)
    requires WaitInv(c, n)
    ensures WaitInv(c, EnterNewRound(c, n, height, round))
  {
    hide EnterPropose, SetRound;
    if n.panicked.None? && height == n.height && (n.round < round || (n.round == round && n.step == NEW_HEIGHT)) {
      var tracked := SetRound(n.votes, (round + 1) % (MAX_ROUND + 1));
      if tracked.Some? {
        var n1 := n.(round := round, step := NEW_ROUND, votes := tracked.value, triggeredTimeoutPrecommit := false);
        var n2 := if round == 1 then n1 else n1.(proposal := None, proposalBlock := None, proposalParts := None);
        ProposeWaits(c, n2, height, round);
        assert Timeout(height, round, NEW_ROUND) in Schedule(n2, round, NEW_ROUND).scheduled;
      }
    }
  }

  lemma PrevoteWaitWaits(c: Config, n: Node, height: nat, round: Round)
    requires WaitInv(c, n) && round <= n.round
    ensures WaitInv(c, EnterPrevoteWait(c, n, height, round))
  {
    hide AnyTwoThirds;
    assert Timeout(n.height, round, PREVOTE_WAIT) in Schedule(n, round, PREVOTE_WAIT).scheduled;
  }

  lemma PrecommitWaits(c: Config, n: Node, height: nat, round: Round)
    requires WaitInv(c, n) && (n.panicked.None? && n.height == height ==> round <= n.round)
    ensures WaitInv(c, EnterPrecommit(c, n, height, round))
  {
    hide Majority, POLRound, PrecommitLock, PrecommitChoice;
    PrecommitLockKeeps(n, round, Majority(n.votes, round, Prevote));
  }

  lemma PrecommitWaitWaits(c: Config, n: Node, height: nat, round: Round)
    requires WaitInv(c, n)
    ensures WaitInv(c, EnterPrecommitWait(c, n, height, round))
  {
    hide AnyTwoThirds;
    assert Timeout(n.height, round, PRECOMMIT_WAIT) in Schedule(n, round, PRECOMMIT_WAIT).scheduled;
  }

  lemma FinalizeWaits(c: Config, n: Node, height: nat)
    requires WaitInv(c, n)
    ensures WaitInv(c, FinalizeCommit(c, n, height)) && WaitInv(c, TryFinalizeCommit(c, n, height))
  {
    hide Majority, UpdateToState, HasHeader;
    if n.proposalBlock.Some? { UpdateWaits(c, n.(decided := n.decided[n.height := n.proposalBlock.value])); }
  }

  lemma UpdateWaits(c: Config, n: Node)
    ensures WaitInv(c, UpdateToState(n))
  {
    hide Majority, GetVoteSet;
    var lc := if n.commitRound > 0 then GetVoteSet(n.votes, n.commitRound, Precommit) else n.lastCommit;
    var n2 := StartHeight(n.(lastCommit := lc), n.height + 1);
    assert Timeout(n.height + 1, 1, NEW_HEIGHT) in Schedule(n2, 1, NEW_HEIGHT).scheduled;
  }

  lemma CommitWaits(c: Config, n: Node, height: nat, round: Round)
    requires WaitInv(c, n)
    ensures WaitInv(c, EnterCommit(c, n, height, round))
  {
    hide Majority, TryFinalizeCommit;
    var maj := Majority(n.votes, round, Precommit);
    if maj.Some? { FinalizeWaits(c, PickCommitBlock(n, maj.value).(step := COMMIT, commitRound := round), height); }
  }

  /** The parts of a node that waiting depends on did not change. */
  predicate SameWait(n: Node, n': Node) {
    && n'.height == n.height && n'.round == n.round && n'.step == n.step && n'.scheduled == n.scheduled
    && n'.triggeredTimeoutPrecommit == n.triggeredTimeoutPrecommit && n'.panicked == n.panicked
  }

  lemma SameWaits(c: Config, n: Node, n': Node)
    requires WaitInv(c, n) && (SameWait(n, n') || n'.panicked.Some?)
    ensures WaitInv(c, n')
  {}

  lemma OnPrevoteWaits(c: Config, n: Node, round: Round)
    requires WaitInv(c, n)
    ensures WaitInv(c, OnPrevote(c, n, round))
  {
    hide WaitInv, EnterNewRound, EnterPrevote, EnterPrecommit, EnterPrevoteWait, Majority, AnyTwoThirds, IsProposalComplete;
    NewRoundWaits(c, n, n.height, round);
    PrevoteWaits(c, n, n.height, n.round);
    if n.round == round {
      PrecommitWaits(c, n, n.height, round);
      PrevoteWaitWaits(c, n, n.height, round);
    }
  }

  lemma OnPrecommitWaits(c: Config, h: seq<Vote>, n: Node, round: Round)
    requires WaitInv(c, n) && Inv(c, h, n) && n.panicked.None?
    ensures WaitInv(c, OnPrecommit(c, n, round))
  {
    hide WaitInv, Inv, Extends, EnterNewRound, EnterPrecommit, EnterPrecommitWait, EnterCommit, Majority, AnyTwoThirds, HasAll,
      GetVoteSet;
    var n1 := EnterNewRound(c, n, n.height, round);
    NewRoundWaits(c, n, n.height, round);
    EnterNewRoundInv(c, h, n, n.height, round);
    PrecommitWaits(c, n1, n.height, round);
    var n2 := EnterPrecommit(c, n1, n.height, round);
    PrecommitWaitWaits(c, n2, n.height, round);
    PrecommitWaitWaits(c, n1, n.height, round);
    CommitWaits(c, n2, n.height, round);
    var n3 := EnterCommit(c, n2, n.height, round);
    NewRoundWaits(c, n3, n3.height, 1);
  }

  lemma VoteWaits(c: Config, h: seq<Vote>, n: Node, vote: Vote, peer: Peer, sigOk: bool)
    requires WaitInv(c, n) && Inv(c, h, n) && n.panicked.None? && (sigOk ==> vote in h)
    ensures WaitInv(c, AddVoteMsg(c, n, vote, peer, sigOk))
  {
    hide WaitInv, Inv, Extends, OnPrevote, OnPrecommit, OnPolka, AddHeightVote, AddLateCommit;
    if vote.height + 1 == n.height && vote.typ == Precommit {
      LateCommitWaits(c, n, vote, sigOk);
    } else if vote.height == n.height {
      var votes' := AddHeightVote(c.vals(n.height), n.votes, vote, peer, sigOk).0;
      var n1 := n.(votes := votes');
      SameWaits(c, n, n1);
      assert VotesInv(c, h, n) by { InvParts(c, h, n); }
      AddHeightVoteConsistent(c.vals(n.height), n.votes, vote, peer, sigOk, h);
      NewVotesInv(c, h, n, votes');
      OnPrecommitWaits(c, h, n1, vote.round);
      OnPolkaWaits(c, n1, vote.round);
      OnPrevoteWaits(c, OnPolka(n1, vote.round), vote.round);
    }
  }

  lemma OnPolkaWaits(c: Config, n: Node, round: Round)
    requires WaitInv(c, n)
    ensures WaitInv(c, OnPolka(n, round))
  {
    hide Majority, WaitInv;
    SameWaits(c, n, OnPolka(n, round));
  }

  lemma LateCommitWaits(c: Config, n: Node, vote: Vote, sigOk: bool)
    requires WaitInv(c, n) && n.panicked.None?
    ensures WaitInv(c, AddLateCommit(c, n, vote, sigOk))
  {
    hide WaitInv, EnterNewRound, AddVote, HasAll;
    if n.lastCommit.Some? {
      var n1 := n.(lastCommit := Some(AddVote(c.vals(vote.height), n.lastCommit.value, vote, sigOk).0));
      SameWaits(c, n, n1);
      NewRoundWaits(c, n1, n1.height, 1);
    } else {
      SameWaits(c, n, Fail(n, NoLastCommit));
    }
  }

  lemma BlockPartWaits(c: Config, n: Node, height: nat, result: PartResult)
    requires WaitInv(c, n)
    ensures WaitInv(c, AddProposalBlockPart(c, n, height, result))
  {
    hide WaitInv, EnterPrevote, EnterPrecommit, TryFinalizeCommit, Majority, IsProposalComplete;
    if n.height == height && n.proposalParts.Some? && !result.Partial? {
      var n1 := StoreBlock(n, result);
      SameWaits(c, n, n1);
      PrevoteWaits(c, n1, height, n1.round);
      var n2 := EnterPrevote(c, n1, height, n1.round);
      PrecommitWaits(c, n2, height, n2.round);
      FinalizeWaits(c, n1, height);
    }
  }

  lemma TimeoutWaits(c: Config, h: seq<Vote>, n: Node, t: Timeout)
    requires WaitInv(c, n) && Inv(c, h, n) && n.panicked.None? && t in n.scheduled
    ensures WaitInv(c, HandleTimeout(c, n, t))
  {
    hide Inv, EnterNewRound, EnterPropose, EnterPrevote, EnterPrecommit;
    NotAhead(c, h, n, t);
    if t.height == n.height && t.round == n.round {
      NewRoundWaits(c, n, t.height, 1);
      if n.step < PROPOSE && n.round == 1 { ProposeWaits(c, n, t.height, 1); } else { ProposeIgnored(c, n, t.height); }
      PrevoteWaits(c, n, t.height, t.round);
      PrecommitWaits(c, n, t.height, t.round);
      NewRoundWaits(c, EnterPrecommit(c, n, t.height, t.round), t.height, (t.round + 1) % (MAX_ROUND + 1));
    }
  }

  lemma ProposeIgnored(c: Config, n: Node, height: nat)
    requires n.round > 1 || PROPOSE <= n.step || n.panicked.Some?
    ensures n.round >= 1 ==> EnterPropose(c, n, height, 1) == n
  {}

  lemma HandleWaits(c: Config, h: seq<Vote>, n: Node, e: Event)
    requires WaitInv(c, n) && Inv(c, h, n) && Possible(h, n, e)
    ensures WaitInv(c, Handle(c, n, e))
  {
    hide WaitInv, Inv, AddVoteMsg, AddProposalBlockPart, HandleTimeout, SetHeightPeerMaj23;
    if n.panicked.None? {
      match e
      case VoteMsg(vote, peer, sigOk) => VoteWaits(c, h, n, vote, peer, sigOk);
      case ProposalMsg(p, sigOk) => SameWaits(c, n, SetProposal(n, p, sigOk));
      case BlockPartMsg(height, result) => BlockPartWaits(c, n, height, result);
      case PeerMaj23Msg(r, typ, peer, id) => SameWaits(c, n, n.(votes := SetHeightPeerMaj23(n.votes, r, typ, peer, id)));
      case TimeoutMsg(t) => TimeoutWaits(c, h, n, t);
    }
  }

  /** The node stopped for good or went strictly forward. */
  predicate MovesOn(n: Node, n': Node) {
    n'.panicked.Some? || CompareHRS(n.height, n.round, n.step, n'.height, n'.round, n'.step) < 0
  }

  /** The node is past the step the timeout was for. */
  predicate Passed(n: Node, t: Timeout) { CompareHRS(t.height, t.round, t.step, n.height, n.round, n.step) < 0 }

  /** The node stopped for good, or is in the round at the step or later. */
  predicate Arrived(n: Node, height: nat, round: Round, step: Step) {
    n.panicked.Some? || (n.height == height && n.round == round && step <= n.step)
  }

  /** A timeout of the current round, for the node's step or a later one, takes the node past that step. */
  lemma TimeoutAdvances(c: Config, n: Node, t: Timeout)
    requires WaitInv(c, n) && n.panicked.None? && 1 <= n.round
    requires t.height == n.height && t.round == n.round && n.step <= t.step && TimeoutStep(t.step)
    requires t.step == PRECOMMIT_WAIT ==> n.round < MAX_ROUND
    ensures var n' := HandleTimeout(c, n, t); n'.panicked.Some? || Passed(n', t)
  {
    hide EnterNewRound, EnterPropose, EnterPrevote, EnterPrecommit;
    if t.step == NEW_HEIGHT {
      NewRoundArrives(c, n, 1);
    } else if t.step == NEW_ROUND {
      ProposeArrives(c, n);
    } else if t.step == PROPOSE {
      PrevoteArrives(c, n);
    } else {
      PrecommitArrives(c, n);
      var n1 := EnterPrecommit(c, n, n.height, n.round);
      if t.step == PRECOMMIT_WAIT && n1.panicked.None? {
        NewRoundArrives(c, n1, n.round + 1);
      } else if t.step == PRECOMMIT_WAIT {
        StoppedStays(c, n1, n.height, n.round + 1);
      }
    }
  }

  lemma StoppedStays(c: Config, n: Node, height: nat, round: Round)
    requires n.panicked.Some?
    ensures EnterNewRound(c, n, height, round) == n
  {}

  lemma NewRoundArrives(c: Config, n: Node, round: Round)
    requires n.panicked.None? && (n.round < round || (n.round == round && n.step == NEW_HEIGHT))
    ensures Arrived(EnterNewRound(c, n, n.height, round), n.height, round, NEW_ROUND)
  {
    hide SetRound, IsProposalComplete, PrevoteChoice;
  }

  lemma ProposeArrives(c: Config, n: Node)
    requires n.panicked.None? && n.step < PROPOSE
    ensures Arrived(EnterPropose(c, n, n.height, n.round), n.height, n.round, PROPOSE)
  {
    hide IsProposalComplete, PrevoteChoice;
  }

  lemma PrevoteArrives(c: Config, n: Node)
    requires n.panicked.None? && n.step < PREVOTE
    ensures Arrived(EnterPrevote(c, n, n.height, n.round), n.height, n.round, PREVOTE)
  {
    hide PrevoteChoice;
  }

  lemma PrecommitArrives(c: Config, n: Node)
    requires n.panicked.None?
    ensures Arrived(EnterPrecommit(c, n, n.height, n.round), n.height, n.round, PRECOMMIT)
  {
    hide Majority, POLRound, PrecommitLock, PrecommitChoice;
    PrecommitLockKeeps(n, n.round, Majority(n.votes, n.round, Prevote));
  }

  /** Out of the largest round number there is no way: the timeout would name round zero. */
  lemma LastRoundStays(c: Config, n: Node)
    requires n.panicked.None? && n.round == MAX_ROUND && n.step in {PRECOMMIT, PRECOMMIT_WAIT}
    ensures HandleTimeout(c, n, Timeout(n.height, n.round, PRECOMMIT_WAIT)) == n
  {}

  /** The timeout that would have to leave the largest round. */
  predicate NoWayOut(t: Timeout) { t.round == MAX_ROUND && t.step == PRECOMMIT_WAIT }

  /** Once a timeout has been taken up, its node is past the step it was for. */
  lemma TockPasses(c: Config, h: seq<Vote>, n: Node, t: Timeout)
    requires WaitInv(c, n) && Inv(c, h, n) && n.panicked.None? && t in n.scheduled
    ensures var n' := HandleTimeout(c, n, t); n'.panicked.Some? || Passed(n', t) || NoWayOut(t)
  {
    hide Inv, EnterNewRound, EnterPropose, EnterPrevote, EnterPrecommit;
    NotAhead(c, h, n, t);
    if t.height == n.height && t.round == n.round && n.step <= t.step && !NoWayOut(t) { TimeoutAdvances(c, n, t); }
  }

  lemma PassedStays(n: Node, n': Node, t: Timeout)
    requires Forward(n, n')
    ensures Passed(n, t) ==> Passed(n', t)
  {}

  lemma GoesForward(n: Node, n': Node)
    requires Extends(n, n')
    ensures Forward(n, n')
  {}

  /** A waiting node is not past the latest timeout it asked for. */
  lemma HeldByTimer(c: Config, h: seq<Vote>, n: Node, t: Timeout)
    requires WaitInv(c, n) && Inv(c, h, n) && n.panicked.None? && Waiting(c, n.step)
    requires t in n.scheduled && forall u | u in n.scheduled :: !Later(u, t)
    ensures !Passed(n, t) && t.height == n.height && t.round == n.round && n.step <= t.step
  {
    hide Inv;
    NotAhead(c, h, n, t);
    assert !Later(Timeout(n.height, n.round, n.step), t);
  }

  /** Although the ticker keeps only the latest timeout asked for, what it fires always moves a waiting node on. */
  lemma TickerMovesOn(c: Config, h: seq<Vote>, n: Node, t: Timeout)
    requires WaitInv(c, n) && Inv(c, h, n) && n.panicked.None? && Waiting(c, n.step) && n.round < MAX_ROUND
    requires t in n.scheduled && forall u | u in n.scheduled :: !Later(u, t)
    ensures MovesOn(n, HandleTimeout(c, n, t))
  {
    hide Inv, HandleTimeout;
    NotAhead(c, h, n, t);
    HeldByTimer(c, h, n, t);
    TimeoutAdvances(c, n, t);
  }

  lemma PrecommitLockKeeps(n: Node, round: Round, polka: Option<BlockID>)
    ensures SameWait(n, PrecommitLock(n, round, polka)) && PrecommitLock(n, round, polka).votes == n.votes
  {}

  lemma StartWaits(c: Config, s: System, v: Val)
    requires Init(s) && v in s.nodes
    ensures WaitInv(c, s.nodes[v])
  {
    var height: nat, lc: Option<VoteSet> :| s.nodes[v] == NewNode(v, height, lc);
  }

  lemma NextWaits(c: Config, s: System, a: Action, s': System, v: Val)
    requires SystemInv(c, s) && Next(c, s, a, s') && v in s.nodes && WaitInv(c, s.nodes[v])
    ensures v in s'.nodes && WaitInv(c, s'.nodes[v])
  {
    hide Inv, Handle, WaitInv, Disciplined;
    if a.NodeInput? && a.v == v {
      assert NodeOK(c, s.history, v, s.nodes[v]);
      HandleWaits(c, s.history, s.nodes[v], a.e);
    }
  }

  /** In every state of every run, each correct node that waits for a timeout has scheduled it, and it will move the node on. */
  lemma {:induction false} NoStuckWait(c: Config, run: seq<System>, i: nat, v: Val)
    requires Network.IsRun(c, run) && i < |run| && v in run[0].nodes
    ensures v in run[i].nodes && WaitInv(c, run[i].nodes[v])
  {
    hide Init, Next, SystemInv, WaitInv;
    if i == 0 {
      StartWaits(c, run[0], v);
    } else {
      NoStuckWait(c, run, i - 1, v);
      Network.RunInv(c, run, i - 1);
      assert Network.Steps(c, run[i - 1], run[i]);
      var a :| Network.Next(c, run[i - 1], a, run[i]);
      NextWaits(c, run[i - 1], a, run[i], v);
    }
  }
}
