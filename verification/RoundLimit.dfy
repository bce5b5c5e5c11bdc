/**
 Round numbers are 32-bit and the code adds to them without a check. While less than a third of the power is Byzantine,
 no correct node gets past round LAST, and the sanity checks on round numbers and on the last commit fail only there
 or at a start without a last commit.
 */
module RoundLimit {
  import opened Basics
  import opened VotingPower
  import opened VoteSets
  import opened RoundMachine
  import opened RoundInvariant
  import opened Agreement
  import opened Network
  import opened RoundProgress
  import opened TimeoutTicker

  const LAST: Round := MAX_ROUND - 2

  /** The vote sets track one round ahead, or the node has not entered a round of this height yet. */
  predicate Tracking(n: Node) { n.votes.round == n.round + 1 || (n.round == 1 && n.votes.round == 1) }

  ghost predicate Within(n: Node) {
    && 1 <= n.round <= LAST
    && (n.panicked.None? ==> Tracking(n))
    && (n.panicked == Some(SetRoundFailed) ==> n.round == LAST)
    && (n.panicked == Some(NoLastCommit) ==> n.lastCommit.None?)
    && (forall w | w in n.signed :: w.round <= LAST)
  }

  /** A node without a last commit has been without one since it started, at the same height. */
  predicate KeepsStart(n: Node, n': Node) { n'.lastCommit.None? ==> n.lastCommit.None? && n'.height == n.height }

  /** Tracking the round after r fails exactly when that round is the largest or wraps to zero. */
  lemma SetRoundFails(n: Node, r: Round)
    requires Tracking(n) && 1 <= n.round <= r
    ensures SetRound(n.votes, (r + 1) % (MAX_ROUND + 1)).None? <==> r == MAX_ROUND - 1 || (r == MAX_ROUND && n.votes.round != 1)
  {}

  lemma WithinRound(n: Node)
    requires Within(n)
    ensures 1 <= n.round <= LAST
  {}

  lemma SignWithin(c: Config, n: Node, typ: VoteType, id: BlockID)
    requires Within(n)
    ensures Within(SignVote(c, n, typ, id)) && KeepsStart(n, SignVote(c, n, typ, id))
  {}

  /** Nothing that the limit depends on changed, except that the node may have stopped for another reason. */
  predicate SameLimit(n: Node, n': Node) {
    && n'.height == n.height && n'.round == n.round && n'.votes.round == n.votes.round && n'.signed == n.signed
    && n'.lastCommit.None? == n.lastCommit.None?
    && (n'.panicked == n.panicked || n'.panicked !in {None, Some(SetRoundFailed), Some(NoLastCommit)})
  }

  lemma SameWithin(n: Node, n': Node)
    requires Within(n) && SameLimit(n, n')
    ensures Within(n') && KeepsStart(n, n')
  {}

  lemma PrevoteWithin(c: Config, n: Node, height: nat, round: Round)
    requires Within(n) && round <= n.round
    ensures Within(EnterPrevote(c, n, height, round)) && KeepsStart(n, EnterPrevote(c, n, height, round))
  {
    hide PrevoteChoice, SignVote;
    SignWithin(c, n, Prevote, PrevoteChoice(c, n));
    SignKeeps(c, n, Prevote, PrevoteChoice(c, n));
  }

  lemma SignKeeps(c: Config, n: Node, typ: VoteType, id: BlockID)
    ensures var n' := SignVote(c, n, typ, id);
            n'.height == n.height && n'.round == n.round && n'.votes == n.votes && n'.lastCommit == n.lastCommit
            && n'.panicked == n.panicked && n.signed <= n'.signed
  {}

  lemma ProposeWithin(c: Config, n: Node, height: nat, round: Round)
    requires Within(n) && round <= n.round
    ensures Within(EnterPropose(c, n, height, round)) && KeepsStart(n, EnterPropose(c, n, height, round))
  {
    hide EnterPrevote, IsProposalComplete, Within;
    if n.panicked.None? && height == n.height && round == n.round && n.step < PROPOSE {
      var n1 := Schedule(n, round, PROPOSE).(round := round, step := PROPOSE);
      SameWithin(n, n1);
      PrevoteWithin(c, n1, height, round);
    }
  }

  /** A round up to LAST is entered; the one after it stops a node that comes from LAST. */
  lemma NewRoundWithin(c: Config, n: Node, height: nat, round: Round)
    requires Within(n) && (round <= LAST || (round == LAST + 1 && n.round == LAST))
    ensures Within(EnterNewRound(c, n, height, round)) && KeepsStart(n, EnterNewRound(c, n, height, round))
  {
    hide EnterPropose, SetRound;
    if n.panicked.None? && height == n.height && (n.round < round || (n.round == round && n.step == NEW_HEIGHT)) {
      SetRoundFails(n, round);
      var tracked := SetRound(n.votes, (round + 1) % (MAX_ROUND + 1));
      if tracked.Some? {
        SetRoundTracks(n.votes, (round + 1) % (MAX_ROUND + 1));
        var n1 := n.(round := round, step := NEW_ROUND, votes := tracked.value, triggeredTimeoutPrecommit := false);
        var n2 := if round == 1 then n1 else n1.(proposal := None, proposalBlock := None, proposalParts := None);
        ProposeWithin(c, n2, height, round);
        assert Within(Schedule(n2, round, NEW_ROUND));
      }
    }
  }

  lemma PrevoteWaitWithin(c: Config, n: Node, height: nat, round: Round)
    requires Within(n) && round <= n.round
    ensures Within(EnterPrevoteWait(c, n, height, round)) && KeepsStart(n, EnterPrevoteWait(c, n, height, round))
  {
    hide AnyTwoThirds, Within;
    SameWithin(n, EnterPrevoteWait(c, n, height, round));
  }

  lemma LockSame(n: Node, round: Round, polka: Option<BlockID>)
    ensures SameLimit(n, PrecommitLock(n, round, polka))
  {}

  lemma PrecommitWithin(c: Config, n: Node, height: nat, round: Round)
    requires Within(n) && (n.panicked.None? && n.height == height ==> round <= n.round)
    ensures Within(EnterPrecommit(c, n, height, round)) && KeepsStart(n, EnterPrecommit(c, n, height, round))
  {
    hide Majority, POLRound, PrecommitLock, PrecommitChoice, Within, SignVote;
    if n.panicked.None? && n.height == height && round == n.round && n.step < PRECOMMIT {
      var polka := Majority(n.votes, round, Prevote);
      var n1, id := PrecommitLock(n, round, polka), PrecommitChoice(n, polka);
      LockSame(n, round, polka);
      SameWithin(n, n1);
      SignWithin(c, n1, Precommit, id);
      SignKeeps(c, n1, Precommit, id);
      var n2 := SignVote(c, n1, Precommit, id);
      SameWithin(n2, n2.(round := round, step := PRECOMMIT));
      SameWithin(n, Fail(n, PolRoundTooLow));
    }
  }

  lemma PrecommitWaitWithin(c: Config, n: Node, height: nat, round: Round)
    requires Within(n)
    ensures Within(EnterPrecommitWait(c, n, height, round)) && KeepsStart(n, EnterPrecommitWait(c, n, height, round))
  {
    hide AnyTwoThirds, Within;
    SameWithin(n, EnterPrecommitWait(c, n, height, round));
  }

  lemma NextHeightWithin(n: Node)
    requires Within(n) && n.panicked.None?
    ensures Within(UpdateToState(n)) && KeepsStart(n, UpdateToState(n))
  {}

  lemma FinalizeWithin(c: Config, n: Node, height: nat)
    requires Within(n)
    ensures Within(FinalizeCommit(c, n, height)) && KeepsStart(n, FinalizeCommit(c, n, height))
    ensures Within(TryFinalizeCommit(c, n, height)) && KeepsStart(n, TryFinalizeCommit(c, n, height))
  {
    hide Majority, UpdateToState, Within;
    SameWithin(n, n);
    forall p | p !in {SetRoundFailed, NoLastCommit} ensures Within(Fail(n, p)) && KeepsStart(n, Fail(n, p)) {
      SameWithin(n, Fail(n, p));
    }
    if n.panicked.None? && n.proposalBlock.Some? {
      var n1 := n.(decided := n.decided[n.height := n.proposalBlock.value]);
      SameWithin(n, n1);
      SameWithin(n1, Fail(n1, ApplyFailed));
      NextHeightWithin(n1);
    }
  }

  lemma CommitWithin(c: Config, n: Node, height: nat, round: Round)
    requires Within(n)
    ensures Within(EnterCommit(c, n, height, round)) && KeepsStart(n, EnterCommit(c, n, height, round))
  {
    hide Majority, TryFinalizeCommit, Within;
    SameWithin(n, Fail(n, CommitWithoutMajority));
    var maj := Majority(n.votes, round, Precommit);
    if maj.Some? {
      var n1 := PickCommitBlock(n, maj.value).(step := COMMIT, commitRound := round);
      SameWithin(n, n1);
      FinalizeWithin(c, n1, height);
    }
  }

  // ---------------------------------------------------------------- inputs

  /** No round above LAST has votes of more than two thirds of the power. */
  ghost predicate LowQuorums(c: Config, n: Node) {
    forall r: Round, typ: VoteType :: AnyTwoThirds(c.vals(n.height), n.votes, r, typ) ==> r <= LAST
  }

  lemma OnPrevoteWithin(c: Config, n: Node, round: Round)
    requires Within(n) && LowQuorums(c, n)
    ensures Within(OnPrevote(c, n, round)) && KeepsStart(n, OnPrevote(c, n, round))
  {
    hide Within, EnterNewRound, EnterPrevote, EnterPrecommit, EnterPrevoteWait, Majority, AnyTwoThirds, IsProposalComplete;
    if AnyTwoThirds(c.vals(n.height), n.votes, round, Prevote) { NewRoundWithin(c, n, n.height, round); }
    PrevoteWithin(c, n, n.height, n.round);
    if n.round == round {
      PrecommitWithin(c, n, n.height, round);
      PrevoteWaitWithin(c, n, n.height, round);
    }
  }

  lemma OnPrecommitWithin(c: Config, h: seq<Vote>, n: Node, round: Round)
    requires Within(n) && LowQuorums(c, n) && Inv(c, h, n) && n.panicked.None?
    ensures Within(OnPrecommit(c, n, round)) && KeepsStart(n, OnPrecommit(c, n, round))
  {
    hide Within, Inv, Extends, EnterNewRound, EnterPrecommit, EnterPrecommitWait, EnterCommit, Majority, AnyTwoThirds, HasAll,
      GetVoteSet;
    if Majority(n.votes, round, Precommit).Some? { MajorityIsAny(c, h, n, round); }
    if AnyTwoThirds(c.vals(n.height), n.votes, round, Precommit) {
      var n1 := EnterNewRound(c, n, n.height, round);
      NewRoundWithin(c, n, n.height, round);
      EnterNewRoundInv(c, h, n, n.height, round);
      PrecommitWithin(c, n1, n.height, round);
      var n2 := EnterPrecommit(c, n1, n.height, round);
      PrecommitWaitWithin(c, n2, n.height, round);
      PrecommitWaitWithin(c, n1, n.height, round);
      CommitWithin(c, n2, n.height, round);
      var n3 := EnterCommit(c, n2, n.height, round);
      NewRoundWithin(c, n3, n3.height, 1);
    }
  }

  lemma OnPolkaSame(n: Node, round: Round)
    ensures SameLimit(n, OnPolka(n, round)) && OnPolka(n, round).votes == n.votes
  {
    hide Majority, UnlockByPolka, UpdateValid;
    var polka := Majority(n.votes, round, Prevote);
    if polka.Some? {
      UnlockSame(n, round, polka.value);
      UpdateValidSame(UnlockByPolka(n, round, polka.value), round, polka.value);
    }
  }

  lemma UnlockSame(n: Node, round: Round, polka: BlockID)
    ensures var n' := UnlockByPolka(n, round, polka); SameLimit(n, n') && n'.votes == n.votes && n'.panicked == n.panicked
  {}

  lemma UpdateValidSame(n: Node, round: Round, polka: BlockID)
    ensures var n' := UpdateValid(n, round, polka); SameLimit(n, n') && n'.votes == n.votes && n'.panicked == n.panicked
  {
    hide HashesTo, HasHeader;
  }

  lemma LateCommitWithin(c: Config, n: Node, vote: Vote, sigOk: bool)
    requires Within(n) && n.panicked.None?
    ensures Within(AddLateCommit(c, n, vote, sigOk)) && KeepsStart(n, AddLateCommit(c, n, vote, sigOk))
  {
    hide EnterNewRound, AddVote, HasAll;
    if n.lastCommit.Some? {
      var n1 := n.(lastCommit := Some(AddVote(c.vals(vote.height), n.lastCommit.value, vote, sigOk).0));
      NewRoundWithin(c, n1, n1.height, 1);
      hide Within;
    }
  }

  lemma VoteWithin(c: Config, h: seq<Vote>, n: Node, vote: Vote, peer: Peer, sigOk: bool)
    requires Within(n) && Inv(c, h, n) && n.panicked.None? && (sigOk ==> vote in h)
    requires LowQuorums(c, n.(votes := AddHeightVote(c.vals(n.height), n.votes, vote, peer, sigOk).0))
    ensures Within(AddVoteMsg(c, n, vote, peer, sigOk)) && KeepsStart(n, AddVoteMsg(c, n, vote, peer, sigOk))
  {
    hide Within, Inv, Extends, OnPrevote, OnPrecommit, OnPolka, AddHeightVote, AddLateCommit, AnyTwoThirds;
    if vote.height + 1 == n.height && vote.typ == Precommit {
      LateCommitWithin(c, n, vote, sigOk);
    } else if vote.height == n.height {
      var votes' := AddHeightVote(c.vals(n.height), n.votes, vote, peer, sigOk).0;
      var n1 := n.(votes := votes');
      assert VotesInv(c, h, n) by { InvParts(c, h, n); }
      AddHeightVoteConsistent(c.vals(n.height), n.votes, vote, peer, sigOk, h);
      SameWithin(n, n1);
      NewVotesInv(c, h, n, votes');
      OnPrecommitWithin(c, h, n1, vote.round);
      OnPolkaSame(n1, vote.round);
      SameWithin(n1, OnPolka(n1, vote.round));
      OnPrevoteWithin(c, OnPolka(n1, vote.round), vote.round);
    }
  }

  lemma BlockPartWithin(c: Config, n: Node, height: nat, result: PartResult)
    requires Within(n)
    ensures Within(AddProposalBlockPart(c, n, height, result)) && KeepsStart(n, AddProposalBlockPart(c, n, height, result))
  {
    hide Within, EnterPrevote, EnterPrecommit, TryFinalizeCommit, Majority, IsProposalComplete;
    if n.height == height && n.proposalParts.Some? && !result.Partial? {
      var n1 := StoreBlock(n, result);
      SameWithin(n, n1);
      PrevoteWithin(c, n1, height, n1.round);
      var n2 := EnterPrevote(c, n1, height, n1.round);
      PrecommitWithin(c, n2, height, n2.round);
      FinalizeWithin(c, n1, height);
    }
  }

  lemma TimeoutWithin(c: Config, h: seq<Vote>, n: Node, t: Timeout)
    requires Within(n) && Inv(c, h, n) && n.panicked.None? && t in n.scheduled
    ensures Within(HandleTimeout(c, n, t)) && KeepsStart(n, HandleTimeout(c, n, t))
  {
    hide Inv, Within, Extends, EnterNewRound, EnterPropose, EnterPrevote, EnterPrecommit;
    assert 1 <= n.round <= LAST by { WithinRound(n); }
    assert t.height == n.height ==> t.round <= n.round by { HandleTimeoutInv(c, h, n, t); }
    if t.height != n.height || t.round < n.round || t.step < n.step {
      SameWithin(n, n);
    } else if t.step == NEW_HEIGHT {
      NewRoundWithin(c, n, t.height, 1);
    } else if t.step == NEW_ROUND {
      ProposeWithin(c, n, t.height, 1);
    } else if t.step == PROPOSE {
      PrevoteWithin(c, n, t.height, t.round);
    } else if t.step == PREVOTE_WAIT {
      PrecommitWithin(c, n, t.height, t.round);
    } else if t.step == PRECOMMIT_WAIT {
      var n1 := EnterPrecommit(c, n, t.height, t.round);
      PrecommitWithin(c, n, t.height, t.round);
      PrecommitKeepsRound(c, n, t.height, t.round);
      NewRoundWithin(c, n1, t.height, t.round + 1);
      assert KeepsStart(n, EnterNewRound(c, n1, t.height, t.round + 1));
    } else {
      SameWithin(n, Fail(n, InvalidTimeoutStep));
    }
  }

  lemma PrecommitKeepsRound(c: Config, n: Node, height: nat, round: Round)
    requires round <= n.round
    ensures EnterPrecommit(c, n, height, round).round == n.round
  {
    hide Majority, POLRound, PrecommitChoice;
  }

  /** The vote sets a node consults while handling an input. */
  function Consulted(c: Config, n: Node, e: Event): Node {
    if e.VoteMsg? then n.(votes := AddHeightVote(c.vals(n.height), n.votes, e.vote, e.peer, e.sigOk).0) else n
  }

  lemma HandleWithin(c: Config, h: seq<Vote>, n: Node, e: Event)
    requires Within(n) && Inv(c, h, n) && Possible(h, n, e) && LowQuorums(c, Consulted(c, n, e))
    ensures Within(Handle(c, n, e)) && KeepsStart(n, Handle(c, n, e))
  {
    hide Within, Inv, AddVoteMsg, AddProposalBlockPart, HandleTimeout, SetHeightPeerMaj23, AddHeightVote, AnyTwoThirds;
    if n.panicked.None? {
      match e
      case VoteMsg(vote, peer, sigOk) => VoteWithin(c, h, n, vote, peer, sigOk);
      case ProposalMsg(p, sigOk) => SameWithin(n, SetProposal(n, p, sigOk));
      case BlockPartMsg(height, result) => BlockPartWithin(c, n, height, result);
      case PeerMaj23Msg(r, typ, peer, id) =>
        ClaimKeepsRound(n.votes, r, typ, peer, id);
        SameWithin(n, n.(votes := SetHeightPeerMaj23(n.votes, r, typ, peer, id)));
      case TimeoutMsg(t) => TimeoutWithin(c, h, n, t);
    }
  }

  lemma ClaimKeepsRound(hvs: HeightVoteSet, r: Round, typ: VoteType, peer: Peer, id: BlockID)
    ensures SetHeightPeerMaj23(hvs, r, typ, peer, id).round == hvs.round
  {}

  // ---------------------------------------------------------------- runs

  /** Votes of more than two thirds of the power in a round include one that a correct validator signed. */
  lemma QuorumHasCorrectVote(c: Config, h: seq<Vote>, hvs: HeightVoteSet, byz: set<Val>, k: nat, r: Round, typ: VoteType)
    returns (w: Vote)
    requires MostlyCorrect(c, h, byz, k) && HeightConsistent(c.vals(k), hvs, h) && AnyTwoThirds(c.vals(k), hvs, r, typ)
    ensures w in h && w.val !in byz && w.val in c.vals(k).powers && w.round == r
  {
    hide Disciplined;
    var vals, vs := c.vals(k), GetVoteSet(hvs, r, typ).value;
    assert Consistent(vals, vs, h) && Tagged(hvs.height, r, hvs.rounds[r]);
    var v := QuorumHasCorrect(vals, vs.votes.Keys, byz);
    w := vs.votes[v];
  }

  /** Every vote of a correct node in the history is from a round up to LAST. */
  ghost predicate LowVotes(s: System) { forall w | w in s.history && w.val in s.nodes :: w.round <= LAST }

  ghost predicate LimitInv(s: System, start: System) {
    && LowVotes(s) && s.nodes.Keys == start.nodes.Keys
    && forall v | v in s.nodes :: Within(s.nodes[v]) && KeepsStart(start.nodes[v], s.nodes[v])
  }

  lemma ConsultedLow(c: Config, s: System, byz: set<Val>, v: Val, e: Event)
    requires SystemInv(c, s) && LowVotes(s) && v in s.nodes && Possible(s.history, s.nodes[v], e)
    requires MostlyCorrect(c, s.history, byz, s.nodes[v].height)
    requires c.vals(s.nodes[v].height).powers.Keys <= s.nodes.Keys + byz
    ensures LowQuorums(c, Consulted(c, s.nodes[v], e))
  {
    var n, h := s.nodes[v], s.history;
    assert VotesInv(c, h, n) by {
      hide Disciplined, Inv;
      assert NodeOK(c, h, v, n);
      InvParts(c, h, n);
    }
    hide SystemInv, MostlyCorrect, AnyTwoThirds, HeightConsistent;
    var n1 := Consulted(c, n, e);
    if e.VoteMsg? { AddHeightVoteConsistent(c.vals(n.height), n.votes, e.vote, e.peer, e.sigOk, h); }
    hide AddHeightVote;
    forall r: Round, typ: VoteType | AnyTwoThirds(c.vals(n.height), n1.votes, r, typ) ensures r <= LAST {
      var w := QuorumHasCorrectVote(c, h, n1.votes, byz, n.height, r, typ);
    }
  }

  lemma NodeLimit(c: Config, s: System, byz: set<Val>, v: Val, e: Event)
    requires SystemInv(c, s) && LowVotes(s) && v in s.nodes && Possible(s.history, s.nodes[v], e) && Within(s.nodes[v])
    requires MostlyCorrect(c, s.history, byz, s.nodes[v].height)
    requires c.vals(s.nodes[v].height).powers.Keys <= s.nodes.Keys + byz
    ensures var n' := Handle(c, s.nodes[v], e);
            Within(n') && KeepsStart(s.nodes[v], n') && forall w | w in NewVotes(s.nodes[v], n') :: w.round <= LAST
  {
    ConsultedLow(c, s, byz, v, e);
    var n := s.nodes[v];
    assert NodeOK(c, s.history, v, n);
    hide SystemInv, Inv, Disciplined, Handle, MostlyCorrect, LowQuorums, Consulted, Possible;
    HandleWithin(c, s.history, n, e);
    forall w | w in NewVotes(n, Handle(c, n, e)) ensures w.round <= LAST {
      assert w in Handle(c, n, e).signed;
    }
  }

  lemma NextLimit(c: Config, s: System, a: Action, s': System, start: System, byz: set<Val>)
    requires SystemInv(c, s) && Next(c, s, a, s') && LimitInv(s, start)
    requires a.NodeInput? ==> MostlyCorrect(c, s.history, byz, s.nodes[a.v].height)
    requires a.NodeInput? ==> c.vals(s.nodes[a.v].height).powers.Keys <= s.nodes.Keys + byz
    ensures LimitInv(s', start)
  {
    hide SystemInv, Handle, MostlyCorrect, Within, NewVotes, Possible;
    if a.NodeInput? { NodeLimit(c, s, byz, a.v, a.e); }
  }

  lemma {:induction false} RunLimit(c: Config, run: seq<System>, byz: set<Val>, i: nat)
    requires IsRun(c, run) && Assumptions(c, run[0], byz) && i < |run|
    ensures LimitInv(run[i], run[0])
  {
    hide SystemInv, Next, LimitInv, MostlyCorrect, Assumptions, Init, Steps;
    if i == 0 {
      StartLimit(run[0]);
    } else {
      RunLimit(c, run, byz, i - 1);
      RunInv(c, run, i - 1);
      var a := StepAt(c, run, i);
      if a.NodeInput? {
        var k := run[i - 1].nodes[a.v].height;
        RunMostlyCorrect(c, run, byz, i - 1, k);
        KnownValidators(c, run[0], byz, k);
      }
      NextLimit(c, run[i - 1], a, run[i], run[0], byz);
    }
  }

  lemma StepAt(c: Config, run: seq<System>, i: nat) returns (a: Action)
    requires IsRun(c, run) && 0 < i < |run|
    ensures Next(c, run[i - 1], a, run[i]) && (a.NodeInput? ==> a.v in run[i - 1].nodes)
  {
    hide Init;
    assert Steps(c, run[i - 1], run[i]);
    a :| Next(c, run[i - 1], a, run[i]);
  }

  lemma StartLimit(s: System)
    requires Init(s)
    ensures LimitInv(s, s)
  {
    forall v | v in s.nodes ensures Within(s.nodes[v]) {
      var height: nat, lc: Option<VoteSet> :| s.nodes[v] == NewNode(v, height, lc);
    }
  }

  /**
   In every run no correct node gets past LAST. The check on the polka round never fails, tracking a round fails only at
   LAST, and a last commit is missed only by a node that started without one and is still at its first height.
   */
  lemma RoundsStayLow(c: Config, run: seq<System>, byz: set<Val>, i: nat, v: Val)
    requires IsRun(c, run) && Assumptions(c, run[0], byz) && i < |run| && v in run[i].nodes
    ensures var n := run[i].nodes[v];
            && n.round <= LAST && n.panicked != Some(PolRoundTooLow)
            && (n.panicked == Some(SetRoundFailed) ==> n.round == LAST)
            && v in run[0].nodes
            && (n.panicked == Some(NoLastCommit) ==> run[0].nodes[v].lastCommit.None? && n.height == run[0].nodes[v].height)
  {
    RunLimit(c, run, byz, i);
    RunInv(c, run, i);
    var n := run[i].nodes[v];
    assert PanicInv(c, run[i].history, n) by {
      hide Inv, Disciplined;
      assert NodeOK(c, run[i].history, v, n);
      InvParts(c, run[i].history, n);
    }
    hide SystemInv, IsRun, Assumptions;
  }

  /** So in every run the latest timeout of a correct node that waits moves it on; the limit is never in the way. */
  lemma AlwaysMovesOn(c: Config, run: seq<System>, byz: set<Val>, i: nat, v: Val, t: Timeout)
    requires IsRun(c, run) && Assumptions(c, run[0], byz) && i < |run| && v in run[i].nodes
    requires var n := run[i].nodes[v]; n.panicked.None? && Waiting(c, n.step)
    requires t in run[i].nodes[v].scheduled && forall u | u in run[i].nodes[v].scheduled :: !Later(u, t)
    ensures MovesOn(run[i].nodes[v], HandleTimeout(c, run[i].nodes[v], t))
  {
    hide IsRun, Assumptions, Inv, WaitInv, HandleTimeout, MovesOn, Later, Disciplined;
    var n, h := run[i].nodes[v], run[i].history;
    RunInv(c, run, i);
    assert NodeOK(c, h, v, n);
    RoundsStayLow(c, run, byz, i, v);
    NoStuckWait(c, run, i, v);
    TickerMovesOn(c, h, n, t);
  }
}
