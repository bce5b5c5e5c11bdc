/** The consensus state object, whose handlers update its fields in place, composed with its timer. */
module ConsensusState {
  import opened Basics
  import opened VotingPower
  import opened VoteSets
  import opened RoundMachine
  import opened RoundInvariant
  import opened RoundProgress
  import opened TimeoutTicker

  /** What can happen to a node: a message arrives, the timer runs out, or a fired timeout is taken up. */
  datatype Input = Message(e: Event) | Expire | Tock(i: nat)

  /** Messages are not timeouts, and votes verify only if they were signed. */
  ghost predicate Real(h: seq<Vote>, x: Input) {
    x.Message? ==> !x.e.TimeoutMsg? && (x.e.VoteMsg? && x.e.sigOk ==> x.e.vote in h)
  }

  /** The node waits for a timeout that can move it on. */
  predicate CanMove(c: Config, n: Node) { n.panicked.None? && Waiting(c, n.step) && n.round < MAX_ROUND }

  /** Whatever the input, the node keeps its invariants and does not fall back behind a timeout. */
  lemma AfterEvent(c: Config, h: seq<Vote>, n: Node, e: Event, ti: Timeout)
    requires Inv(c, h, n) && WaitInv(c, n) && Possible(h, n, e)
    ensures var n' := Handle(c, n, e); Inv(c, h, n') && WaitInv(c, n') && Extends(n, n')
    ensures var n' := Handle(c, n, e); (n.panicked.Some? ==> n' == n) && (Passed(n, ti) ==> Passed(n', ti))
  {
    hide Inv, WaitInv, HandleTimeout, Extends, AddVoteMsg, SetProposal, AddProposalBlockPart;
    HandleInv(c, h, n, e);
    HandleWaits(c, h, n, e);
    var n' := Handle(c, n, e);
    assert Forward(n, n') by { GoesForward(n, n'); }
    PassedStays(n, n', ti);
  }

  /** Taking up a timeout leaves the node past it, and gets a node that waits for it to move. */
  lemma AfterTock(c: Config, h: seq<Vote>, n: Node, t: Timeout)
    requires Inv(c, h, n) && WaitInv(c, n) && t in n.scheduled
    ensures var n' := Handle(c, n, TimeoutMsg(t)); n'.panicked.Some? || Passed(n', t) || NoWayOut(t)
    ensures CanMove(c, n) && (forall u | u in n.scheduled :: !Later(u, t)) ==> MovesOn(n, Handle(c, n, TimeoutMsg(t)))
  {
    hide Inv, WaitInv, HandleTimeout, Passed, MovesOn, Later;
    if n.panicked.None? { TockPasses(c, h, n, t); }
    if CanMove(c, n) && forall u | u in n.scheduled :: !Later(u, t) { TickerMovesOn(c, h, n, t); }
  }

  /** The node with its timer, and the timeouts that have fired and are on their way back to it. */
  class State {
    const c: Config
    const ticker: Ticker
    var rs: Node
    var tocks: seq<Timeout>

    /** The timer was asked for exactly the timeouts the node scheduled. */
    ghost predicate InSync()
      reads this`rs, ticker
    {
      ticker.Valid() && ticker.ticks == rs.scheduled
    }

    /** Timeouts were at most added, and the timer was set anew or left alone. */
    twostate predicate Fed()
      reads ticker
    {
      && old(ticker.ticks) <= ticker.ticks
      && (ticker.armed || (ticker.ti == old(ticker.ti) && !old(ticker.armed)))
    }

    /** The latest timeout is still to fire, on its way, or behind the node. */
    ghost predicate TimerInv()
      reads this`rs, this`tocks, ticker
    {
      || rs.panicked.Some? || ticker.armed || ticker.ti in tocks
      || Passed(rs, ticker.ti) || NoWayOut(ticker.ti)
    }

    ghost predicate Good(h: seq<Vote>)
      reads this, ticker
    {
      && InSync() && Inv(c, h, rs) && WaitInv(c, rs) && TimerInv()
      && (forall t | t in tocks :: t in rs.scheduled)
    }

    constructor (c: Config, self: Val, height: nat, lastCommit: Option<VoteSet>, ghost h: seq<Vote>)
      requires height >= 1
      ensures this.c == c && rs == NewNode(self, height, lastCommit) && tocks == [] && fresh(ticker) && Good(h)
    {
      this.c := c;
      rs := NewNode(self, height, lastCommit);
      tocks := [];
      var timer := new Ticker();
      ticker := timer;
      new;
      ticker.Tick(Timeout(height, 1, NEW_HEIGHT));
      NewNodeInv(c, h, self, height, lastCommit);
      hide Inv;
    }

    method ScheduleTimeout(r: Round, s: Step)
      requires InSync()
      modifies this`rs, ticker
      ensures InSync() && Fed()
      ensures rs == Schedule(old(rs), r, s)
    {
      var t := Timeout(rs.height, r, s);
      rs := rs.(scheduled := rs.scheduled + [t]);
      ticker.Tick(t);
    }

    method SignAddVote(typ: VoteType, id: BlockID)
      modifies this`rs
      ensures rs == SignVote(c, old(rs), typ, id)
    {
      if rs.self in c.vals(rs.height).powers {
        rs := rs.(signed := rs.signed + [Vote(rs.self, rs.height, rs.round, typ, id)]);
      }
    }

    method ReleaseLock()
      modifies this`rs
      ensures rs == Unlock(old(rs))
    {
      rs := rs.(lockedRound := 0, lockedBlock := None, lockedParts := None);
    }

    method DoIsProposalComplete() returns (b: bool)
      ensures b == IsProposalComplete(rs)
    {
      if rs.proposal.None? || rs.proposalBlock.None? { return false; }
      if rs.proposal.value.polRound < 1 { return true; }
      b := Majority(rs.votes, rs.proposal.value.polRound, Prevote).Some?;
    }

    method DoEnterNewRound(h: nat, r: Round)
      requires InSync()
      modifies this`rs, ticker
      ensures InSync() && Fed()
      ensures rs == EnterNewRound(c, old(rs), h, r)
    {
      hide SetRound, EnterPropose;
      if rs.panicked.Some? { return; }
      if rs.height != h || r < rs.round || (rs.round == r && rs.step != NEW_HEIGHT) { return; }
      var tracked := SetRound(rs.votes, (r + 1) % (MAX_ROUND + 1));
      if tracked.None? {
        rs := rs.(panicked := Some(SetRoundFailed));
        return;
      }
      rs := rs.(round := r, step := NEW_ROUND);
      if r != 1 {
        rs := rs.(proposal := None, proposalBlock := None, proposalParts := None);
      }
      rs := rs.(votes := tracked.value, triggeredTimeoutPrecommit := false);
      if c.waitForTxs && r == 1 {
        if c.emptyBlocksInterval { ScheduleTimeout(r, NEW_ROUND); }
      } else {
        DoEnterPropose(h, r);
      }
    }

    method DoEnterPropose(h: nat, r: Round)
      requires InSync()
      modifies this`rs, ticker
      ensures InSync() && Fed()
      ensures rs == EnterPropose(c, old(rs), h, r)
    {
      if rs.panicked.Some? { return; }
      if rs.height != h || r < rs.round || (rs.round == r && PROPOSE <= rs.step) { return; }
      ScheduleTimeout(r, PROPOSE);
      rs := rs.(round := r, step := PROPOSE);
      var complete := DoIsProposalComplete();
      if complete { DoEnterPrevote(h, rs.round); }
    }

    method DoEnterPrevote(h: nat, r: Round)
      requires InSync()
      modifies this`rs, ticker
      ensures InSync() && Fed()
      ensures rs == EnterPrevote(c, old(rs), h, r)
    {
      if rs.panicked.Some? { return; }
      if rs.height != h || r < rs.round || (rs.round == r && PREVOTE <= rs.step) { return; }
      DoPrevote();
      rs := rs.(round := r, step := PREVOTE);
    }

    method DoPrevote()
      requires InSync()
      modifies this`rs, ticker
      ensures InSync() && Fed()
      ensures rs == SignVote(c, old(rs), Prevote, PrevoteChoice(c, old(rs)))
    {
      if rs.lockedBlock.Some? {
        SignAddVote(Prevote, BlockID(rs.lockedBlock.value.hash, HeaderOf(rs.lockedParts)));
        return;
      }
      if rs.proposalBlock.None? {
        SignAddVote(Prevote, ZERO_ID);
        return;
      }
      if !c.validate(rs.height, rs.proposalBlock.value) {
        SignAddVote(Prevote, ZERO_ID);
        return;
      }
      SignAddVote(Prevote, BlockID(rs.proposalBlock.value.hash, HeaderOf(rs.proposalParts)));
    }

    method DoEnterPrevoteWait(h: nat, r: Round)
      requires InSync()
      modifies this`rs, ticker
      ensures InSync() && Fed()
      ensures rs == EnterPrevoteWait(c, old(rs), h, r)
    {
      if rs.panicked.Some? { return; }
      if rs.height != h || r < rs.round || (rs.round == r && PREVOTE_WAIT <= rs.step) { return; }
      if !AnyTwoThirds(c.vals(rs.height), rs.votes, r, Prevote) {
        rs := rs.(panicked := Some(PrevoteWaitWithoutQuorum));
        return;
      }
      ScheduleTimeout(r, PREVOTE_WAIT);
      rs := rs.(round := r, step := PREVOTE_WAIT);
    }

    method DoEnterPrecommit(h: nat, r: Round)
      requires InSync()
      modifies this`rs, ticker
      ensures InSync() && Fed()
      ensures rs == EnterPrecommit(c, old(rs), h, r)
    {
      if rs.panicked.Some? { return; }
      if rs.height != h || r < rs.round || (rs.round == r && PRECOMMIT <= rs.step) { return; }
      var polka := Majority(rs.votes, r, Prevote);
      if polka.Some? && POLRound(rs.votes, rs.votes.round) < r {
        rs := rs.(panicked := Some(PolRoundTooLow));
        return;
      }
      DoPrecommit(r, polka);
      rs := rs.(round := r, step := PRECOMMIT);
    }

    method DoPrecommit(r: Round, polka: Option<BlockID>)
      requires InSync()
      modifies this`rs, ticker
      ensures InSync() && Fed()
      ensures rs == SignVote(c, PrecommitLock(old(rs), r, polka), Precommit, PrecommitChoice(old(rs), polka))
    {
      if polka.None? {
        SignAddVote(Precommit, ZERO_ID);
        return;
      }
      if polka.value.IsZero() {
        if rs.lockedBlock.Some? { ReleaseLock(); }
        SignAddVote(Precommit, ZERO_ID);
        return;
      }
      if HashesTo(rs.lockedBlock, polka.value.hash) {
        rs := rs.(lockedRound := r);
        SignAddVote(Precommit, polka.value);
        return;
      }
      if HashesTo(rs.proposalBlock, polka.value.hash) {
        rs := rs.(lockedRound := r, lockedBlock := rs.proposalBlock, lockedParts := rs.proposalParts);
        SignAddVote(Precommit, polka.value);
        return;
      }
      ReleaseLock();
      if !HasHeader(rs.proposalParts, polka.value.parts) {
        rs := rs.(proposalBlock := None, proposalParts := Some(PartSet(polka.value.parts, false)));
      }
      SignAddVote(Precommit, ZERO_ID);
    }

    method DoEnterPrecommitWait(h: nat, r: Round)
      requires InSync()
      modifies this`rs, ticker
      ensures InSync() && Fed()
      ensures rs == EnterPrecommitWait(c, old(rs), h, r)
    {
      if rs.panicked.Some? { return; }
      if rs.height != h || r != rs.round || rs.triggeredTimeoutPrecommit { return; }
      if !AnyTwoThirds(c.vals(rs.height), rs.votes, r, Precommit) {
        rs := rs.(panicked := Some(PrecommitWaitWithoutQuorum));
        return;
      }
      ScheduleTimeout(r, PRECOMMIT_WAIT);
      rs := rs.(triggeredTimeoutPrecommit := true);
    }

    method DoEnterCommit(h: nat, r: Round)
      requires InSync()
      modifies this`rs, ticker
      ensures InSync() && Fed()
      ensures rs == EnterCommit(c, old(rs), h, r)
    {
      if rs.panicked.Some? { return; }
      if rs.height != h || COMMIT <= rs.step { return; }
      var maj := Majority(rs.votes, r, Precommit);
      if maj.None? {
        rs := rs.(panicked := Some(CommitWithoutMajority));
        return;
      }
      if HashesTo(rs.lockedBlock, maj.value.hash) {
        rs := rs.(proposalBlock := rs.lockedBlock, proposalParts := rs.lockedParts);
      }
      if !HashesTo(rs.proposalBlock, maj.value.hash) {
        if !HasHeader(rs.proposalParts, maj.value.parts) {
          rs := rs.(proposalBlock := None, proposalParts := Some(PartSet(maj.value.parts, false)));
        }
      }
      rs := rs.(step := COMMIT, commitRound := r);
      DoTryFinalizeCommit(h);
    }

    method DoTryFinalizeCommit(h: nat)
      requires InSync()
      modifies this`rs, ticker
      ensures InSync() && Fed()
      ensures rs == TryFinalizeCommit(c, old(rs), h)
    {
      if rs.panicked.Some? { return; }
      if rs.height != h {
        rs := rs.(panicked := Some(FinalizeWrongHeight));
        return;
      }
      var maj := Majority(rs.votes, rs.commitRound, Precommit);
      if maj.None? || maj.value.IsZero() { return; }
      if !HashesTo(rs.proposalBlock, maj.value.hash) { return; }
      DoFinalizeCommit(h);
    }

    method DoFinalizeCommit(h: nat)
      requires InSync()
      modifies this`rs, ticker
      ensures InSync() && Fed()
      ensures rs == FinalizeCommit(c, old(rs), h)
    {
      if rs.panicked.Some? { return; }
      if rs.height != h || rs.step != COMMIT { return; }
      var maj := Majority(rs.votes, rs.commitRound, Precommit);
      if maj.None? {
        rs := rs.(panicked := Some(FinalizeWithoutMajority));
      } else if !HasHeader(rs.proposalParts, maj.value.parts) {
        rs := rs.(panicked := Some(FinalizeWrongParts));
      } else if !HashesTo(rs.proposalBlock, maj.value.hash) {
        rs := rs.(panicked := Some(FinalizeWrongHash));
      } else if !c.validate(rs.height, rs.proposalBlock.value) {
        rs := rs.(panicked := Some(CommittedInvalidBlock));
      } else {
        rs := rs.(decided := rs.decided[rs.height := rs.proposalBlock.value]);
        if !c.apply(rs.height, rs.proposalBlock.value) {
          rs := rs.(panicked := Some(ApplyFailed));
        } else {
          DoUpdateToState();
        }
      }
    }

    method DoUpdateToState()
      requires InSync()
      modifies this`rs, ticker
      ensures InSync() && Fed()
      ensures rs == UpdateToState(old(rs))
    {
      hide StartHeight, Majority, GetVoteSet;
      if rs.commitRound > 0 {
        if Majority(rs.votes, rs.commitRound, Precommit).None? {
          rs := rs.(panicked := Some(UpdateWithoutMajority));
          return;
        }
        rs := rs.(lastCommit := GetVoteSet(rs.votes, rs.commitRound, Precommit));
      } else if rs.lastCommit.None? {
        rs := rs.(panicked := Some(NoLastCommit));
        return;
      }
      Reset(rs.height + 1);
      ScheduleTimeout(1, NEW_HEIGHT);
    }

    method Reset(height: nat)
      modifies this`rs
      ensures rs == StartHeight(old(rs), height) && rs.scheduled == old(rs).scheduled
    {
      rs := rs.(height := height, round := 1, step := NEW_HEIGHT);
      rs := rs.(proposal := None, proposalBlock := None, proposalParts := None);
      rs := rs.(lockedRound := 0, lockedBlock := None, lockedParts := None);
      rs := rs.(validRound := 0, validBlock := None, validParts := None, votes := NewHeightVoteSet(height));
      rs := rs.(commitRound := 0, triggeredTimeoutPrecommit := false);
    }

    method DoSetProposal(p: Proposal, sigOk: bool)
      requires InSync()
      modifies this`rs, ticker
      ensures InSync() && Fed()
      ensures rs == SetProposal(old(rs), p, sigOk)
    {
      if rs.proposal.Some? { return; }
      if p.height != rs.height || p.round != rs.round { return; }
      if p.polRound < 1 && (p.polRound > 0 || p.polRound > p.round) { return; }
      if !sigOk { return; }
      rs := rs.(proposal := Some(p));
      if rs.proposalParts.None? {
        rs := rs.(proposalParts := Some(PartSet(p.polBlockID.parts, false)));
      }
    }

    method DoAddProposalBlockPart(h: nat, result: PartResult)
      requires InSync()
      modifies this`rs, ticker
      ensures InSync() && Fed()
      ensures rs == AddProposalBlockPart(c, old(rs), h, result)
    {
      hide StoreBlock, IsProposalComplete, EnterPrevote, EnterPrecommit, TryFinalizeCommit;
      if rs.height != h || rs.proposalParts.None? { return; }
      if rs.proposalParts.value.complete || result.Partial? { return; }
      DoStoreBlock(result);
      if result.Undecodable? { return; }
      var polka := Majority(rs.votes, rs.round, Prevote);
      var complete := DoIsProposalComplete();
      if rs.step <= PROPOSE && complete {
        DoEnterPrevote(h, rs.round);
        if polka.Some? { DoEnterPrecommit(h, rs.round); }
      } else if rs.step == COMMIT {
        DoTryFinalizeCommit(h);
      }
    }

    method DoStoreBlock(result: PartResult)
      requires rs.proposalParts.Some? && !result.Partial?
      modifies this`rs
      ensures rs == StoreBlock(old(rs), result) && rs.scheduled == old(rs).scheduled
    {
      rs := rs.(proposalParts := Some(rs.proposalParts.value.(complete := true)));
      if result.Undecodable? { return; }
      rs := rs.(proposalBlock := Some(result.block));
      var polka := Majority(rs.votes, rs.round, Prevote);
      if polka.Some? && !polka.value.IsZero() && rs.validRound < rs.round {
        if HashesTo(rs.proposalBlock, polka.value.hash) {
          rs := rs.(validRound := rs.round, validBlock := rs.proposalBlock, validParts := rs.proposalParts);
        }
      }
    }

    method DoAddVote(vote: Vote, peer: Peer, sigOk: bool)
      requires InSync()
      modifies this`rs, ticker
      ensures InSync() && Fed()
      ensures rs == AddVoteMsg(c, old(rs), vote, peer, sigOk)
    {
      if vote.height + 1 == rs.height && vote.typ == Precommit {
        DoAddLateCommit(vote, sigOk);
        return;
      }
      if vote.height != rs.height { return; }
      var (votes', added) := AddHeightVote(c.vals(rs.height), rs.votes, vote, peer, sigOk);
      rs := rs.(votes := votes');
      if !added { return; }
      if vote.typ == Prevote {
        DoOnPolka(vote.round);
        DoOnPrevote(vote.round);
      } else {
        DoOnPrecommit(vote.round);
      }
    }

    method DoAddLateCommit(vote: Vote, sigOk: bool)
      requires InSync()
      modifies this`rs, ticker
      ensures InSync() && Fed()
      ensures rs == AddLateCommit(c, old(rs), vote, sigOk)
    {
      if rs.step != NEW_HEIGHT { return; }
      if rs.lastCommit.None? {
        rs := rs.(panicked := Some(NoLastCommit));
        return;
      }
      var (lc, added) := AddVote(c.vals(vote.height), rs.lastCommit.value, vote, sigOk);
      rs := rs.(lastCommit := Some(lc));
      if !added { return; }
      if c.skipTimeoutCommit && HasAll(c.vals(vote.height), lc) { DoEnterNewRound(rs.height, 1); }
    }

    method DoOnPolka(r: Round)
      requires InSync()
      modifies this`rs, ticker
      ensures InSync() && Fed()
      ensures rs == OnPolka(old(rs), r)
    {
      hide Majority;
      var polka := Majority(rs.votes, r, Prevote);
      if polka.None? { return; }
      if rs.lockedBlock.Some? && rs.lockedRound < r && r <= rs.round && !HashesTo(rs.lockedBlock, polka.value.hash) {
        ReleaseLock();
      }
      if polka.value.hash != 0 && rs.validRound < r && r == rs.round {
        if HashesTo(rs.proposalBlock, polka.value.hash) {
          rs := rs.(validRound := r, validBlock := rs.proposalBlock, validParts := rs.proposalParts);
        } else {
          rs := rs.(proposalBlock := None);
        }
        if !HasHeader(rs.proposalParts, polka.value.parts) {
          rs := rs.(proposalParts := Some(PartSet(polka.value.parts, false)));
        }
      }
    }

    method DoOnPrevote(r: Round)
      requires InSync()
      modifies this`rs, ticker
      ensures InSync() && Fed()
      ensures rs == OnPrevote(c, old(rs), r)
    {
      var complete := DoIsProposalComplete();
      var any := AnyTwoThirds(c.vals(rs.height), rs.votes, r, Prevote);
      if rs.round < r && any {
        DoEnterNewRound(rs.height, r);
      } else if rs.round == r && PREVOTE <= rs.step {
        var polka := Majority(rs.votes, r, Prevote);
        if polka.Some? && (complete || polka.value.hash == 0) {
          DoEnterPrecommit(rs.height, r);
        } else if any {
          DoEnterPrevoteWait(rs.height, r);
        }
      } else if rs.proposal.Some? && 1 <= rs.proposal.value.polRound && rs.proposal.value.polRound == r {
        if complete { DoEnterPrevote(rs.height, rs.round); }
      }
    }

    method DoOnPrecommit(r: Round)
      requires InSync()
      modifies this`rs, ticker
      ensures InSync() && Fed()
      ensures rs == OnPrecommit(c, old(rs), r)
    {
      hide EnterNewRound, EnterPrecommit, EnterCommit, EnterPrecommitWait, HasAll, AnyTwoThirds;
      var h, vals := rs.height, c.vals(rs.height);
      var maj, precommits := Majority(rs.votes, r, Precommit), GetVoteSet(rs.votes, r, Precommit);
      if maj.Some? {
        DoEnterNewRound(h, r);
        DoEnterPrecommit(h, r);
        if maj.value.hash != 0 {
          DoEnterCommit(h, r);
          if c.skipTimeoutCommit && HasAll(vals, precommits.value) { DoEnterNewRound(rs.height, 1); }
        } else {
          DoEnterPrecommitWait(h, r);
        }
      } else if rs.round <= r && AnyTwoThirds(vals, rs.votes, r, Precommit) {
        DoEnterNewRound(h, r);
        DoEnterPrecommitWait(h, r);
      }
    }

    method DoHandleTimeout(t: Timeout)
      requires InSync()
      modifies this`rs, ticker
      ensures InSync() && Fed()
      ensures rs == HandleTimeout(c, old(rs), t)
    {
      hide EnterNewRound, EnterPropose, EnterPrevote, EnterPrecommit;
      if t.height != rs.height || t.round < rs.round || (t.round == rs.round && t.step < rs.step) { return; }
      if t.step == NEW_HEIGHT {
        DoEnterNewRound(t.height, 1);
      } else if t.step == NEW_ROUND {
        DoEnterPropose(t.height, 1);
      } else if t.step == PROPOSE {
        DoEnterPrevote(t.height, t.round);
      } else if t.step == PREVOTE_WAIT {
        DoEnterPrecommit(t.height, t.round);
      } else if t.step == PRECOMMIT_WAIT {
        DoEnterPrecommit(t.height, t.round);
        DoEnterNewRound(t.height, (t.round + 1) % (MAX_ROUND + 1));
      } else {
        rs := rs.(panicked := Some(InvalidTimeoutStep));
      }
    }

    method Dispatch(e: Event)
      requires InSync()
      modifies this`rs, ticker
      ensures InSync() && Fed()
      ensures rs == Handle(c, old(rs), e)
    {
      if rs.panicked.Some? { return; }
      match e
      case VoteMsg(vote, peer, sigOk) => DoAddVote(vote, peer, sigOk);
      case ProposalMsg(p, sigOk) => DoSetProposal(p, sigOk);
      case BlockPartMsg(h, result) => DoAddProposalBlockPart(h, result);
      case PeerMaj23Msg(r, typ, peer, id) => rs := rs.(votes := SetHeightPeerMaj23(rs.votes, r, typ, peer, id));
      case TimeoutMsg(t) => DoHandleTimeout(t);
    }

    // -------------------------------------------------------------- inputs

    /** A message keeps everything: the node's invariant, its timeouts, and the hold the timer has on it. */
    method HandleMsg(ghost h: seq<Vote>, e: Event)
      requires Good(h) && Real(h, Message(e))
      modifies this`rs, ticker
      ensures Good(h) && Extends(old(rs), rs) && rs == Handle(c, old(rs), e)
    {
      ghost var n := rs;
      hide Inv, WaitInv, Handle, Extends, Passed, Later;
      AfterEvent(c, h, n, e, ticker.ti);
      Dispatch(e);
    }

    /** The timer runs out: its timeout is on its way. */
    method Expires(ghost h: seq<Vote>)
      requires Good(h) && ticker.armed
      modifies this`tocks, ticker`armed
      ensures Good(h) && ticker.ti in tocks
    {
      hide Inv, WaitInv;
      var t := ticker.Fire();
      tocks := tocks + [t];
    }

    /** A fired timeout is taken up; if the node was waiting and it was the latest, the node moves on. */
    method HandleTock(ghost h: seq<Vote>, i: nat)
      requires Good(h) && i < |tocks|
      modifies this`rs, this`tocks, ticker
      ensures Good(h) && Extends(old(rs), rs) && rs == Handle(c, old(rs), TimeoutMsg(old(tocks)[i]))
      ensures CanMove(c, old(rs)) && old(tocks)[i] == old(ticker.ti) ==> MovesOn(old(rs), rs)
    {
      hide Inv, WaitInv, Handle, Extends, Passed, Later, NoWayOut, MovesOn, CanMove;
      ghost var n, ti, before := rs, ticker.ti, tocks;
      var t := tocks[i];
      AfterEvent(c, h, n, TimeoutMsg(t), ti);
      AfterTock(c, h, n, t);
      tocks := tocks[..i] + tocks[i + 1..];
      Dispatch(TimeoutMsg(t));
      assert forall u | u in before && u != t :: u in tocks;
      assert forall u | u in tocks :: u in before;
      assert TimerInv();
    }

    /** Takes inputs one at a time. Whatever they are, a waiting node ends up with a timeout that will move it on. */
    method ReceiveRoutine(ghost h: seq<Vote>, inputs: seq<Input>)
      requires Good(h) && forall x | x in inputs :: Real(h, x)
      modifies this`rs, this`tocks, ticker
      ensures Good(h) && Extends(old(rs), rs)
      ensures CanMove(c, rs) ==> WillMove()
    {
      hide Inv, WaitInv, Handle, Extends, Good, Real;
      SameExtends(rs);
      var k := 0;
      while k < |inputs|
        invariant 0 <= k <= |inputs| && Good(h) && Extends(old(rs), rs)
      {
        ghost var n := rs;
        SameExtends(n);
        assert inputs[k] in inputs;
        match inputs[k] {
          case Message(e) => HandleMsg(h, e);
          case Expire => if ticker.armed { Expires(h); }
          case Tock(i) => if i < |tocks| { HandleTock(h, i); }
        }
        ExtendsTrans(old(rs), n, rs);
        k := k + 1;
      }
      if CanMove(c, rs) { NeverStuck(h); }
    }

    /** The timer is running or its timeout is on its way, and that timeout will move the node on. */
    ghost predicate WillMove()
      reads this, ticker
    {
      (ticker.armed || ticker.ti in tocks) && MovesOn(rs, HandleTimeout(c, rs, ticker.ti))
    }

    lemma NeverStuck(h: seq<Vote>)
      requires Good(h) && CanMove(c, rs)
      ensures WillMove()
    {
      HeldByTimer(c, h, rs, ticker.ti);
      TickerMovesOn(c, h, rs, ticker.ti);
      hide Inv, HandleTimeout;
    }
  }
}
