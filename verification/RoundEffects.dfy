/** What a running node does: the vote it casts, the lock it takes, the timeout it asks for, the block it decides. */
module RoundEffects {
  import opened Basics
  import opened VotingPower
  import opened VoteSets
  import opened RoundMachine
  import opened RoundInvariant

  predicate IsValidator(c: Config, n: Node) { n.self in c.vals(n.height).powers }

  /** Exactly one vote more, if the node is a validator: of this type and for this block, in its height and round. */
  predicate Cast(c: Config, n: Node, n': Node, typ: VoteType, id: BlockID) {
    n'.signed == if IsValidator(c, n) then n.signed + [Vote(n.self, n.height, n.round, typ, id)] else n.signed
  }

  predicate Names(id: BlockID, b: Block, parts: Option<PartSet>) {
    id.hash == b.hash && id.parts == if parts.Some? then parts.value.header else PartSetHeader(0, 0)
  }

  /** The prevote is for the locked block; without a lock for the proposal block if it is there and valid; else nil. */
  ghost predicate Prevoted(c: Config, n: Node, n': Node) {
    && n' == n.(step := PREVOTE, signed := n'.signed)
    && exists id ::
         && Cast(c, n, n', Prevote, id)
         && (n.lockedBlock.Some? ==> Names(id, n.lockedBlock.value, n.lockedParts))
         && (n.lockedBlock.None? && n.proposalBlock.Some? && c.validate(n.height, n.proposalBlock.value) ==>
               Names(id, n.proposalBlock.value, n.proposalParts))
         && (n.lockedBlock.None? && (n.proposalBlock.None? || !c.validate(n.height, n.proposalBlock.value)) ==> id == ZERO_ID)
  }

  lemma PrevoteEffect(c: Config, n: Node)
    requires n.panicked.None? && n.step < PREVOTE
    ensures Prevoted(c, n, EnterPrevote(c, n, n.height, n.round))
  {
    assert Cast(c, n, EnterPrevote(c, n, n.height, n.round), Prevote, PrevoteChoice(c, n));
  }

  /** The node has the block with this hash, locked or proposed. */
  predicate Holds(n: Node, x: Hash) {
    && x != 0
    && ((n.lockedBlock.Some? && n.lockedBlock.value.hash == x) || (n.proposalBlock.Some? && n.proposalBlock.value.hash == x))
  }

  /**
   A polka for a block the node holds is precommitted and locked. Without a polka the lock stays; a polka for anything else
   releases it, and its block, if it is one, is what the node now collects.
   */
  ghost predicate Precommitted(c: Config, n: Node, n': Node) {
    var polka := Majority(n.votes, n.round, Prevote);
    && n' == n.(step := PRECOMMIT, signed := n'.signed, lockedRound := n'.lockedRound, lockedBlock := n'.lockedBlock,
                lockedParts := n'.lockedParts, proposalBlock := n'.proposalBlock, proposalParts := n'.proposalParts)
    && (polka.None? ==>
          && Cast(c, n, n', Precommit, ZERO_ID)
          && (n'.lockedRound, n'.lockedBlock, n'.lockedParts) == (n.lockedRound, n.lockedBlock, n.lockedParts))
    && (polka.Some? && Holds(n, polka.value.hash) ==>
          && Cast(c, n, n', Precommit, polka.value)
          && n'.lockedRound == n.round && n'.lockedBlock.Some? && n'.lockedBlock.value.hash == polka.value.hash
          && ((n'.lockedBlock, n'.lockedParts) == (n.lockedBlock, n.lockedParts)
              || (n'.lockedBlock, n'.lockedParts) == (n.proposalBlock, n.proposalParts)))
    && (polka.Some? && !Holds(n, polka.value.hash) ==> Cast(c, n, n', Precommit, ZERO_ID) && n'.lockedBlock.None?)
    && (if polka.Some? && !Holds(n, polka.value.hash) && !polka.value.IsZero() && !HasHeader(n.proposalParts, polka.value.parts)
        then n'.proposalBlock.None? && n'.proposalParts == Some(PartSet(polka.value.parts, false))
        else (n'.proposalBlock, n'.proposalParts) == (n.proposalBlock, n.proposalParts))
  }

  lemma PrecommitEffect(c: Config, h: seq<Vote>, n: Node)
    requires Inv(c, h, n) && n.panicked.None? && n.step < PRECOMMIT
    ensures var n' := EnterPrecommit(c, n, n.height, n.round);
            Precommitted(c, n, n') || (n.round == MAX_ROUND && n' == n.(panicked := Some(PolRoundTooLow)))
  {
    hide Inv, Majority, POLRound, PrecommitLock, PrecommitChoice, SignVote, Precommitted, HeightConsistent;
    assert VotesInv(c, h, n) by { InvParts(c, h, n); }
    var polka := Majority(n.votes, n.round, Prevote);
    if polka.Some? && n.round <= n.votes.round { POLRoundIsLatest(n.votes, n.votes.round, n.round); }
    PrecommitCast(c, n);
  }

  lemma PrecommitCast(c: Config, n: Node)
    ensures var polka := Majority(n.votes, n.round, Prevote);
            Precommitted(c, n, SignVote(c, PrecommitLock(n, n.round, polka), Precommit, PrecommitChoice(n, polka))
                                 .(round := n.round, step := PRECOMMIT))
  {
    hide Majority, PrecommitLock;
    var polka := Majority(n.votes, n.round, Prevote);
    LockFields(n, n.round, polka);
    LockTaken(n, n.round, polka);
  }

  lemma LockTaken(n: Node, r: Round, polka: Option<BlockID>)
    ensures var n1 := PrecommitLock(n, r, polka);
      && (polka.None? ==> n1 == n)
      && (polka.Some? && Holds(n, polka.value.hash) ==>
            && n1.lockedRound == r && n1.lockedBlock.Some? && n1.lockedBlock.value.hash == polka.value.hash
            && ((n1.lockedBlock, n1.lockedParts) == (n.lockedBlock, n.lockedParts)
                || (n1.lockedBlock, n1.lockedParts) == (n.proposalBlock, n.proposalParts)))
      && (polka.Some? && !Holds(n, polka.value.hash) ==> n1.lockedBlock.None?)
      && (if polka.Some? && !Holds(n, polka.value.hash) && !polka.value.IsZero() && !HasHeader(n.proposalParts, polka.value.parts)
          then n1.proposalBlock.None? && n1.proposalParts == Some(PartSet(polka.value.parts, false))
          else (n1.proposalBlock, n1.proposalParts) == (n.proposalBlock, n.proposalParts))
  {}

  // ---------------------------------------------------------------- rounds and waits

  /** Proposal and block are there, and the prevotes the proposal refers to have a majority. */
  predicate HasProposal(n: Node) {
    && n.proposal.Some? && n.proposalBlock.Some?
    && (n.proposal.value.polRound == 0 || Majority(n.votes, n.proposal.value.polRound, Prevote).Some?)
  }

  /** The node waits for a proposal, or prevotes at once if it has a complete one. */
  ghost predicate Proposing(c: Config, n: Node, n': Node) {
    var n1 := n.(step := PROPOSE, scheduled := n.scheduled + [Timeout(n.height, n.round, PROPOSE)]);
    if HasProposal(n1) then Prevoted(c, n1, n') else n' == n1
  }

  lemma ProposeEffect(c: Config, n: Node)
    requires n.panicked.None? && n.step < PROPOSE
    ensures Proposing(c, n, EnterPropose(c, n, n.height, n.round))
  {
    hide Majority, EnterPrevote, Prevoted;
    var n1 := n.(step := PROPOSE, scheduled := n.scheduled + [Timeout(n.height, n.round, PROPOSE)]);
    PrevoteEffect(c, n1);
  }

  /** The rounds up to the next one are tracked, the new ones without votes, and no vote set changes. */
  ghost predicate Tracks(n: Node, n': Node, r: Round) {
    var (next, was, now) := ((r + 1) % (MAX_ROUND + 1), n.votes, n'.votes);
    && now.round == next && now.height == was.height && now.catchup == was.catchup
    && (forall x: Round | 1 <= was.round <= x + 1 && x <= next :: x in now.rounds)
    && (forall x | x in was.rounds :: x in now.rounds && now.rounds[x] == was.rounds[x])
    && (forall x | x in now.rounds && x !in was.rounds :: now.rounds[x] == NewRoundVoteSet(was.height, x))
  }

  /** A later round starts without a proposal; the first one keeps it, and may wait for transactions. */
  ghost predicate StartedRound(c: Config, n: Node, n': Node, r: Round) {
    exists n1 ::
      && Tracks(n, n1, r)
      && n1 == n.(round := r, step := NEW_ROUND, votes := n1.votes, triggeredTimeoutPrecommit := false,
                  proposal := if r == 1 then n.proposal else None,
                  proposalBlock := if r == 1 then n.proposalBlock else None,
                  proposalParts := if r == 1 then n.proposalParts else None)
      && (if r != 1 || !c.waitForTxs then Proposing(c, n1, n')
          else if c.emptyBlocksInterval then n' == n1.(scheduled := n1.scheduled + [Timeout(n.height, 1, NEW_ROUND)])
          else n' == n1)
  }

  lemma NewRoundEffect(c: Config, h: seq<Vote>, n: Node, r: Round)
    requires Inv(c, h, n) && n.panicked.None? && (n.round < r || (n.round == r && n.step == NEW_HEIGHT))
    ensures var n' := EnterNewRound(c, n, n.height, r);
            StartedRound(c, n, n', r) || n' == n.(panicked := Some(SetRoundFailed))
  {
    hide Inv, SetRound, EnterPropose, Proposing, HeightConsistent, Grows;
    assert VotesInv(c, h, n) by { InvParts(c, h, n); }
    var tracked := SetRound(n.votes, (r + 1) % (MAX_ROUND + 1));
    if tracked.Some? {
      SetRoundConsistent(c.vals(n.height), n.votes, (r + 1) % (MAX_ROUND + 1), h);
      SetRoundTracks(n.votes, (r + 1) % (MAX_ROUND + 1));
      var n0 := n.(round := r, step := NEW_ROUND, votes := tracked.value, triggeredTimeoutPrecommit := false);
      var n1 := if r == 1 then n0 else n0.(proposal := None, proposalBlock := None, proposalParts := None);
      assert Tracks(n, n1, r);
      ProposeEffect(c, n1);
    }
  }

  /** With votes of more than two thirds at hand, the node asks for the timeout that ends the wait. */
  lemma WaitEffects(c: Config, n: Node)
    requires n.panicked.None?
    ensures n.step < PREVOTE_WAIT && AnyTwoThirds(c.vals(n.height), n.votes, n.round, Prevote) ==>
              EnterPrevoteWait(c, n, n.height, n.round) ==
                n.(step := PREVOTE_WAIT, scheduled := n.scheduled + [Timeout(n.height, n.round, PREVOTE_WAIT)])
    ensures !n.triggeredTimeoutPrecommit && AnyTwoThirds(c.vals(n.height), n.votes, n.round, Precommit) ==>
              EnterPrecommitWait(c, n, n.height, n.round) ==
                n.(triggeredTimeoutPrecommit := true, scheduled := n.scheduled + [Timeout(n.height, n.round, PRECOMMIT_WAIT)])
  {}

  // ---------------------------------------------------------------- commit

  /** The block is decided, and the next height starts with nothing but the precommits that prove it. */
  ghost predicate Decided(n: Node, n': Node, b: Block, r: Round) {
    && n'.decided == n.decided[n.height := b] && n'.signed == n.signed && n'.self == n.self && n'.panicked == None
    && (n'.height, n'.round, n'.step, n'.commitRound) == (n.height + 1, 1, NEW_HEIGHT, 0)
    && n'.proposal.None? && n'.proposalBlock.None? && n'.proposalParts.None? && n'.lockedBlock.None? && n'.validBlock.None?
    && (n'.lockedRound, n'.validRound) == (0, 0) && !n'.triggeredTimeoutPrecommit
    && n'.votes == NewHeightVoteSet(n.height + 1)
    && n'.scheduled == n.scheduled + [Timeout(n.height + 1, 1, NEW_HEIGHT)]
    && (r > 0 ==> r in n.votes.rounds && n'.lastCommit == Some(n.votes.rounds[r].precommits))
  }

  /** A committed block that is at hand, in the right parts, valid and applied, is decided; each failing check stops the node. */
  ghost predicate Finalizes(c: Config, n: Node, n': Node, b: Block, parts: Option<PartSet>, id: BlockID, r: Round) {
    if !HasHeader(parts, id.parts) then n'.panicked == Some(FinalizeWrongParts) && n'.decided == n.decided
    else if !c.validate(n.height, b) then n'.panicked == Some(CommittedInvalidBlock) && n'.decided == n.decided
    else if !c.apply(n.height, b) then n'.panicked == Some(ApplyFailed) && n'.decided == n.decided[n.height := b]
    else if r == 0 && n.lastCommit.None? then n'.panicked == Some(NoLastCommit) && n'.decided == n.decided[n.height := b]
    else Decided(n, n', b, r)
  }

  lemma FinalizeEffect(c: Config, n: Node, id: BlockID)
    requires n.panicked.None? && n.step == COMMIT && Majority(n.votes, n.commitRound, Precommit) == Some(id) && id.hash != 0
    requires n.proposalBlock.Some? && n.proposalBlock.value.hash == id.hash
    ensures Finalizes(c, n, TryFinalizeCommit(c, n, n.height), n.proposalBlock.value, n.proposalParts, id, n.commitRound)
  {
    var n1 := n.(decided := n.decided[n.height := n.proposalBlock.value]);
    assert Majority(n1.votes, n1.commitRound, Precommit) == Some(id);
  }

  /** On a precommit majority for a block, the node decides it if it has it, and else collects its parts. */
  lemma CommitEffect(c: Config, n: Node, r: Round, id: BlockID)
    requires n.panicked.None? && n.step < COMMIT && Majority(n.votes, r, Precommit) == Some(id) && id.hash != 0
    ensures var n' := EnterCommit(c, n, n.height, r);
            if n.lockedBlock.Some? && n.lockedBlock.value.hash == id.hash
            then Finalizes(c, n, n', n.lockedBlock.value, n.lockedParts, id, r)
            else if n.proposalBlock.Some? && n.proposalBlock.value.hash == id.hash
            then Finalizes(c, n, n', n.proposalBlock.value, n.proposalParts, id, r)
            else if HasHeader(n.proposalParts, id.parts) then n' == n.(step := COMMIT, commitRound := r)
            else n' == n.(step := COMMIT, commitRound := r, proposalBlock := None,
                          proposalParts := Some(PartSet(id.parts, false)))
  {
    hide Majority, Finalizes, FinalizeCommit;
    var n1 := if n.lockedBlock.Some? && n.lockedBlock.value.hash == id.hash
              then n.(step := COMMIT, commitRound := r, proposalBlock := n.lockedBlock, proposalParts := n.lockedParts)
              else n.(step := COMMIT, commitRound := r);
    if n1.proposalBlock.Some? && n1.proposalBlock.value.hash == id.hash {
      FinalizeEffect(c, n1, id);
      FinalizesFrame(c, n, n1, TryFinalizeCommit(c, n1, n1.height), n1.proposalBlock.value, n1.proposalParts, id, r);
    }
  }

  lemma FinalizesFrame(c: Config, n: Node, n1: Node, n': Node, b: Block, parts: Option<PartSet>, id: BlockID, r: Round)
    requires n1 == n.(step := n1.step, commitRound := n1.commitRound, proposalBlock := n1.proposalBlock,
                      proposalParts := n1.proposalParts)
    ensures Finalizes(c, n1, n', b, parts, id, r) ==> Finalizes(c, n, n', b, parts, id, r)
  {}

  // ---------------------------------------------------------------- proposals

  /** The first signed proposal of the node's height and round is taken, whatever its POL round. */
  lemma ProposalEffect(c: Config, n: Node, p: Proposal, sigOk: bool)
    requires n.panicked.None?
    ensures Handle(c, n, ProposalMsg(p, sigOk)) ==
              if n.proposal.None? && (p.height, p.round) == (n.height, n.round) && sigOk
              then n.(proposal := Some(p),
                      proposalParts := if n.proposalParts.Some? then n.proposalParts
                          else Some(PartSet(p.polBlockID.parts, false)))
              else n
  {}

  /** The parts are all there. */
  ghost predicate Assembled(n: Node, n': Node, b: Block)
    requires n.proposalParts.Some?
  {
    var polka := Majority(n.votes, n.round, Prevote);
    var parts := Some(n.proposalParts.value.(complete := true));
    && n' == n.(proposalBlock := Some(b), proposalParts := parts, validRound := n'.validRound, validBlock := n'.validBlock,
                validParts := n'.validParts)
    && (n'.validRound, n'.validBlock, n'.validParts) ==
         if polka.Some? && b.hash != 0 && polka.value.hash == b.hash && n.validRound < n.round
         then (n.round, Some(b), parts) else (n.validRound, n.validBlock, n.validParts)
  }

  /**
   The last part: a node that waits for the proposal prevotes, and precommits if there is a polka; one that commits
   finalizes.
   */
  lemma BlockEffect(c: Config, h: seq<Vote>, n: Node, b: Block)
    requires Inv(c, h, n) && n.panicked.None? && n.proposalParts.Some? && !n.proposalParts.value.complete
    ensures var n' := Handle(c, n, BlockPartMsg(n.height, PartResult.Complete(b)));
            exists n1 ::
              && Assembled(n, n1, b)
              && (n1.step <= PROPOSE && HasProposal(n1) ==>
                    exists n2 :: && Prevoted(c, n1, n2)
                                 && (Majority(n.votes, n.round, Prevote).None? ==> n' == n2)
                                 && (Majority(n.votes, n.round, Prevote).Some? ==>
                                       Precommitted(c, n2, n') || n'.panicked == Some(PolRoundTooLow)))
              && (n1.step == COMMIT ==> n' == TryFinalizeCommit(c, n1, n1.height))
              && (n1.step != COMMIT && !(n1.step <= PROPOSE && HasProposal(n1)) ==> n' == n1)
  {
    hide Inv, Majority, EnterPrevote, EnterPrecommit, TryFinalizeCommit, Prevoted, Precommitted, Extends;
    var n1 := StoreBlock(n, PartResult.Complete(b));
    assert Assembled(n, n1, b);
    StoreBlockInv(c, h, n, PartResult.Complete(b));
    if n1.step <= PROPOSE {
      PrevoteEffect(c, n1);
      var n2 := EnterPrevote(c, n1, n1.height, n1.round);
      EnterPrevoteInv(c, h, n1, n1.height, n1.round);
      PrevotedParts(c, n1, n2);
      PrecommitEffect(c, h, n2);
    }
  }

  lemma PrevotedParts(c: Config, n: Node, n': Node)
    requires Prevoted(c, n, n')
    ensures n' == n.(step := PREVOTE, signed := n'.signed)
  {}

  // ---------------------------------------------------------------- votes

  /**
   A polka of a round after the lock and up to the current one, for anything but the locked block, releases the lock. One for a
   block in the current round makes it the valid block if the node has it, and else the block to collect.
   */
  ghost predicate PolkaSeen(n: Node, n': Node, r: Round) {
    var polka := Majority(n.votes, r, Prevote);
    if polka.None? then n' == n
    else
      var id := polka.value;
      var has := n.proposalBlock.Some? && n.proposalBlock.value.hash == id.hash;
      && n' == n.(lockedRound := n'.lockedRound, lockedBlock := n'.lockedBlock, lockedParts := n'.lockedParts,
                  validRound := n'.validRound, validBlock := n'.validBlock, validParts := n'.validParts,
                  proposalBlock := n'.proposalBlock, proposalParts := n'.proposalParts)
      && (n'.lockedRound, n'.lockedBlock, n'.lockedParts) ==
           (if n.lockedBlock.Some? && n.lockedRound < r <= n.round && (id.hash == 0 || n.lockedBlock.value.hash != id.hash)
            then (0, None, None) else (n.lockedRound, n.lockedBlock, n.lockedParts))
      && if id.hash != 0 && r == n.round && n.validRound < r
         then && (n'.validRound, n'.validBlock, n'.validParts) ==
                   (if has then (r, n.proposalBlock, n.proposalParts) else (n.validRound, n.validBlock, n.validParts))
              && n'.proposalBlock == (if has then n.proposalBlock else None)
              && n'.proposalParts == if HasHeader(n.proposalParts, id.parts) then n.proposalParts
                                     else Some(PartSet(id.parts, false))
         else && (n'.validRound, n'.validBlock, n'.validParts) == (n.validRound, n.validBlock, n.validParts)
              && (n'.proposalBlock, n'.proposalParts) == (n.proposalBlock, n.proposalParts)
  }

  lemma PolkaEffect(n: Node, r: Round)
    ensures PolkaSeen(n, OnPolka(n, r), r)
  {
    hide Majority, UnlockByPolka, UpdateValid, HasHeader;
    var polka := Majority(n.votes, r, Prevote);
    if polka.Some? {
      LockReleased(n, r, polka.value);
      ValidUpdated(UnlockByPolka(n, r, polka.value), r, polka.value);
    }
  }

  lemma LockReleased(n: Node, r: Round, id: BlockID)
    ensures var n' := UnlockByPolka(n, r, id);
            && n' == n.(lockedRound := n'.lockedRound, lockedBlock := n'.lockedBlock, lockedParts := n'.lockedParts)
            && (n'.lockedRound, n'.lockedBlock, n'.lockedParts) ==
                 if n.lockedBlock.Some? && n.lockedRound < r <= n.round && (id.hash == 0 || n.lockedBlock.value.hash != id.hash)
                 then (0, None, None) else (n.lockedRound, n.lockedBlock, n.lockedParts)
  {}

  lemma ValidUpdated(n: Node, r: Round, id: BlockID)
    ensures var n' := UpdateValid(n, r, id);
            var has := n.proposalBlock.Some? && n.proposalBlock.value.hash == id.hash;
            && (!(id.hash != 0 && r == n.round && n.validRound < r) ==> n' == n)
            && (id.hash != 0 && r == n.round && n.validRound < r ==>
                  && n' == n.(validRound := n'.validRound, validBlock := n'.validBlock, validParts := n'.validParts,
                              proposalBlock := n'.proposalBlock, proposalParts := n'.proposalParts)
                  && (n'.validRound, n'.validBlock, n'.validParts) ==
                       (if has then (r, n.proposalBlock, n.proposalParts) else (n.validRound, n.validBlock, n.validParts))
                  && n'.proposalBlock == (if has then n.proposalBlock else None)
                  && n'.proposalParts ==
                       if HasHeader(n.proposalParts, id.parts) then n.proposalParts else Some(PartSet(id.parts, false)))
  {
    hide HasHeader;
  }

  /** What a counted prevote of round r makes a node do. */
  ghost predicate AfterPrevote(c: Config, n: Node, n': Node, r: Round) {
    var polka, any := Majority(n.votes, r, Prevote), AnyTwoThirds(c.vals(n.height), n.votes, r, Prevote);
    if n.round < r && any then StartedRound(c, n, n', r) || n'.panicked == Some(SetRoundFailed)
    else if n.round == r && PREVOTE <= n.step then
      if polka.Some? && (HasProposal(n) || polka.value.hash == 0) then
        if n.step < PRECOMMIT
        then Precommitted(c, n, n') || (n.round == MAX_ROUND && n'.panicked == Some(PolRoundTooLow)) else n' == n
      else if any && n.step < PREVOTE_WAIT then
        n' == n.(step := PREVOTE_WAIT, scheduled := n.scheduled + [Timeout(n.height, r, PREVOTE_WAIT)])
      else n' == n
    else if HasProposal(n) && n.proposal.value.polRound == r && r > 0 && n.step < PREVOTE then Prevoted(c, n, n')
    else n' == n
  }

  lemma PrevoteReaction(c: Config, h: seq<Vote>, n: Node, r: Round)
    requires Inv(c, h, n) && n.panicked.None?
    ensures AfterPrevote(c, n, OnPrevote(c, n, r), r)
  {
    hide Inv, Majority, AnyTwoThirds, EnterPrevote, EnterPrecommit, EnterNewRound, EnterPrevoteWait, Prevoted, Precommitted,
      StartedRound;
    if n.step < PREVOTE { PrevoteEffect(c, n); } else { PrevoteIgnored(c, n); }
    if n.step < PRECOMMIT { PrecommitEffect(c, h, n); } else { PrecommitIgnored(c, n); }
    if n.round < r { NewRoundEffect(c, h, n, r); }
    WaitEffects(c, n);
    if n.step >= PREVOTE_WAIT { PrevoteWaitIgnored(c, n); }
  }

  lemma PrevoteIgnored(c: Config, n: Node)
    requires n.step >= PREVOTE
    ensures EnterPrevote(c, n, n.height, n.round) == n
  {}

  lemma PrecommitIgnored(c: Config, n: Node)
    requires n.step >= PRECOMMIT
    ensures EnterPrecommit(c, n, n.height, n.round) == n
  {}

  lemma PrevoteWaitIgnored(c: Config, n: Node)
    requires n.step >= PREVOTE_WAIT
    ensures EnterPrevoteWait(c, n, n.height, n.round) == n
  {}

  /** A vote for the node's height that is not counted changes at most the vote sets; a counted prevote is acted on. */
  lemma PrevoteEvent(c: Config, h: seq<Vote>, n: Node, vote: Vote, peer: Peer, sigOk: bool)
    requires Inv(c, h, n) && n.panicked.None? && (sigOk ==> vote in h) && vote.height == n.height
    ensures var n' := Handle(c, n, VoteMsg(vote, peer, sigOk));
            var (votes, counted) := AddHeightVote(c.vals(n.height), n.votes, vote, peer, sigOk);
            && (!counted ==> n' == n.(votes := votes))
            && (counted && vote.typ == Prevote ==>
                  exists n1 :: PolkaSeen(n.(votes := votes), n1, vote.round) && AfterPrevote(c, n1, n', vote.round))
  {
    hide Inv, AddHeightVote, OnPolka, OnPrevote, OnPrecommit, PolkaSeen, AfterPrevote, HeightConsistent, Grows, Extends;
    assert VotesInv(c, h, n) by { InvParts(c, h, n); }
    AddHeightVoteConsistent(c.vals(n.height), n.votes, vote, peer, sigOk, h);
    var n0 := n.(votes := AddHeightVote(c.vals(n.height), n.votes, vote, peer, sigOk).0);
    NewVotesInv(c, h, n, n0.votes);
    PolkaEffect(n0, vote.round);
    OnPolkaInv(c, h, n0, vote.round);
    PolkaKeepsGoing(n0, vote.round);
    PrevoteReaction(c, h, OnPolka(n0, vote.round), vote.round);
  }

  lemma PolkaKeepsGoing(n: Node, r: Round)
    ensures OnPolka(n, r).panicked == n.panicked
  {
    hide OnPolka, Majority;
    PolkaEffect(n, r);
  }

  /** Stopped, or the block is decided, or the node collects what it lacks to decide it. */
  ghost predicate Commits(n: Node, n': Node, id: BlockID, r: Round) {
    || n'.panicked.Some?
    || (n'.height == n.height + 1 && n.height in n'.decided && n'.decided[n.height].hash == id.hash)
    || (n'.height == n.height && n'.step == COMMIT && n'.commitRound == r && HasHeader(n'.proposalParts, id.parts))
  }

  /** A precommit majority for a block is acted on whatever the node is doing, in any round. */
  lemma CommitReaction(c: Config, h: seq<Vote>, n: Node, r: Round, id: BlockID)
    requires Inv(c, h, n) && n.panicked.None? && n.step < COMMIT
    requires Majority(n.votes, r, Precommit) == Some(id) && id.hash != 0
    ensures Commits(n, OnPrecommit(c, n, r), id, r)
  {
    hide Inv, Majority, EnterPrecommit, EnterNewRound, EnterCommit, Extends, HasAll, Finalizes, Grows;
    var n1 := EnterNewRound(c, n, n.height, r);
    EnterNewRoundInv(c, h, n, n.height, r);
    RoundKeepsBelow(c, n, r);
    var n2 := EnterPrecommit(c, n1, n.height, r);
    PrecommitKeepsBelow(c, n1, r);
    assert 1 <= n1.round by { InvParts(c, h, n1); }
    if n2.panicked.None? {
      assert Majority(n2.votes, r, Precommit) == Some(id) by { MajorityStays(c, h, n, n1, r, id); }
      CommitEffect(c, n2, r, id);
      var n3 := EnterCommit(c, n2, n2.height, r);
      CommitsOrCollects(c, n2, n3, r, id);
      FirstRoundKeeps(c, n3);
    } else {
      CommitStopped(c, n2, n.height, r);
    }
  }

  lemma CommitStopped(c: Config, n: Node, height: nat, r: Round)
    requires n.panicked.Some?
    ensures EnterCommit(c, n, height, r) == n && EnterNewRound(c, n, n.height, 1) == n
  {}

  lemma MajorityStays(c: Config, h: seq<Vote>, n: Node, n1: Node, r: Round, id: BlockID)
    requires Extends(n, n1) && n1.height == n.height && Majority(n.votes, r, Precommit) == Some(id)
    ensures Majority(n1.votes, r, Precommit) == Some(id)
  {
    GrowsKeeps(c.vals(n.height), n.votes, n1.votes, r, Precommit);
  }

  lemma RoundKeepsBelow(c: Config, n: Node, r: Round)
    requires n.panicked.None? && n.step < COMMIT
    ensures var n1 := EnterNewRound(c, n, n.height, r); n1.height == n.height && n1.step < COMMIT && n1.decided == n.decided
  {
    hide SetRound, Majority;
  }

  lemma PrecommitKeepsBelow(c: Config, n: Node, r: Round)
    requires n.step < COMMIT
    ensures var n1 := EnterPrecommit(c, n, n.height, r);
            && n1.height == n.height && n1.step < COMMIT && n1.votes == n.votes && n1.decided == n.decided
            && (1 <= n.round ==> 1 <= n1.round)
  {
    hide Majority, POLRound, PrecommitLock, PrecommitChoice;
    LockFields(n, r, Majority(n.votes, r, Prevote));
  }

  lemma LockFields(n: Node, r: Round, polka: Option<BlockID>)
    ensures var n1 := PrecommitLock(n, r, polka);
            n1 == n.(lockedRound := n1.lockedRound, lockedBlock := n1.lockedBlock, lockedParts := n1.lockedParts,
                     proposalBlock := n1.proposalBlock, proposalParts := n1.proposalParts)
  {}

  lemma CommitsOrCollects(c: Config, n: Node, n': Node, r: Round, id: BlockID)
    requires n.panicked.None? && n.step < COMMIT && Majority(n.votes, r, Precommit) == Some(id) && id.hash != 0
    requires n' == EnterCommit(c, n, n.height, r)
    ensures Commits(n, n', id, r)
    ensures n'.panicked.None? && n'.height == n.height ==> n'.round == n.round && n'.step == COMMIT
  {
    hide Majority, EnterCommit;
    CommitEffect(c, n, r, id);
  }

  lemma FirstRoundKeeps(c: Config, n: Node)
    ensures var n' := EnterNewRound(c, n, n.height, 1);
            && n'.height == n.height && n'.decided == n.decided
            && (n.panicked.Some? ==> n' == n) && (n.step != NEW_HEIGHT && n.round >= 1 ==> n' == n)
  {
    hide SetRound, Majority;
  }

  /** Without a majority for a block, enough precommits of the current or a later round start the wait that ends the round. */
  lemma PrecommitReaction(c: Config, h: seq<Vote>, n: Node, r: Round)
    requires Inv(c, h, n) && n.panicked.None?
    requires var maj := Majority(n.votes, r, Precommit); maj.None? || maj.value.hash == 0
    ensures var (n', maj) := (OnPrecommit(c, n, r), Majority(n.votes, r, Precommit));
            && (maj.None? && (r < n.round || !AnyTwoThirds(c.vals(n.height), n.votes, r, Precommit)) ==> n' == n)
            && (maj.Some? && r < n.round ==> n' == n)
            && (n.round <= r && (maj.Some? || AnyTwoThirds(c.vals(n.height), n.votes, r, Precommit)) ==>
                  || n'.panicked.Some?
                  || (n'.height == n.height && n'.round == r && n'.triggeredTimeoutPrecommit
                      && (maj.Some? ==> n'.step >= PRECOMMIT)))
            && (maj.None? && r == n.round && n.step != NEW_HEIGHT && AnyTwoThirds(c.vals(n.height), n.votes, r, Precommit) ==>
                  WaitsForPrecommits(n, n'))
  {
    hide Inv, Majority, AnyTwoThirds, EnterPrecommit, EnterNewRound, EnterPrecommitWait, Extends;
    assert VotesInv(c, h, n) by { InvParts(c, h, n); }
    if r < n.round { LateIgnored(c, n, r); }
    else {
      if r == n.round && n.step != NEW_HEIGHT { SameRoundIgnored(c, n); }
      if r == n.round { if n.triggeredTimeoutPrecommit { WaitOnce(c, n); } else { WaitEffects(c, n); } }
      var n1 := EnterNewRound(c, n, n.height, r);
      EnterNewRoundInv(c, h, n, n.height, r);
      RoundIs(c, n, r);
      var n2 := EnterPrecommit(c, n1, n.height, r);
      PrecommitStep(c, n1, r);
      WaitStarts(c, n1, r);
      WaitStarts(c, n2, r);
    }
  }

  lemma SameRoundIgnored(c: Config, n: Node)
    requires n.step != NEW_HEIGHT
    ensures EnterNewRound(c, n, n.height, n.round) == n
  {}

  lemma WaitOnce(c: Config, n: Node)
    requires n.triggeredTimeoutPrecommit
    ensures EnterPrecommitWait(c, n, n.height, n.round) == n
  {}

  lemma LateIgnored(c: Config, n: Node, r: Round)
    requires r < n.round
    ensures EnterNewRound(c, n, n.height, r) == n && EnterPrecommit(c, n, n.height, r) == n
    ensures EnterPrecommitWait(c, n, n.height, r) == n
  {}

  lemma RoundIs(c: Config, n: Node, r: Round)
    requires n.panicked.None? && n.round <= r
    ensures var n1 := EnterNewRound(c, n, n.height, r); n1.panicked.Some? || (n1.round == r && n1.height == n.height)
  {
    hide SetRound, Majority;
  }

  lemma PrecommitStep(c: Config, n: Node, r: Round)
    requires n.panicked.Some? || n.round == r
    ensures var n1 := EnterPrecommit(c, n, n.height, r);
            n1.height == n.height && (n1.panicked.Some? || (n1.round == r && n1.step >= PRECOMMIT))
  {
    hide Majority, POLRound, PrecommitLock, PrecommitChoice;
    LockFields(n, r, Majority(n.votes, r, Prevote));
  }

  lemma WaitStarts(c: Config, n: Node, r: Round)
    requires n.panicked.Some? || n.round == r
    ensures var n1 := EnterPrecommitWait(c, n, n.height, r);
            && (n.panicked.Some? ==> n1 == n)
            && (n1.panicked.Some? || (n1.height == n.height && n1.round == r && n1.step == n.step
                                    && n1.triggeredTimeoutPrecommit))
  {
    hide AnyTwoThirds;
  }

  /** What a counted precommit of round r makes a node do that is not committing yet. */
  ghost predicate AfterPrecommit(c: Config, n: Node, n': Node, r: Round) {
    var maj, any := Majority(n.votes, r, Precommit), AnyTwoThirds(c.vals(n.height), n.votes, r, Precommit);
    if maj.Some? && maj.value.hash != 0 then Commits(n, n', maj.value, r)
    else if r < n.round || (maj.None? && !any) then n' == n
    else if maj.None? && r == n.round && n.step != NEW_HEIGHT then WaitsForPrecommits(n, n')
    else || n'.panicked.Some?
         || (n'.height == n.height && n'.round == r && n'.triggeredTimeoutPrecommit && (maj.Some? ==> n'.step >= PRECOMMIT))
  }

  predicate WaitsForPrecommits(n: Node, n': Node) {
    n' == if n.triggeredTimeoutPrecommit then n
          else n.(triggeredTimeoutPrecommit := true, scheduled := n.scheduled + [Timeout(n.height, n.round, PRECOMMIT_WAIT)])
  }

  lemma PrecommitEvent(c: Config, h: seq<Vote>, n: Node, vote: Vote, peer: Peer, sigOk: bool)
    requires Inv(c, h, n) && n.panicked.None? && (sigOk ==> vote in h) && n.step < COMMIT
    requires vote.height == n.height && vote.typ == Precommit && AddHeightVote(c.vals(n.height), n.votes, vote, peer, sigOk).1
    ensures var votes := AddHeightVote(c.vals(n.height), n.votes, vote, peer, sigOk).0;
            AfterPrecommit(c, n.(votes := votes), Handle(c, n, VoteMsg(vote, peer, sigOk)), vote.round)
  {
    hide Inv, AddHeightVote, OnPrecommit, HeightConsistent, Grows, Extends, Majority, AnyTwoThirds, Commits;
    assert VotesInv(c, h, n) by { InvParts(c, h, n); }
    AddHeightVoteConsistent(c.vals(n.height), n.votes, vote, peer, sigOk, h);
    var n0 := n.(votes := AddHeightVote(c.vals(n.height), n.votes, vote, peer, sigOk).0);
    NewVotesInv(c, h, n, n0.votes);
    var maj := Majority(n0.votes, vote.round, Precommit);
    if maj.Some? && maj.value.hash != 0 { CommitReaction(c, h, n0, vote.round, maj.value); }
    else { PrecommitReaction(c, h, n0, vote.round); }
  }

  // ---------------------------------------------------------------- timeouts

  /** Each timeout of the current round makes the node do what it was asked for; one that is behind the node does nothing. */
  lemma TimeoutEffect(c: Config, h: seq<Vote>, n: Node, t: Timeout)
    requires Inv(c, h, n) && n.panicked.None? && t in n.scheduled
    ensures var n' := Handle(c, n, TimeoutMsg(t));
            if t.height != n.height || t.round < n.round || t.step < n.step then n' == n
            else if t.step == NEW_HEIGHT then StartedRound(c, n, n', 1) || n'.panicked == Some(SetRoundFailed) || n.round > 1
            else if t.step == NEW_ROUND then Proposing(c, n, n') || n.round > 1
            else if t.step == PROPOSE then Prevoted(c, n, n')
            else if t.step == PREVOTE_WAIT then Precommitted(c, n, n') || n'.panicked == Some(PolRoundTooLow)
            else || n'.panicked.Some? || n.round == MAX_ROUND
                 || (n.step >= PRECOMMIT && StartedRound(c, n, n', n.round + 1))
                 || (n.step < PRECOMMIT && exists n1 :: Precommitted(c, n, n1) && StartedRound(c, n1, n', n.round + 1))
  {
    hide Inv, EnterPrecommit, EnterNewRound, EnterPropose, EnterPrevote, Extends, Prevoted, Precommitted, Proposing, StartedRound;
    NotAhead(c, h, n, t);
    if t.height == n.height && t.round == n.round && n.step <= t.step {
      if t.step == NEW_HEIGHT { if n.round == 1 { NewRoundEffect(c, h, n, 1); } }
      else if t.step == NEW_ROUND { ProposeEffect(c, n); }
      else if t.step == PROPOSE { PrevoteEffect(c, n); }
      else {
        var n1 := EnterPrecommit(c, n, n.height, n.round);
        EnterPrecommitInv(c, h, n, n.height, n.round);
        if n.step < PRECOMMIT { PrecommitEffect(c, h, n); PrecommittedParts(c, n, n1); } else { PrecommitIgnored(c, n); }
        if t.step == PRECOMMIT_WAIT && n.round < MAX_ROUND && n1.panicked.None? { NewRoundEffect(c, h, n1, n.round + 1); }
        if n1.panicked.Some? { StoppedStays(c, n1, n.height, (n.round + 1) % (MAX_ROUND + 1)); }
      }
    }
  }

  lemma PrecommittedParts(c: Config, n: Node, n': Node)
    ensures Precommitted(c, n, n') ==> n'.height == n.height && n'.round == n.round && n'.panicked == n.panicked
  {
    hide Majority;
  }

  lemma StoppedStays(c: Config, n: Node, height: nat, r: Round)
    requires n.panicked.Some?
    ensures EnterNewRound(c, n, height, r) == n
  {}

  // ---------------------------------------------------------------- late precommits

  /** A late precommit goes to the last commit; when that has everyone's vote, the wait for more of them can end. */
  lemma LateEffect(c: Config, h: seq<Vote>, n: Node, vote: Vote, peer: Peer, sigOk: bool)
    requires Inv(c, h, n) && n.panicked.None? && (sigOk ==> vote in h) && vote.height + 1 == n.height && vote.typ == Precommit
    ensures var n' := Handle(c, n, VoteMsg(vote, peer, sigOk));
            && (n.step != NEW_HEIGHT ==> n' == n)
            && (n.step == NEW_HEIGHT && n.lastCommit.None? ==> n' == n.(panicked := Some(NoLastCommit)))
            && (n.step == NEW_HEIGHT && n.lastCommit.Some? ==>
                  var (vs, counted) := AddVote(c.vals(vote.height), n.lastCommit.value, vote, sigOk);
                  var n1 := n.(lastCommit := Some(vs));
                  if counted && c.skipTimeoutCommit && vs.sum == c.vals(vote.height).total && n.round == 1
                  then StartedRound(c, n1, n', 1) || n'.panicked == Some(SetRoundFailed)
                  else n' == n1)
  {
    hide Inv, AddVote, EnterNewRound, StartedRound, Extends;
    assert 1 <= n.round by { InvParts(c, h, n); }
    if n.step == NEW_HEIGHT && n.lastCommit.Some? {
      var n1 := n.(lastCommit := Some(AddVote(c.vals(vote.height), n.lastCommit.value, vote, sigOk).0));
      LateVoteInv(c, h, n, vote, sigOk);
      if n.round == 1 { NewRoundEffect(c, h, n1, 1); } else { FirstRoundIgnored(c, n1); }
    }
  }

  lemma FirstRoundIgnored(c: Config, n: Node)
    requires n.round > 1
    ensures EnterNewRound(c, n, n.height, 1) == n
  {}
}
