/**
 The round state machine of one consensus node: what each handler does to the node's state.
 A node accumulates the votes it signed, the timeouts it scheduled and the blocks it finalized.
 A panic stops the node for good; the reason is kept.
 */
module RoundMachine {
  import opened Basics
  import opened VotingPower
  import opened VoteSets

  datatype Block = Block(hash: Hash, body: nat)
  datatype PartSet = PartSet(header: PartSetHeader, complete: bool)
  datatype Proposal = Proposal(height: nat, round: Round, polRound: Round, polBlockID: BlockID)

  type Step = s: nat | 1 <= s <= 8 witness 1
  const NEW_HEIGHT: Step := 1
  const NEW_ROUND: Step := 2
  const PROPOSE: Step := 3
  const PREVOTE: Step := 4
  const PREVOTE_WAIT: Step := 5
  const PRECOMMIT: Step := 6
  const PRECOMMIT_WAIT: Step := 7
  const COMMIT: Step := 8

  datatype Timeout = Timeout(height: nat, round: Round, step: Step)

  datatype Panic =
    | PrevoteWaitWithoutQuorum
    | PrecommitWaitWithoutQuorum
    | PolRoundTooLow
    | CommitWithoutMajority
    | FinalizeWrongHeight
    | FinalizeWithoutMajority
    | FinalizeWrongParts
    | FinalizeWrongHash
    | CommittedInvalidBlock
    | UpdateWithoutMajority
    | SetRoundFailed
    | NoLastCommit
    | ApplyFailed
    | InvalidTimeoutStep

  /** What a node is configured with or asks its environment. */
  datatype Config = Config(
    vals: nat -> ValidatorSet,         // validators of each height
    validate: (nat, Block) -> bool,    // ValidateBlock at a height
    apply: (nat, Block) -> bool,       // whether ApplyBlock succeeds
    skipTimeoutCommit: bool, waitForTxs: bool, emptyBlocksInterval: bool)

  datatype Node = Node(
    self: Val,
    height: nat, round: Round, step: Step,
    proposal: Option<Proposal>, proposalBlock: Option<Block>, proposalParts: Option<PartSet>,
    lockedRound: Round, lockedBlock: Option<Block>, lockedParts: Option<PartSet>,
    validRound: Round, validBlock: Option<Block>, validParts: Option<PartSet>,
    votes: HeightVoteSet, commitRound: Round, lastCommit: Option<VoteSet>,
    triggeredTimeoutPrecommit: bool,
    signed: seq<Vote>, scheduled: seq<Timeout>, decided: map<nat, Block>,
    panicked: Option<Panic>)

  predicate HashesTo(b: Option<Block>, hash: Hash) {
    hash != 0 && b.Some? && b.value.hash == hash
  }

  function HeaderOf(p: Option<PartSet>): PartSetHeader {
    if p.Some? then p.value.header else PartSetHeader(0, 0)
  }

  predicate HasHeader(p: Option<PartSet>, header: PartSetHeader) {
    p.Some? && p.value.header == header
  }

  function Fail(n: Node, why: Panic): Node { n.(panicked := Some(why)) }

  function Schedule(n: Node, r: Round, s: Step): Node {
    n.(scheduled := n.scheduled + [Timeout(n.height, r, s)])
  }

  /** Signs for the node's current height and round, if the node is a validator. */
  function SignVote(c: Config, n: Node, typ: VoteType, id: BlockID): Node {
    if n.self in c.vals(n.height).powers
    then n.(signed := n.signed + [Vote(n.self, n.height, n.round, typ, id)])
    else n
  }

  predicate IsProposalComplete(n: Node) {
    && n.proposal.Some? && n.proposalBlock.Some?
    && (n.proposal.value.polRound < 1 || Majority(n.votes, n.proposal.value.polRound, Prevote).Some?)
  }

  /** The state at the start of a height, without votes, proposal or lock. */
  function StartHeight(n: Node, height: nat): Node {
    n.(height := height, round := 1, step := NEW_HEIGHT,
       proposal := None, proposalBlock := None, proposalParts := None,
       lockedRound := 0, lockedBlock := None, lockedParts := None,
       validRound := 0, validBlock := None, validParts := None,
       votes := NewHeightVoteSet(height), commitRound := 0, triggeredTimeoutPrecommit := false)
  }

  // ---------------------------------------------------------------- steps of a round

  function EnterNewRound(c: Config, n: Node, height: nat, round: Round): Node {
    if n.panicked.Some? then n
    else if n.height != height || round < n.round || (n.round == round && n.step != NEW_HEIGHT) then n
    else
      var tracked := SetRound(n.votes, (round + 1) % (MAX_ROUND + 1));
      if tracked.None? then Fail(n, SetRoundFailed)
      else
        var n1 := n.(round := round, step := NEW_ROUND, votes := tracked.value, triggeredTimeoutPrecommit := false);
        var n2 := if round == 1 then n1 else n1.(proposal := None, proposalBlock := None, proposalParts := None);
        if c.waitForTxs && round == 1 then
          if c.emptyBlocksInterval then Schedule(n2, round, NEW_ROUND) else n2
        else EnterPropose(c, n2, height, round)
  }

  function EnterPropose(c: Config, n: Node, height: nat, round: Round): Node {
    if n.panicked.Some? then n
    else if n.height != height || round < n.round || (n.round == round && PROPOSE <= n.step) then n
    else
      var n1 := Schedule(n, round, PROPOSE).(round := round, step := PROPOSE);
      if IsProposalComplete(n1) then EnterPrevote(c, n1, height, n1.round) else n1
  }

  function EnterPrevote(c: Config, n: Node, height: nat, round: Round): Node {
    if n.panicked.Some? then n
    else if n.height != height || round < n.round || (n.round == round && PREVOTE <= n.step) then n
    else SignVote(c, n, Prevote, PrevoteChoice(c, n)).(round := round, step := PREVOTE)
  }

  /** The locked block, else the proposal block if it is valid, else nil. */
  function PrevoteChoice(c: Config, n: Node): BlockID {
    if n.lockedBlock.Some? then BlockID(n.lockedBlock.value.hash, HeaderOf(n.lockedParts))
    else if n.proposalBlock.None? then ZERO_ID
    else if !c.validate(n.height, n.proposalBlock.value) then ZERO_ID
    else BlockID(n.proposalBlock.value.hash, HeaderOf(n.proposalParts))
  }

  function EnterPrevoteWait(c: Config, n: Node, height: nat, round: Round): Node {
    if n.panicked.Some? then n
    else if n.height != height || round < n.round || (n.round == round && PREVOTE_WAIT <= n.step) then n
    else if !AnyTwoThirds(c.vals(n.height), n.votes, round, Prevote) then Fail(n, PrevoteWaitWithoutQuorum)
    else Schedule(n, round, PREVOTE_WAIT).(round := round, step := PREVOTE_WAIT)
  }

  function Unlock(n: Node): Node {
    n.(lockedRound := 0, lockedBlock := None, lockedParts := None)
  }

  function EnterPrecommit(c: Config, n: Node, height: nat, round: Round): Node {
    if n.panicked.Some? then n
    else if n.height != height || round < n.round || (n.round == round && PRECOMMIT <= n.step) then n
    else
      var polka := Majority(n.votes, round, Prevote);
      if polka.Some? && POLRound(n.votes, n.votes.round) < round then Fail(n, PolRoundTooLow)
      else
        SignVote(c, PrecommitLock(n, round, polka), Precommit, PrecommitChoice(n, polka))
          .(round := round, step := PRECOMMIT)
  }

  /** Locks the block with a polka in this round if the node has it, and unlocks if the polka is for anything else. */
  function PrecommitLock(n: Node, round: Round, polka: Option<BlockID>): Node {
    if polka.None? then n
    else if polka.value.IsZero() then if n.lockedBlock.None? then n else Unlock(n)
    else if HashesTo(n.lockedBlock, polka.value.hash) then n.(lockedRound := round)
    else if HashesTo(n.proposalBlock, polka.value.hash) then
      n.(lockedRound := round, lockedBlock := n.proposalBlock, lockedParts := n.proposalParts)
    else if HasHeader(n.proposalParts, polka.value.parts) then Unlock(n)
    else Unlock(n).(proposalBlock := None, proposalParts := Some(PartSet(polka.value.parts, false)))
  }

  /** The block with a polka in this round if the node has it, else nil. */
  function PrecommitChoice(n: Node, polka: Option<BlockID>): BlockID {
    if polka.Some? && (HashesTo(n.lockedBlock, polka.value.hash) || HashesTo(n.proposalBlock, polka.value.hash))
    then polka.value else ZERO_ID
  }

  function EnterPrecommitWait(c: Config, n: Node, height: nat, round: Round): Node {
    if n.panicked.Some? then n
    else if n.height != height || round != n.round || n.triggeredTimeoutPrecommit then n
    else if !AnyTwoThirds(c.vals(n.height), n.votes, round, Precommit) then Fail(n, PrecommitWaitWithoutQuorum)
    else Schedule(n, round, PRECOMMIT_WAIT).(triggeredTimeoutPrecommit := true)
  }

  function EnterCommit(c: Config, n: Node, height: nat, commitRound: Round): Node {
    if n.panicked.Some? then n
    else if n.height != height || COMMIT <= n.step then n
    else
      var maj := Majority(n.votes, commitRound, Precommit);
      if maj.None? then Fail(n, CommitWithoutMajority)
      else
        TryFinalizeCommit(c, PickCommitBlock(n, maj.value).(step := COMMIT, commitRound := commitRound), height)
  }

  /** The locked block becomes the proposal block if it is the committed one; an unknown block is fetched. */
  function PickCommitBlock(n: Node, id: BlockID): Node {
    var n1 := if HashesTo(n.lockedBlock, id.hash)
              then n.(proposalBlock := n.lockedBlock, proposalParts := n.lockedParts) else n;
    if !HashesTo(n1.proposalBlock, id.hash) && !HasHeader(n1.proposalParts, id.parts)
    then n1.(proposalBlock := None, proposalParts := Some(PartSet(id.parts, false))) else n1
  }

  function TryFinalizeCommit(c: Config, n: Node, height: nat): Node {
    if n.panicked.Some? then n
    else if n.height != height then Fail(n, FinalizeWrongHeight)
    else
      var maj := Majority(n.votes, n.commitRound, Precommit);
      if maj.None? || maj.value.IsZero() then n
      else if !HashesTo(n.proposalBlock, maj.value.hash) then n
      else FinalizeCommit(c, n, height)
  }

  function FinalizeCommit(c: Config, n: Node, height: nat): Node {
    if n.panicked.Some? then n
    else if n.height != height || n.step != COMMIT then n
    else
      var maj := Majority(n.votes, n.commitRound, Precommit);
      if maj.None? then Fail(n, FinalizeWithoutMajority)
      else if !HasHeader(n.proposalParts, maj.value.parts) then Fail(n, FinalizeWrongParts)
      else if !HashesTo(n.proposalBlock, maj.value.hash) then Fail(n, FinalizeWrongHash)
      else if !c.validate(n.height, n.proposalBlock.value) then Fail(n, CommittedInvalidBlock)
      else
        var n1 := n.(decided := n.decided[n.height := n.proposalBlock.value]);
        if !c.apply(n.height, n.proposalBlock.value) then Fail(n1, ApplyFailed)
        else UpdateToState(n1)
  }

  /** Moves to the next height; the precommits of the commit round become the last commit. */
  function UpdateToState(n: Node): Node {
    if n.commitRound > 0 && Majority(n.votes, n.commitRound, Precommit).None? then Fail(n, UpdateWithoutMajority)
    else if n.commitRound == 0 && n.lastCommit.None? then Fail(n, NoLastCommit)
    else
      var lc := if n.commitRound > 0 then GetVoteSet(n.votes, n.commitRound, Precommit) else n.lastCommit;
      Schedule(StartHeight(n.(lastCommit := lc), n.height + 1), 1, NEW_HEIGHT)
  }

  // ---------------------------------------------------------------- inputs

  datatype PartResult = Partial | Undecodable | Complete(block: Block)

  datatype Event =
    | VoteMsg(vote: Vote, peer: Peer, sigOk: bool)
    | ProposalMsg(proposal: Proposal, sigOk: bool)
    | BlockPartMsg(height: nat, result: PartResult)
    | PeerMaj23Msg(round: Round, typ: VoteType, peer: Peer, id: BlockID)
    | TimeoutMsg(timeout: Timeout)

  function Handle(c: Config, n: Node, e: Event): Node {
    if n.panicked.Some? then n
    else match e
      case VoteMsg(vote, peer, sigOk) => AddVoteMsg(c, n, vote, peer, sigOk)
      case ProposalMsg(p, sigOk) => SetProposal(n, p, sigOk)
      case BlockPartMsg(height, result) => AddProposalBlockPart(c, n, height, result)
      case PeerMaj23Msg(r, typ, peer, id) => n.(votes := SetHeightPeerMaj23(n.votes, r, typ, peer, id))
      case TimeoutMsg(t) => HandleTimeout(c, n, t)
  }

  function SetProposal(n: Node, p: Proposal, sigOk: bool): Node {
    if n.proposal.Some? then n
    else if p.height != n.height || p.round != n.round then n
    else if p.polRound < 1 && (p.polRound > 0 || p.polRound > p.round) then n
    else if !sigOk then n
    else
      n.(proposal := Some(p),
         proposalParts := if n.proposalParts.None? then Some(PartSet(p.polBlockID.parts, false)) else n.proposalParts)
  }

  /** result says what became of the part: the set is not complete yet, or complete and decoded or not. */
  function AddProposalBlockPart(c: Config, n: Node, height: nat, result: PartResult): Node {
    if n.height != height || n.proposalParts.None? || n.proposalParts.value.complete || result.Partial? then n
    else
      var n1 := StoreBlock(n, result);
      if result.Undecodable? then n1
      else if n1.step <= PROPOSE && IsProposalComplete(n1) then
        var n2 := EnterPrevote(c, n1, height, n1.round);
        if Majority(n1.votes, n1.round, Prevote).Some? then EnterPrecommit(c, n2, height, n2.round) else n2
      else if n1.step == COMMIT then TryFinalizeCommit(c, n1, height)
      else n1
  }

  /** The completed part set; a decoded block becomes the proposal block, and the valid block if the round has a polka for it. */
  function StoreBlock(n: Node, result: PartResult): Node
    requires n.proposalParts.Some? && !result.Partial?
  {
    var n1 := n.(proposalParts := Some(n.proposalParts.value.(complete := true)));
    if result.Undecodable? then n1
    else
      var n2 := n1.(proposalBlock := Some(result.block));
      var polka := Majority(n2.votes, n2.round, Prevote);
      if polka.Some? && !polka.value.IsZero() && n2.validRound < n2.round && HashesTo(n2.proposalBlock, polka.value.hash)
      then n2.(validRound := n2.round, validBlock := n2.proposalBlock, validParts := n2.proposalParts)
      else n2
  }

  function AddVoteMsg(c: Config, n: Node, vote: Vote, peer: Peer, sigOk: bool): Node {
    if vote.height + 1 == n.height && vote.typ == Precommit then AddLateCommit(c, n, vote, sigOk)
    else if vote.height != n.height then n
    else
      var (votes', added) := AddHeightVote(c.vals(n.height), n.votes, vote, peer, sigOk);
      var n1 := n.(votes := votes');
      if !added then n1
      else if vote.typ == Prevote then OnPrevote(c, OnPolka(n1, vote.round), vote.round)
      else OnPrecommit(c, n1, vote.round)
  }

  function AddLateCommit(c: Config, n: Node, vote: Vote, sigOk: bool): Node {
    if n.step != NEW_HEIGHT then n
    else if n.lastCommit.None? then Fail(n, NoLastCommit)
    else
      var prev := c.vals(vote.height);
      var (lc, added) := AddVote(prev, n.lastCommit.value, vote, sigOk);
      var n1 := n.(lastCommit := Some(lc));
      if added && c.skipTimeoutCommit && HasAll(prev, lc) then EnterNewRound(c, n1, n1.height, 1) else n1
  }

  /** A polka of any round may unlock, and a polka for a block in the current round sets the valid block. */
  function OnPolka(n: Node, round: Round): Node {
    var polka := Majority(n.votes, round, Prevote);
    if polka.None? then n else UpdateValid(UnlockByPolka(n, round, polka.value), round, polka.value)
  }

  /** A polka for another value, of a round after the lock and up to the current one, unlocks. */
  function UnlockByPolka(n: Node, round: Round, polka: BlockID): Node {
    if n.lockedBlock.Some? && n.lockedRound < round <= n.round && !HashesTo(n.lockedBlock, polka.hash)
    then Unlock(n) else n
  }

  function UpdateValid(n: Node, round: Round, polka: BlockID): Node {
    if polka.hash == 0 || round <= n.validRound || round != n.round then n
    else
      var n1 := if HashesTo(n.proposalBlock, polka.hash)
                then n.(validRound := round, validBlock := n.proposalBlock, validParts := n.proposalParts)
                else n.(proposalBlock := None);
      if HasHeader(n1.proposalParts, polka.parts) then n1
      else n1.(proposalParts := Some(PartSet(polka.parts, false)))
  }

  function OnPrevote(c: Config, n: Node, round: Round): Node {
    var any := AnyTwoThirds(c.vals(n.height), n.votes, round, Prevote);
    if n.round < round && any then EnterNewRound(c, n, n.height, round)
    else if n.round == round && PREVOTE <= n.step then
      var polka := Majority(n.votes, round, Prevote);
      if polka.Some? && (IsProposalComplete(n) || polka.value.hash == 0) then EnterPrecommit(c, n, n.height, round)
      else if any then EnterPrevoteWait(c, n, n.height, round)
      else n
    else if n.proposal.Some? && 1 <= n.proposal.value.polRound == round && IsProposalComplete(n) then
      EnterPrevote(c, n, n.height, n.round)
    else n
  }

  function OnPrecommit(c: Config, n: Node, round: Round): Node {
    var vals := c.vals(n.height);
    var maj := Majority(n.votes, round, Precommit);
    if maj.Some? then
      var n2 := EnterPrecommit(c, EnterNewRound(c, n, n.height, round), n.height, round);
      if maj.value.hash == 0 then EnterPrecommitWait(c, n2, n.height, round)
      else
        var n3 := EnterCommit(c, n2, n.height, round);
        if c.skipTimeoutCommit && HasAll(vals, GetVoteSet(n.votes, round, Precommit).value)
        then EnterNewRound(c, n3, n3.height, 1) else n3
    else if n.round <= round && AnyTwoThirds(vals, n.votes, round, Precommit) then
      EnterPrecommitWait(c, EnterNewRound(c, n, n.height, round), n.height, round)
    else n
  }

  function HandleTimeout(c: Config, n: Node, t: Timeout): Node {
    if t.height != n.height || t.round < n.round || (t.round == n.round && t.step < n.step) then n
    else if t.step == NEW_HEIGHT then EnterNewRound(c, n, t.height, 1)
    else if t.step == NEW_ROUND then EnterPropose(c, n, t.height, 1)
    else if t.step == PROPOSE then EnterPrevote(c, n, t.height, t.round)
    else if t.step == PREVOTE_WAIT then EnterPrecommit(c, n, t.height, t.round)
    else if t.step == PRECOMMIT_WAIT then
      EnterNewRound(c, EnterPrecommit(c, n, t.height, t.round), t.height, (t.round + 1) % (MAX_ROUND + 1))
    else Fail(n, InvalidTimeoutStep)
  }

  /** A node that joins at a height, with the first round scheduled. */
  function NewNode(self: Val, height: nat, lastCommit: Option<VoteSet>): Node {
    Node(self, height, 1, NEW_HEIGHT, None, None, None, 0, None, None, 0, None, None,
         NewHeightVoteSet(height), 0, lastCommit, false, [], [Timeout(height, 1, NEW_HEIGHT)], map[], None)
  }
}
