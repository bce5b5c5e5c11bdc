/**
 What every handler of a correct node keeps, relative to the history h of all votes signed so far:
 the node's votes are strictly ordered by (height, round, type), every precommit for a block has a polka,
 and a node that precommitted a block is locked on it until a later round has a polka for something else.
 */
module RoundInvariant {
  import opened Basics
  import opened VotingPower
  import opened VoteSets
  import opened RoundMachine

  // ---------------------------------------------------------------- order

  /** Lexicographic comparison of (height, round, step): -1, 0 or 1. */
  function CompareHRS(h1: nat, r1: nat, s1: nat, h2: nat, r2: nat, s2: nat): int {
    if h1 < h2 then -1 else if h1 > h2 then 1
    else if r1 < r2 then -1 else if r1 > r2 then 1
    else if s1 < s2 then -1 else if s1 > s2 then 1
    else 0
  }

  function StepOf(typ: VoteType): Step {
    if typ == Prevote then PREVOTE else PRECOMMIT
  }

  /** v belongs to an earlier (height, round, type) than w. */
  predicate Before(v: Vote, w: Vote) {
    CompareHRS(v.height, v.round, StepOf(v.typ), w.height, w.round, StepOf(w.typ)) < 0
  }

  /** The node is at or past the step in which it signs v. */
  predicate Reached(n: Node, v: Vote) {
    CompareHRS(v.height, v.round, StepOf(v.typ), n.height, n.round, n.step) <= 0
  }

  /** (height, round, step) did not go back. */
  predicate Forward(n: Node, n': Node) {
    CompareHRS(n.height, n.round, n.step, n'.height, n'.round, n'.step) <= 0
  }

  // ---------------------------------------------------------------- justification of votes

  ghost predicate Polka(c: Config, h: seq<Vote>, k: nat, r: nat, hash: Hash) {
    HistoryQuorum(c.vals(k), h, Prevote, k, r, hash)
  }

  /** Some round after r has a polka for a value other than hash. */
  ghost predicate OtherPolka(c: Config, h: seq<Vote>, k: nat, r: nat, hash: Hash) {
    exists r': nat, x: Hash :: r < r' && x != hash && Polka(c, h, k, r', x)
  }

  ghost predicate HasPolka(c: Config, h: seq<Vote>, k: nat, hash: Hash) {
    exists r: nat :: Polka(c, h, k, r, hash)
  }

  ghost predicate ValidHash(c: Config, k: nat, hash: Hash) {
    exists b: Block :: b.hash == hash && c.validate(k, b)
  }

  predicate LockingVote(p: Vote) { p.typ == Precommit && p.blockID.hash != 0 }

  /** w is a prevote of a later round against the block that p locked. */
  predicate LeavesLock(p: Vote, w: Vote) {
    && w.typ == Prevote && LockingVote(p) && p.height == w.height && p.round < w.round
    && p.blockID.hash != w.blockID.hash
  }

  /** Why a vote could be signed, given the precommits p of the same node. */
  ghost predicate Justified(c: Config, h: seq<Vote>, p: Vote, w: Vote) {
    && (LockingVote(w) ==> Polka(c, h, w.height, w.round, w.blockID.hash))
    && (w.typ == Prevote && w.blockID.hash != 0 ==>
          ValidHash(c, w.height, w.blockID.hash) || HasPolka(c, h, w.height, w.blockID.hash))
    && (LeavesLock(p, w) ==> OtherPolka(c, h, p.height, p.round, p.blockID.hash))
  }

  ghost predicate Ordered(s: seq<Vote>) {
    forall i, j | 0 <= i < j < |s| :: Before(s[i], s[j])
  }

  ghost predicate JustifiedLog(c: Config, h: seq<Vote>, s: seq<Vote>) {
    forall p, w | p in s && w in s :: Justified(c, h, p, w)
  }

  // ---------------------------------------------------------------- the invariant

  ghost predicate LogInv(c: Config, h: seq<Vote>, n: Node) {
    && Ordered(n.signed) && JustifiedLog(c, h, n.signed)
    && (forall v | v in n.signed :: v.val == n.self && v.val in c.vals(v.height).powers && Reached(n, v) && v.round >= 1)
  }

  ghost predicate VotesInv(c: Config, h: seq<Vote>, n: Node) {
    && n.votes.height == n.height
    && HeightConsistent(c.vals(n.height), n.votes, h)
    && (n.round <= n.votes.round || n.round == MAX_ROUND)
    && 1 <= n.round
  }

  ghost predicate Locked(n: Node, p: Vote) {
    n.lockedBlock.Some? && n.lockedBlock.value.hash == p.blockID.hash && p.round <= n.lockedRound
  }

  ghost predicate LockInv(c: Config, h: seq<Vote>, n: Node) {
    && (n.lockedBlock.Some? ==> n.lockedBlock.value.hash != 0 && HasPolka(c, h, n.height, n.lockedBlock.value.hash))
    && (forall p | p in n.signed && LockingVote(p) && p.height == n.height ::
          Locked(n, p) || OtherPolka(c, h, p.height, p.round, p.blockID.hash))
  }

  predicate TimeoutStep(s: Step) {
    s in {NEW_HEIGHT, NEW_ROUND, PROPOSE, PREVOTE_WAIT, PRECOMMIT_WAIT}
  }

  /** Timeouts are never ahead of the node. */
  ghost predicate ScheduleInv(n: Node) {
    forall t | t in n.scheduled ::
      TimeoutStep(t.step) && CompareHRS(t.height, t.round, 0, n.height, n.round, 0) <= 0
  }

  ghost predicate CommitInv(n: Node) {
    n.step == COMMIT ==>
      var maj := Majority(n.votes, n.commitRound, Precommit);
      maj.Some? && maj.value.hash != 0
  }

  /** More than two thirds precommitted this block in some round. */
  ghost predicate CommitQuorum(c: Config, h: seq<Vote>, k: nat, hash: Hash) {
    hash != 0 && exists r: nat :: HistoryQuorum(c.vals(k), h, Precommit, k, r, hash)
  }

  ghost predicate DecidedInv(c: Config, h: seq<Vote>, n: Node) {
    forall k | k in n.decided ::
      && (k < n.height || (k == n.height && n.panicked.Some?))
      && CommitQuorum(c, h, k, n.decided[k].hash) && c.validate(k, n.decided[k])
  }

  /** The node has the committed block, but put together from another part set than the one precommitted. */
  ghost predicate OtherParts(n: Node) {
    var maj := Majority(n.votes, n.commitRound, Precommit);
    maj.Some? && HashesTo(n.proposalBlock, maj.value.hash) && !HasHeader(n.proposalParts, maj.value.parts)
  }

  /** The only ways to stop. The other sanity checks of the code cannot fail. */
  ghost predicate PanicInv(c: Config, h: seq<Vote>, n: Node) {
    match n.panicked
    case None => true
    case Some(FinalizeWrongParts) => OtherParts(n)
    case Some(SetRoundFailed) => true
    case Some(NoLastCommit) => true
    case Some(ApplyFailed) => true
    case Some(PolRoundTooLow) => n.round == MAX_ROUND
    case Some(CommittedInvalidBlock) =>
      exists b: Block :: CommitQuorum(c, h, n.height, b.hash) && !c.validate(n.height, b)
    case _ => false
  }

  /** The set is made of signed precommits of the height, and its majority is for the hash. */
  ghost predicate Proves(c: Config, h: seq<Vote>, vs: VoteSet, k: nat, hash: Hash) {
    && vs.height == k && vs.typ == Precommit && Consistent(c.vals(k), vs, h)
    && vs.maj23.Some? && vs.maj23.value.hash == hash
  }

  /** More than two thirds precommitted the block in round zero, which no correct validator does. */
  ghost predicate ZeroCommit(c: Config, h: seq<Vote>, k: nat, hash: Hash) {
    HistoryQuorum(c.vals(k), h, Precommit, k, 0, hash)
  }

  /** The last commit proves the decision of the height before. */
  ghost predicate LastInv(c: Config, h: seq<Vote>, n: Node) {
    forall k | k in n.decided && k + 1 == n.height ::
      || ZeroCommit(c, h, k, n.decided[k].hash)
      || (n.lastCommit.Some? && Proves(c, h, n.lastCommit.value, k, n.decided[k].hash))
  }

  ghost predicate Inv(c: Config, h: seq<Vote>, n: Node) {
    && LogInv(c, h, n) && VotesInv(c, h, n) && LockInv(c, h, n)
    && ScheduleInv(n) && CommitInv(n) && DecidedInv(c, h, n) && PanicInv(c, h, n) && LastInv(c, h, n)
  }

  /** What a handler may do to a node: sign more votes, schedule, decide, and go forward. */
  ghost predicate Extends(n: Node, n': Node) {
    && n'.self == n.self
    && n.signed <= n'.signed
    && Forward(n, n')
    && (n'.height == n.height ==> Grows(n.votes, n'.votes))
    && (forall k | k in n.decided :: k in n'.decided && n'.decided[k] == n.decided[k])
  }

  // ---------------------------------------------------------------- signing

  lemma AppendVote(c: Config, h: seq<Vote>, s: seq<Vote>, w: Vote)
    requires Ordered(s) && JustifiedLog(c, h, s)
    requires forall v | v in s :: Before(v, w)
    requires forall p | p in s + [w] :: Justified(c, h, p, w)
    ensures Ordered(s + [w]) && JustifiedLog(c, h, s + [w])
  {}

  /** Signing a vote for the current round, in a step that comes after every earlier vote. */
  lemma SignInv(c: Config, h: seq<Vote>, n: Node, typ: VoteType, id: BlockID)
    requires LogInv(c, h, n) && n.round >= 1
    requires n.step < StepOf(typ)
    requires typ == Precommit && id.hash != 0 ==> Polka(c, h, n.height, n.round, id.hash)
    requires typ == Prevote && id.hash != 0 ==> ValidHash(c, n.height, id.hash) || HasPolka(c, h, n.height, id.hash)
    requires typ == Prevote ==>
               forall p | p in n.signed && LockingVote(p) && p.height == n.height && p.blockID.hash != id.hash ::
                 OtherPolka(c, h, p.height, p.round, p.blockID.hash)
    ensures LogInv(c, h, SignVote(c, n, typ, id).(step := StepOf(typ)))
  {
    hide OtherPolka, Polka, HasPolka, ValidHash;
    if n.self in c.vals(n.height).powers {
      AppendVote(c, h, n.signed, Vote(n.self, n.height, n.round, typ, id));
    }
  }

  // ---------------------------------------------------------------- handlers

  /** Signing and moving to the step of the vote keeps the whole invariant. */
  lemma SignStepInv(c: Config, h: seq<Vote>, n: Node, typ: VoteType, id: BlockID)
    requires Inv(c, h, n) && n.panicked.None? && n.step < StepOf(typ)
    requires typ == Precommit && id.hash != 0 ==>
               Polka(c, h, n.height, n.round, id.hash)
               && n.lockedBlock.Some? && n.lockedBlock.value.hash == id.hash && n.lockedRound == n.round
    requires typ == Prevote && id.hash != 0 ==> ValidHash(c, n.height, id.hash) || HasPolka(c, h, n.height, id.hash)
    requires typ == Prevote ==>
               forall p | p in n.signed && LockingVote(p) && p.height == n.height && p.blockID.hash != id.hash ::
                 OtherPolka(c, h, p.height, p.round, p.blockID.hash)
    ensures
      var n' := SignVote(c, n, typ, id).(step := StepOf(typ));
      Inv(c, h, n') && Extends(n, n')
  {
    hide LogInv, VotesInv, LockInv, ScheduleInv, CommitInv, DecidedInv, PanicInv, LastInv, Extends, OtherPolka, Polka, HasPolka,
      ValidHash, SignVote, LockingVote;
    assert n.round >= 1 by { VotesRound(c, h, n); }
    SignInv(c, h, n, typ, id);
    SignFrame(c, h, n, typ, id);
    SignLock(c, h, n, typ, id);
  }

  lemma VotesRound(c: Config, h: seq<Vote>, n: Node)
    requires VotesInv(c, h, n)
    ensures n.round >= 1
  {}

  lemma SignFrame(c: Config, h: seq<Vote>, n: Node, typ: VoteType, id: BlockID)
    requires n.panicked.None? && n.step < StepOf(typ)
    requires VotesInv(c, h, n) && ScheduleInv(n) && DecidedInv(c, h, n) && PanicInv(c, h, n) && LastInv(c, h, n)
    ensures var n' := SignVote(c, n, typ, id).(step := StepOf(typ));
            && VotesInv(c, h, n') && ScheduleInv(n') && CommitInv(n') && DecidedInv(c, h, n') && PanicInv(c, h, n')
            && LastInv(c, h, n') && Extends(n, n')
  {
    hide HeightConsistent, CommitQuorum, Grows, ZeroCommit, Proves;
    SameVotes(n.votes);
  }

  lemma SignLock(c: Config, h: seq<Vote>, n: Node, typ: VoteType, id: BlockID)
    requires LockInv(c, h, n)
    requires typ == Precommit && id.hash != 0 ==>
               n.lockedBlock.Some? && n.lockedBlock.value.hash == id.hash && n.lockedRound == n.round
    ensures LockInv(c, h, SignVote(c, n, typ, id).(step := StepOf(typ)))
  {
    hide OtherPolka, HasPolka;
  }

  lemma EnterPrevoteInv(c: Config, h: seq<Vote>, n: Node, height: nat, round: Round)
    requires Inv(c, h, n) && round <= n.round
    ensures Inv(c, h, EnterPrevote(c, n, height, round)) && Extends(n, EnterPrevote(c, n, height, round))
  {
    hide OtherPolka, Polka, HasPolka, LogInv, VotesInv, DecidedInv, PanicInv, CommitInv, ScheduleInv;
    if n.panicked.None? && height == n.height && round == n.round && n.step < PREVOTE {
      SignStepInv(c, h, n, Prevote, PrevoteChoice(c, n));
    }
  }

  lemma EnterPrecommitInv(c: Config, h: seq<Vote>, n: Node, height: nat, round: Round)
    requires Inv(c, h, n) && (n.panicked.None? ==> round <= n.round)
    ensures Inv(c, h, EnterPrecommit(c, n, height, round)) && Extends(n, EnterPrecommit(c, n, height, round))
  {
    hide Polka, Majority, POLRound, PrecommitLock, PrecommitChoice, Inv;
    if n.panicked.None? && height == n.height && round == n.round && n.step < PRECOMMIT {
      var polka := Majority(n.votes, round, Prevote);
      if polka.Some? && POLRound(n.votes, n.votes.round) < round {
        PolRoundInv(c, h, n);
      } else {
        PrecommitLockInv(c, h, n, polka);
        SignStepInv(c, h, PrecommitLock(n, round, polka), Precommit, PrecommitChoice(n, polka));
      }
    }
  }

  lemma PolRoundInv(c: Config, h: seq<Vote>, n: Node)
    requires Inv(c, h, n) && n.panicked.None?
    requires Majority(n.votes, n.round, Prevote).Some? && POLRound(n.votes, n.votes.round) < n.round
    ensures Inv(c, h, Fail(n, PolRoundTooLow))
  {
    hide Inv, HeightConsistent, Majority, POLRound, PanicInv;
    assert VotesInv(c, h, n) by { InvParts(c, h, n); }
    if n.round <= n.votes.round { POLRoundIsLatest(n.votes, n.votes.round, n.round); }
    PolRoundPanic(c, h, n);
    FailInv(c, h, n, PolRoundTooLow);
  }

  lemma PolRoundPanic(c: Config, h: seq<Vote>, n: Node)
    requires n.round == MAX_ROUND
    ensures PanicInv(c, h, Fail(n, PolRoundTooLow))
  {}

  lemma FailInv(c: Config, h: seq<Vote>, n: Node, why: Panic)
    requires Inv(c, h, n) && PanicInv(c, h, Fail(n, why))
    ensures Inv(c, h, Fail(n, why)) && Extends(n, Fail(n, why))
  {
    hide Ordered, JustifiedLog, HeightConsistent, HasPolka, OtherPolka, Majority, CommitQuorum, PanicInv, Grows,
      ZeroCommit, Proves;
    SameVotes(n.votes);
  }

  /** n' differs from n at most in its proposal, lock, valid block and precommit-wait flag. */
  ghost predicate SoftChange(n: Node, n': Node) {
    n' == n.(proposal := n'.proposal, proposalBlock := n'.proposalBlock, proposalParts := n'.proposalParts,
             lockedRound := n'.lockedRound, lockedBlock := n'.lockedBlock, lockedParts := n'.lockedParts,
             validRound := n'.validRound, validBlock := n'.validBlock, validParts := n'.validParts,
             triggeredTimeoutPrecommit := n'.triggeredTimeoutPrecommit)
  }

  lemma SoftInv(c: Config, h: seq<Vote>, n: Node, n': Node)
    requires Inv(c, h, n) && n.panicked.None? && SoftChange(n, n') && LockInv(c, h, n')
    ensures Inv(c, h, n') && Extends(n, n')
  {
    hide Ordered, JustifiedLog, HeightConsistent, LockInv, Majority, CommitQuorum, Grows, ZeroCommit, Proves;
    SameVotes(n.votes);
  }

  /** Precommitting keeps every earlier locking precommit locked, or finds the polka that released it. */
  lemma PrecommitLockInv(c: Config, h: seq<Vote>, n: Node, polka: Option<BlockID>)
    requires Inv(c, h, n) && n.panicked.None? && n.step < PRECOMMIT && polka == Majority(n.votes, n.round, Prevote)
    ensures
      var n1, id := PrecommitLock(n, n.round, polka), PrecommitChoice(n, polka);
      && Inv(c, h, n1) && SoftChange(n, n1)
      && (id.hash != 0 ==> n1.lockedBlock.Some? && n1.lockedBlock.value.hash == id.hash && n1.lockedRound == n.round
                           && Polka(c, h, n.height, n.round, id.hash))
  {
    hide Majority, Polka, Inv;
    if polka.Some? {
      assert LockInv(c, h, n) && VotesInv(c, h, n) && LogInv(c, h, n) by { InvParts(c, h, n); }
      PolkaOfMajority(c, h, n, n.round);
      ReleasedByPolka(c, h, n, n.round, polka.value.hash);
      hide VotesInv, LogInv;
      hide OtherPolka;
      SoftInv(c, h, n, PrecommitLock(n, n.round, polka));
    }
  }

  lemma InvParts(c: Config, h: seq<Vote>, n: Node)
    requires Inv(c, h, n)
    ensures LockInv(c, h, n) && VotesInv(c, h, n) && LogInv(c, h, n) && CommitInv(n)
    ensures DecidedInv(c, h, n) && PanicInv(c, h, n) && LastInv(c, h, n)
  {}

  /** A polka of the current round releases every lock of an earlier precommit for another block. */
  lemma ReleasedByPolka(c: Config, h: seq<Vote>, n: Node, r: nat, x: Hash)
    requires LogInv(c, h, n) && Polka(c, h, n.height, r, x)
    ensures forall p | p in n.signed && LockingVote(p) && p.height == n.height && p.round < r && x != p.blockID.hash ::
              OtherPolka(c, h, p.height, p.round, p.blockID.hash)
    ensures HasPolka(c, h, n.height, x)
    ensures r == n.round && n.step < PRECOMMIT ==>
              forall p | p in n.signed && LockingVote(p) && p.height == n.height :: p.round < r
  {}

  lemma PolkaOfMajority(c: Config, h: seq<Vote>, n: Node, r: Round)
    requires VotesInv(c, h, n) && Majority(n.votes, r, Prevote).Some?
    ensures Polka(c, h, n.height, r, Majority(n.votes, r, Prevote).value.hash)
  {
    HeightMajorityIsQuorum(c.vals(n.height), n.votes, r, Prevote, h);
  }

  /** Going forward within a height, with at most one more timeout, which is for the round entered. */
  lemma AdvanceInv(c: Config, h: seq<Vote>, n: Node, n': Node)
    requires Inv(c, h, n) && n.panicked.None?
    requires n' == n.(round := n'.round, step := n'.step, votes := n'.votes, scheduled := n'.scheduled,
                      proposal := n'.proposal, proposalBlock := n'.proposalBlock, proposalParts := n'.proposalParts,
                      triggeredTimeoutPrecommit := n'.triggeredTimeoutPrecommit, commitRound := n'.commitRound)
    requires Forward(n, n') && VotesInv(c, h, n') && CommitInv(n') && Grows(n.votes, n'.votes)
    requires n.scheduled <= n'.scheduled
    requires forall t | t in n'.scheduled[|n.scheduled|..] ::
               TimeoutStep(t.step) && CompareHRS(t.height, t.round, 0, n'.height, n'.round, 0) <= 0
    ensures Inv(c, h, n') && Extends(n, n')
  {}

  lemma SameVotes(hvs: HeightVoteSet)
    ensures Grows(hvs, hvs)
  {}

  lemma ExtendsTrans(a: Node, b: Node, d: Node)
    requires Extends(a, b) && Extends(b, d)
    ensures Extends(a, d)
  {}

  lemma EnterProposeInv(c: Config, h: seq<Vote>, n: Node, height: nat, round: Round)
    requires Inv(c, h, n) && round <= n.round
    ensures Inv(c, h, EnterPropose(c, n, height, round)) && Extends(n, EnterPropose(c, n, height, round))
  {
    assert VotesInv(c, h, n) by { InvParts(c, h, n); }
    hide Inv, HeightConsistent, EnterPrevote, IsProposalComplete, Extends, Grows;
    SameVotes(n.votes);
    if n.panicked.None? && height == n.height && round == n.round && n.step < PROPOSE {
      var n1 := Schedule(n, round, PROPOSE).(round := round, step := PROPOSE);
      AdvanceInv(c, h, n, n1);
      EnterPrevoteInv(c, h, n1, height, n1.round);
      ExtendsTrans(n, n1, EnterPrevote(c, n1, height, n1.round));
    } else { assert EnterPropose(c, n, height, round) == n; SameExtends(n); }
  }

  lemma SameExtends(n: Node)
    ensures Extends(n, n)
  {}

  lemma EnterNewRoundInv(c: Config, h: seq<Vote>, n: Node, height: nat, round: Round)
    requires Inv(c, h, n)
    ensures Inv(c, h, EnterNewRound(c, n, height, round)) && Extends(n, EnterNewRound(c, n, height, round))
    ensures
      var n' := EnterNewRound(c, n, height, round);
      && n'.height == n.height
      && (n.panicked.None? && height == n.height && n'.panicked.None? ==> round <= n'.round)
  {
    hide Inv, EnterPropose, SetRound, Extends;
    if n.panicked.None? && height == n.height && (n.round < round || (n.round == round && n.step == NEW_HEIGHT)) {
      var tracked := SetRound(n.votes, (round + 1) % (MAX_ROUND + 1));
      if tracked.None? {
        FailInv(c, h, n, SetRoundFailed);
      } else {
        var n1 := n.(round := round, step := NEW_ROUND, votes := tracked.value, triggeredTimeoutPrecommit := false);
        var n2 := if round == 1 then n1 else n1.(proposal := None, proposalBlock := None, proposalParts := None);
        RoundStartInv(c, h, n, round, n2);
        EnterProposeInv(c, h, n2, height, round);
        EnterProposeKeeps(c, n2, height, round);
        ExtendsTrans(n, n2, EnterPropose(c, n2, height, round));
      }
    } else { assert EnterNewRound(c, n, height, round) == n; SameExtends(n); }
  }

  /** Setting up a round, with or without a timeout for its transactions. */
  lemma RoundStartInv(c: Config, h: seq<Vote>, n: Node, round: Round, n': Node)
    requires Inv(c, h, n) && n.panicked.None? && (n.round < round || (n.round == round && n.step == NEW_HEIGHT))
    requires SetRound(n.votes, (round + 1) % (MAX_ROUND + 1)) == Some(n'.votes)
    requires n' == n.(round := round, step := NEW_ROUND, votes := n'.votes, triggeredTimeoutPrecommit := false,
                      proposal := n'.proposal, proposalBlock := n'.proposalBlock, proposalParts := n'.proposalParts)
    ensures Inv(c, h, n') && Extends(n, n')
    ensures Inv(c, h, Schedule(n', round, NEW_ROUND)) && Extends(n, Schedule(n', round, NEW_ROUND))
  {
    hide Inv, HeightConsistent, SetRound, Extends, Grows;
    assert VotesInv(c, h, n) by { InvParts(c, h, n); }
    SetRoundConsistent(c.vals(n.height), n.votes, (round + 1) % (MAX_ROUND + 1), h);
    SetRoundTracks(n.votes, (round + 1) % (MAX_ROUND + 1));
    AdvanceInv(c, h, n, n');
    AdvanceInv(c, h, n, Schedule(n', round, NEW_ROUND));
  }

  /** Every round from the one before the last asked for up to the new one is tracked, a new one without votes. */
  lemma SetRoundTracks(hvs: HeightVoteSet, r: Round)
    requires SetRound(hvs, r).Some?
    ensures var hvs' := SetRound(hvs, r).value;
            && hvs'.round == r && hvs'.height == hvs.height && hvs'.catchup == hvs.catchup
            && (forall x: Round | 1 <= hvs.round <= x + 1 && x <= r :: x in hvs'.rounds)
            && (forall x | x in hvs.rounds :: x in hvs'.rounds && hvs'.rounds[x] == hvs.rounds[x])
            && (forall x | x in hvs'.rounds && x !in hvs.rounds :: hvs'.rounds[x] == NewRoundVoteSet(hvs.height, x))
  {}

  lemma EnterProposeKeeps(c: Config, n: Node, height: nat, round: Round)
    requires round <= n.round
    ensures
      var n' := EnterPropose(c, n, height, round);
      n'.height == n.height && n'.round == n.round
  {}

  lemma EnterPrevoteWaitInv(c: Config, h: seq<Vote>, n: Node, height: nat, round: Round)
    requires Inv(c, h, n) && round <= n.round && AnyTwoThirds(c.vals(n.height), n.votes, round, Prevote)
    ensures Inv(c, h, EnterPrevoteWait(c, n, height, round)) && Extends(n, EnterPrevoteWait(c, n, height, round))
  {
    hide Inv, HeightConsistent, AnyTwoThirds, Extends, Grows;
    assert VotesInv(c, h, n) by { InvParts(c, h, n); }
    SameVotes(n.votes);
    if n.panicked.None? && height == n.height && round == n.round && n.step < PREVOTE_WAIT {
      AdvanceInv(c, h, n, Schedule(n, round, PREVOTE_WAIT).(round := round, step := PREVOTE_WAIT));
    } else { SameExtends(n); }
  }

  lemma EnterPrecommitWaitInv(c: Config, h: seq<Vote>, n: Node, height: nat, round: Round)
    requires Inv(c, h, n)
    requires n.height == height && n.panicked.None? ==> AnyTwoThirds(c.vals(n.height), n.votes, round, Precommit)
    ensures Inv(c, h, EnterPrecommitWait(c, n, height, round)) && Extends(n, EnterPrecommitWait(c, n, height, round))
  {
    hide Inv, HeightConsistent, AnyTwoThirds, Extends, Grows, Majority;
    assert VotesInv(c, h, n) && CommitInv(n) by { InvParts(c, h, n); }
    SameVotes(n.votes);
    if n.panicked.None? && height == n.height && round == n.round && !n.triggeredTimeoutPrecommit {
      AdvanceInv(c, h, n, Schedule(n, round, PRECOMMIT_WAIT).(triggeredTimeoutPrecommit := true));
    } else { SameExtends(n); }
  }

  // ---------------------------------------------------------------- commit

  /** The next height, after deciding a block that more than two thirds precommitted. */
  function NextHeight(n: Node, b: Block, lc: Option<VoteSet>): Node {
    Schedule(StartHeight(n.(decided := n.decided[n.height := b], lastCommit := lc), n.height + 1), 1, NEW_HEIGHT)
  }

  lemma NextHeightInv(c: Config, h: seq<Vote>, n: Node, b: Block, lc: Option<VoteSet>)
    requires Inv(c, h, n) && n.panicked.None?
    requires CommitQuorum(c, h, n.height, b.hash) && c.validate(n.height, b)
    requires ZeroCommit(c, h, n.height, b.hash) || (lc.Some? && Proves(c, h, lc.value, n.height, b.hash))
    ensures Inv(c, h, NextHeight(n, b, lc)) && Extends(n, NextHeight(n, b, lc))
  {
    hide CommitQuorum, JustifiedLog, Ordered, OtherPolka, HasPolka, HeightConsistent, Majority, ZeroCommit, Proves;
    NewHeightConsistent(c.vals(n.height + 1), n.height + 1, h);
  }

  lemma ApplyFailedInv(c: Config, h: seq<Vote>, n: Node, b: Block)
    requires Inv(c, h, n) && n.panicked.None?
    requires CommitQuorum(c, h, n.height, b.hash) && c.validate(n.height, b)
    ensures
      var n' := Fail(n.(decided := n.decided[n.height := b]), ApplyFailed);
      Inv(c, h, n') && Extends(n, n')
  {
    hide Ordered, JustifiedLog, HeightConsistent, HasPolka, OtherPolka, Majority, CommitQuorum, Grows, ZeroCommit, Proves;
    SameVotes(n.votes);
  }

  lemma FinalizeCommitInv(c: Config, h: seq<Vote>, n: Node, id: BlockID)
    requires Inv(c, h, n) && Majority(n.votes, n.commitRound, Precommit) == Some(id)
    requires HashesTo(n.proposalBlock, id.hash)
    ensures Inv(c, h, FinalizeCommit(c, n, n.height)) && Extends(n, FinalizeCommit(c, n, n.height))
  {
    assert VotesInv(c, h, n) by { InvParts(c, h, n); }
    CommitQuorumOfMajority(c, h, n, n.commitRound);
    hide Inv, Majority, Extends, CommitQuorum, VotesInv, UpdateToState, PanicInv;
    if n.panicked.None? && n.step == COMMIT {
      var b := n.proposalBlock.value;
      if !HasHeader(n.proposalParts, id.parts) {
        WrongPartsPanic(c, h, n);
        FailInv(c, h, n, FinalizeWrongParts);
      } else if !c.validate(n.height, b) {
        InvalidBlockPanic(c, h, n, b);
        FailInv(c, h, n, CommittedInvalidBlock);
      } else if !c.apply(n.height, b) {
        ApplyFailedInv(c, h, n, b);
      } else {
        UpdateInv(c, h, n, b);
      }
    } else { SameExtends(n); }
  }

  lemma WrongPartsPanic(c: Config, h: seq<Vote>, n: Node)
    requires OtherParts(n)
    ensures PanicInv(c, h, Fail(n, FinalizeWrongParts))
  {}

  lemma InvalidBlockPanic(c: Config, h: seq<Vote>, n: Node, b: Block)
    requires CommitQuorum(c, h, n.height, b.hash) && !c.validate(n.height, b)
    ensures PanicInv(c, h, Fail(n, CommittedInvalidBlock))
  {}

  /** The precommits of the commit round prove the decision, unless that is round zero. */
  lemma CommitProves(c: Config, h: seq<Vote>, n: Node)
    requires VotesInv(c, h, n) && Majority(n.votes, n.commitRound, Precommit).Some?
    ensures var x := Majority(n.votes, n.commitRound, Precommit).value.hash;
            && GetVoteSet(n.votes, n.commitRound, Precommit).Some?
            && Proves(c, h, GetVoteSet(n.votes, n.commitRound, Precommit).value, n.height, x)
            && (n.commitRound == 0 ==> ZeroCommit(c, h, n.height, x))
  {
    hide Consistent;
    HeightMajorityIsQuorum(c.vals(n.height), n.votes, n.commitRound, Precommit, h);
  }

  lemma UpdateInv(c: Config, h: seq<Vote>, n: Node, b: Block)
    requires Inv(c, h, n) && n.panicked.None? && Majority(n.votes, n.commitRound, Precommit).Some?
    requires Majority(n.votes, n.commitRound, Precommit).value.hash == b.hash
    requires CommitQuorum(c, h, n.height, b.hash) && c.validate(n.height, b)
    ensures
      var n' := UpdateToState(n.(decided := n.decided[n.height := b]));
      Inv(c, h, n') && Extends(n, n')
  {
    hide Inv, Majority, Extends, CommitQuorum, GetVoteSet, VotesInv, ZeroCommit, Proves;
    assert VotesInv(c, h, n) by { InvParts(c, h, n); }
    CommitProves(c, h, n);
    if n.commitRound == 0 && n.lastCommit.None? {
      UndecidedFailInv(c, h, n, b);
    } else {
      NextHeightInv(c, h, n, b, if n.commitRound > 0 then GetVoteSet(n.votes, n.commitRound, Precommit) else n.lastCommit);
    }
  }

  lemma UndecidedFailInv(c: Config, h: seq<Vote>, n: Node, b: Block)
    requires Inv(c, h, n) && n.panicked.None?
    requires CommitQuorum(c, h, n.height, b.hash) && c.validate(n.height, b)
    ensures
      var n' := Fail(n.(decided := n.decided[n.height := b]), NoLastCommit);
      Inv(c, h, n') && Extends(n, n')
  {
    hide Ordered, JustifiedLog, HeightConsistent, HasPolka, OtherPolka, Majority, CommitQuorum, Grows, ZeroCommit, Proves;
    SameVotes(n.votes);
  }

  lemma CommitQuorumOfMajority(c: Config, h: seq<Vote>, n: Node, r: Round)
    requires VotesInv(c, h, n)
    requires Majority(n.votes, r, Precommit).Some? && Majority(n.votes, r, Precommit).value.hash != 0
    ensures CommitQuorum(c, h, n.height, Majority(n.votes, r, Precommit).value.hash)
  {
    HeightMajorityIsQuorum(c.vals(n.height), n.votes, r, Precommit, h);
  }

  lemma TryFinalizeCommitInv(c: Config, h: seq<Vote>, n: Node)
    requires Inv(c, h, n)
    ensures Inv(c, h, TryFinalizeCommit(c, n, n.height)) && Extends(n, TryFinalizeCommit(c, n, n.height))
  {
    hide Inv, Majority, Extends, FinalizeCommit;
    SameExtends(n);
    var maj := Majority(n.votes, n.commitRound, Precommit);
    if maj.Some? && HashesTo(n.proposalBlock, maj.value.hash) { FinalizeCommitInv(c, h, n, maj.value); }
  }

  lemma EnterCommitInv(c: Config, h: seq<Vote>, n: Node, height: nat, r: Round)
    requires Inv(c, h, n)
    requires n.height == height && n.panicked.None? ==>
               Majority(n.votes, r, Precommit).Some? && Majority(n.votes, r, Precommit).value.hash != 0
    ensures Inv(c, h, EnterCommit(c, n, height, r)) && Extends(n, EnterCommit(c, n, height, r))
  {
    assert VotesInv(c, h, n) by { InvParts(c, h, n); }
    hide Inv, Majority, Extends, TryFinalizeCommit, HeightConsistent, PickCommitBlock, Grows;
    SameVotes(n.votes);
    if n.panicked.None? && height == n.height && n.step < COMMIT {
      var n1 := PickCommitBlock(n, Majority(n.votes, r, Precommit).value);
      PickKeeps(n, Majority(n.votes, r, Precommit).value);
      var n3 := n1.(step := COMMIT, commitRound := r);
      AdvanceInv(c, h, n, n3);
      TryFinalizeCommitInv(c, h, n3);
      ExtendsTrans(n, n3, TryFinalizeCommit(c, n3, height));
    } else { SameExtends(n); }
  }

  lemma PickKeeps(n: Node, id: BlockID)
    ensures
      var n1 := PickCommitBlock(n, id);
      n1 == n.(proposalBlock := n1.proposalBlock, proposalParts := n1.proposalParts)
  {}

  // ---------------------------------------------------------------- inputs

  /** Majorities and counted power survive. */
  lemma GrowsKeeps(vals: ValidatorSet, a: HeightVoteSet, b: HeightVoteSet, r: Round, typ: VoteType)
    requires Grows(a, b)
    ensures Majority(a, r, typ).Some? ==> Majority(b, r, typ) == Majority(a, r, typ)
    ensures AnyTwoThirds(vals, a, r, typ) ==> AnyTwoThirds(vals, b, r, typ)
  {}

  lemma NewVotesInv(c: Config, h: seq<Vote>, n: Node, votes: HeightVoteSet)
    requires Inv(c, h, n) && n.panicked.None?
    requires HeightConsistent(c.vals(n.height), votes, h) && Grows(n.votes, votes) && votes.round == n.votes.round
    ensures Inv(c, h, n.(votes := votes)) && Extends(n, n.(votes := votes))
  {
    assert VotesInv(c, h, n) && CommitInv(n) by { InvParts(c, h, n); }
    GrowsKeeps(c.vals(n.height), n.votes, votes, n.commitRound, Precommit);
    hide Inv, Majority, HeightConsistent, SetGrows, AnyTwoThirds, Extends;
    AdvanceInv(c, h, n, n.(votes := votes));
  }

  /** An unlock by a late polka is backed by that polka. */
  lemma UnlockByPolkaInv(c: Config, h: seq<Vote>, n: Node, round: Round, polka: BlockID)
    requires Inv(c, h, n) && n.panicked.None? && Majority(n.votes, round, Prevote) == Some(polka)
    ensures Inv(c, h, UnlockByPolka(n, round, polka)) && Extends(n, UnlockByPolka(n, round, polka))
  {
    hide Inv, Majority, Extends, VotesInv, LogInv, HasPolka, OtherPolka;
    assert LockInv(c, h, n) && LogInv(c, h, n) && VotesInv(c, h, n) by { InvParts(c, h, n); }
    PolkaOfMajority(c, h, n, round);
    ReleasedByPolka(c, h, n, round, polka.hash);
    SoftInv(c, h, n, UnlockByPolka(n, round, polka));
  }

  lemma UpdateValidInv(c: Config, h: seq<Vote>, n: Node, round: Round, polka: BlockID)
    requires Inv(c, h, n) && n.panicked.None?
    ensures Inv(c, h, UpdateValid(n, round, polka)) && Extends(n, UpdateValid(n, round, polka))
  {
    hide Inv, Extends, HasPolka, OtherPolka;
    assert LockInv(c, h, n) by { InvParts(c, h, n); }
    SoftInv(c, h, n, UpdateValid(n, round, polka));
  }

  lemma UnlockKeepsGoing(n: Node, round: Round, polka: BlockID)
    ensures UnlockByPolka(n, round, polka).panicked == n.panicked
  {}

  lemma OnPolkaInv(c: Config, h: seq<Vote>, n: Node, round: Round)
    requires Inv(c, h, n) && n.panicked.None?
    ensures Inv(c, h, OnPolka(n, round)) && Extends(n, OnPolka(n, round))
  {
    hide Inv, Extends, Majority, UnlockByPolka, UpdateValid;
    SameExtends(n);
    var polka := Majority(n.votes, round, Prevote);
    if polka.Some? {
      var n1 := UnlockByPolka(n, round, polka.value);
      UnlockByPolkaInv(c, h, n, round, polka.value);
      assert n1.panicked.None? by { UnlockKeepsGoing(n, round, polka.value); }
      UpdateValidInv(c, h, n1, round, polka.value);
      ExtendsTrans(n, n1, UpdateValid(n1, round, polka.value));
    }
  }

  lemma OnPrevoteInv(c: Config, h: seq<Vote>, n: Node, round: Round)
    requires Inv(c, h, n)
    ensures Inv(c, h, OnPrevote(c, n, round)) && Extends(n, OnPrevote(c, n, round))
  {
    hide Inv, Majority, AnyTwoThirds, Extends, IsProposalComplete, EnterNewRound, EnterPrecommit, EnterPrevoteWait, EnterPrevote;
    SameExtends(n);
    EnterNewRoundInv(c, h, n, n.height, round);
    EnterPrevoteInv(c, h, n, n.height, n.round);
    if n.round == round {
      EnterPrecommitInv(c, h, n, n.height, round);
      if AnyTwoThirds(c.vals(n.height), n.votes, round, Prevote) { EnterPrevoteWaitInv(c, h, n, n.height, round); }
    }
  }

  /** Entering the round and the precommit step of a precommit quorum. */
  lemma QuorumStepsInv(c: Config, h: seq<Vote>, n: Node, round: Round)
    requires Inv(c, h, n) && n.panicked.None?
    ensures
      var n1 := EnterNewRound(c, n, n.height, round);
      var n2 := EnterPrecommit(c, n1, n.height, round);
      && Inv(c, h, n1) && Extends(n, n1) && n1.height == n.height
      && Inv(c, h, n2) && Extends(n, n2) && n2.height == n.height
      && Grows(n.votes, n1.votes) && Grows(n.votes, n2.votes)
  {
    var n1 := EnterNewRound(c, n, n.height, round);
    EnterNewRoundInv(c, h, n, n.height, round);
    EnterPrecommitInv(c, h, n1, n.height, round);
    EnterPrecommitKeeps(c, n1, n.height, round);
    hide Inv, EnterNewRound, EnterPrecommit;
    ExtendsTrans(n, n1, EnterPrecommit(c, n1, n.height, round));
  }

  lemma EnterPrecommitKeeps(c: Config, n: Node, height: nat, round: Round)
    ensures EnterPrecommit(c, n, height, round).height == n.height
  {}

  lemma OnPrecommitInv(c: Config, h: seq<Vote>, n: Node, round: Round)
    requires Inv(c, h, n) && n.panicked.None?
    ensures Inv(c, h, OnPrecommit(c, n, round)) && Extends(n, OnPrecommit(c, n, round))
  {
    hide Inv, Majority, AnyTwoThirds, Extends, EnterNewRound, EnterPrecommit, EnterPrecommitWait, EnterCommit, Grows;
    var vals := c.vals(n.height);
    QuorumStepsInv(c, h, n, round);
    var n1 := EnterNewRound(c, n, n.height, round);
    var n2 := EnterPrecommit(c, n1, n.height, round);
    GrowsKeeps(vals, n.votes, n1.votes, round, Precommit);
    GrowsKeeps(vals, n.votes, n2.votes, round, Precommit);
    SameExtends(n);
    var maj := Majority(n.votes, round, Precommit);
    if maj.Some? && maj.value.hash != 0 {
      EnterCommitInv(c, h, n2, n.height, round);
      var n3 := EnterCommit(c, n2, n.height, round);
      ExtendsTrans(n, n2, n3);
      EnterNewRoundInv(c, h, n3, n3.height, 1);
      ExtendsTrans(n, n3, EnterNewRound(c, n3, n3.height, 1));
    } else if maj.Some? {
      MajorityIsAny(c, h, n, round);
      EnterPrecommitWaitInv(c, h, n2, n.height, round);
      ExtendsTrans(n, n2, EnterPrecommitWait(c, n2, n.height, round));
    } else if AnyTwoThirds(vals, n.votes, round, Precommit) {
      EnterPrecommitWaitInv(c, h, n1, n.height, round);
      ExtendsTrans(n, n1, EnterPrecommitWait(c, n1, n.height, round));
    }
  }

  /** A majority for one block is in particular two thirds for any. */
  lemma MajorityIsAny(c: Config, h: seq<Vote>, n: Node, round: Round)
    requires Inv(c, h, n) && Majority(n.votes, round, Precommit).Some?
    ensures AnyTwoThirds(c.vals(n.height), n.votes, round, Precommit)
  {
    assert VotesInv(c, h, n) by { InvParts(c, h, n); }
    hide Inv;
    var vals, vs := c.vals(n.height), n.votes.rounds[round].precommits;
    assert Consistent(vals, vs, h);
    var bv := vs.byBlock[vs.maj23.value.Key()];
    assert BlockVotesOK(vals, vs, vs.maj23.value.Key(), bv, h);
    PowerMono(vals.powers, bv.votes.Keys, vs.votes.Keys);
  }

  lemma AddVoteMsgInv(c: Config, h: seq<Vote>, n: Node, vote: Vote, peer: Peer, sigOk: bool)
    requires Inv(c, h, n) && n.panicked.None? && (sigOk ==> vote in h)
    ensures Inv(c, h, AddVoteMsg(c, n, vote, peer, sigOk)) && Extends(n, AddVoteMsg(c, n, vote, peer, sigOk))
  {
    hide Inv, HeightConsistent, Grows, AddHeightVote, OnPolka, OnPrevote, OnPrecommit, Extends;
    assert VotesInv(c, h, n) by { InvParts(c, h, n); }
    if vote.height + 1 == n.height && vote.typ == Precommit {
      AddLateCommitInv(c, h, n, vote, sigOk);
    } else if vote.height != n.height {
      SameExtends(n);
    } else {
      AddHeightVoteConsistent(c.vals(n.height), n.votes, vote, peer, sigOk, h);
      var n1 := n.(votes := AddHeightVote(c.vals(n.height), n.votes, vote, peer, sigOk).0);
      NewVotesInv(c, h, n, n1.votes);
      if vote.typ == Prevote {
        var n2 := OnPolka(n1, vote.round);
        OnPolkaInv(c, h, n1, vote.round);
        OnPrevoteInv(c, h, n2, vote.round);
        ExtendsTrans(n, n1, n2);
        ExtendsTrans(n, n2, OnPrevote(c, n2, vote.round));
      } else {
        OnPrecommitInv(c, h, n1, vote.round);
        ExtendsTrans(n, n1, OnPrecommit(c, n1, vote.round));
      }
    }
  }

  lemma AddLateCommitInv(c: Config, h: seq<Vote>, n: Node, vote: Vote, sigOk: bool)
    requires Inv(c, h, n) && n.panicked.None? && vote.height + 1 == n.height && (sigOk ==> vote in h)
    ensures Inv(c, h, AddLateCommit(c, n, vote, sigOk)) && Extends(n, AddLateCommit(c, n, vote, sigOk))
  {
    hide Inv, AddVote, HasAll, EnterNewRound, Extends;
    SameExtends(n);
    if n.step == NEW_HEIGHT {
      if n.lastCommit.None? {
        FailInv(c, h, n, NoLastCommit);
      } else {
        var n1 := n.(lastCommit := Some(AddVote(c.vals(vote.height), n.lastCommit.value, vote, sigOk).0));
        LateVoteInv(c, h, n, vote, sigOk);
        EnterNewRoundInv(c, h, n1, n1.height, 1);
        ExtendsTrans(n, n1, EnterNewRound(c, n1, n1.height, 1));
      }
    }
  }

  /** A late precommit leaves the last commit as good a proof as before. */
  lemma LateVoteInv(c: Config, h: seq<Vote>, n: Node, vote: Vote, sigOk: bool)
    requires Inv(c, h, n) && n.panicked.None? && vote.height + 1 == n.height && (sigOk ==> vote in h) && n.lastCommit.Some?
    ensures var n' := n.(lastCommit := Some(AddVote(c.vals(vote.height), n.lastCommit.value, vote, sigOk).0));
            Inv(c, h, n') && Extends(n, n')
  {
    hide Ordered, JustifiedLog, HeightConsistent, HasPolka, OtherPolka, Majority, CommitQuorum, Grows, ZeroCommit, Consistent,
      AddVote, LockInv, DecidedInv, ScheduleInv, PanicInv;
    SameVotes(n.votes);
    var vs := n.lastCommit.value;
    if Consistent(c.vals(vote.height), vs, h) { AddVoteConsistent(c.vals(vote.height), vs, vote, sigOk, h); }
    LateFrame(c, h, n, Some(AddVote(c.vals(vote.height), vs, vote, sigOk).0));
  }

  lemma LateFrame(c: Config, h: seq<Vote>, n: Node, lc: Option<VoteSet>)
    requires n.panicked.None?
    ensures var n' := n.(lastCommit := lc);
            && (LockInv(c, h, n) ==> LockInv(c, h, n')) && (DecidedInv(c, h, n) ==> DecidedInv(c, h, n'))
            && (ScheduleInv(n) ==> ScheduleInv(n')) && PanicInv(c, h, n')
  {
    hide HasPolka, OtherPolka, CommitQuorum;
  }

  lemma SetProposalInv(c: Config, h: seq<Vote>, n: Node, p: Proposal, sigOk: bool)
    requires Inv(c, h, n) && n.panicked.None?
    ensures Inv(c, h, SetProposal(n, p, sigOk)) && Extends(n, SetProposal(n, p, sigOk))
  {
    hide Inv, Extends, HasPolka, OtherPolka;
    assert LockInv(c, h, n) by { InvParts(c, h, n); }
    SoftInv(c, h, n, SetProposal(n, p, sigOk));
  }

  /** The block becomes the proposal block, and the valid block if it has a polka in the current round. */
  lemma AddProposalBlockPartInv(c: Config, h: seq<Vote>, n: Node, height: nat, result: PartResult)
    requires Inv(c, h, n) && n.panicked.None?
    ensures Inv(c, h, AddProposalBlockPart(c, n, height, result)) && Extends(n, AddProposalBlockPart(c, n, height, result))
  {
    hide Inv, Extends, EnterPrevote, EnterPrecommit, TryFinalizeCommit, StoreBlock, Majority, IsProposalComplete;
    SameExtends(n);
    if n.height == height && n.proposalParts.Some? && !n.proposalParts.value.complete && !result.Partial? {
      StoreBlockInv(c, h, n, result);
      var n3 := StoreBlock(n, result);
      if result.Complete? {
        EnterPrevoteInv(c, h, n3, height, n3.round);
        var n4 := EnterPrevote(c, n3, height, n3.round);
        EnterPrecommitInv(c, h, n4, height, n4.round);
        ExtendsTrans(n, n3, n4);
        ExtendsTrans(n, n4, EnterPrecommit(c, n4, height, n4.round));
        TryFinalizeCommitInv(c, h, n3);
        ExtendsTrans(n, n3, TryFinalizeCommit(c, n3, height));
      }
    }
  }

  lemma StoreBlockInv(c: Config, h: seq<Vote>, n: Node, result: PartResult)
    requires Inv(c, h, n) && n.panicked.None? && n.proposalParts.Some? && !result.Partial?
    ensures Inv(c, h, StoreBlock(n, result)) && Extends(n, StoreBlock(n, result)) && SoftChange(n, StoreBlock(n, result))
  {
    hide Inv, Extends, OtherPolka, HasPolka, Majority;
    assert LockInv(c, h, n) by { InvParts(c, h, n); }
    SoftInv(c, h, n, StoreBlock(n, result));
  }

  lemma NotAhead(c: Config, h: seq<Vote>, n: Node, t: Timeout)
    requires Inv(c, h, n) && t in n.scheduled
    ensures 1 <= n.round && TimeoutStep(t.step) && CompareHRS(t.height, t.round, 0, n.height, n.round, 0) <= 0
  {}

  /** A timeout fires for a round no later than the current one, so votes are signed for the round entered. */
  lemma HandleTimeoutInv(c: Config, h: seq<Vote>, n: Node, t: Timeout)
    requires Inv(c, h, n) && n.panicked.None? && t in n.scheduled
    ensures Inv(c, h, HandleTimeout(c, n, t)) && Extends(n, HandleTimeout(c, n, t))
    ensures t.height == n.height ==> t.round <= n.round
  {
    hide Inv, Extends, EnterNewRound, EnterPropose, EnterPrevote, EnterPrecommit;
    NotAhead(c, h, n, t);
    SameExtends(n);
    if t.height == n.height && t.round == n.round {
      EnterNewRoundInv(c, h, n, t.height, 1);
      EnterProposeInv(c, h, n, t.height, 1);
      EnterPrevoteInv(c, h, n, t.height, t.round);
      EnterPrecommitInv(c, h, n, t.height, t.round);
      var n1 := EnterPrecommit(c, n, t.height, t.round);
      var next := (t.round + 1) % (MAX_ROUND + 1);
      EnterNewRoundInv(c, h, n1, t.height, next);
      ExtendsTrans(n, n1, EnterNewRound(c, n1, t.height, next));
    }
  }

  /** What the environment can hand a node: votes verify only if they were signed, timeouts fire only if scheduled. */
  ghost predicate Possible(h: seq<Vote>, n: Node, e: Event) {
    && (e.VoteMsg? && e.sigOk ==> e.vote in h)
    && (e.TimeoutMsg? ==> e.timeout in n.scheduled)
  }

  /** Every input keeps the invariant, goes forward in (height, round, step), and only adds votes and decisions. */
  lemma HandleInv(c: Config, h: seq<Vote>, n: Node, e: Event)
    requires Inv(c, h, n) && Possible(h, n, e)
    ensures Inv(c, h, Handle(c, n, e)) && Extends(n, Handle(c, n, e))
  {
    hide Inv, HeightConsistent, Grows, Extends;
    assert VotesInv(c, h, n) by { InvParts(c, h, n); }
    if n.panicked.Some? { SameExtends(n); }
    else {
      match e
      case VoteMsg(vote, peer, sigOk) => AddVoteMsgInv(c, h, n, vote, peer, sigOk);
      case ProposalMsg(p, sigOk) => SetProposalInv(c, h, n, p, sigOk);
      case BlockPartMsg(height, result) => AddProposalBlockPartInv(c, h, n, height, result);
      case PeerMaj23Msg(r, typ, peer, id) =>
        HeightPeerMaj23Consistent(c.vals(n.height), n.votes, r, typ, peer, id, h);
        NewVotesInv(c, h, n, SetHeightPeerMaj23(n.votes, r, typ, peer, id));
      case TimeoutMsg(t) => HandleTimeoutInv(c, h, n, t);
    }
  }

  // ---------------------------------------------------------------- growing history

  lemma PolkaMono(c: Config, h: seq<Vote>, h': seq<Vote>, k: nat, r: nat, hash: Hash)
    requires h <= h'
    ensures Polka(c, h, k, r, hash) ==> Polka(c, h', k, r, hash)
    ensures OtherPolka(c, h, k, r, hash) ==> OtherPolka(c, h', k, r, hash)
    ensures HasPolka(c, h, k, hash) ==> HasPolka(c, h', k, hash)
    ensures CommitQuorum(c, h, k, hash) ==> CommitQuorum(c, h', k, hash)
  {
    hide HistoryQuorum;
    forall r: nat, x: Hash, typ: VoteType | HistoryQuorum(c.vals(k), h, typ, k, r, x)
      ensures HistoryQuorum(c.vals(k), h', typ, k, r, x)
    {
      HistoryQuorumMono(c.vals(k), h, h', typ, k, r, x);
    }
    assert forall r: nat, x: Hash | Polka(c, h, k, r, x) :: Polka(c, h', k, r, x);
  }

  lemma JustifiedMono(c: Config, h: seq<Vote>, h': seq<Vote>, s: seq<Vote>)
    requires h <= h' && JustifiedLog(c, h, s)
    ensures JustifiedLog(c, h', s)
  {
    hide Polka, OtherPolka, HasPolka, ValidHash, CommitQuorum;
    forall p, w | p in s && w in s ensures Justified(c, h', p, w) {
      assert Justified(c, h, p, w);
      PolkaMono(c, h, h', w.height, w.round, w.blockID.hash);
      PolkaMono(c, h, h', p.height, p.round, p.blockID.hash);
    }
  }

  lemma LockMono(c: Config, h: seq<Vote>, h': seq<Vote>, n: Node)
    requires h <= h' && LockInv(c, h, n)
    ensures LockInv(c, h', n)
  {
    hide Polka, OtherPolka, HasPolka, CommitQuorum;
    if n.lockedBlock.Some? { PolkaMono(c, h, h', n.height, 0, n.lockedBlock.value.hash); }
    forall p | p in n.signed && LockingVote(p) && p.height == n.height
      ensures Locked(n, p) || OtherPolka(c, h', p.height, p.round, p.blockID.hash)
    {
      PolkaMono(c, h, h', p.height, p.round, p.blockID.hash);
    }
  }

  lemma LastMono(c: Config, h: seq<Vote>, h': seq<Vote>, n: Node)
    requires h <= h' && LastInv(c, h, n)
    ensures LastInv(c, h', n)
  {
    hide HistoryQuorum, Consistent;
    forall k | k in n.decided && k + 1 == n.height
      ensures || ZeroCommit(c, h', k, n.decided[k].hash)
              || (n.lastCommit.Some? && Proves(c, h', n.lastCommit.value, k, n.decided[k].hash))
    {
      if ZeroCommit(c, h, k, n.decided[k].hash) {
        HistoryQuorumMono(c.vals(k), h, h', Precommit, k, 0, n.decided[k].hash);
      } else {
        ConsistentMono(c.vals(k), n.lastCommit.value, h, h');
      }
    }
  }

  lemma InvMono(c: Config, h: seq<Vote>, h': seq<Vote>, n: Node)
    requires h <= h' && Inv(c, h, n)
    ensures Inv(c, h', n)
  {
    JustifiedMono(c, h, h', n.signed);
    LockMono(c, h, h', n);
    LastMono(c, h, h', n);
    HeightConsistentMono(c.vals(n.height), n.votes, h, h');
    hide LockInv, HeightConsistent, JustifiedLog, CommitQuorum, LastInv;
    forall k, x ensures CommitQuorum(c, h, k, x) ==> CommitQuorum(c, h', k, x) {
      PolkaMono(c, h, h', k, 0, x);
    }
  }

  lemma NewNodeInv(c: Config, h: seq<Vote>, self: Val, height: nat, lc: Option<VoteSet>)
    ensures Inv(c, h, NewNode(self, height, lc))
  {}
}
