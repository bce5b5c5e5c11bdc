/** A round in which proposal, block and votes arrive decides. */
module GoodRound {
  import opened Basics
  import opened VotingPower
  import opened VoteSets
  import opened RoundMachine
  import opened RoundInvariant
  import opened RoundEffects

  /** The node after inputs, in order. */
  function Feed(c: Config, n: Node, es: seq<Event>): Node
    decreases |es|
  {
    if es == [] then n else Handle(c, Feed(c, n, es[..|es| - 1]), es[|es| - 1])
  }

  /** What the round is about: its height and number, and the block as votes name it. */
  datatype Case = Case(k: nat, r: Round, b: Block, id: BlockID)

  /** The block can be decided. */
  predicate Good(c: Config, g: Case) {
    && g.id.hash == g.b.hash != 0 && c.validate(g.k, g.b) && c.apply(g.k, g.b) && 1 <= g.r < MAX_ROUND
  }

  /** A signed vote of a validator for the block, whoever passed it on. */
  ghost predicate IsVote(c: Config, h: seq<Vote>, g: Case, typ: VoteType, e: Event) {
    && e.VoteMsg? && e.sigOk && e.vote in h && e.vote.val in c.vals(g.k).powers
    && e.vote == Vote(e.vote.val, g.k, g.r, typ, g.id)
  }

  ghost function Senders(es: seq<Event>): set<Val> { set e | e in es && e.VoteMsg? :: e.vote.val }

  // ---------------------------------------------------------------- the vote sets of the round

  ghost predicate Tracked(n: Node, g: Case) { n.height == g.k && n.round == g.r && g.r in n.votes.rounds }

  ghost function SetOf(n: Node, g: Case, typ: VoteType): VoteSet
    requires g.r in n.votes.rounds
  {
    GetVoteSet(n.votes, g.r, typ).value
  }

  /** No block has a majority yet, nobody in q voted for another block, and those of s are counted. */
  ghost predicate Counting(n: Node, g: Case, typ: VoteType, q: set<Val>, s: set<Val>)
    requires g.r in n.votes.rounds
  {
    var vs := SetOf(n, g, typ);
    && vs.maj23.None?
    && (forall v | v in q && v in vs.votes :: vs.votes[v].blockID.Key() == g.id.Key())
    && s <= BlockVotesFor(vs, g.id.Key()).votes.Keys
  }

  lemma SetConsistent(c: Config, h: seq<Vote>, n: Node, g: Case, typ: VoteType)
    requires Inv(c, h, n) && Tracked(n, g)
    ensures var vs := SetOf(n, g, typ);
            Consistent(c.vals(g.k), vs, h) && vs.height == g.k && vs.round == g.r && vs.typ == typ
    ensures Majority(n.votes, g.r, typ) == SetOf(n, g, typ).maj23
  {
    hide Consistent;
    InvParts(c, h, n);
    hide Inv;
  }

  /** Everyone's vote of a quorum cannot be counted without there being a majority. */
  lemma QuorumIsMajority(c: Config, h: seq<Vote>, n: Node, g: Case, typ: VoteType, q: set<Val>, s: set<Val>)
    requires Inv(c, h, n) && Tracked(n, g) && Power(c.vals(g.k).powers, s) >= Quorum(c.vals(g.k))
    ensures !Counting(n, g, typ, q, s)
  {
    hide Inv, Consistent, Power;
    if Counting(n, g, typ, q, s) {
      SetConsistent(c, h, n, g, typ);
      var vs, key := SetOf(n, g, typ), g.id.Key();
      MajorityExact(c.vals(g.k), vs, h);
      PowerMono(c.vals(g.k).powers, s, BlockVotesFor(vs, key).votes.Keys);
      QuorumPositive(c.vals(g.k));
      if key !in vs.byBlock { assert BlockVotesFor(vs, key).votes.Keys == {}; NoPower(c.vals(g.k).powers); }
    }
  }

  lemma NoPower(powers: map<Val, nat>)
    ensures Power(powers, {}) == 0
  {}

  /** A vote for the block from one of q is counted, now or before; either that gives the majority or the count goes on. */
  lemma VoteCounts(c: Config, h: seq<Vote>, n: Node, g: Case, typ: VoteType, q: set<Val>, s: set<Val>, e: Event)
    requires Inv(c, h, n) && Tracked(n, g) && Counting(n, g, typ, q, s) && IsVote(c, h, g, typ, e) && e.vote.val in q
    ensures var (votes, counted) := AddHeightVote(c.vals(g.k), n.votes, e.vote, e.peer, true);
            var n0 := n.(votes := votes);
            && Tracked(n0, g)
            && ((Majority(votes, g.r, typ) == Some(g.id) && counted)
                || (Majority(votes, g.r, typ).None? && Counting(n0, g, typ, q, s + {e.vote.val})))
            && (forall t: VoteType | t != typ :: SetOf(n0, g, t) == SetOf(n, g, t))
  {
    hide Inv, Consistent, AddHeightVote, AddVote;
    var vals, vs, vote := c.vals(g.k), SetOf(n, g, typ), e.vote;
    SetConsistent(c, h, n, g, typ);
    HeightVoteOutcome(vals, n.votes, vote, e.peer, true);
    AddVoteOutcome(vals, vs, vote, true);
    AddVoteMajority(vals, vs, vote, true);
    if HasSame(vs, vote) { SameIsTallied(vals, vs, h, vote); }
  }

  lemma SameIsTallied(vals: ValidatorSet, vs: VoteSet, h: seq<Vote>, vote: Vote)
    requires Consistent(vals, vs, h) && vs.maj23.None? && HasSame(vs, vote)
    ensures vote.val in BlockVotesFor(vs, vote.blockID.Key()).votes
  {
    if vote.val in vs.votes { assert Tallied(vs, vote.val); }
  }

  // ---------------------------------------------------------------- prevotes

  predicate HasBlock(b: Option<Block>, parts: Option<PartSet>, g: Case) { b == Some(g.b) && HasHeader(parts, g.id.parts) }

  /** The node has the block, and is locked on no other block that goes by the same hash. */
  ghost predicate Running(c: Config, h: seq<Vote>, n: Node, g: Case) {
    && Inv(c, h, n) && n.panicked.None? && Tracked(n, g)
    && (n.lockedBlock.Some? && n.lockedBlock.value.hash == g.b.hash ==> HasBlock(n.lockedBlock, n.lockedParts, g))
  }

  ghost predicate Prevoting(c: Config, h: seq<Vote>, n: Node, g: Case) {
    Running(c, h, n, g) && PREVOTE <= n.step < PRECOMMIT && HasProposal(n) && HasBlock(n.proposalBlock, n.proposalParts, g)
  }

  /** The node is locked on the block and has precommitted it, if it is a validator. */
  ghost predicate LockedOn(c: Config, h: seq<Vote>, n: Node, g: Case) {
    && Running(c, h, n, g) && n.step == PRECOMMIT && n.lockedRound == g.r && HasBlock(n.lockedBlock, n.lockedParts, g)
    && (IsValidator(c, n) ==> Vote(n.self, g.k, g.r, Precommit, g.id) in n.signed)
  }

  /** The prevote that makes the polka makes the node lock and precommit; until then it goes on waiting. */
  lemma PrevoteStep(c: Config, h: seq<Vote>, n: Node, g: Case, q: set<Val>, s: set<Val>, e: Event)
    requires Good(c, g) && Prevoting(c, h, n, g) && Counting(n, g, Prevote, q, s)
    requires IsVote(c, h, g, Prevote, e) && e.vote.val in q
    ensures var n' := Handle(c, n, e);
            && Tracked(n', g) && SetOf(n', g, Precommit) == SetOf(n, g, Precommit)
            && ((LockedOn(c, h, n', g) && Majority(n'.votes, g.r, Prevote) == Some(g.id))
                || (Prevoting(c, h, n', g) && Counting(n', g, Prevote, q, s + {e.vote.val})))
  {
    hide Inv, Extends, AddHeightVote, Handle, PolkaSeen, AfterPrevote, Counting, Grows, HeightConsistent;
    var n', vote := Handle(c, n, e), e.vote;
    HandleInv(c, h, n, e);
    VoteCounts(c, h, n, g, Prevote, q, s, e);
    PrevoteEvent(c, h, n, vote, e.peer, true);
    var (votes, counted) := AddHeightVote(c.vals(g.k), n.votes, vote, e.peer, true);
    var n0 := n.(votes := votes);
    assert Grows(n.votes, votes) by {
      InvParts(c, h, n);
      AddHeightVoteConsistent(c.vals(g.k), n.votes, vote, e.peer, true, h);
    }
    ProposalStays(c, n, n0);
    if counted {
      var n1 :| PolkaSeen(n0, n1, g.r) && AfterPrevote(c, n1, n', g.r);
      if Majority(votes, g.r, Prevote).None? {
        NoPolkaYet(c, n0, n1, n', g.r);
        CountingFrame(n0, n', g, Prevote, q, s + {vote.val});
      } else {
        PolkaForBlock(n0, n1, g);
        PolkaActs(c, n1, n', g);
      }
    } else {
      CountingFrame(n0, n', g, Prevote, q, s + {vote.val});
    }
  }

  lemma ProposalStays(c: Config, n: Node, n0: Node)
    requires HasProposal(n) && n0 == n.(votes := n0.votes) && Grows(n.votes, n0.votes)
    ensures HasProposal(n0)
  {
    GrowsKeeps(c.vals(n.height), n.votes, n0.votes, n.proposal.value.polRound, Prevote);
  }

  lemma CountingFrame(n: Node, n': Node, g: Case, typ: VoteType, q: set<Val>, s: set<Val>)
    requires n'.votes == n.votes && g.r in n.votes.rounds && Counting(n, g, typ, q, s)
    ensures Counting(n', g, typ, q, s)
  {}

  lemma NoPolkaYet(c: Config, n: Node, n1: Node, n': Node, r: Round)
    requires PolkaSeen(n, n1, r) && AfterPrevote(c, n1, n', r) && Majority(n.votes, r, Prevote).None?
    requires n.round == r && PREVOTE <= n.step < PRECOMMIT
    ensures n' == n.(step := n'.step, scheduled := n'.scheduled) && PREVOTE <= n'.step < PRECOMMIT
  {
    hide Majority, AnyTwoThirds;
  }

  lemma PolkaForBlock(n: Node, n1: Node, g: Case)
    requires PolkaSeen(n, n1, g.r) && Majority(n.votes, g.r, Prevote) == Some(g.id) && g.id.hash == g.b.hash != 0
    requires HasBlock(n.proposalBlock, n.proposalParts, g)
    ensures n1 == n.(lockedRound := n1.lockedRound, lockedBlock := n1.lockedBlock, lockedParts := n1.lockedParts,
                     validRound := n1.validRound, validBlock := n1.validBlock, validParts := n1.validParts)
    ensures || n1.lockedBlock.None?
            || (n1.lockedRound, n1.lockedBlock, n1.lockedParts) == (n.lockedRound, n.lockedBlock, n.lockedParts)
  {
    hide Majority;
  }

  lemma PolkaActs(c: Config, n: Node, n': Node, g: Case)
    requires AfterPrevote(c, n, n', g.r) && Majority(n.votes, g.r, Prevote) == Some(g.id) && Good(c, g)
    requires n.height == g.k && n.round == g.r && PREVOTE <= n.step < PRECOMMIT && HasProposal(n)
    requires HasBlock(n.proposalBlock, n.proposalParts, g)
    requires n.lockedBlock.Some? && n.lockedBlock.value.hash == g.b.hash ==> HasBlock(n.lockedBlock, n.lockedParts, g)
    ensures (n'.height, n'.round, n'.step, n'.votes, n'.panicked) == (n.height, n.round, PRECOMMIT, n.votes, n.panicked)
    ensures n'.lockedRound == g.r && HasBlock(n'.lockedBlock, n'.lockedParts, g)
    ensures IsValidator(c, n') ==> Vote(n'.self, g.k, g.r, Precommit, g.id) in n'.signed
  {
    hide Majority, AnyTwoThirds;
    assert Holds(n, g.id.hash);
  }

  /** Later prevotes change nothing. */
  lemma LockStays(c: Config, h: seq<Vote>, n: Node, g: Case, e: Event)
    requires Good(c, g) && LockedOn(c, h, n, g) && IsVote(c, h, g, Prevote, e) && Majority(n.votes, g.r, Prevote) == Some(g.id)
    ensures var n' := Handle(c, n, e);
            && LockedOn(c, h, n', g) && Tracked(n', g) && Majority(n'.votes, g.r, Prevote) == Some(g.id)
            && SetOf(n', g, Precommit) == SetOf(n, g, Precommit)
  {
    hide Inv, AddHeightVote, Handle, PolkaSeen, AfterPrevote, Grows, HeightConsistent;
    var n', vote := Handle(c, n, e), e.vote;
    HandleInv(c, h, n, e);
    PrevoteEvent(c, h, n, vote, e.peer, true);
    HeightVoteOutcome(c.vals(g.k), n.votes, vote, e.peer, true);
    var (votes, counted) := AddHeightVote(c.vals(g.k), n.votes, vote, e.peer, true);
    var n0 := n.(votes := votes);
    assert Grows(n.votes, votes) by {
      InvParts(c, h, n);
      AddHeightVoteConsistent(c.vals(g.k), n.votes, vote, e.peer, true, h);
    }
    GrowsKeeps(c.vals(g.k), n.votes, votes, g.r, Prevote);
    if counted {
      var n1 :| PolkaSeen(n0, n1, g.r) && AfterPrevote(c, n1, n', g.r);
      NothingToDo(c, n0, n1, n', g);
    }
  }

  lemma NothingToDo(c: Config, n: Node, n1: Node, n': Node, g: Case)
    requires PolkaSeen(n, n1, g.r) && AfterPrevote(c, n1, n', g.r) && Majority(n.votes, g.r, Prevote).Some?
    requires n.round == g.r && n.step == PRECOMMIT && n.lockedRound == g.r
    ensures n' == n.(proposalBlock := n'.proposalBlock, proposalParts := n'.proposalParts, validRound := n'.validRound,
                     validBlock := n'.validBlock, validParts := n'.validParts)
  {
    hide Majority, AnyTwoThirds;
  }

  /** Prevotes of a quorum for the block, in any order, from anyone, repeated or not: the node locks and precommits it. */
  lemma {:induction false} PrevotesLock(c: Config, h: seq<Vote>, n: Node, g: Case, q: set<Val>, es: seq<Event>)
    requires Good(c, g) && Prevoting(c, h, n, g) && Counting(n, g, Prevote, q, {})
    requires forall e | e in es :: IsVote(c, h, g, Prevote, e) && e.vote.val in q
    ensures var n' := Feed(c, n, es);
            && Tracked(n', g) && SetOf(n', g, Precommit) == SetOf(n, g, Precommit)
            && ((LockedOn(c, h, n', g) && Majority(n'.votes, g.r, Prevote) == Some(g.id))
                || (Prevoting(c, h, n', g) && Counting(n', g, Prevote, q, Senders(es))))
    ensures Power(c.vals(g.k).powers, Senders(es)) >= Quorum(c.vals(g.k)) ==> LockedOn(c, h, Feed(c, n, es), g)
    decreases |es|
  {
    hide Inv, Handle, LockedOn, Counting, IsVote, Power;
    if es == [] {
      assert Senders(es) == {};
    } else {
      var front, e := es[..|es| - 1], es[|es| - 1];
      assert es == front + [e];
      PrevotesLock(c, h, n, g, q, front);
      var n1 := Feed(c, n, front);
      SendersStep(c, h, g, Prevote, front, e);
      if LockedOn(c, h, n1, g) && Majority(n1.votes, g.r, Prevote) == Some(g.id) { LockStays(c, h, n1, g, e); }
      else { PrevoteStep(c, h, n1, g, q, Senders(front), e); }
    }
    if Power(c.vals(g.k).powers, Senders(es)) >= Quorum(c.vals(g.k)) && !LockedOn(c, h, Feed(c, n, es), g) {
      QuorumIsMajority(c, h, Feed(c, n, es), g, Prevote, q, Senders(es));
    }
  }

  lemma SendersStep(c: Config, h: seq<Vote>, g: Case, typ: VoteType, es: seq<Event>, e: Event)
    requires IsVote(c, h, g, typ, e)
    ensures Senders(es + [e]) == Senders(es) + {e.vote.val}
  {
    forall v | v in Senders(es) + {e.vote.val} ensures v in Senders(es + [e]) {
      if v in Senders(es) {
        var x :| x in es && x.VoteMsg? && x.vote.val == v;
        assert x in es + [e];
      } else {
        assert e in es + [e];
      }
    }
  }

  // ---------------------------------------------------------------- precommits

  ghost predicate HasDecided(c: Config, h: seq<Vote>, n: Node, g: Case) {
    Inv(c, h, n) && g.k in n.decided && n.decided[g.k] == g.b
  }

  /** The precommit that makes the majority makes the node decide; until then the lock stays. */
  lemma PrecommitStep(c: Config, h: seq<Vote>, n: Node, g: Case, q: set<Val>, s: set<Val>, e: Event)
    requires Good(c, g) && LockedOn(c, h, n, g) && Counting(n, g, Precommit, q, s)
    requires IsVote(c, h, g, Precommit, e) && e.vote.val in q
    ensures var n' := Handle(c, n, e);
            || HasDecided(c, h, n', g)
            || (LockedOn(c, h, n', g) && Tracked(n', g) && Counting(n', g, Precommit, q, s + {e.vote.val}))
  {
    hide Inv, Extends, AddHeightVote, Handle, OnPrecommit, Counting, Grows, HeightConsistent;
    var n', vote := Handle(c, n, e), e.vote;
    HandleInv(c, h, n, e);
    VoteCounts(c, h, n, g, Precommit, q, s, e);
    var (votes, counted) := AddHeightVote(c.vals(g.k), n.votes, vote, e.peer, true);
    var n0 := n.(votes := votes);
    PrecommitDispatch(c, n, vote, e.peer);
    if Majority(votes, g.r, Precommit).None? {
      if counted { NoMajorityYet(c, h, n, g, e); }
      CountingFrame(n0, n', g, Precommit, q, s + {vote.val});
    } else {
      MajorityDecides(c, n0, g);
    }
  }

  lemma PrecommitDispatch(c: Config, n: Node, vote: Vote, peer: Peer)
    requires n.panicked.None? && vote.height == n.height && vote.typ == Precommit
    ensures var (votes, counted) := AddHeightVote(c.vals(n.height), n.votes, vote, peer, true);
            var n0 := n.(votes := votes);
            Handle(c, n, VoteMsg(vote, peer, true)) == if counted then OnPrecommit(c, n0, vote.round) else n0
  {
    hide OnPrecommit, AddHeightVote;
  }

  lemma NoMajorityYet(c: Config, h: seq<Vote>, n: Node, g: Case, e: Event)
    requires LockedOn(c, h, n, g) && IsVote(c, h, g, Precommit, e)
    requires var (votes, counted) := AddHeightVote(c.vals(g.k), n.votes, e.vote, e.peer, true);
             counted && Majority(votes, g.r, Precommit).None?
    ensures var n0 := n.(votes := AddHeightVote(c.vals(g.k), n.votes, e.vote, e.peer, true).0);
            var n' := Handle(c, n, e);
            n' == n0.(triggeredTimeoutPrecommit := n'.triggeredTimeoutPrecommit, scheduled := n'.scheduled)
  {
    hide Inv, AddHeightVote, Handle, Majority, AnyTwoThirds, Commits;
    PrecommitEvent(c, h, n, e.vote, e.peer, true);
  }

  lemma MajorityDecides(c: Config, n: Node, g: Case)
    requires Good(c, g) && n.panicked.None? && n.height == g.k && n.round == g.r && n.step == PRECOMMIT
    requires HasBlock(n.lockedBlock, n.lockedParts, g) && Majority(n.votes, g.r, Precommit) == Some(g.id)
    ensures var n' := OnPrecommit(c, n, g.r); g.k in n'.decided && n'.decided[g.k] == g.b
  {
    hide Majority, EnterNewRound, EnterPrecommit, EnterCommit, HasAll;
    SameRoundIgnored(c, n);
    PrecommitIgnored(c, n);
    CommitEffect(c, n, g.r, g.id);
    FirstRoundKeeps(c, EnterCommit(c, n, g.k, g.r));
  }

  lemma DecisionStays(c: Config, h: seq<Vote>, n: Node, g: Case, e: Event)
    requires HasDecided(c, h, n, g) && Possible(h, n, e)
    ensures HasDecided(c, h, Handle(c, n, e), g)
  {
    hide Inv, Handle;
    HandleInv(c, h, n, e);
  }

  /** Precommits of a quorum for the block it is locked on, in any order: the node decides it. */
  lemma {:induction false} PrecommitsDecide(c: Config, h: seq<Vote>, n: Node, g: Case, q: set<Val>, es: seq<Event>)
    requires Good(c, g) && LockedOn(c, h, n, g) && Counting(n, g, Precommit, q, {})
    requires forall e | e in es :: IsVote(c, h, g, Precommit, e) && e.vote.val in q
    ensures var n' := Feed(c, n, es);
            || HasDecided(c, h, n', g)
            || (LockedOn(c, h, n', g) && Tracked(n', g) && Counting(n', g, Precommit, q, Senders(es)))
    ensures Power(c.vals(g.k).powers, Senders(es)) >= Quorum(c.vals(g.k)) ==> HasDecided(c, h, Feed(c, n, es), g)
    decreases |es|
  {
    hide Inv, Handle, Counting, IsVote, Power, HasDecided;
    if es == [] {
      assert Senders(es) == {};
    } else {
      var front, e := es[..|es| - 1], es[|es| - 1];
      assert es == front + [e];
      PrecommitsDecide(c, h, n, g, q, front);
      var n1 := Feed(c, n, front);
      SendersStep(c, h, g, Precommit, front, e);
      assert Possible(h, n1, e) by { VoteIsPossible(c, h, n1, g, Precommit, e); }
      if HasDecided(c, h, n1, g) { DecisionStays(c, h, n1, g, e); }
      else { PrecommitStep(c, h, n1, g, q, Senders(front), e); }
    }
    if Power(c.vals(g.k).powers, Senders(es)) >= Quorum(c.vals(g.k)) && !HasDecided(c, h, Feed(c, n, es), g) {
      QuorumIsMajority(c, h, Feed(c, n, es), g, Precommit, q, Senders(es));
    }
  }

  lemma VoteIsPossible(c: Config, h: seq<Vote>, n: Node, g: Case, typ: VoteType, e: Event)
    requires IsVote(c, h, g, typ, e)
    ensures Possible(h, n, e)
  {}

  // ---------------------------------------------------------------- the whole round

  /** The proposal, and the block in the parts it names: the node prevotes it. */
  lemma ProposalPrevoted(c: Config, h: seq<Vote>, n: Node, g: Case, p: Proposal)
    requires Good(c, g) && Running(c, h, n, g) && n.step == PROPOSE && n.lockedBlock.None?
    requires n.proposal.None? && n.proposalParts.None? && n.proposalBlock.None? && Majority(n.votes, g.r, Prevote).None?
    requires (p.height, p.round, p.polRound, p.polBlockID) == (g.k, g.r, 0, g.id)
    ensures var n' := Feed(c, n, [ProposalMsg(p, true), BlockPartMsg(g.k, PartResult.Complete(g.b))]);
            && Prevoting(c, h, n', g) && n'.votes == n.votes
            && (IsValidator(c, n) ==> Vote(n.self, g.k, g.r, Prevote, g.id) in n'.signed)
  {
    hide Inv, Handle, Majority, Extends, Prevoted;
    var e1, e2 := ProposalMsg(p, true), BlockPartMsg(g.k, PartResult.Complete(g.b));
    var n1 := Handle(c, n, e1);
    assert [e1, e2][..1] == [e1] && [e1][..0] == [];
    assert Feed(c, n, [e1]) == Handle(c, Feed(c, n, []), e1);
    assert Feed(c, n, [e1, e2]) == Handle(c, n1, e2);
    ProposalEffect(c, n, p, true);
    HandleInv(c, h, n, e1);
    HandleInv(c, h, n1, e2);
    BlockEffect(c, h, n1, g.b);
    var n2 :| Assembled(n1, n2, g.b) && (n2.step <= PROPOSE && HasProposal(n2) ==> Prevoted(c, n2, Handle(c, n1, e2)));
    BlockIsPrevoted(c, n2, Handle(c, n1, e2), g);
  }

  lemma BlockIsPrevoted(c: Config, n: Node, n': Node, g: Case)
    requires Prevoted(c, n, n') && Good(c, g) && n.height == g.k && n.round == g.r
    requires n.lockedBlock.None? && HasBlock(n.proposalBlock, n.proposalParts, g)
    ensures n' == n.(step := PREVOTE, signed := n'.signed)
    ensures IsValidator(c, n) ==> Vote(n.self, g.k, g.r, Prevote, g.id) in n'.signed
  {
    var id :| Cast(c, n, n', Prevote, id) && Names(id, n.proposalBlock.value, n.proposalParts);
    assert id == g.id;
  }

  lemma {:induction false} FeedConcat(c: Config, n: Node, a: seq<Event>, b: seq<Event>)
    ensures Feed(c, n, a + b) == Feed(c, Feed(c, n, a), b)
    decreases |b|
  {
    hide Handle;
    if b == [] {
      assert a + b == a;
    } else {
      var front, e := b[..|b| - 1], b[|b| - 1];
      FeedConcat(c, n, a, front);
      assert (a + b)[..|a + b| - 1] == a + front;
    }
  }

  /**
   A round in which the proposal, its block, and then prevotes and precommits of a quorum for it arrive, each kind in any
   order: the node prevotes the block, locks and precommits it, and decides it.
   */
  lemma RoundDecides(c: Config, h: seq<Vote>, n: Node, g: Case, p: Proposal, q: set<Val>, prevotes: seq<Event>,
                     precommits: seq<Event>)
    requires Good(c, g) && Running(c, h, n, g) && n.step == PROPOSE && n.lockedBlock.None?
    requires n.proposal.None? && n.proposalParts.None? && n.proposalBlock.None?
    requires (p.height, p.round, p.polRound, p.polBlockID) == (g.k, g.r, 0, g.id)
    requires Counting(n, g, Prevote, q, {}) && Counting(n, g, Precommit, q, {})
    requires forall e | e in prevotes :: IsVote(c, h, g, Prevote, e) && e.vote.val in q
    requires forall e | e in precommits :: IsVote(c, h, g, Precommit, e) && e.vote.val in q
    requires Power(c.vals(g.k).powers, Senders(prevotes)) >= Quorum(c.vals(g.k))
    requires Power(c.vals(g.k).powers, Senders(precommits)) >= Quorum(c.vals(g.k))
    ensures var n1 := Feed(c, n, [ProposalMsg(p, true), BlockPartMsg(g.k, PartResult.Complete(g.b))]);
            var n2 := Feed(c, n1, prevotes);
            var n3 := Feed(c, n2, precommits);
            && n3 == Feed(c, n, [ProposalMsg(p, true), BlockPartMsg(g.k, PartResult.Complete(g.b))] + prevotes + precommits)
            && (IsValidator(c, n) ==> Vote(n.self, g.k, g.r, Prevote, g.id) in n1.signed)
            && LockedOn(c, h, n2, g)
            && g.k in n3.decided && n3.decided[g.k] == g.b
  {
    hide Inv, IsVote, Power, Prevoting, LockedOn, Feed, Majority, Quorum;
    var start := [ProposalMsg(p, true), BlockPartMsg(g.k, PartResult.Complete(g.b))];
    assert Majority(n.votes, g.r, Prevote).None? by { SetConsistent(c, h, n, g, Prevote); }
    ProposalPrevoted(c, h, n, g, p);
    var n1 := Feed(c, n, start);
    CountingFrame(n, n1, g, Prevote, q, {});
    CountingFrame(n, n1, g, Precommit, q, {});
    PrevotesLock(c, h, n1, g, q, prevotes);
    var n2 := Feed(c, n1, prevotes);
    PrecommitsDecide(c, h, n2, g, q, precommits);
    FeedConcat(c, n, start, prevotes);
    FeedConcat(c, n, start + prevotes, precommits);
  }
}
