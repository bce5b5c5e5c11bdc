/** Votes and the sets that collect them: one set per (height, round, type), and all sets of a height. */
module VoteSets {
  import opened Basics
  import opened VotingPower

  type Hash = nat  // 0 is the zero hash, which stands for "nil"
  type Peer = nat

  const MAX_ROUND := 0xFFFF_FFFF
  type Round = r: nat | r <= MAX_ROUND

  datatype PartSetHeader = PartSetHeader(total: nat, hash: Hash)
  datatype BlockID = BlockID(hash: Hash, parts: PartSetHeader) {
    /** Votes are grouped by this key, which leaves out the number of parts. */
    function Key(): BlockKey { (hash, parts.hash) }
    predicate IsZero() { hash == 0 && parts == PartSetHeader(0, 0) }
  }
  type BlockKey = (Hash, Hash)
  const ZERO_ID := BlockID(0, PartSetHeader(0, 0))

  datatype VoteType = Prevote | Precommit
  datatype Vote = Vote(val: Val, height: nat, round: Round, typ: VoteType, blockID: BlockID)

  /** Votes seen for one block key. */
  datatype BlockVotes = BlockVotes(peerMaj23: bool, votes: map<Val, Vote>, sum: nat)

  datatype VoteSet = VoteSet(
    height: nat, round: Round, typ: VoteType,
    votes: map<Val, Vote>, sum: nat,
    maj23: Option<BlockID>,
    byBlock: map<BlockKey, BlockVotes>,
    peerMaj23s: map<Peer, BlockID>)

  function NewVoteSet(height: nat, round: Round, typ: VoteType): VoteSet {
    VoteSet(height, round, typ, map[], 0, None, map[], map[])
  }

  function Quorum(vals: ValidatorSet): nat {
    vals.total * 2 / 3 + 1
  }

  predicate HasTwoThirdsAny(vals: ValidatorSet, vs: VoteSet) {
    vs.sum > vals.total * 2 / 3
  }

  predicate Known(vs: VoteSet, vote: Vote) {
    || (vote.val in vs.votes && vs.votes[vote.val].blockID.Key() == vote.blockID.Key())
    || (vote.blockID.Key() in vs.byBlock && vote.val in vs.byBlock[vote.blockID.Key()].votes)
  }

  /** Adds a vote; the flag tells whether it was counted for its block. sigOk is the outcome of signature verification. */
  function AddVote(vals: ValidatorSet, vs: VoteSet, vote: Vote, sigOk: bool): (VoteSet, bool) {
    if vote.height != vs.height || vote.round != vs.round || vote.typ != vs.typ then (vs, false)
    else if vote.val !in vals.powers then (vs, false)
    else if Known(vs, vote) then (vs, false)
    else if !sigOk then (vs, false)
    else AddVerifiedVote(vals, vs, vote, vals.powers[vote.val])
  }

  function AddVerifiedVote(vals: ValidatorSet, vs: VoteSet, vote: Vote, power: nat): (VoteSet, bool) {
    var key := vote.blockID.Key();
    var vs1 := RecordVote(vs, vote, power);
    if vote.val in vs.votes && !(key in vs.byBlock && vs.byBlock[key].peerMaj23) then (vs1, false)
    else (CountVote(vals, vs1, vote, power), true)
  }

  /** The canonical vote of a validator is its first one, replaced only by a vote for the majority block. */
  function RecordVote(vs: VoteSet, vote: Vote, power: nat): VoteSet {
    if vote.val in vs.votes then
      if vs.maj23.Some? && vs.maj23.value.Key() == vote.blockID.Key()
      then vs.(votes := vs.votes[vote.val := vote]) else vs
    else
      vs.(votes := vs.votes[vote.val := vote], sum := vs.sum + power)
  }

  function BlockVotesFor(vs: VoteSet, key: BlockKey): BlockVotes {
    if key in vs.byBlock then vs.byBlock[key] else BlockVotes(false, map[], 0)
  }

  function Tally(bv: BlockVotes, vote: Vote, power: nat): BlockVotes {
    if vote.val in bv.votes then bv
    else bv.(votes := bv.votes[vote.val := vote], sum := bv.sum + power)
  }

  /** Counts the vote for its block; the first block to cross the quorum becomes the majority for good. */
  function CountVote(vals: ValidatorSet, vs: VoteSet, vote: Vote, power: nat): VoteSet {
    var key := vote.blockID.Key();
    var bv := BlockVotesFor(vs, key);
    var bv' := Tally(bv, vote, power);
    var vs' := vs.(byBlock := vs.byBlock[key := bv']);
    if bv.sum < Quorum(vals) <= bv'.sum && vs.maj23.None?
    then vs'.(maj23 := Some(vote.blockID), votes := vs.votes + bv'.votes)
    else vs'
  }

  function SetPeerMaj23(vs: VoteSet, peer: Peer, id: BlockID): VoteSet {
    if peer in vs.peerMaj23s then vs
    else
      var key := id.Key();
      vs.(peerMaj23s := vs.peerMaj23s[peer := id],
          byBlock := vs.byBlock[key := BlockVotesFor(vs, key).(peerMaj23 := true)])
  }

  // ---------------------------------------------------------------- all rounds of a height

  datatype RoundVoteSet = RoundVoteSet(prevotes: VoteSet, precommits: VoteSet)

  datatype HeightVoteSet = HeightVoteSet(
    height: nat, round: Round,
    rounds: map<Round, RoundVoteSet>,
    catchup: map<Peer, seq<Round>>)

  function NewRoundVoteSet(height: nat, r: Round): RoundVoteSet {
    RoundVoteSet(NewVoteSet(height, r, Prevote), NewVoteSet(height, r, Precommit))
  }

  function NewHeightVoteSet(height: nat): HeightVoteSet {
    HeightVoteSet(height, 1, map[1 := NewRoundVoteSet(height, 1)], map[])
  }

  function GetVoteSet(hvs: HeightVoteSet, r: Round, typ: VoteType): Option<VoteSet> {
    if r !in hvs.rounds then None
    else if typ == Prevote then Some(hvs.rounds[r].prevotes)
    else Some(hvs.rounds[r].precommits)
  }

  /** TwoThirdsMajority of the set of a round; a missing set has none. */
  function Majority(hvs: HeightVoteSet, r: Round, typ: VoteType): Option<BlockID> {
    var vs := GetVoteSet(hvs, r, typ);
    if vs.Some? then vs.value.maj23 else None
  }

  predicate AnyTwoThirds(vals: ValidatorSet, hvs: HeightVoteSet, r: Round, typ: VoteType) {
    var vs := GetVoteSet(hvs, r, typ);
    vs.Some? && HasTwoThirdsAny(vals, vs.value)
  }

  predicate HasAll(vals: ValidatorSet, vs: VoteSet) {
    vs.sum == vals.total
  }

  /** Creates the missing sets from one below the tracked round up to r; None is a panic, or a loop that never ends. */
  function SetRound(hvs: HeightVoteSet, r: Round): Option<HeightVoteSet> {
    var from := if hvs.round == 0 then MAX_ROUND else hvs.round - 1;
    if hvs.round != 1 && r < from then None
    else if from <= r == MAX_ROUND then None
    else
      var extra := map x: Round | from <= x <= r && x !in hvs.rounds :: NewRoundVoteSet(hvs.height, x);
      Some(hvs.(rounds := hvs.rounds + extra, round := r))
  }

  /** A vote for an untracked round opens that round, at most twice for a peer. */
  function AddHeightVote(vals: ValidatorSet, hvs: HeightVoteSet, vote: Vote, peer: Peer, sigOk: bool): (HeightVoteSet, bool) {
    if vote.round in hvs.rounds then
      AddToRound(vals, hvs, vote, sigOk)
    else
      var seen := if peer in hvs.catchup then hvs.catchup[peer] else [];
      if |seen| < 2 then
        AddToRound(vals, hvs.(rounds := hvs.rounds[vote.round := NewRoundVoteSet(hvs.height, vote.round)],
                              catchup := hvs.catchup[peer := seen + [vote.round]]), vote, sigOk)
      else (hvs, false)
  }

  function AddToRound(vals: ValidatorSet, hvs: HeightVoteSet, vote: Vote, sigOk: bool): (HeightVoteSet, bool)
    requires vote.round in hvs.rounds
  {
    var rvs := hvs.rounds[vote.round];
    if vote.typ == Prevote then
      var (vs, added) := AddVote(vals, rvs.prevotes, vote, sigOk);
      (hvs.(rounds := hvs.rounds[vote.round := rvs.(prevotes := vs)]), added)
    else
      var (vs, added) := AddVote(vals, rvs.precommits, vote, sigOk);
      (hvs.(rounds := hvs.rounds[vote.round := rvs.(precommits := vs)]), added)
  }

  function SetHeightPeerMaj23(hvs: HeightVoteSet, r: Round, typ: VoteType, peer: Peer, id: BlockID): HeightVoteSet {
    if r !in hvs.rounds then hvs
    else if typ == Prevote then
      hvs.(rounds := hvs.rounds[r := hvs.rounds[r].(prevotes := SetPeerMaj23(hvs.rounds[r].prevotes, peer, id))])
    else
      hvs.(rounds := hvs.rounds[r := hvs.rounds[r].(precommits := SetPeerMaj23(hvs.rounds[r].precommits, peer, id))])
  }

  /** The last round up to r with a prevote majority, 0 if there is none. */
  function POLRound(hvs: HeightVoteSet, r: Round): Round {
    if r < 1 then 0
    else if Majority(hvs, r, Prevote).Some? then r
    else POLRound(hvs, r - 1)
  }

  // ---------------------------------------------------------------- meaning

  /** The validators that have a vote of this kind for this hash in the history h. */
  ghost function Voters(vals: ValidatorSet, h: seq<Vote>, typ: VoteType, k: nat, r: nat, hash: Hash): set<Val> {
    set i | 0 <= i < |h| && h[i].typ == typ && h[i].height == k && h[i].round == r && h[i].blockID.hash == hash
            && h[i].val in vals.powers :: h[i].val
  }

  /** More than two thirds of the power of height k signed a vote of this kind for this hash. */
  ghost predicate HistoryQuorum(vals: ValidatorSet, h: seq<Vote>, typ: VoteType, k: nat, r: nat, hash: Hash) {
    TwoThirds(vals, Voters(vals, h, typ, k, r, hash))
  }

  lemma HistoryQuorumMono(vals: ValidatorSet, h: seq<Vote>, h': seq<Vote>, typ: VoteType, k: nat, r: nat, hash: Hash)
    requires h <= h'
    requires HistoryQuorum(vals, h, typ, k, r, hash)
    ensures HistoryQuorum(vals, h', typ, k, r, hash)
  {
    var a, b := Voters(vals, h, typ, k, r, hash), Voters(vals, h', typ, k, r, hash);
    forall v | v in a ensures v in b {
      var i :| 0 <= i < |h| && h[i].val == v && h[i].typ == typ && h[i].height == k && h[i].round == r
               && h[i].blockID.hash == hash && v in vals.powers;
      assert h'[i] == h[i];
    }
    PowerMono(vals.powers, a, b);
  }

  ghost predicate OwnVotes(vals: ValidatorSet, vs: VoteSet, votes: map<Val, Vote>, h: seq<Vote>) {
    forall v | v in votes :: OwnVote(vals, vs, v, votes[v]) && votes[v] in h
  }

  ghost predicate OwnVote(vals: ValidatorSet, vs: VoteSet, v: Val, vote: Vote) {
    && v in vals.powers && vote.val == v
    && vote.height == vs.height && vote.round == vs.round && vote.typ == vs.typ
  }

  ghost predicate BlockVotesOK(vals: ValidatorSet, vs: VoteSet, key: BlockKey, bv: BlockVotes, h: seq<Vote>) {
    && OwnVotes(vals, vs, bv.votes, h)
    && (forall v | v in bv.votes :: bv.votes[v].blockID.Key() == key)
    && bv.votes.Keys <= vs.votes.Keys
    && bv.sum == Power(vals.powers, bv.votes.Keys)
  }

  ghost predicate BlocksOK(vals: ValidatorSet, vs: VoteSet, h: seq<Vote>) {
    forall key | key in vs.byBlock :: BlockVotesOK(vals, vs, key, vs.byBlock[key], h)
  }

  /** maj23 is set exactly when some block has a quorum, and then names such a block. */
  ghost predicate MajorityOK(vals: ValidatorSet, vs: VoteSet) {
    match vs.maj23
    case None => forall key | key in vs.byBlock :: vs.byBlock[key].sum < Quorum(vals)
    case Some(id) => id.Key() in vs.byBlock && vs.byBlock[id.Key()].sum >= Quorum(vals)
  }

  predicate IsMajority(vs: VoteSet, key: BlockKey) { vs.maj23.Some? && vs.maj23.value.Key() == key }

  /** Who voted for the majority block has that vote as canonical vote, whatever came first. */
  ghost predicate CanonicalOK(vs: VoteSet) {
    forall key, v | key in vs.byBlock && v in vs.byBlock[key].votes && IsMajority(vs, key) ::
      v in vs.votes && vs.votes[v].blockID.Key() == key
  }

  /** A canonical vote is counted for its block, except that a vote for the majority block may come too late for that. */
  ghost predicate TalliedOK(vs: VoteSet) {
    forall v | v in vs.votes :: Tallied(vs, v)
  }

  ghost predicate Tallied(vs: VoteSet, v: Val)
    requires v in vs.votes
  {
    v in BlockVotesFor(vs, vs.votes[v].blockID.Key()).votes || IsMajority(vs, vs.votes[v].blockID.Key())
  }

  /** All recorded votes are signed votes of this set's kind, and the sums are the powers of the recorded voters. */
  ghost predicate Sound(vals: ValidatorSet, vs: VoteSet, h: seq<Vote>) {
    && OwnVotes(vals, vs, vs.votes, h)
    && vs.sum == Power(vals.powers, vs.votes.Keys)
    && BlocksOK(vals, vs, h)
    && MajorityOK(vals, vs) && CanonicalOK(vs)
  }

  ghost predicate Consistent(vals: ValidatorSet, vs: VoteSet, h: seq<Vote>) { Sound(vals, vs, h) && TalliedOK(vs) }

  lemma ConsistentMono(vals: ValidatorSet, vs: VoteSet, h: seq<Vote>, h': seq<Vote>)
    requires h <= h' && Consistent(vals, vs, h)
    ensures Consistent(vals, vs, h')
  {}

  /** A majority of the set is a quorum of signed votes in the history. */
  lemma MajorityIsQuorum(vals: ValidatorSet, vs: VoteSet, h: seq<Vote>)
    requires Consistent(vals, vs, h) && vs.maj23.Some?
    ensures HistoryQuorum(vals, h, vs.typ, vs.height, vs.round, vs.maj23.value.hash)
  {
    var key := vs.maj23.value.Key();
    var bv := vs.byBlock[key];
    assert BlockVotesOK(vals, vs, key, bv, h);
    var all := Voters(vals, h, vs.typ, vs.height, vs.round, vs.maj23.value.hash);
    forall v | v in bv.votes.Keys ensures v in all {
      assert bv.votes[v].blockID.hash == key.0;
      var i :| 0 <= i < |h| && h[i] == bv.votes[v];
    }
    PowerMono(vals.powers, bv.votes.Keys, all);
  }

  /** The canonical votes alone, which a commit is made of, show the quorum for the majority block. */
  lemma CanonicalQuorum(vals: ValidatorSet, vs: VoteSet, h: seq<Vote>)
    requires Consistent(vals, vs, h) && vs.maj23.Some?
    ensures var key := vs.maj23.value.Key();
            Power(vals.powers, set v | v in vs.votes && vs.votes[v].blockID.Key() == key) >= Quorum(vals)
  {
    var key := vs.maj23.value.Key();
    var bv := vs.byBlock[key];
    assert BlockVotesOK(vals, vs, key, bv, h);
    var all := set v | v in vs.votes && vs.votes[v].blockID.Key() == key;
    assert IsMajority(vs, key);
    assert bv.votes.Keys <= all;
    PowerMono(vals.powers, bv.votes.Keys, all);
  }

  lemma RecordVoteConsistent(vals: ValidatorSet, vs: VoteSet, vote: Vote, h: seq<Vote>)
    requires Consistent(vals, vs, h) && vote in h && OwnVote(vals, vs, vote.val, vote)
    ensures var vs1 := RecordVote(vs, vote, vals.powers[vote.val]);
            && Sound(vals, vs1, h) && TalliedBut(vs1, vote) && (vote.val in vs.votes ==> Consistent(vals, vs1, h))
            && vote.val in vs1.votes && Follows(vs1, vote)
  {
    hide OwnVotes, OwnVote, BlocksOK, MajorityOK, CanonicalOK, Follows, Power, RecordVote, TalliedOK, TalliedBut;
    assert vote.val in vals.powers by { Tied(vals, vs, vote); }
    var vs1 := RecordVote(vs, vote, vals.powers[vote.val]);
    RecordFrame(vals, vs, vote, vals.powers[vote.val]);
    RecordVotes(vals, vs, vote, h);
    RecordCanonical(vs, vote, vals.powers[vote.val]);
    RecordTallied(vs, vote, vals.powers[vote.val]);
    BlocksFrame(vals, vs, vs1, h);
  }

  /** Only the vote that is being added may still have to be counted. */
  ghost predicate TalliedBut(vs: VoteSet, vote: Vote) {
    forall v | v in vs.votes :: vs.votes[v] == vote || Tallied(vs, v)
  }

  lemma RecordTallied(vs: VoteSet, vote: Vote, power: nat)
    requires TalliedOK(vs)
    ensures TalliedBut(RecordVote(vs, vote, power), vote)
    ensures vote.val in vs.votes ==> TalliedOK(RecordVote(vs, vote, power))
  {
    var vs1 := RecordVote(vs, vote, power);
    forall v | v in vs1.votes && v in vs.votes ensures Tallied(vs1, v) { assert Tallied(vs, v); }
  }

  lemma Tied(vals: ValidatorSet, vs: VoteSet, vote: Vote)
    requires OwnVote(vals, vs, vote.val, vote)
    ensures vote.val in vals.powers
  {}

  lemma RecordFrame(vals: ValidatorSet, vs: VoteSet, vote: Vote, power: nat)
    ensures var vs1 := RecordVote(vs, vote, power);
      && vs1.byBlock == vs.byBlock && vs1.maj23 == vs.maj23 && vs1.votes.Keys == vs.votes.Keys + {vote.val}
      && (vs1.height, vs1.round, vs1.typ) == (vs.height, vs.round, vs.typ)
      && (MajorityOK(vals, vs) ==> MajorityOK(vals, vs1))
  {}

  lemma RecordVotes(vals: ValidatorSet, vs: VoteSet, vote: Vote, h: seq<Vote>)
    requires OwnVotes(vals, vs, vs.votes, h) && vs.sum == Power(vals.powers, vs.votes.Keys)
    requires vote in h && OwnVote(vals, vs, vote.val, vote)
    ensures var vs1 := RecordVote(vs, vote, vals.powers[vote.val]);
            OwnVotes(vals, vs1, vs1.votes, h) && vs1.sum == Power(vals.powers, vs1.votes.Keys)
  {
    var vs1 := RecordVote(vs, vote, vals.powers[vote.val]);
    if vote.val !in vs.votes {
      PowerAdd(vals.powers, vs.votes.Keys, vote.val);
      assert vs1.votes.Keys == vs.votes.Keys + {vote.val};
    } else {
      assert vs1.votes.Keys == vs.votes.Keys;
    }
    hide Power;
  }

  lemma RecordCanonical(vs: VoteSet, vote: Vote, power: nat)
    requires CanonicalOK(vs)
    ensures CanonicalOK(RecordVote(vs, vote, power)) && Follows(RecordVote(vs, vote, power), vote)
  {}

  // Block tallies do not depend on the canonical votes beyond their voters.
  lemma BlocksFrame(vals: ValidatorSet, vs: VoteSet, vs': VoteSet, h: seq<Vote>)
    requires BlocksOK(vals, vs, h)
    requires vs'.byBlock == vs.byBlock && vs.votes.Keys <= vs'.votes.Keys
    requires (vs'.height, vs'.round, vs'.typ) == (vs.height, vs.round, vs.typ)
    ensures BlocksOK(vals, vs', h)
  {}

  lemma BlockVotesForOK(vals: ValidatorSet, vs: VoteSet, key: BlockKey, h: seq<Vote>)
    requires BlocksOK(vals, vs, h)
    ensures BlockVotesOK(vals, vs, key, BlockVotesFor(vs, key), h)
  {}

  lemma TallyOK(vals: ValidatorSet, vs: VoteSet, bv: BlockVotes, vote: Vote, h: seq<Vote>)
    requires BlockVotesOK(vals, vs, vote.blockID.Key(), bv, h)
    requires vote in h && OwnVote(vals, vs, vote.val, vote) && vote.val in vs.votes
    ensures BlockVotesOK(vals, vs, vote.blockID.Key(), Tally(bv, vote, vals.powers[vote.val]), h)
  {
    if vote.val !in bv.votes {
      PowerAdd(vals.powers, bv.votes.Keys, vote.val);
      assert Tally(bv, vote, vals.powers[vote.val]).votes.Keys == bv.votes.Keys + {vote.val};
    }
  }

  /** A vote for the majority block is its validator's canonical vote. */
  ghost predicate Follows(vs: VoteSet, vote: Vote) {
    IsMajority(vs, vote.blockID.Key()) ==> vote.val in vs.votes && vs.votes[vote.val].blockID.Key() == vote.blockID.Key()
  }

  /** A majority is found exactly when the block gets to the quorum first, and then its votes become the canonical ones. */
  ghost predicate Counted(vals: ValidatorSet, vs: VoteSet, vs': VoteSet, vote: Vote) {
    var bv := BlockVotesFor(vs', vote.blockID.Key());
    && (vs.maj23.Some? ==> vs'.maj23 == vs.maj23 && vs'.votes == vs.votes)
    && (vs.maj23.None? ==> vs'.maj23 == if bv.sum >= Quorum(vals) then Some(vote.blockID) else None)
    && vote.val in bv.votes && vs'.votes.Keys == vs.votes.Keys && vs'.sum == vs.sum
    && (forall v | v in vs'.votes && vs.maj23.None? ::
          vs'.votes[v] == if vs'.maj23.Some? && v in bv.votes then bv.votes[v] else vs.votes[v])
  }

  lemma CountVoteConsistent(vals: ValidatorSet, vs: VoteSet, vote: Vote, h: seq<Vote>)
    requires Sound(vals, vs, h) && vote in h && OwnVote(vals, vs, vote.val, vote) && vote.val in vs.votes && Follows(vs, vote)
    requires TalliedBut(vs, vote)
    ensures var vs' := CountVote(vals, vs, vote, vals.powers[vote.val]); Consistent(vals, vs', h) && Counted(vals, vs, vs', vote)
  {
    hide OwnVotes, OwnVote, BlocksOK, BlockVotesOK, MajorityOK, CanonicalOK, Follows, Counted, Power, CountVote, Tally, TalliedOK,
      TalliedBut;
    assert vote.val in vals.powers by { Tied(vals, vs, vote); }
    var key, power := vote.blockID.Key(), vals.powers[vote.val];
    var bv := BlockVotesFor(vs, key);
    var bv' := Tally(bv, vote, power);
    var vs' := CountVote(vals, vs, vote, power);
    BlockVotesForOK(vals, vs, key, h);
    TallyOK(vals, vs, bv, vote, h);
    CountVotes(vals, vs, vote, power, h);
    var counted := vs.(byBlock := vs.byBlock[key := bv']);
    ReplaceBlock(vals, vs, key, bv', h);
    BlocksFrame(vals, counted, vs', h);
    CountMajority(vals, vs, vote, power);
    assert forall v | v in bv.votes :: bv.votes[v].blockID.Key() == key by { KeyedBy(vals, vs, key, bv, h); }
    CountCanonical(vals, vs, vote, power);
    assert forall v | v in vs.votes :: vs.votes[v].val == v by { OwnVals(vals, vs, h); }
    CountTallied(vals, vs, vote, power);
  }

  lemma OwnVals(vals: ValidatorSet, vs: VoteSet, h: seq<Vote>)
    requires OwnVotes(vals, vs, vs.votes, h)
    ensures forall v | v in vs.votes :: vs.votes[v].val == v
  {}

  lemma CountTallied(vals: ValidatorSet, vs: VoteSet, vote: Vote, power: nat)
    requires TalliedBut(vs, vote) && CountVote(vals, vs, vote, power).votes.Keys == vs.votes.Keys
    requires forall v | v in vs.votes :: vs.votes[v].val == v
    requires forall v | v in BlockVotesFor(vs, vote.blockID.Key()).votes ::
               BlockVotesFor(vs, vote.blockID.Key()).votes[v].blockID.Key() == vote.blockID.Key()
    ensures TalliedOK(CountVote(vals, vs, vote, power))
  {
    hide CountVote, TalliedBut;
    var vs' := CountVote(vals, vs, vote, power);
    forall v | v in vs'.votes ensures Tallied(vs', v) { CountsOne(vals, vs, vote, power, v); }
  }

  lemma CountsOne(vals: ValidatorSet, vs: VoteSet, vote: Vote, power: nat, v: Val)
    requires TalliedBut(vs, vote) && v in vs.votes && v in CountVote(vals, vs, vote, power).votes && vs.votes[v].val == v
    requires forall u | u in BlockVotesFor(vs, vote.blockID.Key()).votes ::
               BlockVotesFor(vs, vote.blockID.Key()).votes[u].blockID.Key() == vote.blockID.Key()
    ensures Tallied(CountVote(vals, vs, vote, power), v)
  {
    hide Quorum;
    var vs' := CountVote(vals, vs, vote, power);
    if vs'.votes[v] == vs.votes[v] && vs.votes[v] != vote { assert Tallied(vs, v); }
  }

  lemma KeyedBy(vals: ValidatorSet, vs: VoteSet, key: BlockKey, bv: BlockVotes, h: seq<Vote>)
    requires BlockVotesOK(vals, vs, key, bv, h)
    ensures forall v | v in bv.votes :: bv.votes[v].blockID.Key() == key
  {}

  lemma CountVotes(vals: ValidatorSet, vs: VoteSet, vote: Vote, power: nat, h: seq<Vote>)
    requires OwnVotes(vals, vs, vs.votes, h)
    requires BlockVotesOK(vals, vs, vote.blockID.Key(), Tally(BlockVotesFor(vs, vote.blockID.Key()), vote, power), h)
    ensures var vs' := CountVote(vals, vs, vote, power);
      && OwnVotes(vals, vs', vs'.votes, h) && vs'.votes.Keys == vs.votes.Keys && vs'.sum == vs.sum
      && vs'.byBlock == vs.byBlock[vote.blockID.Key() := Tally(BlockVotesFor(vs, vote.blockID.Key()), vote, power)]
      && (vs'.height, vs'.round, vs'.typ) == (vs.height, vs.round, vs.typ)
  {
    hide Power, Tally, BlockVotesFor;
  }

  lemma CountMajority(vals: ValidatorSet, vs: VoteSet, vote: Vote, power: nat)
    requires MajorityOK(vals, vs) && CountVote(vals, vs, vote, power).votes.Keys == vs.votes.Keys
    ensures MajorityOK(vals, CountVote(vals, vs, vote, power))
    ensures Counted(vals, vs, CountVote(vals, vs, vote, power), vote)
  {
    hide MajorityOK, Counted, CountVote;
    StaysMajority(vals, vs, vote, power);
    CountedVotes(vals, vs, vote, power);
  }

  lemma StaysMajority(vals: ValidatorSet, vs: VoteSet, vote: Vote, power: nat)
    requires MajorityOK(vals, vs)
    ensures MajorityOK(vals, CountVote(vals, vs, vote, power))
  {
    hide Quorum;
    QuorumPositive(vals);
  }

  lemma CountedVotes(vals: ValidatorSet, vs: VoteSet, vote: Vote, power: nat)
    requires MajorityOK(vals, vs) && CountVote(vals, vs, vote, power).votes.Keys == vs.votes.Keys
    ensures Counted(vals, vs, CountVote(vals, vs, vote, power), vote)
  {
    hide Quorum;
    var key := vote.blockID.Key();
    assert vs.maj23.None? ==> BlockVotesFor(vs, key).sum < Quorum(vals) by {
      if key !in vs.byBlock { QuorumPositive(vals); }
    }
  }

  lemma QuorumPositive(vals: ValidatorSet)
    ensures Quorum(vals) > 0
  {}

  lemma CountCanonical(vals: ValidatorSet, vs: VoteSet, vote: Vote, power: nat)
    requires CanonicalOK(vs) && Follows(vs, vote) && vote.val in vs.votes
    requires forall v | v in BlockVotesFor(vs, vote.blockID.Key()).votes ::
               BlockVotesFor(vs, vote.blockID.Key()).votes[v].blockID.Key() == vote.blockID.Key()
    ensures CanonicalOK(CountVote(vals, vs, vote, power))
  {
    var key := vote.blockID.Key();
    var bv, bv' := BlockVotesFor(vs, key), Tally(BlockVotesFor(vs, key), vote, power);
    var vs' := CountVote(vals, vs, vote, power);
    hide Quorum;
    forall k, v | k in vs'.byBlock && v in vs'.byBlock[k].votes && IsMajority(vs', k)
      ensures v in vs'.votes && vs'.votes[v].blockID.Key() == k
    {
      if k != key {
        assert IsMajority(vs, k) && v in vs.byBlock[k].votes;
      } else if v in bv.votes && IsMajority(vs, k) {
        assert key in vs.byBlock;
      }
    }
  }

  lemma ReplaceBlock(vals: ValidatorSet, vs: VoteSet, key: BlockKey, bv: BlockVotes, h: seq<Vote>)
    requires BlocksOK(vals, vs, h) && BlockVotesOK(vals, vs, key, bv, h)
    ensures BlocksOK(vals, vs.(byBlock := vs.byBlock[key := bv]), h)
  {}

  /** Adding a verified vote keeps the set consistent, and a majority once found is never replaced. */
  lemma AddVoteConsistent(vals: ValidatorSet, vs: VoteSet, vote: Vote, sigOk: bool, h: seq<Vote>)
    requires Consistent(vals, vs, h)
    requires sigOk ==> vote in h
    ensures Consistent(vals, AddVote(vals, vs, vote, sigOk).0, h)
    ensures SetGrows(vs, AddVote(vals, vs, vote, sigOk).0)
  {
    hide Consistent, Sound, RecordVote, CountVote, TalliedBut, Follows, Counted;
    var (vs', added) := AddVote(vals, vs, vote, sigOk);
    if vs' != vs {
      var power := vals.powers[vote.val];
      AddGrows(vals, vs, vote, power);
      RecordFrame(vals, vs, vote, power);
      RecordVoteConsistent(vals, vs, vote, h);
      CountVoteConsistent(vals, RecordVote(vs, vote, power), vote, h);
    }
  }

  lemma AddGrows(vals: ValidatorSet, vs: VoteSet, vote: Vote, power: nat)
    ensures var vs1 := RecordVote(vs, vote, power); SetGrows(vs, vs1) && SetGrows(vs, CountVote(vals, vs1, vote, power))
  {
    hide Quorum;
  }

  predicate Fits(vals: ValidatorSet, vs: VoteSet, vote: Vote) {
    (vote.height, vote.round, vote.typ) == (vs.height, vs.round, vs.typ) && vote.val in vals.powers
  }

  /** The validator already has a vote for the same block, as its canonical vote or among the block's votes. */
  predicate HasSame(vs: VoteSet, vote: Vote) {
    || (vote.val in vs.votes && vs.votes[vote.val].blockID.Key() == vote.blockID.Key())
    || vote.val in BlockVotesFor(vs, vote.blockID.Key()).votes
  }

  /** A vote is counted that fits, is signed and is new, unless it conflicts with another and no peer claimed its block. */
  predicate Counts(vals: ValidatorSet, vs: VoteSet, vote: Vote, sigOk: bool) {
    && Fits(vals, vs, vote) && sigOk && !HasSame(vs, vote)
    && (vote.val in vs.votes ==> BlockVotesFor(vs, vote.blockID.Key()).peerMaj23)
  }

  /** Exactly such votes are counted, each for its block and its validator once; others change no tally. */
  lemma AddVoteOutcome(vals: ValidatorSet, vs: VoteSet, vote: Vote, sigOk: bool)
    ensures var (vs', added) := AddVote(vals, vs, vote, sigOk);
            && (added <==> Counts(vals, vs, vote, sigOk))
            && (!added ==> vs'.byBlock == vs.byBlock && vs'.sum == vs.sum && vs'.maj23 == vs.maj23)
            && (!Fits(vals, vs, vote) || !sigOk || HasSame(vs, vote) ==> vs' == vs)
            && (added ==>
                  var (key, power) := (vote.blockID.Key(), vals.powers[vote.val]);
                  var (bv, bv') := (BlockVotesFor(vs, key), BlockVotesFor(vs', key));
                  && bv'.votes == bv.votes[vote.val := vote] && bv'.sum == bv.sum + power && bv'.peerMaj23 == bv.peerMaj23
                  && (forall k | k != key :: BlockVotesFor(vs', k) == BlockVotesFor(vs, k))
                  && vs'.sum == vs.sum + (if vote.val in vs.votes then 0 else power)
                  && vote.val in vs'.votes && (vote.val !in vs.votes && vs'.maj23 == vs.maj23 ==> vs'.votes[vote.val] == vote))
  {
    hide Quorum, RecordVote, CountVote;
    var power := if vote.val in vals.powers then vals.powers[vote.val] else 0;
    RecordOutcome(vs, vote, power);
    if !HasSame(vs, vote) { CountOutcome(vals, RecordVote(vs, vote, power), vote, power); }
  }

  lemma RecordOutcome(vs: VoteSet, vote: Vote, power: nat)
    ensures var vs' := RecordVote(vs, vote, power);
            && vs' == vs.(votes := vs'.votes, sum := vs'.sum) && vote.val in vs'.votes
            && vs'.sum == vs.sum + (if vote.val in vs.votes then 0 else power)
            && (vote.val !in vs.votes ==> vs'.votes[vote.val] == vote)
  {}

  lemma CountOutcome(vals: ValidatorSet, vs: VoteSet, vote: Vote, power: nat)
    requires vote.val !in BlockVotesFor(vs, vote.blockID.Key()).votes
    ensures var (vs', key) := (CountVote(vals, vs, vote, power), vote.blockID.Key());
            var (bv, bv') := (BlockVotesFor(vs, key), BlockVotesFor(vs', key));
            && bv'.votes == bv.votes[vote.val := vote] && bv'.sum == bv.sum + power && bv'.peerMaj23 == bv.peerMaj23
            && (forall k | k != key :: BlockVotesFor(vs', k) == BlockVotesFor(vs, k))
            && vs'.sum == vs.sum && vs.votes.Keys <= vs'.votes.Keys && (vs'.maj23 == vs.maj23 ==> vs'.votes == vs.votes)
  {
    hide Quorum;
  }

  /** Before there is a majority, only the block of the vote can get it, and nobody else's canonical vote changes. */
  lemma AddVoteMajority(vals: ValidatorSet, vs: VoteSet, vote: Vote, sigOk: bool)
    requires vs.maj23.None?
    ensures var vs' := AddVote(vals, vs, vote, sigOk).0;
            && (vs'.maj23.None? || vs'.maj23 == Some(vote.blockID))
            && (vs'.maj23.None? ==> forall v | v in vs'.votes :: if v in vs.votes then vs'.votes[v] == vs.votes[v]
                                                                else v == vote.val && vs'.votes[v] == vote)
  {
    hide Quorum;
  }

  /** There is a majority exactly if some block's voters have the quorum, and it names such a block. */
  lemma MajorityExact(vals: ValidatorSet, vs: VoteSet, h: seq<Vote>)
    requires Consistent(vals, vs, h)
    ensures vs.maj23.Some? <==> exists key :: key in vs.byBlock && Power(vals.powers, vs.byBlock[key].votes.Keys) >= Quorum(vals)
    ensures vs.maj23.Some? ==> Power(vals.powers, BlockVotesFor(vs, vs.maj23.value.Key()).votes.Keys) >= Quorum(vals)
    ensures HasTwoThirdsAny(vals, vs) <==> 3 * Power(vals.powers, vs.votes.Keys) > 2 * vals.total
  {
    hide Power, OwnVotes, CanonicalOK;
    forall key | key in vs.byBlock ensures vs.byBlock[key].sum == Power(vals.powers, vs.byBlock[key].votes.Keys) {
      assert BlockVotesOK(vals, vs, key, vs.byBlock[key], h);
    }
  }

  /** The kind and a majority stay, and the sum only grows. */
  ghost predicate SetGrows(a: VoteSet, b: VoteSet) {
    && (a.height, a.round, a.typ) == (b.height, b.round, b.typ)
    && (a.maj23.Some? ==> b.maj23 == a.maj23)
    && a.sum <= b.sum
  }

  /** No vote was added, moved or dropped. */
  ghost predicate SameVotes(vs: VoteSet, vs': VoteSet) {
    && (vs'.votes, vs'.sum, vs'.maj23) == (vs.votes, vs.sum, vs.maj23)
    && forall key ::
         && BlockVotesFor(vs', key).votes == BlockVotesFor(vs, key).votes
         && BlockVotesFor(vs', key).sum == BlockVotesFor(vs, key).sum
  }

  /** A peer's first claim opens its block for conflicting votes and changes nothing else; later claims are ignored. */
  lemma PeerMaj23Consistent(vals: ValidatorSet, vs: VoteSet, peer: Peer, id: BlockID, h: seq<Vote>)
    requires Consistent(vals, vs, h)
    ensures Consistent(vals, SetPeerMaj23(vs, peer, id), h)
    ensures SetGrows(vs, SetPeerMaj23(vs, peer, id)) && SameVotes(vs, SetPeerMaj23(vs, peer, id))
    ensures forall key :: BlockVotesFor(SetPeerMaj23(vs, peer, id), key).peerMaj23 <==>
              BlockVotesFor(vs, key).peerMaj23 || (key == id.Key() && peer !in vs.peerMaj23s)
  {
    hide OwnVotes, BlocksOK, MajorityOK, CanonicalOK, Power;
    if peer !in vs.peerMaj23s {
      var key := id.Key();
      var bv := BlockVotesFor(vs, key).(peerMaj23 := true);
      BlockVotesForOK(vals, vs, key, h);
      assert BlockVotesOK(vals, vs, key, bv, h);
      ReplaceBlock(vals, vs, key, bv, h);
      BlocksFrame(vals, vs.(byBlock := vs.byBlock[key := bv]), SetPeerMaj23(vs, peer, id), h);
      ClaimFrame(vals, vs, peer, id, h);
    }
  }

  lemma ClaimFrame(vals: ValidatorSet, vs: VoteSet, peer: Peer, id: BlockID, h: seq<Vote>)
    requires OwnVotes(vals, vs, vs.votes, h) && MajorityOK(vals, vs) && CanonicalOK(vs)
    ensures var vs' := SetPeerMaj23(vs, peer, id); OwnVotes(vals, vs', vs'.votes, h) && MajorityOK(vals, vs') && CanonicalOK(vs')
  {}

  /** Every set of the height holds signed votes of its own round and kind, with exact sums. */
  ghost predicate HeightConsistent(vals: ValidatorSet, hvs: HeightVoteSet, h: seq<Vote>) {
    forall r | r in hvs.rounds ::
      && Tagged(hvs.height, r, hvs.rounds[r])
      && Consistent(vals, hvs.rounds[r].prevotes, h) && Consistent(vals, hvs.rounds[r].precommits, h)
  }

  ghost predicate Tagged(height: nat, r: Round, rvs: RoundVoteSet) {
    && rvs.prevotes.height == rvs.precommits.height == height
    && rvs.prevotes.round == rvs.precommits.round == r
    && rvs.prevotes.typ == Prevote && rvs.precommits.typ == Precommit
  }

  /** No set loses a majority or power. */
  ghost predicate Grows(hvs: HeightVoteSet, hvs': HeightVoteSet) {
    && hvs'.height == hvs.height
    && hvs.rounds.Keys <= hvs'.rounds.Keys
    && forall r | r in hvs.rounds ::
         && SetGrows(hvs.rounds[r].prevotes, hvs'.rounds[r].prevotes)
         && SetGrows(hvs.rounds[r].precommits, hvs'.rounds[r].precommits)
  }

  lemma NewRoundConsistent(vals: ValidatorSet, height: nat, r: Round, h: seq<Vote>)
    ensures Consistent(vals, NewRoundVoteSet(height, r).prevotes, h)
    ensures Consistent(vals, NewRoundVoteSet(height, r).precommits, h)
  {}

  lemma NewHeightConsistent(vals: ValidatorSet, height: nat, h: seq<Vote>)
    ensures HeightConsistent(vals, NewHeightVoteSet(height), h)
  {}

  lemma HeightConsistentMono(vals: ValidatorSet, hvs: HeightVoteSet, h: seq<Vote>, h': seq<Vote>)
    requires h <= h' && HeightConsistent(vals, hvs, h)
    ensures HeightConsistent(vals, hvs, h')
  {
    forall r | r in hvs.rounds
      ensures Consistent(vals, hvs.rounds[r].prevotes, h') && Consistent(vals, hvs.rounds[r].precommits, h')
    {
      ConsistentMono(vals, hvs.rounds[r].prevotes, h, h');
      ConsistentMono(vals, hvs.rounds[r].precommits, h, h');
    }
  }

  lemma SetRoundConsistent(vals: ValidatorSet, hvs: HeightVoteSet, r: Round, h: seq<Vote>)
    requires HeightConsistent(vals, hvs, h)
    requires SetRound(hvs, r).Some?
    ensures HeightConsistent(vals, SetRound(hvs, r).value, h)
    ensures Grows(hvs, SetRound(hvs, r).value)
  {
    var hvs' := SetRound(hvs, r).value;
    forall x | x in hvs'.rounds
      ensures Tagged(hvs'.height, x, hvs'.rounds[x])
      ensures Consistent(vals, hvs'.rounds[x].prevotes, h) && Consistent(vals, hvs'.rounds[x].precommits, h)
    {
      if x !in hvs.rounds { NewRoundConsistent(vals, hvs.height, x, h); }
    }
  }

  lemma AddHeightVoteConsistent(vals: ValidatorSet, hvs: HeightVoteSet, vote: Vote, peer: Peer, sigOk: bool, h: seq<Vote>)
    requires HeightConsistent(vals, hvs, h)
    requires sigOk ==> vote in h
    ensures HeightConsistent(vals, AddHeightVote(vals, hvs, vote, peer, sigOk).0, h)
    ensures Grows(hvs, AddHeightVote(vals, hvs, vote, peer, sigOk).0)
    ensures AddHeightVote(vals, hvs, vote, peer, sigOk).0.round == hvs.round
  {
    hide Consistent, AddToRound, HeightConsistent, Grows;
    assert Grows(hvs, hvs) by { GrowsSame(hvs); }
    if vote.round in hvs.rounds {
      AddToRoundConsistent(vals, hvs, vote, sigOk, h);
    } else {
      var seen := if peer in hvs.catchup then hvs.catchup[peer] else [];
      if |seen| < 2 {
        var wider := hvs.(rounds := hvs.rounds[vote.round := NewRoundVoteSet(hvs.height, vote.round)],
                           catchup := hvs.catchup[peer := seen + [vote.round]]);
        OpenRound(vals, hvs, vote.round, wider.catchup, h);
        AddToRoundConsistent(vals, wider, vote, sigOk, h);
        GrowsTrans(hvs, wider, AddToRound(vals, wider, vote, sigOk).0);
      }
    }
  }

  lemma GrowsSame(hvs: HeightVoteSet)
    ensures Grows(hvs, hvs)
  {}

  lemma GrowsTrans(a: HeightVoteSet, b: HeightVoteSet, c: HeightVoteSet)
    requires Grows(a, b) && Grows(b, c)
    ensures Grows(a, c)
  {}

  lemma OpenRound(vals: ValidatorSet, hvs: HeightVoteSet, r: Round, catchup: map<Peer, seq<Round>>, h: seq<Vote>)
    requires HeightConsistent(vals, hvs, h) && r !in hvs.rounds
    ensures var wider := hvs.(rounds := hvs.rounds[r := NewRoundVoteSet(hvs.height, r)], catchup := catchup);
            HeightConsistent(vals, wider, h) && Grows(hvs, wider)
  {
    hide Consistent;
    NewRoundConsistent(vals, hvs.height, r, h);
  }

  lemma ReplaceRound(vals: ValidatorSet, hvs: HeightVoteSet, r: Round, rvs: RoundVoteSet, h: seq<Vote>)
    requires HeightConsistent(vals, hvs, h) && r in hvs.rounds
    requires SetGrows(hvs.rounds[r].prevotes, rvs.prevotes) && SetGrows(hvs.rounds[r].precommits, rvs.precommits)
    requires Consistent(vals, rvs.prevotes, h) && Consistent(vals, rvs.precommits, h)
    ensures HeightConsistent(vals, hvs.(rounds := hvs.rounds[r := rvs]), h)
    ensures Grows(hvs, hvs.(rounds := hvs.rounds[r := rvs]))
  {
    hide Consistent;
  }

  lemma AddToRoundConsistent(vals: ValidatorSet, hvs: HeightVoteSet, vote: Vote, sigOk: bool, h: seq<Vote>)
    requires HeightConsistent(vals, hvs, h) && vote.round in hvs.rounds
    requires sigOk ==> vote in h
    ensures HeightConsistent(vals, AddToRound(vals, hvs, vote, sigOk).0, h)
    ensures Grows(hvs, AddToRound(vals, hvs, vote, sigOk).0)
    ensures AddToRound(vals, hvs, vote, sigOk).0.round == hvs.round
  {
    hide Consistent, AddVote, Grows;
    var rvs := hvs.rounds[vote.round];
    AddVoteConsistent(vals, rvs.prevotes, vote, sigOk, h);
    AddVoteConsistent(vals, rvs.precommits, vote, sigOk, h);
    assert SetGrows(rvs.prevotes, rvs.prevotes) && SetGrows(rvs.precommits, rvs.precommits);
    ReplaceRound(vals, hvs, vote.round, rvs.(prevotes := AddVote(vals, rvs.prevotes, vote, sigOk).0), h);
    ReplaceRound(vals, hvs, vote.round, rvs.(precommits := AddVote(vals, rvs.precommits, vote, sigOk).0), h);
  }

  /**
   A vote goes to the set of its round and type. A round that is not tracked is added for it if the peer has had less
   than two, and else the vote is dropped.
   */
  lemma HeightVoteOutcome(vals: ValidatorSet, hvs: HeightVoteSet, vote: Vote, peer: Peer, sigOk: bool)
    ensures var (hvs', added) := AddHeightVote(vals, hvs, vote, peer, sigOk);
            var used := if peer in hvs.catchup then hvs.catchup[peer] else [];
            var (r, known) := (vote.round, vote.round in hvs.rounds);
            && hvs'.height == hvs.height && hvs'.round == hvs.round
            && (!known && |used| >= 2 ==> hvs' == hvs && !added)
            && (known || |used| < 2 ==>
                  var vs := if known then GetVoteSet(hvs, r, vote.typ).value else NewVoteSet(hvs.height, r, vote.typ);
                  && added == AddVote(vals, vs, vote, sigOk).1
                  && GetVoteSet(hvs', r, vote.typ) == Some(AddVote(vals, vs, vote, sigOk).0)
                  && hvs'.rounds.Keys == hvs.rounds.Keys + {r}
                  && hvs'.catchup == if known then hvs.catchup else hvs.catchup[peer := used + [r]])
            && (forall x: Round, typ: VoteType | x in hvs.rounds && (x, typ) != (r, vote.typ) ::
                  GetVoteSet(hvs', x, typ) == GetVoteSet(hvs, x, typ))
  {
    hide AddVote;
  }

  lemma HeightPeerMaj23Consistent(vals: ValidatorSet, hvs: HeightVoteSet, r: Round, typ: VoteType, peer: Peer, id: BlockID,
                                  h: seq<Vote>)
    requires HeightConsistent(vals, hvs, h)
    ensures HeightConsistent(vals, SetHeightPeerMaj23(hvs, r, typ, peer, id), h)
    ensures Grows(hvs, SetHeightPeerMaj23(hvs, r, typ, peer, id))
  {
    hide Consistent, SetPeerMaj23;
    if r in hvs.rounds {
      var rvs := hvs.rounds[r];
      PeerMaj23Consistent(vals, rvs.prevotes, peer, id, h);
      PeerMaj23Consistent(vals, rvs.precommits, peer, id, h);
      ReplaceRound(vals, hvs, r, rvs.(prevotes := SetPeerMaj23(rvs.prevotes, peer, id)), h);
      ReplaceRound(vals, hvs, r, rvs.(precommits := SetPeerMaj23(rvs.precommits, peer, id)), h);
    }
  }

  /** A majority reported for a round is a quorum of votes of that round in the history. */
  lemma HeightMajorityIsQuorum(vals: ValidatorSet, hvs: HeightVoteSet, r: Round, typ: VoteType, h: seq<Vote>)
    requires HeightConsistent(vals, hvs, h) && Majority(hvs, r, typ).Some?
    ensures HistoryQuorum(vals, h, typ, hvs.height, r, Majority(hvs, r, typ).value.hash)
  {
    MajorityIsQuorum(vals, GetVoteSet(hvs, r, typ).value, h);
  }

  /** The round search finds a round no lower than any tracked round that has a majority. */
  lemma {:induction false} POLRoundIsLatest(hvs: HeightVoteSet, top: Round, r: Round)
    requires 1 <= r <= top && Majority(hvs, r, Prevote).Some?
    ensures r <= POLRound(hvs, top) <= top
    ensures Majority(hvs, POLRound(hvs, top), Prevote).Some?
    decreases top
  {
    if Majority(hvs, top, Prevote).None? { POLRoundIsLatest(hvs, top - 1, r); }
  }
}
