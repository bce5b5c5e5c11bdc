/**
 Safety of the vote history. If every validator outside a group of less than a third of the power votes in order
 and only with justification, then a height never has commit quorums for two different blocks.
 */
module Agreement {
  import opened Basics
  import opened VotingPower
  import opened VoteSets
  import opened RoundMachine
  import opened RoundInvariant

  /** v signs in (height, round, type) order, and each vote is justified by what was signed strictly before it. */
  ghost predicate Disciplined(c: Config, h: seq<Vote>, v: Val) {
    && (forall i, j | 0 <= i < j < |h| && h[i].val == v && h[j].val == v :: Before(h[i], h[j]))
    && (forall i, j | 0 <= i < |h| && 0 <= j < |h| && h[i].val == v && h[j].val == v ::
          Justified(c, h[..i], h[j], h[i]))
  }

  /** At height k the validators outside byz are disciplined, and byz holds less than a third of the power. */
  ghost predicate MostlyCorrect(c: Config, h: seq<Vote>, byz: set<Val>, k: nat) {
    var vals := c.vals(k);
    && WellFormed(vals)
    && 3 * Power(vals.powers, byz * vals.powers.Keys) < vals.total
    && (forall v | v in vals.powers && v !in byz :: Disciplined(c, h, v))
  }

  lemma VoterHasVote(vals: ValidatorSet, h: seq<Vote>, typ: VoteType, k: nat, r: nat, x: Hash, v: Val) returns (i: nat)
    requires v in Voters(vals, h, typ, k, r, x)
    ensures i < |h| && h[i].val == v && h[i].typ == typ && h[i].height == k && h[i].round == r && h[i].blockID.hash == x
  {
    i :| 0 <= i < |h| && h[i].val == v && h[i].typ == typ && h[i].height == k && h[i].round == r
         && h[i].blockID.hash == x && h[i].val in vals.powers;
  }

  /**
   Lock lemma: once more than two thirds of the power precommit x in round r, wherever those precommits
   stand in the history, no prefix of the history has a polka for anything else in a later round.
   */
  lemma {:induction false} NoOtherPolka(c: Config, h: seq<Vote>, byz: set<Val>, k: nat, r: nat, x: Hash, m: nat)
    requires MostlyCorrect(c, h, byz, k) && x != 0 && m <= |h|
    requires HistoryQuorum(c.vals(k), h, Precommit, k, r, x)
    ensures !OtherPolka(c, h[..m], k, r, x)
    decreases m
  {
    if OtherPolka(c, h[..m], k, r, x) {
      var r', y :| r < r' && y != x && Polka(c, h[..m], k, r', y);
      var vals := c.vals(k);
      var v := QuorumIntersection(vals, Voters(vals, h, Precommit, k, r, x), Voters(vals, h[..m], Prevote, k, r', y), byz);
      var j := VoterHasVote(vals, h, Precommit, k, r, x, v);
      var i := VoterHasVote(vals, h[..m], Prevote, k, r', y, v);
      assert Justified(c, h[..i], h[j], h[i]) && LeavesLock(h[j], h[i]);
      NoOtherPolka(c, h, byz, k, r, x, i);
    }
  }

  /** A round holds at most one commit quorum. */
  lemma OneCommitPerRound(c: Config, h: seq<Vote>, byz: set<Val>, k: nat, r: nat, x: Hash, y: Hash)
    requires MostlyCorrect(c, h, byz, k)
    requires HistoryQuorum(c.vals(k), h, Precommit, k, r, x) && HistoryQuorum(c.vals(k), h, Precommit, k, r, y)
    ensures x == y
  {
    var vals := c.vals(k);
    var v := QuorumIntersection(vals, Voters(vals, h, Precommit, k, r, x), Voters(vals, h, Precommit, k, r, y), byz);
    var i := VoterHasVote(vals, h, Precommit, k, r, x, v);
    var j := VoterHasVote(vals, h, Precommit, k, r, y, v);
    hide Justified;
    assert i == j;
  }

  /** Some correct validator precommitted, and so saw a polka in that round. */
  lemma CommitHasPolka(c: Config, h: seq<Vote>, byz: set<Val>, k: nat, r: nat, x: Hash)
    requires MostlyCorrect(c, h, byz, k) && x != 0
    requires HistoryQuorum(c.vals(k), h, Precommit, k, r, x)
    ensures Polka(c, h, k, r, x)
  {
    var vals := c.vals(k);
    var v := QuorumHasCorrect(vals, Voters(vals, h, Precommit, k, r, x), byz);
    var i := VoterHasVote(vals, h, Precommit, k, r, x, v);
    assert Justified(c, h[..i], h[i], h[i]);
    PolkaMono(c, h[..i], h, k, r, x);
  }

  lemma EarlierCommitWins(c: Config, h: seq<Vote>, byz: set<Val>, k: nat, r: nat, x: Hash, r': nat, y: Hash)
    requires MostlyCorrect(c, h, byz, k) && x != 0 && y != 0 && r <= r'
    requires HistoryQuorum(c.vals(k), h, Precommit, k, r, x) && HistoryQuorum(c.vals(k), h, Precommit, k, r', y)
    ensures x == y
  {
    hide MostlyCorrect, HistoryQuorum;
    if r == r' {
      OneCommitPerRound(c, h, byz, k, r, x, y);
    } else {
      CommitHasPolka(c, h, byz, k, r', y);
      NoOtherPolka(c, h, byz, k, r, x, |h|);
      assert h[..|h|] == h;
    }
  }

  /** Agreement: all commit quorums of a height, whatever their rounds, are for the same block hash. */
  lemma OneCommitPerHeight(c: Config, h: seq<Vote>, byz: set<Val>, k: nat, x: Hash, y: Hash)
    requires MostlyCorrect(c, h, byz, k)
    requires CommitQuorum(c, h, k, x) && CommitQuorum(c, h, k, y)
    ensures x == y
  {
    var r: nat :| HistoryQuorum(c.vals(k), h, Precommit, k, r, x);
    var r': nat :| HistoryQuorum(c.vals(k), h, Precommit, k, r', y);
    hide MostlyCorrect, HistoryQuorum;
    if r <= r' { EarlierCommitWins(c, h, byz, k, r, x, r', y); } else { EarlierCommitWins(c, h, byz, k, r', y, r, x); }
  }

  /** A block gets a polka only if a correct validator found it valid. */
  lemma {:induction false} PolkaIsValid(c: Config, h: seq<Vote>, byz: set<Val>, k: nat, r: nat, x: Hash, m: nat)
    requires MostlyCorrect(c, h, byz, k) && x != 0 && m <= |h|
    requires Polka(c, h[..m], k, r, x)
    ensures ValidHash(c, k, x)
    decreases m
  {
    var vals := c.vals(k);
    var v := QuorumHasCorrect(vals, Voters(vals, h[..m], Prevote, k, r, x), byz);
    var i := VoterHasVote(vals, h[..m], Prevote, k, r, x, v);
    assert Justified(c, h[..i], h[i], h[i]);
    if !ValidHash(c, k, x) {
      var r' :| Polka(c, h[..i], k, r', x);
      PolkaIsValid(c, h, byz, k, r', x, i);
    }
  }

  /** Validity: a block with a commit quorum was found valid. */
  lemma CommitIsValid(c: Config, h: seq<Vote>, byz: set<Val>, k: nat, x: Hash)
    requires MostlyCorrect(c, h, byz, k) && CommitQuorum(c, h, k, x)
    ensures ValidHash(c, k, x)
  {
    var r: nat :| HistoryQuorum(c.vals(k), h, Precommit, k, r, x);
    hide MostlyCorrect, HistoryQuorum;
    CommitHasPolka(c, h, byz, k, r, x);
    assert h[..|h|] == h;
    PolkaIsValid(c, h, byz, k, r, x, |h|);
  }
}

/**
 All runs of a network: correct nodes react to votes, proposals, block parts and their own timeouts in any
 order, with any delay, loss or repetition; every other validator signs any votes at any time.
 */
module Network {
  import opened Basics
  import opened VotingPower
  import opened VoteSets
  import opened RoundMachine
  import opened RoundInvariant
  import opened Agreement

  datatype System = System(nodes: map<Val, Node>, history: seq<Vote>)

  datatype Action =
    | ByzantineVote(vote: Vote)
    | NodeInput(v: Val, e: Event)

  ghost predicate Init(s: System) {
    && s.history == []
    && forall v | v in s.nodes :: exists height: nat, lc: Option<VoteSet> :: s.nodes[v] == NewNode(v, height, lc)
  }

  /** The votes a correct node signs while handling an input enter the history in the order signed. */
  ghost predicate Next(c: Config, s: System, a: Action, s': System) {
    match a
    case ByzantineVote(vote) =>
      vote.val !in s.nodes && s' == s.(history := s.history + [vote])
    case NodeInput(v, e) =>
      && v in s.nodes && Possible(s.history, s.nodes[v], e)
      && var n' := Handle(c, s.nodes[v], e);
         s' == System(s.nodes[v := n'], s.history + NewVotes(s.nodes[v], n'))
  }

  ghost function NewVotes(n: Node, n': Node): seq<Vote> {
    if |n.signed| <= |n'.signed| then n'.signed[|n.signed|..] else []
  }

  ghost predicate IsRun(c: Config, run: seq<System>) {
    && |run| > 0 && Init(run[0])
    && forall i | 0 < i < |run| :: Steps(c, run[i - 1], run[i])
  }

  ghost predicate Steps(c: Config, s: System, s': System) {
    exists a :: Next(c, s, a, s')
  }

  /** Every validator is a correct node or in byz, and byz holds less than a third of the power of every height. */
  ghost predicate Assumptions(c: Config, s: System, byz: set<Val>) {
    && byz !! s.nodes.Keys
    && forall k: nat ::
         var vals := c.vals(k);
         && WellFormed(vals)
         && vals.powers.Keys <= s.nodes.Keys + byz
         && 3 * Power(vals.powers, byz * vals.powers.Keys) < vals.total
  }

  ghost predicate NodeOK(c: Config, h: seq<Vote>, v: Val, n: Node) {
    && n.self == v && Inv(c, h, n) && Disciplined(c, h, v)
    && (forall w | w in h && w.val == v :: w in n.signed)
  }

  ghost predicate SystemInv(c: Config, s: System) {
    forall v | v in s.nodes :: NodeOK(c, s.history, v, s.nodes[v])
  }

  lemma JustifiedVoteMono(c: Config, h: seq<Vote>, h': seq<Vote>, p: Vote, w: Vote)
    requires h <= h' && Justified(c, h, p, w)
    ensures Justified(c, h', p, w)
  {
    PolkaMono(c, h, h', w.height, w.round, w.blockID.hash);
    PolkaMono(c, h, h', p.height, p.round, p.blockID.hash);
    hide Polka, OtherPolka, HasPolka, ValidHash, CommitQuorum;
  }

  /** Votes of others do not matter to a validator's discipline. */
  lemma DisciplinedFrame(c: Config, h: seq<Vote>, more: seq<Vote>, u: Val)
    requires Disciplined(c, h, u) && forall w | w in more :: w.val != u
    ensures Disciplined(c, h + more, u)
  {
    hide Justified;
    var h' := h + more;
    assert forall i | |h| <= i < |h'| :: h'[i] in more;
    assert forall i | 0 <= i < |h| :: h'[..i] == h[..i];
  }

  /** Appending the votes a correct node just signed keeps it disciplined. */
  lemma DisciplinedAppend(c: Config, h: seq<Vote>, v: Val, s: seq<Vote>, s': seq<Vote>)
    requires Disciplined(c, h, v)
    requires s <= s' && Ordered(s') && JustifiedLog(c, h, s')
    requires forall w | w in h && w.val == v :: w in s
    ensures Disciplined(c, h + s'[|s|..], v)
  {
    var h' := h + s'[|s|..];
    assert forall w | w in s :: w in s';
    forall i | |h| <= i < |h'| ensures h'[i] == s'[i - |h| + |s|] && h'[i] in s' {}
    forall i | 0 <= i < |h| ensures h'[i] == h[i] && h'[..i] == h[..i] {}
    forall i, j | 0 <= i < j < |h'| && h'[i].val == v && h'[j].val == v ensures Before(h'[i], h'[j]) {
      OrderedPair(h, v, s, s', i, j);
    }
    forall i, j | 0 <= i < |h'| && 0 <= j < |h'| && h'[i].val == v && h'[j].val == v
      ensures Justified(c, h'[..i], h'[j], h'[i])
    {
      if i >= |h| {
        assert h'[j] in s' by { if j < |h| { assert h'[j] in h; } }
        assert Justified(c, h, h'[j], h'[i]);
        assert h == h'[..|h|] <= h'[..i];
        JustifiedVoteMono(c, h, h'[..i], h'[j], h'[i]);
      } else if j >= |h| {
        assert Justified(c, h[..i], h[i], h[i]);
        assert Before(h'[i], h'[j]);
        hide OtherPolka, HasPolka, Polka, ValidHash;
      }
    }
  }

  lemma OrderedPair(h: seq<Vote>, v: Val, s: seq<Vote>, s': seq<Vote>, i: nat, j: nat)
    requires s <= s' && Ordered(s')
    requires forall a, b | 0 <= a < b < |h| && h[a].val == v && h[b].val == v :: Before(h[a], h[b])
    requires forall w | w in h && w.val == v :: w in s
    requires
      var h' := h + s'[|s|..];
      i < j < |h'| && h'[i].val == v && h'[j].val == v
    ensures Before((h + s'[|s|..])[i], (h + s'[|s|..])[j])
  {}

  lemma StepNode(c: Config, h: seq<Vote>, v: Val, n: Node, e: Event)
    requires NodeOK(c, h, v, n) && Possible(h, n, e)
    ensures
      var n' := Handle(c, n, e);
      NodeOK(c, h + NewVotes(n, n'), v, n') && (forall w | w in NewVotes(n, n') :: w.val == v) && Extends(n, n')
  {
    var n' := Handle(c, n, e);
    var h' := h + NewVotes(n, n');
    HandleInv(c, h, n, e);
    assert LogInv(c, h, n') by { InvParts(c, h, n'); }
    DisciplinedAppend(c, h, v, n.signed, n'.signed);
    InvMono(c, h, h', n');
    hide Handle, Inv, Disciplined, JustifiedLog, Ordered, Grows;
    forall w | w in h' && w.val == v ensures w in n'.signed {
      if w in h { assert w in n.signed; }
    }
  }

  /** Every step of the network keeps the invariant of every correct node. */
  lemma NextInv(c: Config, s: System, a: Action, s': System)
    requires SystemInv(c, s) && Next(c, s, a, s')
    ensures SystemInv(c, s')
    ensures s.history <= s'.history && s'.nodes.Keys == s.nodes.Keys
    ensures forall v | v in s.nodes :: Extends(s.nodes[v], s'.nodes[v])
  {
    hide Inv, Disciplined, Handle, Extends;
    var more := s'.history[|s.history|..];
    if a.NodeInput? { StepNode(c, s.history, a.v, s.nodes[a.v], a.e); }
    assert s'.history == s.history + more;
    forall v | v in s.nodes ensures NodeOK(c, s'.history, v, s'.nodes[v]) && Extends(s.nodes[v], s'.nodes[v]) {
      if !(a.NodeInput? && a.v == v) {
        assert forall w | w in more :: w.val != v;
        SameExtends(s.nodes[v]);
        InvMono(c, s.history, s'.history, s.nodes[v]);
        DisciplinedFrame(c, s.history, more, v);
      }
    }
  }

  lemma InitInv(c: Config, s: System)
    requires Init(s)
    ensures SystemInv(c, s)
  {
    hide Inv;
    forall v | v in s.nodes ensures NodeOK(c, s.history, v, s.nodes[v]) {
      var height: nat, lc: Option<VoteSet> :| s.nodes[v] == NewNode(v, height, lc);
      NewNodeInv(c, s.history, v, height, lc);
    }
  }

  /** The invariant holds in every state of every run, and histories only grow. */
  lemma {:induction false} RunInv(c: Config, run: seq<System>, i: nat)
    requires IsRun(c, run) && i < |run|
    ensures SystemInv(c, run[i]) && run[i].nodes.Keys == run[0].nodes.Keys
    ensures forall j | 0 <= j <= i :: run[j].history <= run[i].history
  {
    hide SystemInv, Next, Init, Extends;
    if i == 0 { InitInv(c, run[0]); }
    else {
      RunInv(c, run, i - 1);
      assert Steps(c, run[i - 1], run[i]);
      var a :| Next(c, run[i - 1], a, run[i]);
      NextInv(c, run[i - 1], a, run[i]);
    }
  }

  lemma RunMostlyCorrect(c: Config, run: seq<System>, byz: set<Val>, i: nat, k: nat)
    requires IsRun(c, run) && Assumptions(c, run[0], byz) && i < |run|
    ensures MostlyCorrect(c, run[i].history, byz, k)
  {
    RunInv(c, run, i);
    hide Disciplined, Inv, IsRun;
    var vals := c.vals(k);
    assert WellFormed(vals) && vals.powers.Keys <= run[0].nodes.Keys + byz
           && 3 * Power(vals.powers, byz * vals.powers.Keys) < vals.total;
    forall v | v in vals.powers && v !in byz ensures Disciplined(c, run[i].history, v) {
      assert NodeOK(c, run[i].history, v, run[i].nodes[v]);
    }
  }

  /** A block finalized at some point of a run has a commit quorum in every later history. */
  lemma DecidedHasQuorum(c: Config, run: seq<System>, i: nat, m: nat, v: Val, k: nat)
    requires IsRun(c, run) && i <= m < |run| && v in run[i].nodes && k in run[i].nodes[v].decided
    ensures CommitQuorum(c, run[m].history, k, run[i].nodes[v].decided[k].hash)
  {
    RunInv(c, run, i);
    RunInv(c, run, m);
    assert NodeOK(c, run[i].history, v, run[i].nodes[v]);
    InvParts(c, run[i].history, run[i].nodes[v]);
    hide Inv, Disciplined, IsRun, CommitQuorum;
    PolkaMono(c, run[i].history, run[m].history, k, 0, run[i].nodes[v].decided[k].hash);
  }

  /** Agreement: no two correct nodes ever finalize blocks with different hashes at a height, at any times and in any rounds. */
  lemma AgreementOverRuns(c: Config, run: seq<System>, byz: set<Val>, i: nat, u: Val, j: nat, v: Val, k: nat)
    requires IsRun(c, run) && Assumptions(c, run[0], byz) && i < |run| && j < |run|
    requires u in run[i].nodes && k in run[i].nodes[u].decided
    requires v in run[j].nodes && k in run[j].nodes[v].decided
    ensures run[i].nodes[u].decided[k].hash == run[j].nodes[v].decided[k].hash
  {
    hide IsRun, Assumptions, CommitQuorum, MostlyCorrect;
    var m := |run| - 1;
    DecidedHasQuorum(c, run, i, m, u, k);
    DecidedHasQuorum(c, run, j, m, v, k);
    RunMostlyCorrect(c, run, byz, m, k);
    OneCommitPerHeight(c, run[m].history, byz, k,
                       run[i].nodes[u].decided[k].hash, run[j].nodes[v].decided[k].hash);
  }

  /** Lock lemma over runs: no state of a run has both a precommit quorum for a block and a later polka for anything else. */
  lemma NoPolkaAgainstCommit(c: Config, run: seq<System>, byz: set<Val>, i: nat, k: nat, r: nat, x: Hash)
    requires IsRun(c, run) && Assumptions(c, run[0], byz) && i < |run| && x != 0
    requires HistoryQuorum(c.vals(k), run[i].history, Precommit, k, r, x)
    ensures !OtherPolka(c, run[i].history, k, r, x)
  {
    hide IsRun, Assumptions, HistoryQuorum, MostlyCorrect;
    RunMostlyCorrect(c, run, byz, i, k);
    var h := run[i].history;
    NoOtherPolka(c, h, byz, k, r, x, |h|);
    assert h[..|h|] == h;
  }

  /** No equivocation: a correct node signs at most one vote of each type per height and round. */
  lemma NoEquivocation(c: Config, run: seq<System>, i: nat, v: Val, a: nat, b: nat)
    requires IsRun(c, run) && i < |run| && v in run[i].nodes
    requires a < |run[i].history| && b < |run[i].history|
    requires
      var x, y := run[i].history[a], run[i].history[b];
      x.val == v && y.val == v && x.height == y.height && x.round == y.round && x.typ == y.typ
    ensures a == b
  {
    RunInv(c, run, i);
    assert Disciplined(c, run[i].history, v) by {
      hide Disciplined, Inv;
      assert NodeOK(c, run[i].history, v, run[i].nodes[v]);
    }
    hide SystemInv, Justified, IsRun;
  }

  lemma RunStep(c: Config, run: seq<System>, j: nat, v: Val)
    requires IsRun(c, run) && 0 < j < |run| && v in run[0].nodes
    ensures v in run[j - 1].nodes && v in run[j].nodes && Extends(run[j - 1].nodes[v], run[j].nodes[v])
  {
    RunInv(c, run, j - 1);
    RunInv(c, run, j);
    hide SystemInv, Next, Init, Extends;
    assert Steps(c, run[j - 1], run[j]);
    var a :| Next(c, run[j - 1], a, run[j]);
    NextInv(c, run[j - 1], a, run[j]);
  }

  /** (height, round, step) of a correct node never goes back, and its decisions are never changed. */
  lemma {:induction false} NodesGoForward(c: Config, run: seq<System>, i: nat, j: nat, v: Val)
    requires IsRun(c, run) && i <= j < |run| && v in run[0].nodes
    ensures v in run[i].nodes && v in run[j].nodes && Extends(run[i].nodes[v], run[j].nodes[v])
    decreases j
  {
    hide IsRun, SystemInv, Extends;
    if i == j {
      RunInv(c, run, i);
      SameExtends(run[i].nodes[v]);
    } else {
      NodesGoForward(c, run, i, j - 1, v);
      RunStep(c, run, j, v);
      ExtendsTrans(run[i].nodes[v], run[j - 1].nodes[v], run[j].nodes[v]);
    }
  }

  /** No correct validator votes in round zero, so no quorum does. */
  lemma NoZeroCommit(c: Config, run: seq<System>, byz: set<Val>, i: nat, k: nat, x: Hash)
    requires IsRun(c, run) && Assumptions(c, run[0], byz) && i < |run|
    ensures !ZeroCommit(c, run[i].history, k, x)
  {
    hide Inv, Disciplined, IsRun, SystemInv, Assumptions;
    var h, vals := run[i].history, c.vals(k);
    RunMostlyCorrect(c, run, byz, i, k);
    RunInv(c, run, i);
    if ZeroCommit(c, h, k, x) {
      var v := QuorumHasCorrect(vals, Voters(vals, h, Precommit, k, 0, x), byz);
      var j := VoterHasVote(vals, h, Precommit, k, 0, x, v);
      assert v in run[i].nodes by { KnownValidators(c, run[0], byz, k); }
      SignedRounds(c, run[i], h[j]);
    }
  }

  lemma KnownValidators(c: Config, s: System, byz: set<Val>, k: nat)
    requires Assumptions(c, s, byz)
    ensures c.vals(k).powers.Keys <= s.nodes.Keys + byz
  {}

  lemma SignedRounds(c: Config, s: System, w: Vote)
    requires SystemInv(c, s) && w in s.history && w.val in s.nodes
    ensures w.round >= 1
  {
    hide Inv, Disciplined;
    assert NodeOK(c, s.history, w.val, s.nodes[w.val]);
    InvParts(c, s.history, s.nodes[w.val]);
  }

  /**
   In every run the last commit of a correct node that has decided the height before holds signed precommits of that
   height, and more than two thirds of the power among them are for the decided block.
   */
  lemma LastCommitProves(c: Config, run: seq<System>, byz: set<Val>, i: nat, v: Val, k: nat)
    requires IsRun(c, run) && Assumptions(c, run[0], byz) && i < |run| && v in run[i].nodes
    requires k in run[i].nodes[v].decided && run[i].nodes[v].height == k + 1
    ensures var n := run[i].nodes[v]; n.lastCommit.Some? && Proves(c, run[i].history, n.lastCommit.value, k, n.decided[k].hash)
  {
    hide Inv, Disciplined, IsRun, Assumptions, Proves, ZeroCommit;
    var n, h := run[i].nodes[v], run[i].history;
    RunInv(c, run, i);
    assert NodeOK(c, h, v, n);
    InvParts(c, h, n);
    NoZeroCommit(c, run, byz, i, k, n.decided[k].hash);
  }

  /** Validation depends only on the block hash, as it does when hashes do not collide. */
  ghost predicate ValidatesByHash(c: Config) {
    forall k, b: Block, b': Block :: b.hash == b'.hash && c.validate(k, b) ==> c.validate(k, b')
  }

  /** Among the sanity checks of the code, only these can ever stop a correct node. */
  ghost predicate Survivable(n: Node) {
    || n.panicked in {None, Some(SetRoundFailed), Some(NoLastCommit), Some(ApplyFailed)}
    || (n.panicked == Some(FinalizeWrongParts) && OtherParts(n))
    || (n.panicked == Some(PolRoundTooLow) && n.round == MAX_ROUND)
  }

  /**
   Validity: every finalized block passed validation, and the other sanity panics, an invalid commit among them, are
   unreachable.
   */
  lemma SanityChecksHold(c: Config, run: seq<System>, byz: set<Val>, i: nat, v: Val)
    requires IsRun(c, run) && Assumptions(c, run[0], byz) && ValidatesByHash(c) && i < |run| && v in run[i].nodes
    ensures Survivable(run[i].nodes[v])
    ensures forall k | k in run[i].nodes[v].decided :: c.validate(k, run[i].nodes[v].decided[k])
  {
    hide IsRun, Assumptions, ValidatesByHash, Inv, MostlyCorrect, CommitQuorum, Disciplined, OtherParts;
    var n, h := run[i].nodes[v], run[i].history;
    RunInv(c, run, i);
    assert NodeOK(c, h, v, n);
    hide SystemInv, NodeOK;
    InvParts(c, h, n);
    hide VotesInv, LockInv, LogInv, CommitInv;
    RunMostlyCorrect(c, run, byz, i, n.height);
    if n.panicked == Some(CommittedInvalidBlock) { InvalidCommitImpossible(c, h, byz, n); }
  }

  lemma InvalidCommitImpossible(c: Config, h: seq<Vote>, byz: set<Val>, n: Node)
    requires MostlyCorrect(c, h, byz, n.height) && ValidatesByHash(c) && PanicInv(c, h, n)
    ensures n.panicked != Some(CommittedInvalidBlock)
  {
    hide MostlyCorrect, CommitQuorum;
    forall b: Block | CommitQuorum(c, h, n.height, b.hash) ensures c.validate(n.height, b) {
      CommitIsValid(c, h, byz, n.height, b.hash);
    }
  }
}
