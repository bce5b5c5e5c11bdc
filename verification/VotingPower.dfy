/** Validator sets, the power of a group of validators, and quorum arithmetic. */
module VotingPower {
  import opened Basics

  // A validator is identified by its address.
  type Val = nat

  /** The validators of one height with their powers, and the cached total power. */
  datatype ValidatorSet = ValidatorSet(powers: map<Val, nat>, total: nat)

  /** Combined power of the members of s that are validators. */
  ghost function Power(powers: map<Val, nat>, s: set<Val>): nat {
    if s == {} then 0
    else
      var v :| v in s;
      (if v in powers then powers[v] else 0) + Power(powers, s - {v})
  }

  ghost predicate WellFormed(vals: ValidatorSet) {
    vals.total == Power(vals.powers, vals.powers.Keys)
  }

  /** Strictly more than two thirds of the total power. */
  ghost predicate TwoThirds(vals: ValidatorSet, s: set<Val>) {
    3 * Power(vals.powers, s) > 2 * vals.total
  }

  function PowerOf(powers: map<Val, nat>, v: Val): nat {
    if v in powers then powers[v] else 0
  }

  // Any member may be taken out first.
  lemma {:induction false} PowerRemove(powers: map<Val, nat>, s: set<Val>, v: Val)
    requires v in s
    ensures Power(powers, s) == PowerOf(powers, v) + Power(powers, s - {v})
    decreases s
  {
    var w :| w in s && Power(powers, s) == PowerOf(powers, w) + Power(powers, s - {w});
    if w != v {
      PowerRemove(powers, s - {w}, v);
      PowerRemove(powers, s - {v}, w);
      assert s - {w} - {v} == s - {v} - {w};
    }
  }

  lemma PowerAdd(powers: map<Val, nat>, s: set<Val>, v: Val)
    requires v !in s
    ensures Power(powers, s + {v}) == Power(powers, s) + PowerOf(powers, v)
  {
    PowerRemove(powers, s + {v}, v);
    assert s + {v} - {v} == s;
  }

  lemma {:induction false} PowerDisjoint(powers: map<Val, nat>, s: set<Val>, t: set<Val>)
    requires s !! t
    ensures Power(powers, s + t) == Power(powers, s) + Power(powers, t)
    decreases t
  {
    if t == {} {
      assert s + t == s;
    } else {
      var v :| v in t;
      PowerRemove(powers, t, v);
      PowerRemove(powers, s + t, v);
      assert s + t - {v} == s + (t - {v});
      PowerDisjoint(powers, s, t - {v});
    }
  }

  lemma PowerMono(powers: map<Val, nat>, s: set<Val>, t: set<Val>)
    requires s <= t
    ensures Power(powers, s) <= Power(powers, t)
  {
    PowerDisjoint(powers, s, t - s);
    assert s + (t - s) == t;
  }

  /** Two quorums share a member outside every group that holds less than a third of the power. */
  lemma QuorumIntersection(vals: ValidatorSet, a: set<Val>, b: set<Val>, byz: set<Val>)
    returns (v: Val)
    requires WellFormed(vals)
    requires a <= vals.powers.Keys && b <= vals.powers.Keys
    requires TwoThirds(vals, a) && TwoThirds(vals, b)
    requires 3 * Power(vals.powers, byz * vals.powers.Keys) < vals.total
    ensures v in a && v in b && v !in byz
  {
    var p := vals.powers;
    PowerDisjoint(p, a - b, a * b);
    assert (a - b) + a * b == a;
    PowerDisjoint(p, a - b, b);
    PowerMono(p, (a - b) + b, p.Keys);
    assert 3 * Power(p, a * b) > vals.total;
    if a * b <= byz {
      PowerMono(p, a * b, byz * p.Keys);
      assert false;
    }
    v :| v in a * b && v !in byz;
  }

  /** A quorum has a member outside every group that holds less than a third of the power. */
  lemma QuorumHasCorrect(vals: ValidatorSet, a: set<Val>, byz: set<Val>) returns (v: Val)
    requires WellFormed(vals)
    requires a <= vals.powers.Keys && TwoThirds(vals, a)
    requires 3 * Power(vals.powers, byz * vals.powers.Keys) < vals.total
    ensures v in a && v !in byz
  {
    v := QuorumIntersection(vals, a, a, byz);
  }
}
