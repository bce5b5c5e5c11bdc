/** The timer of a node: it keeps one timeout and takes another only if it is for a later height, round or step. */
module TimeoutTicker {
  import opened Basics
  import opened RoundMachine
  import opened RoundInvariant

  const EMPTY := Timeout(0, 1, 1)

  predicate Later(a: Timeout, b: Timeout) {
    CompareHRS(a.height, a.round, a.step, b.height, b.round, b.step) > 0
  }

  class Ticker {
    var ti: Timeout
    var armed: bool
    ghost var ticks: seq<Timeout>

    /** The timer holds the latest of all timeouts asked for. */
    ghost predicate Valid()
      reads this
    {
      && (forall t | t in ticks :: !Later(t, ti))
      && !Later(EMPTY, ti)
      && (ti in ticks || (ti == EMPTY && !armed))
    }

    constructor ()
      ensures Valid() && ticks == [] && !armed && ti == EMPTY
    {
      ti, armed, ticks := EMPTY, false, [];
    }

    method Tick(t: Timeout)
      requires Valid()
      modifies this
      ensures Valid() && ticks == old(ticks) + [t]
      ensures ti == if Later(t, old(ti)) then t else old(ti)
      ensures armed == (Later(t, old(ti)) || old(armed))
    {
      ticks := ticks + [t];
      if t.height < ti.height { return; }
      if t.height == ti.height {
        if t.round < ti.round { return; }
        if t.round == ti.round {
          if ti.step > 0 && t.step <= ti.step { return; }
        }
      }
      ti, armed := t, true;
    }

    /** Only a timeout that was asked for fires, and only if none asked for since is later. */
    method Fire() returns (t: Timeout)
      requires Valid() && armed
      modifies this`armed
      ensures Valid() && !armed
      ensures t == ti && t in ticks && forall u | u in ticks :: !Later(u, t)
    {
      armed := false;
      t := ti;
    }
  }
}
