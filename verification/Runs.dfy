/**
  Runs of a transition system. `next` says where a step leads from a state, if it is enabled there;
  every protocol brings its own.
 */
module Runs {
  import opened Wrappers

  ghost function Exec<S, T>(next: (S, T) -> Option<S>, s: S, steps: seq<T>): Option<S>
    decreases |steps|
  {
    if steps == [] then Some(s)
    else match next(s, steps[0])
      case None => None
      case Some(t) => Exec(next, t, steps[1..])
  }

  ghost predicate Leads<S(!new), T(!new)>(next: (S, T) -> Option<S>, s: S, t: S) {
    exists steps :: Exec(next, s, steps) == Some(t)
  }

  lemma {:induction false} ExecAppend<S(!new), T(!new)>(next: (S, T) -> Option<S>, s: S, steps: seq<T>,
                                                        last: T)
    requires Exec(next, s, steps).Some?
    ensures Exec(next, s, steps + [last]) == next(Exec(next, s, steps).value, last)
    decreases |steps|
  {
    if steps == [] {
      assert (steps + [last])[1..] == [];
    } else {
      assert (steps + [last])[1..] == steps[1..] + [last];
      ExecAppend(next, next(s, steps[0]).value, steps[1..], last);
    }
  }

  lemma LeadsNowhere<S(!new), T(!new)>(next: (S, T) -> Option<S>, s: S)
    ensures Leads(next, s, s)
  {
    assert Exec(next, s, []) == Some(s);
  }

  lemma LeadsOn<S(!new), T(!new)>(next: (S, T) -> Option<S>, s: S, t: S, step: T)
    requires Leads(next, s, t) && next(t, step).Some?
    ensures Leads(next, s, next(t, step).value)
  {
    var steps :| Exec(next, s, steps) == Some(t);
    ExecAppend(next, s, steps, step);
  }

  /** What every step keeps, every run keeps. */
  lemma {:induction false} ExecKeeps<S(!new), T(!new)>(next: (S, T) -> Option<S>, keeps: S -> bool, s: S,
                                                       steps: seq<T>)
    requires forall x, step :: keeps(x) && next(x, step).Some? ==> keeps(next(x, step).value)
    requires keeps(s) && Exec(next, s, steps).Some?
    ensures keeps(Exec(next, s, steps).value)
    decreases |steps|
  {
    if steps != [] {
      ExecKeeps(next, keeps, next(s, steps[0]).value, steps[1..]);
    }
  }
}
