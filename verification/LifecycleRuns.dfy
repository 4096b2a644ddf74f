/** Putting runs of the token lifecycle together step by step. */
module LifecycleRuns {
  import opened Lifecycle

  lemma ReachStep(s: State, st: Step)
    requires Reachable(s) && Enabled(s, st)
    ensures Reachable(Do(s, st))
  {
    var s0, steps :| Init(s0) && Run(s0, steps, s);
    Append(s0, steps, s, st);
    assert Init(s0) && Run(s0, steps + [st], Do(s, st));
  }

  lemma {:induction false} Append(s0: State, steps: seq<Step>, s: State, st: Step)
    requires Run(s0, steps, s) && Enabled(s, st)
    ensures Run(s0, steps + [st], Do(s, st))
    decreases |steps|
  {
    if steps == [] {
      assert (steps + [st])[1..] == [];
    } else {
      assert (steps + [st])[0] == steps[0] && (steps + [st])[1..] == steps[1..] + [st];
      Append(Do(s0, steps[0]), steps[1..], s, st);
    }
  }

  lemma {:induction false} ReachRun(s: State, steps: seq<Step>, t: State)
    requires Reachable(s) && Run(s, steps, t)
    ensures Reachable(t)
    decreases |steps|
  {
    if steps != [] {
      ReachStep(s, steps[0]);
      ReachRun(Do(s, steps[0]), steps[1..], t);
    }
  }

  lemma {:induction false} Concat(s: State, steps: seq<Step>, u: State, more: seq<Step>, t: State)
    requires Run(s, steps, u) && Run(u, more, t)
    ensures Run(s, steps + more, t)
    decreases |steps|
  {
    if steps == [] {
      assert steps + more == more;
    } else {
      assert (steps + more)[0] == steps[0] && (steps + more)[1..] == steps[1..] + more;
      Concat(Do(s, steps[0]), steps[1..], u, more, t);
    }
  }

  lemma ReachRotation(s: State, st: RotationStep)
    requires Reachable(s) && RotationEnabled(s, st)
    ensures Reachable(RotationDo(s, st))
  {
    ReachStep(s, OfRotation(st));
  }

  lemma ReachCascade(s: State, st: CascadeStep)
    requires Reachable(s) && CascadeEnabled(s, st)
    ensures Reachable(CascadeDo(s, st))
  {
    ReachStep(s, OfCascade(st));
  }
}
