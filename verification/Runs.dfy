/** Runs of the host system, seen state by state. */
module Runs {
  import opened Protocol

  lemma {:induction false} PrefixValid(cfg: Config, world: World, steps: seq<Step>, k: nat)
    requires ValidRun(cfg, world, steps) && k <= |steps|
    ensures ValidRun(cfg, world, steps[..k])
    decreases k
  {
    hide Enabled, Next;
    if k > 0 {
      assert steps[..k][1..] == steps[1..][..k - 1];
      PrefixValid(cfg, Next(cfg, world, steps[0]), steps[1..], k - 1);
    }
  }

  /** The state before step `k` of a run; `k` may also be its end. */
  function At(cfg: Config, world: World, steps: seq<Step>, k: nat): World
    requires ValidRun(cfg, world, steps) && k <= |steps|
  {
    PrefixValid(cfg, world, steps, k);
    After(cfg, world, steps[..k])
  }

  /** One step after a run, or two runs in a row, are a run. */
  lemma {:induction false} Joined(cfg: Config, world: World, a: seq<Step>, b: seq<Step>)
    requires ValidRun(cfg, world, a) && ValidRun(cfg, After(cfg, world, a), b)
    ensures ValidRun(cfg, world, a + b) && After(cfg, world, a + b) == After(cfg, After(cfg, world, a), b)
    decreases a
  {
    hide Enabled, Next;
    if a == [] {
      assert a + b == b;
    } else {
      assert (a + b)[1..] == a[1..] + b;
      Joined(cfg, Next(cfg, world, a[0]), a[1..], b);
    }
  }

  lemma {:induction false} Cut(cfg: Config, world: World, a: seq<Step>, b: seq<Step>)
    requires ValidRun(cfg, world, a + b)
    ensures ValidRun(cfg, world, a) && ValidRun(cfg, After(cfg, world, a), b)
    ensures After(cfg, world, a + b) == After(cfg, After(cfg, world, a), b)
    decreases a
  {
    hide Enabled, Next;
    if a == [] {
      assert a + b == b;
    } else {
      assert (a + b)[1..] == a[1..] + b;
      Cut(cfg, Next(cfg, world, a[0]), a[1..], b);
    }
  }

  lemma OneStep(cfg: Config, world: World, step: Step)
    requires ValidRun(cfg, world, [step])
    ensures Enabled(cfg, world, step) && After(cfg, world, [step]) == Next(cfg, world, step)
  {
    hide Enabled, Next;
    assert [step][1..] == [];
  }

  /** The last step of a run, and the run before it. */
  lemma Last(cfg: Config, world: World, steps: seq<Step>)
    requires ValidRun(cfg, world, steps) && steps != []
    ensures var n := |steps| - 1;
            && ValidRun(cfg, world, steps[..n]) && Enabled(cfg, After(cfg, world, steps[..n]), steps[n])
            && After(cfg, world, steps) == Next(cfg, After(cfg, world, steps[..n]), steps[n])
  {
    hide Enabled, Next, ValidRun, After;
    var n := |steps| - 1;
    assert steps == steps[..n] + [steps[n]];
    Cut(cfg, world, steps[..n], [steps[n]]);
    OneStep(cfg, After(cfg, world, steps[..n]), steps[n]);
  }

  /** Looking back from the end is the same as looking back from earlier. */
  lemma AtEarlier(cfg: Config, world: World, steps: seq<Step>, n: nat, k: nat)
    requires ValidRun(cfg, world, steps) && k <= n <= |steps|
    ensures ValidRun(cfg, world, steps[..n]) && At(cfg, world, steps[..n], k) == At(cfg, world, steps, k)
  {
    hide Enabled, Next, ValidRun, After;
    PrefixValid(cfg, world, steps, n);
    assert steps[..n][..k] == steps[..k];
  }

  lemma AtEnd(cfg: Config, world: World, steps: seq<Step>)
    requires ValidRun(cfg, world, steps)
    ensures At(cfg, world, steps, |steps|) == After(cfg, world, steps)
  {
    assert steps[..|steps|] == steps;
  }

  /** One step of a run, from the state before it to the state after it. */
  lemma StepAt(cfg: Config, world: World, steps: seq<Step>, k: nat)
    requires ValidRun(cfg, world, steps) && k < |steps|
    ensures Enabled(cfg, At(cfg, world, steps, k), steps[k])
    ensures At(cfg, world, steps, k + 1) == Next(cfg, At(cfg, world, steps, k), steps[k])
  {
    hide Enabled, Next, ValidRun, After;
    PrefixValid(cfg, world, steps, k + 1);
    assert steps[..k + 1][..k] == steps[..k];
    Last(cfg, world, steps[..k + 1]);
  }

  lemma {:induction false} AllowedCut(cfg: Config, mode: Mode, world: World, a: seq<Step>, b: seq<Step>)
    requires ValidRun(cfg, world, a + b) && ValidRun(cfg, world, a) && ValidRun(cfg, After(cfg, world, a), b)
    ensures AllowedRun(cfg, mode, world, a + b) <==> AllowedRun(cfg, mode, world, a) && AllowedRun(cfg, mode, After(cfg, world, a), b)
    decreases a
  {
    hide Enabled, Next, Allowed;
    if a == [] {
      assert a + b == b;
    } else {
      assert (a + b)[1..] == a[1..] + b;
      AllowedCut(cfg, mode, Next(cfg, world, a[0]), a[1..], b);
    }
  }

  lemma Prepended(cfg: Config, mode: Mode, world: World, step: Step, rest: seq<Step>)
    requires Enabled(cfg, world, step) && Allowed(mode, world, step)
    requires ValidRun(cfg, Next(cfg, world, step), rest) && AllowedRun(cfg, mode, Next(cfg, world, step), rest)
    ensures ValidRun(cfg, world, [step] + rest) && AllowedRun(cfg, mode, world, [step] + rest)
    ensures After(cfg, world, [step] + rest) == After(cfg, Next(cfg, world, step), rest)
  {
    hide Enabled, Next, Allowed;
    assert ([step] + rest)[1..] == rest;
  }

  lemma JoinedAllowed(cfg: Config, mode: Mode, world: World, a: seq<Step>, b: seq<Step>)
    requires ValidRun(cfg, world, a) && AllowedRun(cfg, mode, world, a)
    requires ValidRun(cfg, After(cfg, world, a), b) && AllowedRun(cfg, mode, After(cfg, world, a), b)
    ensures ValidRun(cfg, world, a + b) && AllowedRun(cfg, mode, world, a + b)
    ensures After(cfg, world, a + b) == After(cfg, After(cfg, world, a), b)
  {
    hide ValidRun, After, AllowedRun;
    Joined(cfg, world, a, b);
    AllowedCut(cfg, mode, world, a, b);
  }
}
