/**
 Building runs step by step, to show that a state can be reached.
 */
module Reach {
  import opened Tables
  import opened Protocol

  ghost predicate Reachable(cfg: Config, s: Sys) {
    exists run :: Valid(cfg, run) && run.states[|run.actions|] == s
  }

  lemma StartReachable(cfg: Config, s: Sys)
    requires Initial(cfg, s)
    ensures Reachable(cfg, s)
  {
    var run := Run([s], []);
    assert Valid(cfg, run);
  }

  lemma Extend(cfg: Config, run: Run, a: Action) returns (more: Run)
    requires Valid(cfg, run) && Can(cfg, run.states[|run.actions|], a)
    ensures Valid(cfg, more) && more.actions == run.actions + [a]
    ensures more.states == run.states + [Do(cfg, run.states[|run.actions|], a)]
  {
    hide Can, Do, Initial;
    more := Run(run.states + [Do(cfg, run.states[|run.actions|], a)], run.actions + [a]);
    forall i | 0 <= i < |more.actions| ensures Takes(cfg, more.states[i], more.actions[i], more.states[i + 1]) {
      assert i < |run.actions| ==> Takes(cfg, run.states[i], run.actions[i], run.states[i + 1]);
    }
  }

  lemma StepReachable(cfg: Config, s: Sys, a: Action)
    requires Reachable(cfg, s) && Can(cfg, s, a)
    ensures Reachable(cfg, Do(cfg, s, a))
  {
    hide Can, Do, Initial, Takes;
    var run :| Valid(cfg, run) && run.states[|run.actions|] == s;
    var more := Extend(cfg, run, a);
  }
}
