/**
 The loop of `Pool._allocate_more_resources` goes on exactly as long as it may: until a quota is
 reached, or the plan is used up, or the last start is too recent.
 */
module Allocation {
  import opened Tables
  import opened Logic
  import opened Protocol
  import opened Edges
  import opened Starts
  import OnDemand

  /** What the statistics leave room for: neither `max` nor `max_starting` is reached. */
  predicate QuotasLeft(db: Db, c: PoolConfig, p: PoolName) {
    && |set r | r in db.resources && db.resources[r].pool == p && db.resources[r].state != ENDED| < c.max
    && |Launching(db, p)| < c.maxStarting
  }

  function Launching(db: Db, p: PoolName): set<ResourceId> {
    set r | r in db.resources && db.resources[r].pool == p && db.resources[r].state == STARTING
  }

  /** Not enough resources are starting, or up and never used. */
  predicate TooFewAhead(db: Db, c: PoolConfig, p: PoolName) {
    |set r | r in db.resources && db.resources[r].pool == p && db.resources[r].state == UP
             && db.resources[r].ticket.None? && db.resources[r].releases == 0| + |Launching(db, p)| < c.maxPrealloc
  }

  lemma MayStartIs(db: Db, c: PoolConfig, p: PoolName, budget: int)
    ensures MayStart(c, db, p, budget) <==>
              QuotasLeft(db, c, p) && if c.maxPrealloc > 0 then TooFewAhead(db, c, p) else budget > 0
  {
    assert On(db, p) == set r | r in db.resources && db.resources[r].pool == p && db.resources[r].state != ENDED;
    assert InState(db, p, STARTING) == Launching(db, p);
    assert Free(db, p) == set r | r in db.resources && db.resources[r].pool == p && db.resources[r].state == UP
                                  && db.resources[r].ticket.None? && db.resources[r].releases == 0;
  }

  /** The look at the statistics lets the loop go on exactly if there is room and need for a resource. */
  lemma SizeDecides(cfg: Config, run: Run, i: nat)
    requires Valid(cfg, run) && i < |run.actions| && run.actions[i] == Manage(Size)
    ensures var s, s' := run.states[i], run.states[i + 1];
      && s.pc.Sizing? && s.pc.i < |cfg.order| && cfg.order[s.pc.i] in cfg.pools && cfg.order[s.pc.i] in s.budget
      && var p := cfg.order[s.pc.i]; var c := cfg.pools[p];
         s'.pc == if QuotasLeft(s.db, c, p) && (if c.maxPrealloc > 0 then TooFewAhead(s.db, c, p) else s.budget[p] > 0)
                  then Timing(s.pc.i) else Tidying(s.pc.i)
  {
    StepOf(cfg, run, i);
    hide Takes, Valid, QuotasLeft, TooFewAhead;
    var s := run.states[i];
    MayStartIs(s.db, cfg.pools[cfg.order[s.pc.i]], cfg.order[s.pc.i], s.budget[cfg.order[s.pc.i]]);
    hide MayStart;
  }

  /* ---- the delay ---- */

  /** The pool was started last at step `j`. */
  ghost predicate LastStart(cfg: Config, run: Run, p: PoolName, j: nat, i: nat) {
    j < i && IsStart(cfg, run, p, j) && forall k :: j < k < i ==> !IsStart(cfg, run, p, k)
  }

  /** What the step does to the times of the last starts. */
  lemma StepStarts(cfg: Config, s: Sys, a: Action, p: PoolName)
    requires Can(cfg, s, a) && p in Do(cfg, s, a).db.lastStart
    ensures var now := Do(cfg, s, a).db.lastStart[p];
      if a.Manage? && a.m.AllocateOne? && s.pc.Allocating? && s.pc.i < |cfg.order| && cfg.order[s.pc.i] == p
      then p in s.db.lastStart && now == s.clock
      else if p in s.db.lastStart then now == s.db.lastStart[p] else now == 0.0
  {
    hide PcFits, DoEnv, DoWork, DoManage, CanEnv, CanWork, CanManage;
    match a
    case Env(e) => EnvStarts(s, e);
    case Work(w) => Invariant.WorkKeepsTables(cfg, s, w);
    case Manage(m) => ManageStarts(cfg, s, m, p);
  }

  lemma EnvStarts(s: Sys, a: EnvStep)
    requires CanEnv(s, a)
    ensures DoEnv(s, a).db.lastStart == s.db.lastStart
  {
    hide Kill, FixBroken, Watch, TakeTicket, CloseTicket;
  }

  lemma ManageStarts(cfg: Config, s: Sys, a: ManagerStep, p: PoolName)
    requires PcFits(cfg, s) && CanManage(cfg, s, a) && p in DoManage(cfg, s, a).db.lastStart
    ensures var now := DoManage(cfg, s, a).db.lastStart[p];
      if a.AllocateOne? && s.pc.Allocating? && s.pc.i < |cfg.order| && cfg.order[s.pc.i] == p
      then p in s.db.lastStart && now == s.clock
      else if p in s.db.lastStart then now == s.db.lastStart[p] else now == 0.0
  {
    if a.AllocateOne? {
      hide SmallestNumbers, NamesOf;
    } else if a.Begin? {
      hide Zeros;
    } else {
      ManageKeepsTime(cfg, s, a);
      hide DoManage, CanManage;
    }
  }

  /** The table of the pools tells when each was started last. */
  lemma {:induction false} LastStartIs(cfg: Config, run: Run, i: nat, p: PoolName)
    requires Valid(cfg, run) && i < |run.states|
    ensures if p !in run.states[i].db.lastStart then forall j :: 0 <= j < i ==> !IsStart(cfg, run, p, j)
            else || (exists j: nat :: LastStart(cfg, run, p, j, i)
                                      && run.states[i].db.lastStart[p] == run.states[j].clock)
                 || (run.states[i].db.lastStart[p] == 0.0 && forall j :: 0 <= j < i ==> !IsStart(cfg, run, p, j))
    decreases i
  {
    hide Can, Do, Takes;
    if i > 0 {
      var b := i - 1;
      LastStartIs(cfg, run, b, p);
      StepOf(cfg, run, b);
      RunTimed(cfg, run, i);
      if p in run.states[i].db.lastStart {
        StepStarts(cfg, run.states[b], run.actions[b], p);
        if IsStart(cfg, run, p, b) {
          assert LastStart(cfg, run, p, b, i);
        } else if j: nat :| LastStart(cfg, run, p, j, b) {
          assert LastStart(cfg, run, p, j, i);
        }
      } else {
        StartRecorded(cfg, run, p, b);
      }
    }
  }

  lemma StartRecorded(cfg: Config, run: Run, p: PoolName, b: nat)
    requires Valid(cfg, run) && b < |run.actions|
    ensures IsStart(cfg, run, p, b) ==> p in run.states[b + 1].db.lastStart
  {
    hide Takes;
    if IsStart(cfg, run, p, b) { StartIsRecorded(cfg, run, p, b); }
  }

  /** The look at the clock lets the loop go on exactly if the last start of the pool is long enough ago. */
  lemma DelayDecides(cfg: Config, run: Run, i: nat)
    requires Valid(cfg, run) && i < |run.actions| && run.actions[i] == Manage(MeasureDelay)
    ensures var s, s' := run.states[i], run.states[i + 1];
      && s.pc.Timing? && s.pc.i < |cfg.order| && cfg.order[s.pc.i] in cfg.pools
      && var p := cfg.order[s.pc.i]; var delay := cfg.pools[p].startDelay;
         && (s'.pc == Allocating(s.pc.i) || s'.pc == Tidying(s.pc.i))
         && (forall j: nat :: LastStart(cfg, run, p, j, i) ==>
               (s'.pc == Allocating(s.pc.i) <==> run.states[j].clock + delay <= s.clock))
         && ((forall j :: 0 <= j < i ==> !IsStart(cfg, run, p, j)) ==>
               (s'.pc == Allocating(s.pc.i) <==> delay <= s.clock))
  {
    hide Takes;
    StepOf(cfg, run, i);
    var s := run.states[i];
    var p := cfg.order[s.pc.i];
    LastStartIs(cfg, run, i, p);
    hide Valid, IsStart;
  }

  /* ---- the plan ---- */

  /** What is left of the budget of every pool after a step that neither begins a loop nor decides. */
  lemma StepPays(cfg: Config, s: Sys, a: Action, p: PoolName)
    requires Can(cfg, s, a) && !(a.Manage? && (a.m.Begin? || a.m.Decide?)) && p in s.budget
    ensures var s' := Do(cfg, s, a);
      && p in s'.budget
      && s'.budget[p] == s.budget[p] - if a.Manage? && a.m.AllocateOne? && s.pc.Allocating? && s.pc.i < |cfg.order|
                                          && cfg.order[s.pc.i] == p then 1 else 0
  {
    hide DoEnv, DoWork, DoManage, CanEnv, CanWork, SmallestNumbers, NamesOf, OnDemand.Decide, OnDemand.WaitingOrder;
    match a
    case Env(e) => EnvPays(s, e);
    case Work(w) => Invariant.WorkKeepsLoop(cfg, s, w);
    case Manage(m) => ManageSpends(cfg, s, m);
  }

  lemma EnvPays(s: Sys, a: EnvStep)
    requires CanEnv(s, a)
    ensures DoEnv(s, a).budget == s.budget
  {
    hide Kill, FixBroken, Watch, TakeTicket, CloseTicket;
  }

  /** In the rest of the loop the budget of a pool is the plan without the starts made. */
  lemma {:induction false} BudgetIsRest(cfg: Config, run: Run, p: PoolName, i: nat, j: nat)
    requires Valid(cfg, run) && DecidesAt(run, i) && i < j < |run.states| && p in cfg.pools
    requires forall k :: i < k < j ==> !DecidesAt(run, k) && run.actions[k] != Manage(Begin)
    ensures p in run.states[j].budget
    ensures StartsIn(cfg, run, p, i + 1, j) + run.states[j].budget[p] == Planned(cfg, run, p, i)
    decreases j
  {
    hide Can, Do, Takes;
    if j == i + 1 {
      PlanIsMade(cfg, run, p, i);
      hide OnDemand.Decide, OnDemand.WaitingOrder;
    } else {
      BudgetIsRest(cfg, run, p, i, j - 1);
      StepOf(cfg, run, j - 1);
      assert !DecidesAt(run, j - 1);
      StepPays(cfg, run.states[j - 1], run.actions[j - 1], p);
    }
  }
}
