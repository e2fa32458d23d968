/**
 When the manager starts resources: at least `start_delay` apart in every pool, and for on-demand
 pools never more of them than the loop decided to start.
 */
module Starts {
  import opened Tables
  import opened Logic
  import opened Protocol
  import opened Invariant
  import opened Edges
  import Assignment
  import OnDemand

  /** The `k`-th step allocates a resource of pool `p`. */
  ghost predicate IsStart(cfg: Config, run: Run, p: PoolName, k: nat) {
    && k < |run.actions| && k < |run.states|
    && run.actions[k].Manage? && run.actions[k].m.AllocateOne?
    && run.states[k].pc.Allocating? && run.states[k].pc.i < |cfg.order| && cfg.order[run.states[k].pc.i] == p
  }

  /* ---- start_delay ---- */

  ghost predicate Timed(cfg: Config, s: Sys) {
    && s.clock >= 0.0
    && (forall p :: p in s.db.lastStart ==> s.db.lastStart[p] <= s.clock)
    && (s.pc.Allocating? && s.pc.i < |cfg.order| ==>
          var p := cfg.order[s.pc.i];
          p in cfg.pools && p in s.db.lastStart && s.db.lastStart[p] + cfg.pools[p].startDelay <= s.clock)
  }

  /** Time only advances, and the persisted starts with it. */
  ghost predicate TimeEdge(s: Sys, s': Sys) {
    && s.clock <= s'.clock
    && (forall p :: p in s.db.lastStart ==> p in s'.db.lastStart && s.db.lastStart[p] <= s'.db.lastStart[p])
  }

  lemma EnvTimed(cfg: Config, s: Sys, a: EnvStep)
    requires Timed(cfg, s) && CanEnv(s, a)
    ensures Timed(cfg, DoEnv(s, a)) && TimeEdge(s, DoEnv(s, a))
  {
    hide Kill, FixBroken, Watch, TakeTicket, CloseTicket;
  }

  lemma WorkTimed(cfg: Config, s: Sys, a: WorkerStep)
    requires Timed(cfg, s) && CanWork(cfg, s, a)
    ensures Timed(cfg, DoWork(cfg, s, a)) && TimeEdge(s, DoWork(cfg, s, a))
  {
    WorkKeepsLoop(cfg, s, a);
    WorkKeepsTables(cfg, s, a);
    hide DoWork, CanWork;
  }

  lemma ManageKeepsTime(cfg: Config, s: Sys, a: ManagerStep)
    requires PcFits(cfg, s) && CanManage(cfg, s, a)
    ensures var s' := DoManage(cfg, s, a);
      s'.clock == s.clock && (!a.Begin? && !a.AllocateOne? ==> s'.db.lastStart == s.db.lastStart)
  {
    hide MayStart, OnDemand.Decide, OnDemand.WaitingOrder, Assignment.ServiceOrder, Assignment.ReadyNow, RequestRemoval,
         DetectClosed, AssignTicket, InitPools, Zeros, Budget, SmallestNumbers, Allocate, NamesOf, SameRows,
         SameTickets, SameNumbers, OnlyRow;
  }

  lemma BeginTimed(cfg: Config, s: Sys)
    requires PcFits(cfg, s) && Timed(cfg, s) && CanManage(cfg, s, Begin)
    ensures Timed(cfg, DoManage(cfg, s, Begin)) && TimeEdge(s, DoManage(cfg, s, Begin))
  {
    hide Zeros;
  }

  lemma AllocateTimed(cfg: Config, s: Sys, a: ManagerStep)
    requires PcFits(cfg, s) && Timed(cfg, s) && CanManage(cfg, s, a) && a.AllocateOne?
    ensures Timed(cfg, DoManage(cfg, s, a)) && TimeEdge(s, DoManage(cfg, s, a))
  {
    hide SmallestNumbers, NamesOf;
  }

  lemma ManageTimed(cfg: Config, s: Sys, a: ManagerStep)
    requires PcFits(cfg, s) && Timed(cfg, s) && CanManage(cfg, s, a)
    ensures Timed(cfg, DoManage(cfg, s, a)) && TimeEdge(s, DoManage(cfg, s, a))
  {
    hide DoManage, CanManage;
    if a.Begin? {
      BeginTimed(cfg, s);
    } else if a.AllocateOne? {
      AllocateTimed(cfg, s, a);
    } else {
      ManageKeepsTime(cfg, s, a);
      TowardsAllocation(cfg, s, a);
    }
  }

  lemma StepTimed(cfg: Config, s: Sys, a: Action)
    requires Timed(cfg, s) && Can(cfg, s, a)
    ensures Timed(cfg, Do(cfg, s, a)) && TimeEdge(s, Do(cfg, s, a))
  {
    hide PcFits, Timed, TimeEdge, DoEnv, DoWork, DoManage, CanEnv, CanWork, CanManage;
    match a
    case Env(e) => EnvTimed(cfg, s, e);
    case Work(w) => WorkTimed(cfg, s, w);
    case Manage(m) => ManageTimed(cfg, s, m);
  }

  lemma {:induction false} RunTimed(cfg: Config, run: Run, i: nat)
    requires Valid(cfg, run) && i < |run.states|
    ensures Timed(cfg, run.states[i])
    ensures i > 0 ==> TimeEdge(run.states[i - 1], run.states[i])
    decreases i
  {
    hide Can, Do, Takes;
    if i > 0 {
      hide Timed;
      RunTimed(cfg, run, i - 1);
      StepOf(cfg, run, i - 1);
      StepTimed(cfg, run.states[i - 1], run.actions[i - 1]);
    }
  }

  lemma {:induction false} TimePasses(cfg: Config, run: Run, i: nat, j: nat)
    requires Valid(cfg, run) && i <= j < |run.states|
    ensures TimeEdge(run.states[i], run.states[j])
    decreases j
  {
    hide Takes;
    if i < j {
      TimePasses(cfg, run, i, j - 1);
      RunTimed(cfg, run, j);
      hide Valid;
    }
  }

  /** A start is persisted. */
  lemma StartIsRecorded(cfg: Config, run: Run, p: PoolName, i: nat)
    requires Valid(cfg, run) && IsStart(cfg, run, p, i)
    ensures i + 1 < |run.states|
    ensures p in run.states[i + 1].db.lastStart && run.states[i + 1].db.lastStart[p] == run.states[i].clock
  {
    StepOf(cfg, run, i);
    hide Takes, Valid, SmallestNumbers, NamesOf;
  }

  /** Any two starts in a pool are at least `start_delay` apart, over the whole run and its restarts. */
  lemma StartsAreApart(cfg: Config, run: Run, p: PoolName, i: nat, j: nat)
    requires Valid(cfg, run) && i < j && IsStart(cfg, run, p, i) && IsStart(cfg, run, p, j)
    ensures p in cfg.pools && run.states[i].clock + cfg.pools[p].startDelay <= run.states[j].clock
  {
    hide Takes;
    StartIsRecorded(cfg, run, p, i);
    TimePasses(cfg, run, i + 1, j);
    RunTimed(cfg, run, j);
    hide Valid;
  }

  /* ---- start_on_demand_this_cycle ---- */

  ghost predicate OnDemandPool(cfg: Config, p: PoolName) { p in cfg.pools && cfg.pools[p].maxPrealloc == 0 }

  /** The budget of an on-demand pool never goes below zero, and is positive when a start is near. */
  ghost predicate Budgeted(cfg: Config, s: Sys) {
    && (forall p :: OnDemandPool(cfg, p) && p in s.budget ==> s.budget[p] >= 0)
    && ((s.pc.Timing? || s.pc.Allocating?) && s.pc.i < |cfg.order| && OnDemandPool(cfg, cfg.order[s.pc.i]) ==>
          cfg.order[s.pc.i] in s.budget && s.budget[cfg.order[s.pc.i]] > 0)
  }

  lemma EnvBudgeted(cfg: Config, s: Sys, a: EnvStep)
    requires Budgeted(cfg, s) && CanEnv(s, a)
    ensures Budgeted(cfg, DoEnv(s, a)) && DoEnv(s, a).budget == s.budget
  {
    hide Kill, FixBroken, Watch, TakeTicket, CloseTicket;
  }

  lemma WorkBudgeted(cfg: Config, s: Sys, a: WorkerStep)
    requires Budgeted(cfg, s) && CanWork(cfg, s, a)
    ensures Budgeted(cfg, DoWork(cfg, s, a)) && DoWork(cfg, s, a).budget == s.budget
  {
    WorkKeepsLoop(cfg, s, a);
    hide DoWork, CanWork;
  }

  /** What becomes of the budgets in a step of the manager. */
  ghost predicate Spends(cfg: Config, s: Sys, a: ManagerStep, s': Sys)
    requires PcFits(cfg, s) && CanManage(cfg, s, a)
  {
    match a
    case Begin => s'.budget == Zeros(cfg)
    case Decide(order) => s'.budget == Budget(cfg, OnDemand.Decide(cfg, s.db, order))
    case AllocateOne(r, name, id, values) =>
      var p := cfg.order[s.pc.i];
      s'.budget == s.budget[p := s.budget[p] - 1]
    case _ => s'.budget == s.budget
  }

  lemma ManageSpends(cfg: Config, s: Sys, a: ManagerStep)
    requires PcFits(cfg, s) && CanManage(cfg, s, a)
    ensures Spends(cfg, s, a, DoManage(cfg, s, a))
  {
    hide MayStart, OnDemand.Decide, OnDemand.WaitingOrder, Assignment.ServiceOrder, Assignment.ReadyNow, RequestRemoval,
         DetectClosed, AssignTicket, InitPools, Zeros, Budget, SmallestNumbers, Allocate, NamesOf;
  }

  lemma ManageBudgeted(cfg: Config, s: Sys, a: ManagerStep)
    requires PcFits(cfg, s) && CanManage(cfg, s, a) && Budgeted(cfg, s)
    ensures Budgeted(cfg, DoManage(cfg, s, a))
  {
    hide DoManage, On, InState, Free, SmallestNumbers, NamesOf, OnDemand.Decide, OnDemand.WaitingOrder;
    ManageSpends(cfg, s, a);
    TowardsAllocation(cfg, s, a);
  }

  lemma StepBudgeted(cfg: Config, s: Sys, a: Action)
    requires Budgeted(cfg, s) && Can(cfg, s, a)
    ensures Budgeted(cfg, Do(cfg, s, a))
    ensures !a.Manage? ==> Do(cfg, s, a).budget == s.budget
  {
    hide PcFits, Budgeted, DoEnv, DoWork, DoManage, CanEnv, CanWork, CanManage;
    match a
    case Env(e) => EnvBudgeted(cfg, s, e);
    case Work(w) => WorkBudgeted(cfg, s, w);
    case Manage(m) => ManageBudgeted(cfg, s, m);
  }

  lemma {:induction false} RunBudgeted(cfg: Config, run: Run, i: nat)
    requires Valid(cfg, run) && i < |run.states|
    ensures Budgeted(cfg, run.states[i])
    decreases i
  {
    hide Can, Do, Takes;
    if i > 0 {
      hide Budgeted;
      RunBudgeted(cfg, run, i - 1);
      StepOf(cfg, run, i - 1);
      StepBudgeted(cfg, run.states[i - 1], run.actions[i - 1]);
    }
  }

  /** How many of the steps from `i` on and before `j` allocate a resource of pool `p`. */
  ghost function StartsIn(cfg: Config, run: Run, p: PoolName, i: nat, j: nat): nat {
    if j <= i then 0 else StartsIn(cfg, run, p, i, j - 1) + if IsStart(cfg, run, p, j - 1) then 1 else 0
  }

  ghost predicate DecidesAt(run: Run, i: nat) {
    i < |run.actions| && run.actions[i].Manage? && run.actions[i].m.Decide?
  }

  /** What the step's decision plans to start in pool `p`. */
  ghost function Planned(cfg: Config, run: Run, p: PoolName, i: nat): int {
    if i + 1 < |run.states| && p in run.states[i + 1].budget then run.states[i + 1].budget[p] else 0
  }

  /** A start takes one from the budget, which was positive; only a decision gives more. */
  lemma StepSpends(cfg: Config, s: Sys, a: Action, p: PoolName)
    requires Can(cfg, s, a) && !(a.Manage? && a.m.Decide?) && Budgeted(cfg, s) && OnDemandPool(cfg, p) && p in s.budget
    ensures var s' := Do(cfg, s, a);
      && p in s'.budget && s'.budget[p] >= 0
      && s'.budget[p] + (if a.Manage? && a.m.AllocateOne? && s.pc.i < |cfg.order|
         && cfg.order[s.pc.i] == p then 1 else 0)
          <= s.budget[p]
  {
    StepBudgeted(cfg, s, a);
    if a.Manage? { ManageSpends(cfg, s, a.m); }
    hide PcFits, DoEnv, DoWork, DoManage, CanEnv, CanWork, SmallestNumbers, NamesOf, OnDemand.Decide,
         OnDemand.WaitingOrder;
  }

  /** The starts made and the budget left never exceed the plan. */
  lemma {:induction false} MadeAndLeft(cfg: Config, run: Run, p: PoolName, i: nat, j: nat)
    requires Valid(cfg, run) && DecidesAt(run, i) && i < j < |run.states| && OnDemandPool(cfg, p)
    requires forall k :: i < k < j ==> !DecidesAt(run, k)
    ensures p in run.states[j].budget
    ensures StartsIn(cfg, run, p, i + 1, j) + run.states[j].budget[p] <= Planned(cfg, run, p, i)
    decreases j
  {
    hide Can, Do, Takes, Budgeted;
    if j == i + 1 {
      PlanIsMade(cfg, run, p, i);
    } else {
      MadeAndLeft(cfg, run, p, i, j - 1);
      if run.actions[j - 1].Manage? && run.actions[j - 1].m.AllocateOne? { StartPlace(cfg, run, p, j - 1); }
      RunBudgeted(cfg, run, j - 1);
      StepOf(cfg, run, j - 1);
      assert !DecidesAt(run, j - 1);
      StepSpends(cfg, run.states[j - 1], run.actions[j - 1], p);
    }
  }

  lemma PlanIsMade(cfg: Config, run: Run, p: PoolName, i: nat)
    requires Valid(cfg, run) && DecidesAt(run, i) && p in cfg.pools
    ensures i + 1 < |run.states| && p in run.states[i + 1].budget
    ensures OnDemand.WaitingOrder(run.states[i].db, run.actions[i].m.order)
    ensures var starts := OnDemand.Decide(cfg, run.states[i].db, run.actions[i].m.order).starts;
            Planned(cfg, run, p, i) == if p in starts then starts[p] else 0
  {
    StepOf(cfg, run, i);
    hide Takes, Valid, OnDemand.Decide, OnDemand.WaitingOrder;
  }

  lemma StartPlace(cfg: Config, run: Run, p: PoolName, k: nat)
    requires Valid(cfg, run) && k < |run.actions| && run.actions[k].Manage? && run.actions[k].m.AllocateOne?
    ensures run.states[k].pc.Allocating? && run.states[k].pc.i < |cfg.order|
  {
    StepOf(cfg, run, k);
    hide Takes, Valid, SmallestNumbers, NamesOf;
  }

  /** Between one decision and the next an on-demand pool starts at most what was decided. */
  lemma StartsWithinPlan(cfg: Config, run: Run, p: PoolName, i: nat, j: nat)
    requires Valid(cfg, run) && DecidesAt(run, i) && i < j < |run.states| && OnDemandPool(cfg, p)
    requires forall k :: i < k < j ==> !DecidesAt(run, k)
    ensures OnDemand.WaitingOrder(run.states[i].db, run.actions[i].m.order)
    ensures var starts := OnDemand.Decide(cfg, run.states[i].db, run.actions[i].m.order).starts;
            StartsIn(cfg, run, p, i + 1, j) <= if p in starts then starts[p] else 0
  {
    hide Takes, OnDemand.Decide, OnDemand.WaitingOrder;
    MadeAndLeft(cfg, run, p, i, j);
    RunBudgeted(cfg, run, j);
    PlanIsMade(cfg, run, p, i);
  }
}
