/**
 The server as a state machine over its transactions.

 The actors are the manager's loop, the API threads, the Alloc/Release/Terminate/CleanUnknown
 workers, the Watcher, the maintainer's `kill`, and crash and restart.  A block of
 `session_scope()` is one step, and any actor may take its next step after any other.  What a
 thread still has to do after its transaction is kept in `staff`, in `cleaners`, and in `pc`, the
 place of the manager in its loop.
 */
module Protocol {
  import opened Collections
  import opened Tables
  import opened Logic
  import OnDemand
  import Assignment

  /** The workers that run or are about to be started, each under the resource it works on. */
  datatype Staff = Staff(
    allocators: multiset<ResourceId>,
    releasers: multiset<ResourceId>,
    terminators: multiset<ResourceId>,    // TerminateWorker before its first transaction
    closers: multiset<ResourceId>)        // after it; `cmd_delete` may be running

  const NOBODY := Staff(multiset{}, multiset{}, multiset{}, multiset{})

  /** A CleanUnknownWorker before `cmd_list`, before it reads the known names, and while it deletes. */
  datatype CleanerJob =
    | Listing(p: PoolName)
    | Comparing(p: PoolName, listed: set<Name>)
    | Deleting(p: PoolName, unknown: set<Name>)

  /** The manager's place in `_loop`; `i` is the position of the pool in the configuration. */
  datatype Pc =
    | Down
    | Beginning
    | Detecting(i: nat)
    | Deciding
    | Removing(i: nat)
    | Collecting(i: nat)
    | Sizing(i: nat)          // `_allocate_more_resources`: about to gather the statistics
    | Timing(i: nat)          // the quotas allow a start; about to look at the last one
    | Allocating(i: nat)      // about to allocate
    | Tidying(i: nat)         // `_clean_unknown_resources`
    | Gathering               // `_assign_tickets`: about to take the snapshot
    | Assigning(queue: seq<TicketId>, snapshot: set<ResourceId>)
    | Resting

  /**
   `budget` is `start_on_demand_this_cycle` of every pool, and `uuids` counts the generated
   sandboxes.  `cleaned`, the names that a cleaner ran `cmd_delete` on, is only a record.
   */
  datatype Sys = Sys(db: Db, staff: Staff, cleaners: multiset<CleanerJob>, pc: Pc, clock: Time, uuids: nat,
                     budget: map<PoolName, int>, cleaned: set<Name>)

  /** The API threads, the Watcher, the maintainer, the clock, and the process as a whole. */
  datatype EnvStep =
    | Tick(later: Time)
    | Take(t: TicketId, tags: set<Tag>, sandbox: Sandbox)
    | Close(t: TicketId)
    | KillOne(r: ResourceId)
    | Check(r: ResourceId, success: bool)
    | Crash
    | Boot

  datatype WorkerStep =
    | AllocDone(r: ResourceId, success: bool, data: Data)
    | ReleaseDone(r: ResourceId, success: bool)
    | TerminateStart(r: ResourceId)
    | TerminateEnd(r: ResourceId)
    | CloudListed(p: PoolName, names: set<Name>)
    | KnownRead(p: PoolName, listed: set<Name>)
    | CleanOne(p: PoolName, unknown: set<Name>, name: Name)
    | CleanDone(p: PoolName)

  datatype ManagerStep =
    | Begin
    | Detect
    | Decide(order: seq<TicketId>)
    | Remove
    | Collect
    | Size
    | MeasureDelay
    | AllocateOne(r: ResourceId, name: Name, id: nat, values: map<Counter, nat>)
    | Tidy(launch: bool)
    | Gather
    | Assign
    | Finish
    | WakeUp

  datatype Action = Env(e: EnvStep) | Work(w: WorkerStep) | Manage(m: ManagerStep)

  ghost predicate Initial(cfg: Config, s: Sys) {
    && s.db == Db(map[], map[], map[], map[], map[])
    && s.staff == NOBODY && s.cleaners == multiset{} && s.pc == Down && s.clock >= 0.0 && s.uuids == 0
    && s.budget == map[] && s.cleaned == {}
  }

  function Pool(cfg: Config, i: nat): PoolName
    requires i < |cfg.order|
  {
    cfg.order[i]
  }

  function NextDetect(cfg: Config, i: nat): Pc {
    if i < |cfg.order| then Detecting(i) else Deciding
  }

  function NextPool(cfg: Config, i: nat): Pc {
    if i < |cfg.order| then Removing(i) else Gathering
  }

  function Zeros(cfg: Config): (m: map<PoolName, int>)
    ensures m.Keys == cfg.pools.Keys
  {
    map p | p in cfg.pools :: 0
  }

  /** The pool the manager works on. */
  function At(pc: Pc): Option<nat> {
    match pc
    case Detecting(i) => Some(i)
    case Removing(i) => Some(i)
    case Collecting(i) => Some(i)
    case Sizing(i) => Some(i)
    case Timing(i) => Some(i)
    case Allocating(i) => Some(i)
    case Tidying(i) => Some(i)
    case _ => None
  }

  ghost predicate PcFits(cfg: Config, s: Sys) {
    && (At(s.pc).Some? ==> At(s.pc).value < |cfg.order| && cfg.order[At(s.pc).value] in cfg.pools)
    && (s.pc != Down && s.pc != Beginning ==>
          && s.budget.Keys == cfg.pools.Keys && cfg.pools.Keys <= s.db.lastStart.Keys)
  }

  /** The guards of `_allocate_more_resources` on the statistics: another start is allowed. */
  function MayStart(c: PoolConfig, db: Db, p: PoolName, budget: int): bool {
    && |On(db, p)| < c.max
    && (if c.maxPrealloc != 0 then |Free(db, p)| + |InState(db, p, STARTING)| < c.maxPrealloc else budget > 0)
    && |InState(db, p, STARTING)| < c.maxStarting
  }

  ghost predicate CanEnv(s: Sys, a: EnvStep) {
    match a
    case Tick(later) => later >= s.clock
    case Take(t, tags, sandbox) => s.pc != Down && t !in s.db.tickets && !sandbox.Generated?
    case Close(t) => s.pc != Down && t in s.db.tickets
    case KillOne(r) => true
    case Check(r, success) => s.pc != Down && r in s.db.resources
    case Crash => s.pc != Down
    case Boot => s.pc == Down
  }

  ghost predicate CanWork(cfg: Config, s: Sys, a: WorkerStep) {
    match a
    case AllocDone(r, success, data) => r in s.staff.allocators && r in s.db.resources
      && s.db.resources[r].pool in cfg.pools
    case ReleaseDone(r, success) => r in s.staff.releasers && r in s.db.resources && s.db.resources[r].pool in cfg.pools
    case TerminateStart(r) => r in s.staff.terminators && r in s.db.resources
    case TerminateEnd(r) => r in s.staff.closers && r in s.db.resources
    // the cloud can only list what some `cmd_new` was started for, or what others put there
    case CloudListed(p, names) =>
      Listing(p) in s.cleaners && forall n :: n in names ==> n in cfg.foreign || n in NamesOf(s.db)
    case KnownRead(p, listed) => Comparing(p, listed) in s.cleaners
    case CleanOne(p, unknown, name) => Deleting(p, unknown) in s.cleaners && name in unknown
    case CleanDone(p) => Deleting(p, {}) in s.cleaners
  }

  ghost predicate CanManage(cfg: Config, s: Sys, a: ManagerStep)
    requires PcFits(cfg, s)
  {
    match a
    case Begin => s.pc == Beginning
    case Detect => s.pc.Detecting?
    case Decide(order) => s.pc == Deciding && OnDemand.WaitingOrder(s.db, order)
    case Remove => s.pc.Removing?
    case Collect => s.pc.Collecting?
    case Size => s.pc.Sizing?
    case MeasureDelay => s.pc.Timing?
    case AllocateOne(r, name, id, values) =>
      && s.pc.Allocating? && r !in s.db.resources
      && name !in cfg.foreign && name !in NamesOf(s.db)
      && (var p := Pool(cfg, s.pc.i); SmallestNumbers(s.db, p, cfg.pools[p].counters, id, values))
    case Tidy(launch) => s.pc.Tidying?
    case Gather => s.pc == Gathering
    case Assign => s.pc.Assigning? && s.pc.queue != [] && s.pc.queue[0] in s.db.tickets
    case Finish => s.pc.Assigning? && s.pc.queue == []
    case WakeUp => s.pc == Resting
  }

  ghost predicate Can(cfg: Config, s: Sys, a: Action) {
    PcFits(cfg, s) && match a
    case Env(e) => CanEnv(s, e)
    case Work(w) => CanWork(cfg, s, w)
    case Manage(m) => CanManage(cfg, s, m)
  }

  function NamesOf(db: Db): set<Name> {
    set r | r in db.resources :: db.resources[r].name
  }

  /** The names of the resources that are not ENDED. */
  function NamesOn(db: Db): set<Name> {
    set r | r in db.resources && db.resources[r].state != ENDED :: db.resources[r].name
  }

  /** The first transaction of `_loop`: `_init_pool_in_db` for every pool. */
  function InitPools(cfg: Config, db: Db): (d: Db)
    ensures d.resources == db.resources && SameTickets(d, db) && SameNumbers(d, db)
    ensures d.lastStart.Keys == cfg.pools.Keys + db.lastStart.Keys
  {
    db.(lastStart := (map p | p in cfg.pools && p !in db.lastStart :: 0.0) + db.lastStart)
  }

  ghost function DoEnv(s: Sys, a: EnvStep): Sys
    requires CanEnv(s, a)
  {
    match a
    case Tick(later) => s.(clock := later)
    case Take(t, tags, sandbox) => s.(db := TakeTicket(s.db, t, tags, sandbox))
    case Close(t) => s.(db := CloseTicket(s.db, t))
    case KillOne(r) => s.(db := Kill(s.db, {r}))
    case Check(r, success) => s.(db := Watch(s.db, r, success))
    case Crash => s.(staff := NOBODY, cleaners := multiset{}, pc := Down)
    case Boot => s.(db := FixBroken(s.db), pc := Beginning)
  }

  ghost function DoWork(cfg: Config, s: Sys, a: WorkerStep): Sys
    requires CanWork(cfg, s, a)
  {
    match a
    case AllocDone(r, success, data) =>
      s.(db := FinishAlloc(s.db, r, success, data, TagRows(cfg.pools[s.db.resources[r].pool].TagsAll())),
         staff := s.staff.(allocators := s.staff.allocators - multiset{r}))
    case ReleaseDone(r, success) =>
      s.(db := FinishRelease(s.db, r, success, cfg.pools[s.db.resources[r].pool].reuseMaxCount),
         staff := s.staff.(releasers := s.staff.releasers - multiset{r}))
    case TerminateStart(r) =>
      if TicketOpen(s.db, r) then s.(staff := s.staff.(terminators := s.staff.terminators - multiset{r}))
      else s.(db := SetState(s.db, r, DELETING),
              staff := s.staff.(terminators := s.staff.terminators - multiset{r},
                  closers := s.staff.closers + multiset{r}))
    case TerminateEnd(r) => s.(db := End(s.db, r), staff := s.staff.(closers := s.staff.closers - multiset{r}))
    case CloudListed(p, names) => s.(cleaners := s.cleaners - multiset{Listing(p)} + multiset{Comparing(p, names)})
    case KnownRead(p, listed) =>
      s.(cleaners := s.cleaners - multiset{Comparing(p, listed)} + multiset{Deleting(p, listed - NamesOn(s.db))})
    case CleanOne(p, unknown, name) =>
      s.(cleaners := s.cleaners - multiset{Deleting(p, unknown)} + multiset{Deleting(p, unknown - {name})},
         cleaned := s.cleaned + {name})
    case CleanDone(p) => s.(cleaners := s.cleaners - multiset{Deleting(p, {})})
  }

  ghost function DoManage(cfg: Config, s: Sys, a: ManagerStep): Sys
    requires PcFits(cfg, s) && CanManage(cfg, s, a)
  {
    match a
    case Begin =>
      s.(db := InitPools(cfg, s.db), budget := Zeros(cfg),
         pc := NextDetect(cfg, 0))
    case Detect =>
      var p := Pool(cfg, s.pc.i);
      s.(db := DetectClosed(s.db, p, cfg.pools[p].hasRelease, s.clock),
         staff := if cfg.pools[p].hasRelease
                  then s.staff.(releasers := s.staff.releasers + multiset(Closing(s.db, p))) else s.staff,
         pc := NextDetect(cfg, s.pc.i + 1))
    case Decide(order) =>
      s.(budget := Budget(cfg, OnDemand.Decide(cfg, s.db, order)), pc := NextPool(cfg, 0))
    case Remove =>
      var p := Pool(cfg, s.pc.i);
      s.(db := RequestRemoval(s.db, p, cfg.pools[p], s.clock), pc := Collecting(s.pc.i))
    case Collect =>
      s.(staff := s.staff.(terminators := s.staff.terminators + multiset(ToTerminate(s.db, Pool(cfg, s.pc.i)))),
         pc := Sizing(s.pc.i))
    case Size =>
      var p := Pool(cfg, s.pc.i);
      s.(pc := if MayStart(cfg.pools[p], s.db, p, s.budget[p]) then Timing(s.pc.i) else Tidying(s.pc.i))
    case MeasureDelay =>
      var p := Pool(cfg, s.pc.i);
      s.(pc := if s.db.lastStart[p] + cfg.pools[p].startDelay > s.clock then Tidying(s.pc.i) else Allocating(s.pc.i))
    case AllocateOne(r, name, id, values) =>
      var p := Pool(cfg, s.pc.i);
      s.(db := Allocate(s.db, p, r, name, s.clock, id, values),
          staff := s.staff.(allocators := s.staff.allocators + multiset{r}),
         budget := s.budget[p := s.budget[p] - 1],
         pc := Sizing(s.pc.i))
    case Tidy(launch) =>
      s.(cleaners := if launch then s.cleaners + multiset{Listing(Pool(cfg, s.pc.i))} else s.cleaners,
         pc := NextPool(cfg, s.pc.i + 1))
    case Gather =>
      s.(pc := Assigning(Assignment.ServiceOrder(s.db, OnDemand.OnDemandTags(cfg)), Assignment.ReadyNow(s.db)))
    case Assign =>
      var t, rest := s.pc.queue[0], s.pc.queue[1..];
      var choice := Assignment.Choice(s.db, s.pc.snapshot, t);
      if choice.Some?
      then s.(db := AssignTicket(s.db, choice.value, t, s.clock, Generated(s.uuids)), uuids := s.uuids + 1,
              pc := Assigning(rest, s.pc.snapshot))
      else s.(pc := Assigning(rest, s.pc.snapshot))
    case Finish => s.(pc := Resting)
    case WakeUp => s.(pc := Beginning)
  }

  /** `start_on_demand_this_cycle` of every pool after the decision. */
  function Budget(cfg: Config, plan: OnDemand.Plan): (m: map<PoolName, int>)
    ensures m.Keys == cfg.pools.Keys
  {
    map p | p in cfg.pools :: if p in plan.starts then plan.starts[p] else 0
  }

  ghost function Do(cfg: Config, s: Sys, a: Action): Sys
    requires Can(cfg, s, a)
  {
    match a
    case Env(e) => DoEnv(s, e)
    case Work(w) => DoWork(cfg, s, w)
    case Manage(m) => DoManage(cfg, s, m)
  }

  /* ---- runs ---- */

  datatype Run = Run(states: seq<Sys>, actions: seq<Action>)

  ghost predicate Valid(cfg: Config, run: Run) {
    && |run.states| == |run.actions| + 1
    && Initial(cfg, run.states[0])
    && (forall i :: 0 <= i < |run.actions| ==> Takes(cfg, run.states[i], run.actions[i], run.states[i + 1]))
  }

  ghost predicate Takes(cfg: Config, s: Sys, a: Action, s': Sys) {
    Can(cfg, s, a) && s' == Do(cfg, s, a)
  }
}
