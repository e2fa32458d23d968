/**
 The invariant of the protocol that everything else rests on, and that each kind of step keeps it.

   - `PcFits`: the manager is at a pool of the configuration, and the first transaction of the loop
     has prepared the tables for it.
   - `Linked` (module `Links`): rows and tickets know each other.
   - `Staffed`: every transitional state has exactly its worker.
   - `Queued`: a pass of ticket assignment works on tickets that nobody else can serve, and on
     resources that nobody else can bring up.
   - `Good` is all of them, for a valid configuration.

 The steps of the API threads, of the workers and of the manager are treated one after another for
 each part.  Module `Edges` puts them together, and adds what one step can change.
 */
module Invariant {
  import opened Tables
  import opened Logic
  import opened Links
  import opened Protocol
  import Assignment
  import OnDemand

  function Once(b: bool): nat { if b then 1 else 0 }

  ghost predicate InStateNow(db: Db, r: ResourceId, s: RState) {
    r in db.resources && db.resources[r].state == s
  }

  /**
   Each STARTING resource has exactly one AllocWorker and each RELEASING one exactly one
   ReleaseWorker, and no other resource has any; terminators only work on dying resources.
   After a crash, before the restart has repaired the states, there is no worker at all.
   */
  ghost predicate Staffed(s: Sys) {
    if s.pc == Down then s.staff == NOBODY else
    && (forall r :: s.staff.allocators[r] == Once(InStateNow(s.db, r, STARTING)))
    && (forall r :: s.staff.releasers[r] == Once(InStateNow(s.db, r, RELEASING)))
    && (forall r :: r in s.staff.terminators ==> IsDying(s.db, r))
    && (forall r :: r in s.staff.closers ==> IsDying(s.db, r))
  }

  ghost predicate IsDying(db: Db, r: ResourceId) {
    r in db.resources && Dying(db.resources[r].state)
  }

  /** The tickets still to be served are distinct and unserved; the snapshot's resources were up. */
  ghost predicate Queued(s: Sys) {
    s.pc.Assigning? ==>
      && (forall i :: 0 <= i < |s.pc.queue| ==>
            s.pc.queue[i] in s.db.tickets && s.db.tickets[s.pc.queue[i]].resource.None?)
      && (forall i, j :: 0 <= i < j < |s.pc.queue| ==> s.pc.queue[i] != s.pc.queue[j])
      && (forall r :: r in s.pc.snapshot ==>
            r in s.db.resources && (s.db.resources[r].state == UP || Dying(s.db.resources[r].state)))
  }

  ghost predicate Good(cfg: Config, s: Sys) {
    ValidConfig(cfg) && PcFits(cfg, s) && Linked(cfg, s.db, s.uuids) && Staffed(s) && Queued(s)
  }

  lemma GoodParts(cfg: Config, s: Sys)
    requires Good(cfg, s)
    ensures ValidConfig(cfg) && PcFits(cfg, s) && Linked(cfg, s.db, s.uuids) && Staffed(s) && Queued(s)
  {
    hide ValidConfig, PcFits, Linked, Staffed, Queued;
  }

  lemma InitialGood(cfg: Config, s: Sys)
    requires ValidConfig(cfg) && Initial(cfg, s)
    ensures Good(cfg, s)
  {
  }

  /* ---- PcFits ---- */

  lemma FitsEnv(cfg: Config, s: Sys, a: EnvStep)
    requires PcFits(cfg, s) && CanEnv(s, a)
    ensures PcFits(cfg, DoEnv(s, a))
  {
  }

  lemma FitsWork(cfg: Config, s: Sys, a: WorkerStep)
    requires PcFits(cfg, s) && CanWork(cfg, s, a)
    ensures PcFits(cfg, DoWork(cfg, s, a))
  {
    WorkKeepsLoop(cfg, s, a);
    WorkKeepsTables(cfg, s, a);
    hide DoWork;
  }

  predicate SameLoop(s: Sys, s': Sys) {
    s'.pc == s.pc && s'.clock == s.clock && s'.uuids == s.uuids && s'.budget == s.budget
  }

  lemma WorkKeepsLoop(cfg: Config, s: Sys, a: WorkerStep)
    requires CanWork(cfg, s, a)
    ensures SameLoop(s, DoWork(cfg, s, a))
  {
    hide FinishAlloc, FinishRelease, SetState, End, NamesOn, CanWork, TagRows, TicketOpen;
  }

  /** A worker's transaction leaves the other tables alone. */
  predicate SameShape(db: Db, db': Db) {
    SameRows(db', db) && SameTickets(db', db) && SameStarts(db', db)
  }

  lemma WorkKeepsTables(cfg: Config, s: Sys, a: WorkerStep)
    requires CanWork(cfg, s, a)
    ensures SameShape(s.db, DoWork(cfg, s, a).db)
  {
    assert SameShape(s.db, s.db);
    hide FinishAlloc, FinishRelease, SetState, End, NamesOn, NamesOf, TagRows, TicketOpen, SameRows, SameTickets,
         SameStarts;
  }

  lemma FitsManage(cfg: Config, s: Sys, a: ManagerStep)
    requires ValidConfig(cfg) && PcFits(cfg, s) && CanManage(cfg, s, a)
    ensures PcFits(cfg, DoManage(cfg, s, a))
  {
    PoolsInOrder(cfg);
    ManageMoves(cfg, s, a);
    ManageKeepsKeys(cfg, s, a);
    hide DoManage, CanManage;
  }

  lemma ManageMoves(cfg: Config, s: Sys, a: ManagerStep)
    requires PcFits(cfg, s) && CanManage(cfg, s, a)
    ensures var pc := DoManage(cfg, s, a).pc; At(pc).Some? ==> At(pc).value < |cfg.order|
    ensures DoManage(cfg, s, a).pc != Down
  {
    hide AssignTicket, DetectClosed, RequestRemoval, OnDemand.Decide, OnDemand.WaitingOrder, InitPools, Allocate,
         SmallestNumbers, Assignment.ServiceOrder, Assignment.Choice, MayStart, Closing, ToTerminate, Zeros, Budget,
         Assignment.ReadyNow;
  }

  /** Two quick looks bring the manager to an allocation: at the statistics, then at the last start. */
  lemma TowardsAllocation(cfg: Config, s: Sys, a: ManagerStep)
    requires PcFits(cfg, s) && CanManage(cfg, s, a)
    ensures var s' := DoManage(cfg, s, a);
      s'.pc.Timing? || s'.pc.Allocating? ==>
        && (s.pc.Sizing? || s.pc.Timing?) && s'.pc.i == s.pc.i
        && s'.db == s.db && s'.budget == s.budget && s'.clock == s.clock
        && var p := cfg.order[s.pc.i];
           if s.pc.Sizing? then s'.pc.Timing? && MayStart(cfg.pools[p], s.db, p, s.budget[p])
           else s'.pc.Allocating? && s.db.lastStart[p] + cfg.pools[p].startDelay <= s.clock
  {
    hide MayStart, OnDemand.Decide, OnDemand.WaitingOrder, Assignment.ServiceOrder, Assignment.ReadyNow, RequestRemoval,
         DetectClosed, AssignTicket, InitPools, Zeros, Budget, SmallestNumbers, Allocate, NamesOf;
  }

  lemma ManageKeepsKeys(cfg: Config, s: Sys, a: ManagerStep)
    requires PcFits(cfg, s) && CanManage(cfg, s, a)
    ensures var s' := DoManage(cfg, s, a);
            s'.pc == Beginning || (s'.budget.Keys == cfg.pools.Keys && cfg.pools.Keys <= s'.db.lastStart.Keys)
  {
    hide AssignTicket, DetectClosed, RequestRemoval, OnDemand.Decide, OnDemand.WaitingOrder, InitPools, SmallestNumbers,
         Assignment.ServiceOrder, Assignment.Choice, MayStart, Closing, ToTerminate, Zeros, Budget, Assignment.ReadyNow,
         NamesOf, SameRows, SameTickets, SameNumbers;
  }

  lemma PoolsInOrder(cfg: Config)
    requires ValidConfig(cfg)
    ensures forall i :: 0 <= i < |cfg.order| ==> cfg.order[i] in cfg.pools
  {
    assert forall i :: 0 <= i < |cfg.order| ==> cfg.order[i] in cfg.order;
  }

  /* ---- Linked ---- */

  lemma LinkedEnv(cfg: Config, s: Sys, a: EnvStep)
    requires Linked(cfg, s.db, s.uuids) && CanEnv(s, a)
    ensures Linked(cfg, DoEnv(s, a).db, s.uuids) && DoEnv(s, a).uuids == s.uuids
  {
    hide Linked, TakeTicket, CloseTicket, Kill, Watch, FixBroken;
    match a
    case Take(t, tags, sandbox) => TakeKeeps(cfg, s.db, s.uuids, t, tags, sandbox);
    case Close(t) => CloseKeeps(cfg, s.db, s.uuids, t);
    case KillOne(r) => KillKeeps(cfg, s.db, s.uuids, {r});
    case Check(r, success) => WatchKeeps(cfg, s.db, s.uuids, r, success);
    case Boot => FixBrokenKeeps(cfg, s.db, s.uuids);
    case _ =>
  }

  lemma LinkedWork(cfg: Config, s: Sys, a: WorkerStep)
    requires Good(cfg, s) && CanWork(cfg, s, a)
    ensures Linked(cfg, DoWork(cfg, s, a).db, s.uuids) && DoWork(cfg, s, a).uuids == s.uuids
  {
    hide Good, Linked, Staffed, Queued, PcFits, ValidConfig, FinishAlloc, FinishRelease, SetState, End, NamesOn,
         NamesOf, TagRows, TicketOpen, SameRows, SameTickets, SameNumbers, SameStarts;
    GoodParts(cfg, s);
    WorkersFit(cfg, s);
    WorkKeepsLoop(cfg, s, a);
    match a
    case AllocDone(r, success, data) =>
      FinishAllocKeeps(cfg, s.db, s.uuids, r, success, data, TagRows(cfg.pools[s.db.resources[r].pool].TagsAll()));
    case ReleaseDone(r, success) =>
      FinishReleaseKeeps(cfg, s.db, s.uuids, r, success, cfg.pools[s.db.resources[r].pool].reuseMaxCount);
    case TerminateStart(r) => DyingKeeps(cfg, s.db, s.uuids, r);
    case TerminateEnd(r) => DyingKeeps(cfg, s.db, s.uuids, r);
    case _ =>
  }

  lemma LinkedManage(cfg: Config, s: Sys, a: ManagerStep)
    requires Good(cfg, s) && CanManage(cfg, s, a)
    ensures Linked(cfg, DoManage(cfg, s, a).db, DoManage(cfg, s, a).uuids)
  {
    hide Linked, Staffed, DetectClosed, RequestRemoval, Allocate, AssignTicket, SmallestNumbers, OnDemand.Decide,
         OnDemand.WaitingOrder, Assignment.ServiceOrder, MayStart, InitPools;
    match a
    case Begin => OtherTablesKeep(cfg, s.db, s.uuids, InitPools(cfg, s.db));
    case Detect => DetectKeeps(cfg, s.db, s.uuids, Pool(cfg, s.pc.i), s.clock);
    case Remove => RemovalKeeps(cfg, s.db, s.uuids, Pool(cfg, s.pc.i), s.clock);
    case AllocateOne(r, name, id, values) =>
      AllocateKeeps(cfg, s.db, s.uuids, Pool(cfg, s.pc.i), r, name, s.clock, id, values);
    case Assign =>
      var choice := Assignment.Choice(s.db, s.pc.snapshot, s.pc.queue[0]);
      if choice.Some? {
        AssignKeeps(cfg, s.db, s.uuids, choice.value, s.pc.queue[0], s.clock);
      }
    case _ =>
  }

  /** Where a worker's transaction finds its resource. */
  lemma WorkersFit(cfg: Config, s: Sys)
    requires Good(cfg, s)
    ensures forall r :: r in s.staff.allocators ==> InStateNow(s.db, r, STARTING)
    ensures forall r :: r in s.staff.releasers ==> InStateNow(s.db, r, RELEASING)
    ensures forall r :: r in s.staff.terminators ==> IsDying(s.db, r)
    ensures forall r :: r in s.staff.closers ==> IsDying(s.db, r)
    ensures forall r :: r in s.db.resources ==> s.db.resources[r].pool in cfg.pools
  {
    forall r | r in s.staff.allocators ensures InStateNow(s.db, r, STARTING) {
      assert s.staff.allocators[r] > 0;
    }
    forall r | r in s.staff.releasers ensures InStateNow(s.db, r, RELEASING) {
      assert s.staff.releasers[r] > 0;
    }
    forall r | r in s.db.resources ensures s.db.resources[r].pool in cfg.pools {
      assert RowOk(cfg, s.db, r);
    }
  }

  /* ---- Staffed ---- */

  /** No resource enters or leaves a state that has a worker, and none comes back. */
  ghost predicate SameStates(db: Db, db': Db) {
    && (forall r :: InStateNow(db', r, STARTING) == InStateNow(db, r, STARTING))
    && (forall r :: InStateNow(db', r, RELEASING) == InStateNow(db, r, RELEASING))
    && (forall r :: IsDying(db, r) ==> IsDying(db', r))
  }

  lemma SameStaffStays(s: Sys, s': Sys)
    requires Staffed(s) && s.pc != Down && s'.pc != Down
    requires s'.staff == s.staff && SameStates(s.db, s'.db)
    ensures Staffed(s')
  {
  }

  lemma StaffedEnv(cfg: Config, s: Sys, a: EnvStep)
    requires Good(cfg, s) && CanEnv(s, a)
    ensures Staffed(DoEnv(s, a))
  {
    hide Linked, Queued, PcFits, ValidConfig;
    if a.Boot? {
      BootStaffed(s);
    } else if !a.Crash? && s.pc != Down {
      EnvSameStates(s, a);
      hide SameStates;
      SameStaffStays(s, DoEnv(s, a));
    }
  }

  lemma BootStaffed(s: Sys)
    requires Staffed(s) && s.pc == Down
    ensures Staffed(DoEnv(s, Boot))
  {
    forall r ensures !InStateNow(FixBroken(s.db), r, STARTING) && !InStateNow(FixBroken(s.db), r, RELEASING) {
      assert r in s.db.resources ==>
        (r in Broken(s.db) <==> s.db.resources[r].state in {STARTING, DELETING, RELEASING});
    }
  }

  lemma EnvSameStates(s: Sys, a: EnvStep)
    requires CanEnv(s, a) && !a.Crash? && !a.Boot?
    ensures SameStates(s.db, DoEnv(s, a).db)
  {
  }

  lemma StaffedWork(cfg: Config, s: Sys, a: WorkerStep)
    requires Good(cfg, s) && CanWork(cfg, s, a)
    ensures Staffed(DoWork(cfg, s, a))
  {
    hide Good, Linked, Queued, PcFits, ValidConfig, DoWork, Staffed, NamesOf, IsDying, InStateNow;
    GoodParts(cfg, s);
    WorkersFit(cfg, s);
    match a
    case AllocDone(r, success, data) => AllocDoneStaffed(cfg, s, r, success, data);
    case ReleaseDone(r, success) => ReleaseDoneStaffed(cfg, s, r, success);
    case TerminateStart(r) => TerminateStartStaffed(cfg, s, r);
    case TerminateEnd(r) => TerminateEndStaffed(cfg, s, r);
    case _ => CleaningStaffed(cfg, s, a);
  }

  lemma CleaningStaffed(cfg: Config, s: Sys, a: WorkerStep)
    requires Staffed(s) && CanWork(cfg, s, a) && (a.CloudListed? || a.KnownRead? || a.CleanOne? || a.CleanDone?)
    ensures Staffed(DoWork(cfg, s, a))
  {
    hide NamesOf, NamesOn, InStateNow, IsDying;
  }

  /** One resource leaves state `from`; states that matter for the workers are otherwise the same. */
  ghost predicate Leaves(db: Db, db': Db, r: ResourceId, from: RState) {
    && (forall q :: InStateNow(db', q, STARTING) == (InStateNow(db, q, STARTING) && !(q == r && from == STARTING)))
    && (forall q :: InStateNow(db', q, RELEASING) == (InStateNow(db, q, RELEASING) && !(q == r && from == RELEASING)))
    && (forall q :: IsDying(db, q) ==> IsDying(db', q))
  }

  lemma FinishAllocLeaves(db: Db, r: ResourceId, success: bool, data: Data, tags: map<Tag, int>)
    requires InStateNow(db, r, STARTING)
    ensures Leaves(db, FinishAlloc(db, r, success, data, tags), r, STARTING)
  {
  }

  lemma FinishReleaseLeaves(db: Db, r: ResourceId, success: bool, reuseMaxCount: nat)
    requires InStateNow(db, r, RELEASING)
    ensures Leaves(db, FinishRelease(db, r, success, reuseMaxCount), r, RELEASING)
  {
  }

  lemma AllocDoneStaffed(cfg: Config, s: Sys, r: ResourceId, success: bool, data: Data)
    requires Staffed(s) && CanWork(cfg, s, AllocDone(r, success, data))
    ensures Staffed(DoWork(cfg, s, AllocDone(r, success, data)))
  {
    hide FinishAlloc, InStateNow, IsDying, NamesOf, TagRows;
    assert s.staff.allocators[r] > 0;
    FinishAllocLeaves(s.db, r, success, data, TagRows(cfg.pools[s.db.resources[r].pool].TagsAll()));
  }

  lemma ReleaseDoneStaffed(cfg: Config, s: Sys, r: ResourceId, success: bool)
    requires Staffed(s) && CanWork(cfg, s, ReleaseDone(r, success))
    ensures Staffed(DoWork(cfg, s, ReleaseDone(r, success)))
  {
    hide FinishRelease, InStateNow, IsDying, NamesOf;
    assert s.staff.releasers[r] > 0;
    FinishReleaseLeaves(s.db, r, success, cfg.pools[s.db.resources[r].pool].reuseMaxCount);
  }

  lemma DyingStates(db: Db, r: ResourceId)
    requires IsDying(db, r)
    ensures SameStates(db, SetState(db, r, DELETING)) && SameStates(db, End(db, r))
  {
  }

  lemma TerminateStartStaffed(cfg: Config, s: Sys, r: ResourceId)
    requires Staffed(s) && CanWork(cfg, s, TerminateStart(r)) && IsDying(s.db, r)
    ensures Staffed(DoWork(cfg, s, TerminateStart(r)))
  {
    hide SetState, InStateNow, NamesOf, TicketOpen, IsDying, SameRows, SameTickets, SameNumbers, SameStarts, OnlyRow;
    DyingStates(s.db, r);
  }

  lemma TerminateEndStaffed(cfg: Config, s: Sys, r: ResourceId)
    requires Staffed(s) && CanWork(cfg, s, TerminateEnd(r)) && IsDying(s.db, r)
    ensures Staffed(DoWork(cfg, s, TerminateEnd(r)))
  {
    hide End, InStateNow, NamesOf, IsDying;
    DyingStates(s.db, r);
  }

  /** The manager's steps that change neither the tables nor the workers. */
  predicate Quiet(a: ManagerStep) {
    a.Decide? || a.Size? || a.MeasureDelay? || a.Gather? || a.Finish? || a.WakeUp?
  }

  lemma QuietChangesNothing(cfg: Config, s: Sys, a: ManagerStep)
    requires PcFits(cfg, s) && CanManage(cfg, s, a) && Quiet(a)
    ensures var s' := DoManage(cfg, s, a);
            && s'.db == s.db && s'.staff == s.staff && s'.cleaners == s.cleaners
            && s'.uuids == s.uuids && s'.cleaned == s.cleaned && s'.clock == s.clock
  {
    hide OnDemand.Decide, OnDemand.WaitingOrder, Assignment.ServiceOrder, MayStart, Budget, Assignment.ReadyNow;
  }

  lemma StaffedManage(cfg: Config, s: Sys, a: ManagerStep)
    requires Good(cfg, s) && CanManage(cfg, s, a)
    ensures Staffed(DoManage(cfg, s, a))
  {
    ManageMoves(cfg, s, a);
    hide Linked, Queued, ValidConfig;
    match a
    case Detect => DetectStaffed(cfg, s);
    case AllocateOne(r, name, id, values) => AllocateStaffed(cfg, s, r, name, id, values);
    case Collect => CollectStaffed(cfg, s);
    case _ =>
      ManageSameStates(cfg, s, a);
      hide SameStates, DoManage, CanManage, Staffed, PcFits;
      SameStaffStays(s, DoManage(cfg, s, a));
  }

  lemma RemovalStates(db: Db, p: PoolName, c: PoolConfig, now: Time)
    ensures forall r :: r in db.resources ==>
      var x, x' := db.resources[r], RequestRemoval(db, p, c, now).resources[r];
      x' == x || (x.state == UP && x' == x.(state := DELETE_REQUEST))
  {
    var db1 := Kill(db, Failing(db, p, c.livecheckAttempts));
    var db2 := Retire(db1, p, c, now);
    SurplusUnused(db2, p, c);
    hide Surplus;
  }

  lemma ManageSameStates(cfg: Config, s: Sys, a: ManagerStep)
    requires PcFits(cfg, s) && CanManage(cfg, s, a)
    requires a.Begin? || a.Remove? || a.Tidy? || a.Assign? || Quiet(a)
    ensures s.pc != Down
    ensures SameStates(s.db, DoManage(cfg, s, a).db) && DoManage(cfg, s, a).staff == s.staff
  {
    hide SameStates, RequestRemoval, AssignTicket, InitPools, Zeros, SmallestNumbers, SameRows, SameTickets,
         SameNumbers, SameStarts;
    if Quiet(a) {
      QuietChangesNothing(cfg, s, a);
      hide DoManage;
      RowsSameStates(s.db, s.db);
    } else {
      match a
      case Begin => RowsSameStates(s.db, InitPools(cfg, s.db));
      case Remove => RemovalSameStates(s.db, Pool(cfg, s.pc.i), cfg.pools[Pool(cfg, s.pc.i)], s.clock);
      case Tidy(launch) => RowsSameStates(s.db, s.db);
      case Assign =>
        RowsSameStates(s.db, s.db);
        var choice := Assignment.Choice(s.db, s.pc.snapshot, s.pc.queue[0]);
        if choice.Some? { AssignSameStates(s.db, choice.value, s.pc.queue[0], s.clock, Generated(s.uuids)); }
    }
  }

  lemma RowsSameStates(db: Db, db': Db)
    requires db'.resources == db.resources
    ensures SameStates(db, db')
  {
  }

  lemma RemovalSameStates(db: Db, p: PoolName, c: PoolConfig, now: Time)
    ensures SameStates(db, RequestRemoval(db, p, c, now))
  {
    RemovalStates(db, p, c, now);
    hide RequestRemoval;
  }

  lemma AssignSameStates(db: Db, r: ResourceId, t: TicketId, now: Time, uuid: Sandbox)
    requires r in db.resources && t in db.tickets
    ensures SameStates(db, AssignTicket(db, r, t, now, uuid))
  {
  }

  lemma DetectStates(db: Db, p: PoolName, hasRelease: bool, now: Time)
    ensures var d := DetectClosed(db, p, hasRelease, now);
      && (forall r :: InStateNow(d, r, STARTING) == InStateNow(db, r, STARTING))
      && (forall r :: IsDying(db, r) ==> IsDying(d, r))
      && (forall r :: InStateNow(d, r, RELEASING) ==
            (InStateNow(db, r, RELEASING) || (hasRelease && r in Closing(db, p))))
      && (forall r :: r in Closing(db, p) ==> !InStateNow(db, r, RELEASING))
  {
  }

  lemma DetectStaffed(cfg: Config, s: Sys)
    requires Staffed(s) && PcFits(cfg, s) && CanManage(cfg, s, Detect)
    ensures Staffed(DoManage(cfg, s, Detect))
  {
    var p := Pool(cfg, s.pc.i);
    DetectStates(s.db, p, cfg.pools[p].hasRelease, s.clock);
    hide DetectClosed, InStateNow, IsDying, Closing;
    forall r ensures multiset(Closing(s.db, p))[r] == Once(r in Closing(s.db, p)) {}
  }

  lemma CollectStaffed(cfg: Config, s: Sys)
    requires Staffed(s) && PcFits(cfg, s) && CanManage(cfg, s, Collect)
    ensures Staffed(DoManage(cfg, s, Collect))
  {
    var p := Pool(cfg, s.pc.i);
    assert forall r :: r in ToTerminate(s.db, p) ==> IsDying(s.db, r);
    hide ToTerminate;
  }

  lemma AllocateStates(db: Db, p: PoolName, r: ResourceId, name: Name, now: Time, id: nat, values: map<Counter, nat>)
    requires r !in db.resources
    ensures var d := Allocate(db, p, r, name, now, id, values);
      && (forall q :: InStateNow(d, q, STARTING) == (q == r || InStateNow(db, q, STARTING)))
      && (forall q :: InStateNow(d, q, RELEASING) == InStateNow(db, q, RELEASING))
      && (forall q :: IsDying(db, q) ==> IsDying(d, q))
  {
  }

  lemma AllocateStaffed(cfg: Config, s: Sys, r: ResourceId, name: Name, id: nat, values: map<Counter, nat>)
    requires Staffed(s) && PcFits(cfg, s) && CanManage(cfg, s, AllocateOne(r, name, id, values))
    ensures Staffed(DoManage(cfg, s, AllocateOne(r, name, id, values)))
  {
    hide SmallestNumbers, Allocate, NamesOf, IsDying;
    AllocateStates(s.db, Pool(cfg, s.pc.i), r, name, s.clock, id, values);
    assert s.staff.allocators[r] == 0;
    hide InStateNow;
  }
}
