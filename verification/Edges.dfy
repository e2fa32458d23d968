/**
 What one step of any actor can do to a resource and to a ticket.  The safety results over whole
 runs follow from these edges.
 */
module Edges {
  import opened Tables
  import opened Logic
  import opened Links
  import opened Protocol
  import opened Invariant
  import Assignment
  import OnDemand

  /** The life of a resource: what may follow a state in one step. */
  predicate Follows(a: RState, b: RState) {
    match a
    case STARTING => b in {STARTING, UP, ENDED, DELETE_REQUEST}
    case UP => b in {UP, RELEASING, DELETE_REQUEST}
    case RELEASING => b in {RELEASING, UP, DELETE_REQUEST}
    case _ => Dying(b)
  }

  /** A resource that is starting, or up and never taken. */
  predicate Unspent(x: Resource) {
    x.state == STARTING || (x.state == UP && x.ticket.None? && x.releases == 0)
  }

  ghost predicate RowEdge(x: Resource, y: Resource) {
    && y.pool == x.pool && y.name == x.name
    && Follows(x.state, y.state)
    && (x.state != STARTING ==> y.data == x.data && y.tags == x.tags)
    && (!x.sandbox.NoSandbox? ==> y.sandbox == x.sandbox)
    && (Dying(x.state) ==> y.ticket == x.ticket && y.sandbox == x.sandbox && y.releases == x.releases)
    && (Unspent(y) ==> Unspent(x))
  }

  function Age(s: TState): nat {
    match s
    case OPEN => 0
    case FAILED => 1
    case CLOSED => 2
  }

  ghost predicate TicketEdge(x: Ticket, y: Ticket) {
    && y.tags == x.tags
    && Age(x.state) <= Age(y.state)
    && (x.resource.Some? ==> y.resource == x.resource)
    && (if x.sandbox.NoSandbox? then !y.sandbox.Given? else y.sandbox == x.sandbox)
  }

  ghost predicate Edged(db: Db, db': Db) {
    && (forall r :: r in db.resources ==> r in db'.resources && RowEdge(db.resources[r], db'.resources[r]))
    && (forall t :: t in db.tickets ==> t in db'.tickets && TicketEdge(db.tickets[t], db'.tickets[t]))
  }

  lemma SameTables(db: Db, db': Db)
    requires db'.resources == db.resources && db'.tickets == db.tickets
    ensures Edged(db, db')
  {
  }

  lemma EnvEdges(s: Sys, a: EnvStep)
    requires CanEnv(s, a)
    ensures Edged(s.db, DoEnv(s, a).db)
  {
    hide Edged, Kill, Watch, TakeTicket, CloseTicket;
    match a
    case KillOne(r) => KillEdges(s.db, {r});
    case Boot => RequestDeleteEdges(s.db, Broken(s.db));
    case Take(t, tags, sandbox) => TicketEdges(s.db, t, tags, sandbox);
    case Close(t) => TicketEdges(s.db, t, {}, NoSandbox);
    case Check(r, success) => WatchEdges(s.db, r, success);
    case _ => SameTables(s.db, s.db);
  }

  lemma KillEdges(db: Db, doomed: set<ResourceId>)
    ensures Edged(db, Kill(db, doomed))
  {
  }

  lemma RequestDeleteEdges(db: Db, which: set<ResourceId>)
    ensures Edged(db, RequestDelete(db, which))
  {
  }

  lemma WatchEdges(db: Db, r: ResourceId, success: bool)
    requires r in db.resources
    ensures Edged(db, Watch(db, r, success))
  {
  }

  lemma TicketEdges(db: Db, t: TicketId, tags: set<Tag>, sandbox: Sandbox)
    ensures t in db.tickets ==> Edged(db, CloseTicket(db, t))
    ensures t !in db.tickets ==> Edged(db, TakeTicket(db, t, tags, sandbox))
  {
  }

  lemma FinishAllocEdges(db: Db, r: ResourceId, success: bool, data: Data, tags: map<Tag, int>)
    requires InStateNow(db, r, STARTING)
    ensures Edged(db, FinishAlloc(db, r, success, data, tags))
  {
  }

  lemma FinishReleaseEdges(db: Db, r: ResourceId, success: bool, reuseMaxCount: nat)
    requires InStateNow(db, r, RELEASING) && db.resources[r].releases > 0
    ensures Edged(db, FinishRelease(db, r, success, reuseMaxCount))
  {
  }

  lemma DyingEdges(db: Db, r: ResourceId)
    requires IsDying(db, r)
    ensures Edged(db, SetState(db, r, DELETING)) && Edged(db, End(db, r))
  {
  }

  lemma WorkEdges(cfg: Config, s: Sys, a: WorkerStep)
    requires Good(cfg, s) && CanWork(cfg, s, a)
    ensures Edged(s.db, DoWork(cfg, s, a).db)
  {
    WorkersFit(cfg, s);
    if a.ReleaseDone? { assert RowOk(cfg, s.db, a.r); }
    SameTables(s.db, s.db);
    hide Linked, Queued, PcFits, ValidConfig, Staffed, Edged, FinishAlloc, FinishRelease, SetState, End;
    match a
    case AllocDone(r, success, data) =>
      FinishAllocEdges(s.db, r, success, data, TagRows(cfg.pools[s.db.resources[r].pool].TagsAll()));
    case ReleaseDone(r, success) =>
      FinishReleaseEdges(s.db, r, success, cfg.pools[s.db.resources[r].pool].reuseMaxCount);
    case TerminateStart(r) => DyingEdges(s.db, r);
    case TerminateEnd(r) => DyingEdges(s.db, r);
    case _ =>
  }

  lemma DetectEdges(db: Db, p: PoolName, hasRelease: bool, now: Time)
    ensures Edged(db, DetectClosed(db, p, hasRelease, now))
  {
  }

  lemma RemovalEdges(db: Db, p: PoolName, c: PoolConfig, now: Time)
    ensures Edged(db, RequestRemoval(db, p, c, now))
  {
    hide Edged, Kill, RequestDelete, Surplus;
    var db1 := Kill(db, Failing(db, p, c.livecheckAttempts));
    KillEdges(db, Failing(db, p, c.livecheckAttempts));
    DeleteMoreEdges(db, db1, WornOut(db1, p, c, now));
    var db2 := Retire(db1, p, c, now);
    DeleteMoreEdges(db, db2, Surplus(db2, p, c));
  }

  lemma DeleteMoreEdges(a: Db, b: Db, which: set<ResourceId>)
    requires Edged(a, b)
    ensures Edged(a, RequestDelete(b, which))
  {
  }

  lemma AllocateEdges(db: Db, p: PoolName, r: ResourceId, name: Name, now: Time, id: nat, values: map<Counter, nat>)
    requires r !in db.resources
    ensures Edged(db, Allocate(db, p, r, name, now, id, values))
  {
  }

  lemma AssignOneEdges(db: Db, r: ResourceId, t: TicketId, now: Time, uuid: Sandbox)
    requires r in db.resources && t in db.tickets && db.tickets[t].resource.None? && Ready(db.resources[r])
      && uuid.Generated?
    ensures Edged(db, AssignTicket(db, r, t, now, uuid))
  {
  }

  lemma ManageEdges(cfg: Config, s: Sys, a: ManagerStep)
    requires Good(cfg, s) && CanManage(cfg, s, a)
    ensures Edged(s.db, DoManage(cfg, s, a).db)
  {
    SameTables(s.db, s.db);
    if Quiet(a) {
      QuietChangesNothing(cfg, s, a);
      hide DoManage;
    } else {
      hide Linked, ValidConfig, Staffed, Edged, DetectClosed, RequestRemoval, Allocate, AssignTicket, InitPools, Zeros,
           SmallestNumbers;
      match a
      case Begin => SameTables(s.db, InitPools(cfg, s.db));
      case Detect => DetectEdges(s.db, Pool(cfg, s.pc.i), cfg.pools[Pool(cfg, s.pc.i)].hasRelease, s.clock);
      case Remove => RemovalEdges(s.db, Pool(cfg, s.pc.i), cfg.pools[Pool(cfg, s.pc.i)], s.clock);
      case AllocateOne(r, name, id, values) => AllocateEdges(s.db, Pool(cfg, s.pc.i), r, name, s.clock, id, values);
      case Assign =>
        var t := s.pc.queue[0];
        var choice := Assignment.Choice(s.db, s.pc.snapshot, t);
        if choice.Some? { AssignOneEdges(s.db, choice.value, t, s.clock, Generated(s.uuids)); }
      case _ =>
    }
  }

  /* ---- Queued ---- */

  lemma QueuedEnv(cfg: Config, s: Sys, a: EnvStep)
    requires Good(cfg, s) && CanEnv(s, a)
    ensures Queued(DoEnv(s, a))
  {
    hide Linked, ValidConfig, Staffed, PcFits;
  }

  lemma QueuedWork(cfg: Config, s: Sys, a: WorkerStep)
    requires Good(cfg, s) && CanWork(cfg, s, a)
    ensures Queued(DoWork(cfg, s, a))
  {
    hide Linked, ValidConfig, Staffed, PcFits, DoWork, CanWork, TicketEdge;
    WorkEdges(cfg, s, a);
    WorkKeepsLoop(cfg, s, a);
    WorkKeepsTables(cfg, s, a);
    WorkKeepsUp(cfg, s, a);
    if s.pc.Assigning? {
      var db' := DoWork(cfg, s, a).db;
      forall r | r in s.pc.snapshot ensures db'.resources[r].state == UP || Dying(db'.resources[r].state) {
        assert InStateNow(s.db, r, UP) || RowEdge(s.db.resources[r], db'.resources[r]);
      }
    }
  }

  /** A worker never takes a resource away that is up. */
  lemma WorkKeepsUp(cfg: Config, s: Sys, a: WorkerStep)
    requires Good(cfg, s) && CanWork(cfg, s, a)
    ensures forall r :: InStateNow(s.db, r, UP) ==> InStateNow(DoWork(cfg, s, a).db, r, UP)
  {
    hide Good, NamesOn, NamesOf, TagRows, TicketOpen, SameRows, SameTickets, SameNumbers, SameStarts, FinishAlloc,
         FinishRelease, End, SetState, OnlyRow;
    WorkersFit(cfg, s);
    match a
    case AllocDone(r, success, data) => OthersKeepUp(s.db, DoWork(cfg, s, a).db, r);
    case ReleaseDone(r, success) => OthersKeepUp(s.db, DoWork(cfg, s, a).db, r);
    case TerminateStart(r) => OthersKeepUp(s.db, SetState(s.db, r, DELETING), r);
    case TerminateEnd(r) => OthersKeepUp(s.db, DoWork(cfg, s, a).db, r);
    case _ =>
  }

  lemma OthersKeepUp(db: Db, db': Db, r: ResourceId)
    requires OnlyRow(db', db, r) && !InStateNow(db, r, UP)
    ensures forall q :: InStateNow(db, q, UP) ==> InStateNow(db', q, UP)
  {
  }

  lemma QueuedManage(cfg: Config, s: Sys, a: ManagerStep)
    requires Good(cfg, s) && CanManage(cfg, s, a)
    ensures Queued(DoManage(cfg, s, a))
  {
    match a
    case Gather => GatherQueued(cfg, s);
    case Assign => AssignQueued(cfg, s);
    case _ =>
      hide Linked, ValidConfig, Staffed, DetectClosed, RequestRemoval, Allocate, InitPools, OnDemand.Decide,
           OnDemand.WaitingOrder, Zeros, SmallestNumbers, MayStart, Closing, ToTerminate, Budget;
  }

  lemma GatherQueued(cfg: Config, s: Sys)
    requires PcFits(cfg, s) && CanManage(cfg, s, Gather)
    ensures Queued(DoManage(cfg, s, Gather))
  {
    Assignment.OrderOfService(s.db, OnDemand.OnDemandTags(cfg));
    hide Assignment.ServiceOrder, Assignment.ComesFirst;
  }

  lemma AssignQueued(cfg: Config, s: Sys)
    requires Good(cfg, s) && CanManage(cfg, s, Assign)
    ensures Queued(DoManage(cfg, s, Assign))
  {
    hide Linked, ValidConfig, Staffed, PcFits;
  }

  /* ---- all together ---- */

  lemma GoodStep(cfg: Config, s: Sys, a: Action)
    requires Good(cfg, s) && Can(cfg, s, a)
    ensures Good(cfg, Do(cfg, s, a))
    ensures Edged(s.db, Do(cfg, s, a).db)
  {
    hide PcFits, Linked, Staffed, Queued, Edged, DoEnv, DoWork, DoManage, CanEnv, CanWork, CanManage, ValidConfig;
    match a
    case Env(e) =>
      FitsEnv(cfg, s, e); LinkedEnv(cfg, s, e); StaffedEnv(cfg, s, e); QueuedEnv(cfg, s, e); EnvEdges(s, e);
    case Work(w) =>
      FitsWork(cfg, s, w); LinkedWork(cfg, s, w); StaffedWork(cfg, s, w); QueuedWork(cfg, s, w); WorkEdges(cfg, s, w);
    case Manage(m) =>
      FitsManage(cfg, s, m); LinkedManage(cfg, s, m); StaffedManage(cfg, s, m); QueuedManage(cfg, s, m);
      ManageEdges(cfg, s, m);
  }

  lemma {:induction false} GoodRun(cfg: Config, run: Run, i: nat)
    requires ValidConfig(cfg) && Valid(cfg, run) && i < |run.states|
    ensures Good(cfg, run.states[i])
    decreases i
  {
    hide Good, Can, Do, Takes;
    if i == 0 {
      InitialGood(cfg, run.states[0]);
    } else {
      GoodRun(cfg, run, i - 1);
      StepOf(cfg, run, i - 1);
      GoodStep(cfg, run.states[i - 1], run.actions[i - 1]);
    }
  }

  lemma StepOf(cfg: Config, run: Run, i: nat)
    requires Valid(cfg, run) && i < |run.actions|
    ensures Can(cfg, run.states[i], run.actions[i])
    ensures run.states[i + 1] == Do(cfg, run.states[i], run.actions[i])
  {
    hide Can, Do;
    assert Takes(cfg, run.states[i], run.actions[i], run.states[i + 1]);
  }
}
