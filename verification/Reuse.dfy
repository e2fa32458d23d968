/**
 How often a resource is used.  The limits rest on the order of the manager's loop: tickets are
 released first, then worn out resources are removed, then assigned.  Only a release command that
 ends between the removal pass and the assignment gets around them.
 */
module Reuse {
  import opened Collections
  import opened Tables
  import opened Logic
  import opened Links
  import opened Protocol
  import opened Invariant
  import opened Edges
  import Assignment
  import OnDemand
  import Quotas
  import Safety

  /** The tickets that a resource ever served; a ticket never changes its resource. */
  function Served(db: Db, r: ResourceId): set<TicketId> {
    set t | t in db.tickets && db.tickets[t].resource == Some(r)
  }

  /** How often a row says it was used. */
  function Uses(x: Resource): nat { x.releases + if x.ticket.Some? then 1 else 0 }

  predicate Idle(x: Resource) { x.state == UP && x.ticket.None? }

  /** A resource whose release or start is not pending. */
  predicate Settled(x: Resource) { x.state != STARTING && x.state != RELEASING }

  /** One more use is allowed. */
  predicate Usable(c: PoolConfig, releases: nat) {
    (c.reuseOpportunityTime == 0.0 ==> releases == 0) && (c.reuseMaxCount > 0 ==> releases <= c.reuseMaxCount)
  }

  /** The removal pass of the `k`-th pool is over in this loop. */
  predicate Processed(pc: Pc, k: nat) {
    match pc
    case Removing(i) => k < i
    case Collecting(i) => k <= i
    case Sizing(i) => k <= i
    case Timing(i) => k <= i
    case Allocating(i) => k <= i
    case Tidying(i) => k <= i
    case Gathering => true
    case Assigning(queue, snapshot) => true
    case _ => false
  }

  /* ---- what a step other than an assignment does to the uses ---- */

  /** No ticket is served, and all rows but perhaps `but` count as many uses as before. */
  ghost predicate UnusedBy(db: Db, db': Db, but: Option<ResourceId>) {
    && (forall r :: r in db.resources ==> r in db'.resources && db'.resources[r].pool == db.resources[r].pool)
    && (forall r :: r in db.resources && but != Some(r) ==> SameUses(db.resources[r], db'.resources[r]))
    && (forall r :: r in db'.resources && r !in db.resources ==> Uses(db'.resources[r]) == 0)
    && (forall t, r :: HasBeenServed(db', t, r) <==> HasBeenServed(db, t, r))
  }

  predicate SameUses(x: Resource, y: Resource) {
    Uses(y) == Uses(x) && (x.ticket.None? ==> y.ticket.None?)
  }

  ghost predicate HasBeenServed(db: Db, t: TicketId, r: ResourceId) {
    t in db.tickets && db.tickets[t].resource == Some(r)
  }

  /** No resource becomes idle, unless it was never used or is `but`. */
  ghost predicate NoneIdles(db: Db, db': Db, but: Option<ResourceId>) {
    forall r :: r in db'.resources && Idle(db'.resources[r]) ==>
      || db'.resources[r].releases == 0 || but == Some(r)
      || (r in db.resources && Idle(db.resources[r]))
  }

  /** A settled resource stays so, and is not released. */
  ghost predicate Calm(db: Db, db': Db) {
    forall r :: r in db.resources && Settled(db.resources[r]) ==>
      r in db'.resources && Settled(db'.resources[r]) && db'.resources[r].releases == db.resources[r].releases
  }

  ghost predicate KeepsUse(db: Db, db': Db, but: Option<ResourceId>) {
    UnusedBy(db, db', but) && NoneIdles(db, db', but) && Calm(db, db')
  }

  lemma SameRowsUnused(db: Db, db': Db)
    requires db'.resources == db.resources && db'.tickets == db.tickets
    ensures KeepsUse(db, db', None)
  {
  }

  lemma EnvUnused(s: Sys, a: EnvStep)
    requires CanEnv(s, a)
    ensures KeepsUse(s.db, DoEnv(s, a).db, None)
  {
    hide KeepsUse, Kill, FixBroken, Watch, TakeTicket, CloseTicket;
    SameRowsUnused(s.db, s.db);
    match a
    case Take(t, tags, sandbox) => TicketUnused(s.db, t, tags, sandbox);
    case Close(t) => TicketUnused(s.db, t, {}, NoSandbox);
    case KillOne(r) => KillUnused(s.db, {r});
    case Check(r, success) => WatchUnused(s.db, r, success);
    case Boot => FixUnused(s.db);
    case _ =>
  }

  lemma TicketUnused(db: Db, t: TicketId, tags: set<Tag>, sandbox: Sandbox)
    ensures t in db.tickets ==> KeepsUse(db, CloseTicket(db, t), None)
    ensures t !in db.tickets ==> KeepsUse(db, TakeTicket(db, t, tags, sandbox), None)
  {
  }

  /** What keeps one row's use. */
  predicate RowKeepsUse(x: Resource, y: Resource) {
    && y.pool == x.pool && SameUses(x, y) && (Idle(y) ==> Idle(x))
    && (Settled(x) ==> Settled(y) && y.releases == x.releases)
  }

  lemma RowsKeepUse(db: Db, db': Db)
    requires db'.resources.Keys == db.resources.Keys
    requires forall r :: r in db.resources ==> RowKeepsUse(db.resources[r], db'.resources[r])
    requires forall t, r :: HasBeenServed(db', t, r) <==> HasBeenServed(db, t, r)
    ensures KeepsUse(db, db', None)
  {
    hide HasBeenServed;
  }

  lemma KillUnused(db: Db, doomed: set<ResourceId>)
    ensures KeepsUse(db, Kill(db, doomed), None)
  {
    hide KeepsUse;
    var db' := Kill(db, doomed);
    forall r | r in db.resources ensures RowKeepsUse(db.resources[r], db'.resources[r]) {}
    forall t, r ensures HasBeenServed(db', t, r) <==> HasBeenServed(db, t, r) {}
    hide Kill, RowKeepsUse, HasBeenServed;
    RowsKeepUse(db, db');
  }

  lemma WatchUnused(db: Db, r: ResourceId, success: bool)
    requires r in db.resources
    ensures KeepsUse(db, Watch(db, r, success), None)
  {
    hide KeepsUse, OnlyRow;
    OneRowKeepsUse(db, Watch(db, r, success), r, None);
  }

  lemma FixUnused(db: Db)
    ensures KeepsUse(db, FixBroken(db), None)
  {
    hide KeepsUse;
    forall r | r in db.resources ensures RowKeepsUse(db.resources[r], FixBroken(db).resources[r]) {}
    forall t, r ensures HasBeenServed(FixBroken(db), t, r) <==> HasBeenServed(db, t, r) {}
    hide FixBroken, RowKeepsUse, HasBeenServed;
    RowsKeepUse(db, FixBroken(db));
  }

  /** The resource whose release a worker's step ends. */
  function ReleaseOf(a: WorkerStep): Option<ResourceId> {
    if a.ReleaseDone? then Some(a.r) else None
  }

  lemma WorkUnused(cfg: Config, s: Sys, a: WorkerStep)
    requires Good(cfg, s) && CanWork(cfg, s, a)
    ensures KeepsUse(s.db, DoWork(cfg, s, a).db, ReleaseOf(a))
  {
    hide Good, KeepsUse, FinishAlloc, FinishRelease, End, SetState, NamesOf, NamesOn, TagRows, TicketOpen, Linked,
         SameRows, SameTickets, SameNumbers, SameStarts, OnlyRow, Staffed, Queued, PcFits, ValidConfig;
    SameRowsUnused(s.db, s.db);
    WorkersFit(cfg, s);
    GoodParts(cfg, s);
    match a
    case AllocDone(r, success, data) =>
      FinishAllocUnused(cfg, s.db, s.uuids, r, success, data, TagRows(cfg.pools[s.db.resources[r].pool].TagsAll()));
    case ReleaseDone(r, success) =>
      FinishReleaseUnused(s.db, r, success, cfg.pools[s.db.resources[r].pool].reuseMaxCount);
    case TerminateStart(r) => DyingUnused(s.db, r);
    case TerminateEnd(r) => DyingUnused(s.db, r);
    case _ =>
  }

  /** A transaction on one row that neither uses it nor lets it become idle with a history. */
  lemma OneRowKeepsUse(db: Db, db': Db, r: ResourceId, but: Option<ResourceId>)
    requires OnlyRow(db', db, r) && SameTickets(db', db) && r in db.resources
    requires db'.resources[r].pool == db.resources[r].pool
    requires but == Some(r) || SameUses(db.resources[r], db'.resources[r])
    requires but == Some(r) || !Idle(db'.resources[r]) || db'.resources[r].releases == 0 || Idle(db.resources[r])
    requires Settled(db.resources[r]) ==>
      Settled(db'.resources[r]) && db'.resources[r].releases == db.resources[r].releases
    ensures KeepsUse(db, db', but)
  {
  }

  lemma FinishAllocUnused(cfg: Config, db: Db, uuids: nat, r: ResourceId, success: bool, data: Data,
                          tags: map<Tag, int>)
    requires Linked(cfg, db, uuids) && InStateNow(db, r, STARTING)
    ensures KeepsUse(db, FinishAlloc(db, r, success, data, tags), None)
  {
    assert RowOk(cfg, db, r);
    hide Linked, KeepsUse, FinishAlloc, OnlyRow;
    OneRowKeepsUse(db, FinishAlloc(db, r, success, data, tags), r, None);
  }

  lemma FinishReleaseUnused(db: Db, r: ResourceId, success: bool, reuseMaxCount: nat)
    requires InStateNow(db, r, RELEASING)
    ensures KeepsUse(db, FinishRelease(db, r, success, reuseMaxCount), Some(r))
  {
    hide KeepsUse, OnlyRow;
    OneRowKeepsUse(db, FinishRelease(db, r, success, reuseMaxCount), r, Some(r));
  }

  lemma DyingUnused(db: Db, r: ResourceId)
    requires IsDying(db, r)
    ensures KeepsUse(db, SetState(db, r, DELETING), None) && KeepsUse(db, End(db, r), None)
  {
    hide KeepsUse, OnlyRow;
    OneRowKeepsUse(db, SetState(db, r, DELETING), r, None);
    OneRowKeepsUse(db, End(db, r), r, None);
  }

  lemma DetectUnused(db: Db, p: PoolName, hasRelease: bool, now: Time)
    ensures UnusedBy(db, DetectClosed(db, p, hasRelease, now), None)
  {
  }

  lemma AllocateUnused(db: Db, p: PoolName, r: ResourceId, name: Name, now: Time, id: nat, values: map<Counter, nat>)
    requires r !in db.resources
    ensures KeepsUse(db, Allocate(db, p, r, name, now, id, values), None)
  {
  }

  lemma RemovalUnused(db: Db, p: PoolName, c: PoolConfig, now: Time)
    ensures KeepsUse(db, RequestRemoval(db, p, c, now), None)
  {
    RemovalStates(db, p, c, now);
    RemovalTickets(db, p, c, now);
    hide RequestRemoval, HasBeenServed;
  }

  lemma RemovalTickets(db: Db, p: PoolName, c: PoolConfig, now: Time)
    ensures var db' := RequestRemoval(db, p, c, now);
            forall t, r :: HasBeenServed(db', t, r) <==> HasBeenServed(db, t, r)
  {
    hide Surplus, WornOut, Failing, SameRows, SameNumbers, SameStarts;
  }

  /** What the removal pass leaves idle in its pool, no reuse limit retires. */
  lemma RemovalRetires(cfg: Config, db: Db, uuids: nat, p: PoolName, now: Time, r: ResourceId)
    requires Linked(cfg, db, uuids) && p in cfg.pools && r in db.resources && db.resources[r].pool == p
    requires r in RequestRemoval(db, p, cfg.pools[p], now).resources
    requires Idle(RequestRemoval(db, p, cfg.pools[p], now).resources[r])
    ensures Usable(cfg.pools[p], db.resources[r].releases)
    ensures RequestRemoval(db, p, cfg.pools[p], now).resources[r] == db.resources[r]
  {
    var c := cfg.pools[p];
    var db1 := Kill(db, Failing(db, p, c.livecheckAttempts));
    var db2 := Retire(db1, p, c, now);
    assert RowOk(cfg, db, r);
    hide Linked;
    TrimRow(db2, p, c, r);
    RetireRow(db1, p, c, now, r);
    KilledRow(db, Failing(db, p, c.livecheckAttempts), r);
    hide Kill, Retire, Trim;
  }

  lemma TrimRow(db: Db, p: PoolName, c: PoolConfig, r: ResourceId)
    requires r in db.resources
    ensures r in Trim(db, p, c).resources
    ensures Trim(db, p, c).resources[r].state == UP ==> Trim(db, p, c).resources[r] == db.resources[r]
  {
    hide Surplus;
  }

  lemma RetireRow(db: Db, p: PoolName, c: PoolConfig, now: Time, r: ResourceId)
    requires r in db.resources
    ensures r in Retire(db, p, c, now).resources
    ensures Retire(db, p, c, now).resources[r].state == UP ==> Retire(db, p, c, now).resources[r] == db.resources[r]
    ensures Retire(db, p, c, now).resources[r].state == UP && db.resources[r].pool == p ==>
        !Worn(db.resources[r], c, now)
  {
    hide Worn;
    assert r in WornOut(db, p, c, now) <==> db.resources[r].pool == p && Worn(db.resources[r], c, now);
  }

  lemma KilledRow(db: Db, doomed: set<ResourceId>, r: ResourceId)
    requires r in db.resources
    ensures r in Kill(db, doomed).resources
    ensures Kill(db, doomed).resources[r].state == UP ==> Kill(db, doomed).resources[r] == db.resources[r]
  {
  }

  lemma ManageUnused(cfg: Config, s: Sys, a: ManagerStep)
    requires PcFits(cfg, s) && CanManage(cfg, s, a) && !a.Detect? && !a.Assign?
    ensures KeepsUse(s.db, DoManage(cfg, s, a).db, None)
  {
    SameRowsUnused(s.db, s.db);
    if Quiet(a) {
      QuietChangesNothing(cfg, s, a);
      hide DoManage, KeepsUse;
    } else {
      hide KeepsUse, InitPools, Zeros, Allocate, SmallestNumbers, NamesOf, RequestRemoval;
      match a
      case Begin => SameRowsUnused(s.db, InitPools(cfg, s.db));
      case Remove => RemovalUnused(s.db, Pool(cfg, s.pc.i), cfg.pools[Pool(cfg, s.pc.i)], s.clock);
      case AllocateOne(r, name, id, values) =>
        AllocateUnused(s.db, Pool(cfg, s.pc.i), r, name, s.clock, id, values);
      case _ =>
    }
  }

  /* ---- an assignment ---- */

  /** The resource that an assignment gives to the ticket at the head of the queue. */
  ghost function Given(s: Sys): Option<ResourceId> {
    if s.pc.Assigning? && s.pc.queue != [] && s.pc.queue[0] in s.db.tickets
    then Assignment.Choice(s.db, s.pc.snapshot, s.pc.queue[0]) else None
  }

  lemma AssignServes(db: Db, r: ResourceId, t: TicketId, now: Time, uuid: Sandbox)
    requires r in db.resources && t in db.tickets && db.tickets[t].resource.None? && Ready(db.resources[r])
    ensures var db' := AssignTicket(db, r, t, now, uuid);
      && (forall q :: q in db.resources && q != r ==> q in db'.resources && db'.resources[q] == db.resources[q])
      && r in db'.resources && db'.resources[r].pool == db.resources[r].pool
      && db'.resources[r].ticket.Some? && db'.resources[r].releases == db.resources[r].releases
      && (forall q :: Served(db', q) == if q == r then Served(db, q) + {t} else Served(db, q))
      && t !in Served(db, r)
      && NoneIdles(db, db', None) && Calm(db, db')
  {
    var db' := AssignTicket(db, r, t, now, uuid);
    forall q ensures Served(db', q) == if q == r then Served(db, q) + {t} else Served(db, q) {}
    hide Served;
  }

  /** The steps of the whole system that are neither a detection nor an assignment. */
  function ReleasedBy(a: Action): Option<ResourceId> { if a.Work? then ReleaseOf(a.w) else None }

  predicate IsDetect(a: Action) { a.Manage? && a.m.Detect? }

  predicate IsAssign(a: Action) { a.Manage? && a.m.Assign? }

  lemma StepUnused(cfg: Config, s: Sys, a: Action)
    requires Good(cfg, s) && Can(cfg, s, a) && !IsDetect(a) && !IsAssign(a)
    ensures KeepsUse(s.db, Do(cfg, s, a).db, ReleasedBy(a))
  {
    hide Good, KeepsUse, CanEnv, CanWork, CanManage, DoEnv, DoWork, DoManage, PcFits;
    match a
    case Env(e) => EnvUnused(s, e);
    case Work(w) => WorkUnused(cfg, s, w);
    case Manage(m) => ManageUnused(cfg, s, m);
  }

  lemma AssignStep(cfg: Config, s: Sys)
    requires Good(cfg, s) && Can(cfg, s, Manage(Assign))
    ensures var db' := Do(cfg, s, Manage(Assign)).db; var t := s.pc.queue[0];
      if Given(s).None? then db' == s.db
      else && Given(s).value in s.db.resources && Ready(s.db.resources[Given(s).value]) && t in s.db.tickets
           && s.db.tickets[t].resource.None?
           && db' == AssignTicket(s.db, Given(s).value, t, s.clock, Generated(s.uuids))
  {
    hide Linked, Staffed, ValidConfig, AssignTicket;
  }

  /** Every step but a detection. */
  lemma StepIdles(cfg: Config, s: Sys, a: Action)
    requires Good(cfg, s) && Can(cfg, s, a) && !IsDetect(a)
    ensures NoneIdles(s.db, Do(cfg, s, a).db, ReleasedBy(a)) && Calm(s.db, Do(cfg, s, a).db)
  {
    if IsAssign(a) {
      hide Good, Can, Do, NoneIdles, Calm, AssignTicket, Served;
      AssignStep(cfg, s);
      if Given(s).Some? {
        AssignServes(s.db, Given(s).value, s.pc.queue[0], s.clock, Generated(s.uuids));
      } else {
        SameRowsUnused(s.db, s.db);
        hide UnusedBy;
      }
    } else {
      hide Good, Can, Do, NoneIdles, Calm, UnusedBy;
      StepUnused(cfg, s, a);
    }
  }

  /* ---- the uses of one resource ---- */

  /** Nothing but time limits the reuse in the pool. */
  predicate NoLimit(c: PoolConfig) { c.reuseOpportunityTime != 0.0 && c.reuseMaxCount == 0 }

  /**
   The row counts all tickets that the resource served, unless a failed release has marked it; and
   every ticket before the last left room for one more.
   */
  ghost predicate UseOk(c: PoolConfig, db: Db, r: ResourceId)
    requires r in db.resources
  {
    var x, n := db.resources[r], |Served(db, r)|;
    && (!c.hasRelease ==> n == Uses(x))
    && (NoLimit(c) || n <= Uses(x) || (x.ticket.None? && x.releases == c.reuseMaxCount + 1))
    && (n > 0 ==> Usable(c, n - 1))
  }

  lemma ServedStays(db: Db, db': Db, r: ResourceId)
    requires forall t, q :: HasBeenServed(db', t, q) <==> HasBeenServed(db, t, q)
    ensures Served(db', r) == Served(db, r)
  {
    forall t ensures t in Served(db', r) <==> t in Served(db, r) {
      assert HasBeenServed(db', t, r) <==> HasBeenServed(db, t, r);
    }
  }

  lemma NewIsUnused(cfg: Config, db: Db, db': Db, uuids: nat, r: ResourceId, c: PoolConfig, but: Option<ResourceId>)
    requires Linked(cfg, db, uuids) && UnusedBy(db, db', but) && r !in db.resources && r in db'.resources
    ensures UseOk(c, db', r)
  {
    ServedStays(db, db', r);
    forall t ensures t !in Served(db, r) {
      if t in db.tickets { assert TicketOk(db, uuids, t); }
    }
    assert Served(db, r) == {};
  }

  lemma UnusedStays(c: PoolConfig, db: Db, db': Db, r: ResourceId, but: Option<ResourceId>)
    requires UnusedBy(db, db', but) && r in db.resources && but != Some(r) && UseOk(c, db, r)
    ensures r in db'.resources && db'.resources[r].pool == db.resources[r].pool && UseOk(c, db', r)
  {
    ServedStays(db, db', r);
    hide Served, Usable;
  }

  lemma ReleaseStays(c: PoolConfig, db: Db, r: ResourceId, success: bool)
    requires InStateNow(db, r, RELEASING) && db.resources[r].ticket.None? && c.hasRelease && UseOk(c, db, r)
    ensures UseOk(c, FinishRelease(db, r, success, c.reuseMaxCount), r)
  {
    var db' := FinishRelease(db, r, success, c.reuseMaxCount);
    assert Served(db', r) == Served(db, r);
    hide Served, Usable;
  }

  lemma AssignStays(c: PoolConfig, db: Db, r: ResourceId, t: TicketId, now: Time, uuid: Sandbox, q: ResourceId)
    requires r in db.resources && t in db.tickets && db.tickets[t].resource.None? && Ready(db.resources[r])
    requires q in db.resources && UseOk(c, db, q) && (q == r ==> Usable(c, db.resources[r].releases))
    ensures q in AssignTicket(db, r, t, now, uuid).resources && UseOk(c, AssignTicket(db, r, t, now, uuid), q)
  {
    AssignServes(db, r, t, now, uuid);
    hide AssignTicket, Served, NoneIdles, Calm;
  }

  /* ---- over a run ---- */

  /** The `i`-th step gives `r` to a ticket. */
  ghost predicate Gives(run: Run, i: nat, r: ResourceId) {
    i < |run.actions| && i < |run.states| && IsAssign(run.actions[i]) && Given(run.states[i]) == Some(r)
  }

  /** It does so although the resource was released more often than the limits allow. */
  ghost predicate Exceeds(cfg: Config, run: Run, i: nat, r: ResourceId) {
    && Gives(run, i, r) && r in run.states[i].db.resources && run.states[i].db.resources[r].pool in cfg.pools
    && !Usable(cfg.pools[run.states[i].db.resources[r].pool], run.states[i].db.resources[r].releases)
  }

  lemma StepUse(cfg: Config, s: Sys, a: Action, r: ResourceId, c: PoolConfig)
    requires Good(cfg, s) && Can(cfg, s, a) && r in Do(cfg, s, a).db.resources
    requires r in s.db.resources ==>
      s.db.resources[r].pool in cfg.pools && c == cfg.pools[s.db.resources[r].pool] && UseOk(c, s.db, r)
    requires IsAssign(a) && Given(s) == Some(r) && r in s.db.resources ==> Usable(c, s.db.resources[r].releases)
    ensures UseOk(c, Do(cfg, s, a).db, r)
  {
    hide Good, Can, Do, UseOk, UnusedBy, Linked, Staffed, Queued, PcFits, ValidConfig, AssignTicket, Usable;
    GoodParts(cfg, s);
    if IsAssign(a) {
      AssignUse(cfg, s, r, c);
    } else if ReleasedBy(a) == Some(r) {
      ReleaseUse(cfg, s, a, r, c);
    } else {
      OtherUse(cfg, s, a);
      if r in s.db.resources {
        UnusedStays(c, s.db, Do(cfg, s, a).db, r, ReleasedBy(a));
      } else {
        NewIsUnused(cfg, s.db, Do(cfg, s, a).db, s.uuids, r, c, ReleasedBy(a));
      }
    }
  }

  lemma OtherUse(cfg: Config, s: Sys, a: Action)
    requires Good(cfg, s) && Can(cfg, s, a) && !IsAssign(a)
    ensures UnusedBy(s.db, Do(cfg, s, a).db, ReleasedBy(a))
  {
    if IsDetect(a) {
      DetectUnused(s.db, Pool(cfg, s.pc.i), cfg.pools[Pool(cfg, s.pc.i)].hasRelease, s.clock);
      hide UnusedBy, DetectClosed, Closing, Linked, Staffed, Queued, ValidConfig;
    } else {
      hide Good, Can, Do, UnusedBy;
      StepUnused(cfg, s, a);
    }
  }

  lemma AssignUse(cfg: Config, s: Sys, r: ResourceId, c: PoolConfig)
    requires Good(cfg, s) && Can(cfg, s, Manage(Assign)) && r in Do(cfg, s, Manage(Assign)).db.resources
    requires r in s.db.resources ==> UseOk(c, s.db, r)
    requires Given(s) == Some(r) && r in s.db.resources ==> Usable(c, s.db.resources[r].releases)
    ensures UseOk(c, Do(cfg, s, Manage(Assign)).db, r)
  {
    hide Good, Can, Do, UseOk, AssignTicket, Usable;
    AssignStep(cfg, s);
    if Given(s).Some? {
      AssignServes(s.db, Given(s).value, s.pc.queue[0], s.clock, Generated(s.uuids));
      AssignStays(c, s.db, Given(s).value, s.pc.queue[0], s.clock, Generated(s.uuids), r);
    }
  }

  lemma ReleaseUse(cfg: Config, s: Sys, a: Action, r: ResourceId, c: PoolConfig)
    requires Good(cfg, s) && Can(cfg, s, a) && ReleasedBy(a) == Some(r) && r in Do(cfg, s, a).db.resources
    requires r in s.db.resources ==>
      s.db.resources[r].pool in cfg.pools && c == cfg.pools[s.db.resources[r].pool] && UseOk(c, s.db, r)
    ensures UseOk(c, Do(cfg, s, a).db, r)
  {
    hide UseOk, PcFits, FinishRelease, NamesOf;
    WorkersFit(cfg, s);
    assert RowOk(cfg, s.db, r);
    hide Linked, Staffed, Queued, ValidConfig;
    ReleaseStays(c, s.db, r, a.w.success);
  }

  lemma {:induction false} UseRun(cfg: Config, run: Run, i: nat, r: ResourceId)
    requires ValidConfig(cfg) && Valid(cfg, run) && i < |run.states| && r in run.states[i].db.resources
    requires forall j :: 0 <= j < i ==> !Exceeds(cfg, run, j, r)
    ensures run.states[i].db.resources[r].pool in cfg.pools
    ensures UseOk(cfg.pools[run.states[i].db.resources[r].pool], run.states[i].db, r)
    decreases i
  {
    hide Good, Can, Do, Takes, UseOk, Usable, Linked, Staffed;
    PoolKnown(cfg, run, i, r);
    if i > 0 {
      var b := i - 1;
      GoodRun(cfg, run, b);
      StepOf(cfg, run, b);
      Safety.RunEdge(cfg, run, b);
      if r in run.states[b].db.resources {
        UseRun(cfg, run, b, r);
        assert !Exceeds(cfg, run, b, r);
      }
      hide TicketEdge;
      StepUse(cfg, run.states[b], run.actions[b], r, cfg.pools[run.states[i].db.resources[r].pool]);
    }
  }

  lemma PoolKnown(cfg: Config, run: Run, i: nat, r: ResourceId)
    requires ValidConfig(cfg) && Valid(cfg, run) && i < |run.states| && r in run.states[i].db.resources
    ensures run.states[i].db.resources[r].pool in cfg.pools
  {
    hide Takes;
    Safety.RunLinked(cfg, run, i);
    hide Valid, ValidConfig, Staffed;
    assert RowOk(cfg, run.states[i].db, r);
  }

  /* ---- releases that end late ---- */

  /**
   At step `j` a release of `r` ends when the removal pass of the `k`-th pool is over, and until `i`
   the manager stays in that loop.
   */
  ghost predicate ReleasedSince(run: Run, j: nat, i: nat, k: nat, r: ResourceId) {
    && j < i < |run.states| && i <= |run.actions| && ReleasedBy(run.actions[j]) == Some(r)
    && (forall m :: j <= m <= i ==> Processed(run.states[m].pc, k))
    && r in run.states[j + 1].db.resources
  }

  /** And it has then been released more often than the limits allow. */
  ghost predicate ReleasedLate(cfg: Config, run: Run, j: nat, i: nat, k: nat, r: ResourceId) {
    && ReleasedSince(run, j, i, k, r) && k < |cfg.order| && cfg.order[k] in cfg.pools
    && !Usable(cfg.pools[cfg.order[k]], run.states[j + 1].db.resources[r].releases)
  }

  /** Only its own removal pass moves the manager past a pool. */
  lemma OthersPc(cfg: Config, s: Sys, a: ManagerStep, k: nat)
    requires PcFits(cfg, s) && CanManage(cfg, s, a) && k < |cfg.order| && Processed(DoManage(cfg, s, a).pc, k)
    ensures !a.Detect? && (Processed(s.pc, k) || (a.Remove? && s.pc.Removing? && s.pc.i == k))
  {
    hide MayStart, OnDemand.Decide, OnDemand.WaitingOrder, Assignment.ServiceOrder, Assignment.ReadyNow, InitPools,
         Zeros, Budget, SmallestNumbers, Allocate, NamesOf, RequestRemoval, DetectClosed, Closing, AssignTicket;
  }

  lemma PcStep(cfg: Config, s: Sys, a: Action, k: nat)
    requires Can(cfg, s, a) && k < |cfg.order| && Processed(Do(cfg, s, a).pc, k)
    ensures !IsDetect(a)
    ensures Processed(s.pc, k) || (a == Manage(Remove) && s.pc.Removing? && s.pc.i == k)
  {
    hide PcFits, DoEnv, DoWork, DoManage, CanEnv, CanWork, CanManage;
    match a
    case Env(e) => Quotas.EnvPc(s, e);
    case Work(w) => WorkKeepsLoop(cfg, s, w);
    case Manage(m) => OthersPc(cfg, s, m, k);
  }

  lemma RemoveStep(cfg: Config, s: Sys)
    requires Can(cfg, s, Manage(Remove)) && s.pc.Removing? && s.pc.i < |cfg.order| && cfg.order[s.pc.i] in cfg.pools
    ensures var p := cfg.order[s.pc.i];
            Do(cfg, s, Manage(Remove)).db == RequestRemoval(s.db, p, cfg.pools[p], s.clock)
  {
    hide RequestRemoval;
  }

  /**
   Once the removal pass of a pool is over, an idle resource of it may be used once more under the
   limits of the pool, or its release has ended after that pass.
   */
  lemma {:induction false} IdleIsUsableOrLate(cfg: Config, run: Run, i: nat, k: nat, r: ResourceId)
    requires ValidConfig(cfg) && Valid(cfg, run) && i < |run.states| && k < |cfg.order|
    requires Processed(run.states[i].pc, k) && r in run.states[i].db.resources
    requires run.states[i].db.resources[r].pool == cfg.order[k] && Idle(run.states[i].db.resources[r])
    ensures cfg.order[k] in cfg.pools
    ensures Usable(cfg.pools[cfg.order[k]], run.states[i].db.resources[r].releases)
            || exists j :: ReleasedSince(run, j, i, k, r)
    decreases i
  {
    hide Good, Can, Do, Takes, Usable, NoneIdles, Calm, Linked;
    PoolKnown(cfg, run, i, r);
    assert !Processed(run.states[0].pc, k);
    hide Processed;
    var b := i - 1;
    GoodRun(cfg, run, b);
    StepOf(cfg, run, b);
    PcStep(cfg, run.states[b], run.actions[b], k);
    if !Processed(run.states[b].pc, k) {
      var db, p, now := run.states[b].db, cfg.order[k], run.states[b].clock;
      RemoveStep(cfg, run.states[b]);
      RemovalStates(db, p, cfg.pools[p], now);
      GoodParts(cfg, run.states[b]);
      RemovalRetires(cfg, db, run.states[b].uuids, p, now, r);
    } else if ReleasedBy(run.actions[b]) == Some(r) {
      assert ReleasedSince(run, b, i, k, r);
    } else {
      Safety.RunEdge(cfg, run, b);
      StepIdles(cfg, run.states[b], run.actions[b]);
      IdleBefore(cfg, run.states[b].db, run.states[i].db, r, ReleasedBy(run.actions[b]));
      if r in run.states[b].db.resources && Idle(run.states[b].db.resources[r]) {
        IdleIsUsableOrLate(cfg, run, b, k, r);
        if j :| ReleasedSince(run, j, b, k, r) { assert ReleasedSince(run, j, i, k, r); }
      } else {
        NeverUsedIsUsable(cfg.pools[cfg.order[k]]);
      }
    }
  }

  lemma NeverUsedIsUsable(c: PoolConfig)
    ensures Usable(c, 0)
  {
  }

  lemma IdleBefore(cfg: Config, db: Db, db': Db, r: ResourceId, but: Option<ResourceId>)
    requires NoneIdles(db, db', but) && Calm(db, db') && Edged(db, db') && but != Some(r)
    requires r in db'.resources && Idle(db'.resources[r])
    ensures db'.resources[r].releases == 0
            || (r in db.resources && Idle(db.resources[r]) && db'.resources[r].releases == db.resources[r].releases)
    ensures r in db.resources ==> db'.resources[r].pool == db.resources[r].pool
  {
    hide TicketEdge;
  }

  /** In the rest of the loop the resource is not released again. */
  lemma {:induction false} ReleasesStay(cfg: Config, run: Run, j: nat, i: nat, k: nat, r: ResourceId)
    requires ValidConfig(cfg) && Valid(cfg, run) && k < |cfg.order| && ReleasedSince(run, j, i, k, r)
    ensures r in run.states[i].db.resources && Settled(run.states[i].db.resources[r])
    ensures run.states[i].db.resources[r].releases == run.states[j + 1].db.resources[r].releases
    decreases i
  {
    hide Good, Can, Do, Takes, Processed, NoneIdles;
    if i == j + 1 {
      Safety.BlindWritesAreSafe(cfg, run, j);
    } else {
      var b := i - 1;
      ReleasesStay(cfg, run, j, b, k, r);
      GoodRun(cfg, run, b);
      StepOf(cfg, run, b);
      PcStep(cfg, run.states[b], run.actions[b], k);
      StepIdles(cfg, run.states[b], run.actions[b]);
    }
  }

  /**
   An assignment exceeds the limits of the resource's pool if and only if a release of the resource
   ended, in the same loop and after the removal pass, that brought it above the limits.
   */
  lemma ExceedsIffReleasedLate(cfg: Config, run: Run, i: nat, k: nat, r: ResourceId)
    requires ValidConfig(cfg) && Valid(cfg, run) && Gives(run, i, r) && r in run.states[i].db.resources
    requires k < |cfg.order| && cfg.order[k] == run.states[i].db.resources[r].pool
    ensures Exceeds(cfg, run, i, r) <==> exists j :: ReleasedLate(cfg, run, j, i, k, r)
  {
    hide Good, Can, Do, Takes, Usable;
    PoolKnown(cfg, run, i, r);
    GoodRun(cfg, run, i);
    StepOf(cfg, run, i);
    AssignStep(cfg, run.states[i]);
    hide Processed;
    assert Processed(run.states[i].pc, k) by { GivenIsProcessed(run.states[i], k); }
    IdleIsUsableOrLate(cfg, run, i, k, r);
    forall j | ReleasedSince(run, j, i, k, r)
      ensures ReleasedLate(cfg, run, j, i, k, r) <==> Exceeds(cfg, run, i, r)
    {
      ReleasesStay(cfg, run, j, i, k, r);
    }
  }

  lemma GivenIsProcessed(s: Sys, k: nat)
    requires Given(s).Some?
    ensures Processed(s.pc, k)
  {
  }

  /** A release only ends in a pool that has a release command. */
  lemma ReleasedHasCommand(cfg: Config, run: Run, j: nat, i: nat, r: ResourceId)
    requires ValidConfig(cfg) && Valid(cfg, run) && j <= i < |run.states| && j < |run.actions|
    requires ReleasedBy(run.actions[j]) == Some(r)
    ensures r in run.states[i].db.resources && run.states[i].db.resources[r].pool in cfg.pools
    ensures cfg.pools[run.states[i].db.resources[r].pool].hasRelease
  {
    hide Takes;
    Safety.BlindWritesAreSafe(cfg, run, j);
    Safety.RunLinked(cfg, run, j);
    Safety.RunLater(cfg, run, j, i);
    hide Valid, ValidConfig, Staffed;
    assert RowOk(cfg, run.states[j].db, r);
  }

  /** Without `cmd_release` no assignment exceeds the limits. */
  lemma PlainNeverExceeds(cfg: Config, run: Run, i: nat, j: nat, r: ResourceId)
    requires ValidConfig(cfg) && Valid(cfg, run) && i <= j < |run.states| && r in run.states[j].db.resources
    requires run.states[j].db.resources[r].pool in cfg.pools
    requires !cfg.pools[run.states[j].db.resources[r].pool].hasRelease
    ensures !Exceeds(cfg, run, i, r)
  {
    hide Takes, Usable;
    Safety.RunLater(cfg, run, i, j);
    if Exceeds(cfg, run, i, r) {
      var p := run.states[i].db.resources[r].pool;
      assert p in cfg.order;
      var k :| 0 <= k < |cfg.order| && cfg.order[k] == p;
      ExceedsIffReleasedLate(cfg, run, i, k, r);
      var m :| ReleasedLate(cfg, run, m, i, k, r);
      ReleasedHasCommand(cfg, run, m, i, r);
    }
  }

  /**
   As long as no assignment of a resource has exceeded the limits, it has served at most one ticket
   if there is no time for reuse, and at most `reuse_max_count` more than one if that is positive.
   Without `cmd_release` none ever has, and the row counts exactly the tickets served.
   */
  lemma ReuseIsBounded(cfg: Config, run: Run, i: nat, r: ResourceId)
    requires ValidConfig(cfg) && Valid(cfg, run) && i < |run.states| && r in run.states[i].db.resources
    ensures run.states[i].db.resources[r].pool in cfg.pools
    ensures var db := run.states[i].db; var x := db.resources[r]; var c := cfg.pools[x.pool];
      && (!c.hasRelease || (forall j :: 0 <= j < i ==> !Exceeds(cfg, run, j, r)) ==>
            && (c.reuseOpportunityTime == 0.0 ==> |Served(db, r)| <= 1)
            && (c.reuseMaxCount > 0 ==> |Served(db, r)| <= c.reuseMaxCount + 1))
      && (!c.hasRelease ==> |Served(db, r)| == x.releases + if x.ticket.Some? then 1 else 0)
  {
    hide Takes, Exceeds;
    PoolKnown(cfg, run, i, r);
    var c := cfg.pools[run.states[i].db.resources[r].pool];
    if !c.hasRelease {
      forall j | 0 <= j < i ensures !Exceeds(cfg, run, j, r) { PlainNeverExceeds(cfg, run, j, i, r); }
    }
    if forall j :: 0 <= j < i ==> !Exceeds(cfg, run, j, r) {
      UseRun(cfg, run, i, r);
      hide Valid, ValidConfig, Served;
    }
  }
}
