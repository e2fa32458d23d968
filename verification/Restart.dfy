/**
 What a restart repairs, and that no resource is forgotten on its way out: as long as the server is
 up, every resource in DELETING has a worker that deletes it.
 */
module Restart {
  import opened Collections
  import opened Tables
  import opened Logic
  import opened Links
  import opened Protocol
  import opened Invariant
  import opened Edges

  /**
   A boot turns every resource whose worker was lost into one to delete, and changes no other row, no
   ticket and no number.
   */
  lemma BootRepairs(cfg: Config, run: Run, i: nat)
    requires Valid(cfg, run) && i < |run.actions| && run.actions[i] == Env(Boot)
    ensures var db, db' := run.states[i].db, run.states[i + 1].db;
      && db'.resources.Keys == db.resources.Keys
      && (forall r :: r in db.resources ==>
            db'.resources[r] == if db.resources[r].state in {STARTING, RELEASING, DELETING}
                                then db.resources[r].(state := DELETE_REQUEST) else db.resources[r])
      && db'.tickets == db.tickets && db'.ids == db.ids && db'.counters == db.counters
      && db'.lastStart == db.lastStart
    ensures run.states[i].pc == Down && run.states[i + 1].pc == Beginning
    ensures run.states[i + 1].staff == run.states[i].staff
  {
    StepOf(cfg, run, i);
    hide Takes, Valid, PcFits, CanWork, CanManage;
  }

  /* ---- every resource in DELETING has its worker ---- */

  ghost predicate Deleted(s: Sys) {
    s.pc != Down ==> forall r :: InStateNow(s.db, r, DELETING) ==> r in s.staff.closers
  }

  /** Nothing enters DELETING. */
  ghost predicate NoneDeletes(db: Db, db': Db, but: Option<ResourceId>) {
    forall r: ResourceId :: but != Some(r) && InStateNow(db', r, DELETING) ==> InStateNow(db, r, DELETING)
  }

  lemma EnvDeleted(s: Sys, a: EnvStep)
    requires CanEnv(s, a) && Deleted(s)
    ensures Deleted(DoEnv(s, a))
  {
  }

  lemma OneRowDeletes(db: Db, db': Db, r: ResourceId)
    requires OnlyRow(db', db, r)
    ensures NoneDeletes(db, db', Some(r))
  {
  }

  lemma SameRowsDelete(db: Db, db': Db)
    requires forall r :: r in db'.resources ==>
      db'.resources[r].state != DELETING || (r in db.resources && db.resources[r].state == DELETING)
    ensures NoneDeletes(db, db', None)
  {
  }

  /** The invariant survives if only `but` is touched, and that resource has its worker afterwards. */
  lemma StaysDeleted(s: Sys, s': Sys, but: Option<ResourceId>)
    requires Deleted(s) && s.pc != Down && NoneDeletes(s.db, s'.db, but)
    requires forall q :: but != Some(q) && q in s.staff.closers ==> q in s'.staff.closers
    requires but.Some? && InStateNow(s'.db, but.value, DELETING) ==> but.value in s'.staff.closers
    ensures Deleted(s')
  {
  }

  lemma WorkDeleted(cfg: Config, s: Sys, a: WorkerStep)
    requires Good(cfg, s) && CanWork(cfg, s, a) && Deleted(s) && s.pc != Down
    ensures Deleted(DoWork(cfg, s, a))
  {
    hide Good, Deleted, NoneDeletes, NamesOf, NamesOn, TagRows, TicketOpen, OnlyRow;
    var s' := DoWork(cfg, s, a);
    match a
    case AllocDone(r, success, data) => OneRowDeletes(s.db, s'.db, r); StaysDeleted(s, s', Some(r));
    case ReleaseDone(r, success) => OneRowDeletes(s.db, s'.db, r); StaysDeleted(s, s', Some(r));
    case TerminateStart(r) => OneRowDeletes(s.db, SetState(s.db, r, DELETING), r); StartDeletes(cfg, s, r);
    case TerminateEnd(r) => OneRowDeletes(s.db, s'.db, r); StaysDeleted(s, s', Some(r));
    case _ => SameRowsDelete(s.db, s.db); StaysDeleted(s, s', None);
  }

  lemma StartDeletes(cfg: Config, s: Sys, r: ResourceId)
    requires CanWork(cfg, s, TerminateStart(r)) && Deleted(s) && s.pc != Down
    requires NoneDeletes(s.db, SetState(s.db, r, DELETING), Some(r))
    ensures Deleted(DoWork(cfg, s, TerminateStart(r)))
  {
    hide Deleted, NoneDeletes, TicketOpen, SetState, NamesOf;
    SameRowsDelete(s.db, s.db);
    StaysDeleted(s, DoWork(cfg, s, TerminateStart(r)), if TicketOpen(s.db, r) then None else Some(r));
  }

  lemma ManageDeletes(cfg: Config, s: Sys, a: ManagerStep)
    requires Good(cfg, s) && CanManage(cfg, s, a)
    ensures NoneDeletes(s.db, DoManage(cfg, s, a).db, None) && DoManage(cfg, s, a).staff.closers == s.staff.closers
    ensures s.pc != Down
  {
    hide Good;
    GoodParts(cfg, s);
    if Quiet(a) {
      QuietChangesNothing(cfg, s, a);
      hide DoManage, NoneDeletes;
      SameRowsDelete(s.db, s.db);
    } else {
      hide NoneDeletes, Linked, RequestRemoval, InitPools, Zeros, SmallestNumbers, NamesOf, AssignTicket;
      match a
      case Begin => SameRowsDelete(s.db, InitPools(cfg, s.db));
      case Detect => DetectDeletes(s.db, Pool(cfg, s.pc.i), cfg.pools[Pool(cfg, s.pc.i)].hasRelease, s.clock);
      case Remove => RemovalDeletes(s.db, Pool(cfg, s.pc.i), cfg.pools[Pool(cfg, s.pc.i)], s.clock);
      case AllocateOne(r, name, id, values) => SameRowsDelete(s.db, DoManage(cfg, s, a).db);
      case Assign => AssignDeletes(cfg, s);
      case Collect => SameRowsDelete(s.db, s.db);
      case Tidy(launch) => SameRowsDelete(s.db, s.db);
      case _ =>
    }
  }

  lemma DetectDeletes(db: Db, p: PoolName, hasRelease: bool, now: Time)
    ensures NoneDeletes(db, DetectClosed(db, p, hasRelease, now), None)
  {
  }

  lemma RemovalDeletes(db: Db, p: PoolName, c: PoolConfig, now: Time)
    ensures NoneDeletes(db, RequestRemoval(db, p, c, now), None)
  {
    RemovalStates(db, p, c, now);
    hide RequestRemoval;
  }

  lemma AssignDeletes(cfg: Config, s: Sys)
    requires PcFits(cfg, s) && CanManage(cfg, s, Assign)
    ensures NoneDeletes(s.db, DoManage(cfg, s, Assign).db, None) && DoManage(cfg, s, Assign).staff == s.staff
  {
  }

  lemma DownIsFine(s: Sys)
    requires s.pc == Down
    ensures Deleted(s)
  {
  }

  lemma StepDeleted(cfg: Config, s: Sys, a: Action)
    requires Good(cfg, s) && Can(cfg, s, a) && Deleted(s)
    ensures Deleted(Do(cfg, s, a))
  {
    hide Good, PcFits, Deleted, DoEnv, DoWork, DoManage, CanEnv, CanWork, CanManage;
    match a
    case Env(e) => EnvDeleted(s, e);
    case Work(w) =>
      WorkKeepsLoop(cfg, s, w);
      if s.pc == Down { DownIsFine(DoWork(cfg, s, w)); } else { WorkDeleted(cfg, s, w); }
    case Manage(m) =>
      ManageDeletes(cfg, s, m);
      hide NoneDeletes;
      StaysDeleted(s, DoManage(cfg, s, m), None);
  }

  lemma {:induction false} RunDeleted(cfg: Config, run: Run, i: nat)
    requires ValidConfig(cfg) && Valid(cfg, run) && i < |run.states|
    ensures Deleted(run.states[i])
    decreases i
  {
    hide Good, Can, Do, Takes;
    if i > 0 {
      hide Deleted;
      RunDeleted(cfg, run, i - 1);
      GoodRun(cfg, run, i - 1);
      StepOf(cfg, run, i - 1);
      StepDeleted(cfg, run.states[i - 1], run.actions[i - 1]);
    }
  }

  /** In every state of every run in which the server is up. */
  lemma DeletingHasWorker(cfg: Config, run: Run, i: nat, r: ResourceId)
    requires ValidConfig(cfg) && Valid(cfg, run) && i < |run.states| && run.states[i].pc != Down
    requires InStateNow(run.states[i].db, r, DELETING)
    ensures r in run.states[i].staff.closers
  {
    hide Takes;
    RunDeleted(cfg, run, i);
    hide Valid, ValidConfig;
  }

  /** And every resource to delete is sent a terminator when the manager comes to its pool; no other is. */
  lemma CollectSends(cfg: Config, run: Run, i: nat)
    requires Valid(cfg, run) && i < |run.actions| && run.actions[i] == Manage(Collect)
    ensures run.states[i].pc.Collecting? && run.states[i].pc.i < |cfg.order|
    ensures var s, s' := run.states[i], run.states[i + 1];
      && s'.db == s.db
      && forall r :: s'.staff.terminators[r] == s.staff.terminators[r] +
           if r in s.db.resources && s.db.resources[r].pool == cfg.order[s.pc.i]
              && s.db.resources[r].state == DELETE_REQUEST then 1 else 0
  {
    StepOf(cfg, run, i);
    hide Takes, Valid;
  }
}
