/**
 Why `CleanUnknownWorker` of `resallocserver/manager.py` never deletes a machine that the server
 still uses: it lists the cloud before the database, names are committed before `cmd_new` runs and
 never used twice, and a resource that ended stays dead.
 */
module Cleaner {
  import opened Tables
  import opened Logic
  import opened Protocol
  import opened Invariant
  import opened Edges
  import OnDemand
  import Assignment

  /** A name is of one resource only, and never a foreign one. */
  ghost predicate NamesDistinct(cfg: Config, db: Db) {
    && (forall r :: r in db.resources ==> db.resources[r].name !in cfg.foreign)
    && (forall r, q :: r in db.resources && q in db.resources && db.resources[r].name == db.resources[q].name ==>
              r == q)
  }

  ghost predicate Known(cfg: Config, db: Db, n: Name) {
    n in cfg.foreign || exists r :: Named(db, r, n)
  }

  ghost predicate Named(db: Db, r: ResourceId, n: Name) {
    r in db.resources && db.resources[r].name == n
  }

  /** No resource in use has the name, and none will ever get it. */
  ghost predicate Gone(cfg: Config, db: Db, n: Name) {
    Known(cfg, db, n) && forall r :: Named(db, r, n) ==> Dying(db.resources[r].state)
  }

  ghost predicate CleanersFit(cfg: Config, s: Sys) {
    && NamesDistinct(cfg, s.db)
    && (forall p, listed, n :: Comparing(p, listed) in s.cleaners && n in listed ==> Known(cfg, s.db, n))
    && (forall p, unknown, n :: Deleting(p, unknown) in s.cleaners && n in unknown ==> Gone(cfg, s.db, n))
    && (forall n :: n in s.cleaned ==> Gone(cfg, s.db, n))
  }

  /** The rows that a step adds have new names. */
  ghost predicate FreshNames(cfg: Config, db: Db, db': Db) {
    && (forall r :: r in db'.resources && r !in db.resources ==> !Known(cfg, db, db'.resources[r].name))
    && (forall r, q :: r in db'.resources && q in db'.resources && r !in db.resources && q !in db.resources ==> r == q)
  }

  lemma KnownStays(cfg: Config, db: Db, db': Db, n: Name)
    requires Edged(db, db') && Known(cfg, db, n)
    ensures Known(cfg, db', n)
  {
    hide TicketEdge;
    if n !in cfg.foreign {
      var r :| Named(db, r, n);
      assert Named(db', r, n);
    }
  }

  lemma GoneStays(cfg: Config, db: Db, db': Db, n: Name)
    requires Edged(db, db') && FreshNames(cfg, db, db') && Gone(cfg, db, n)
    ensures Gone(cfg, db', n)
  {
    hide TicketEdge;
    KnownStays(cfg, db, db', n);
    hide Known;
    forall r | Named(db', r, n) ensures Dying(db'.resources[r].state) {
      assert Named(db, r, n);
    }
  }

  lemma NamesStayDistinct(cfg: Config, db: Db, db': Db)
    requires Edged(db, db') && FreshNames(cfg, db, db') && NamesDistinct(cfg, db)
    ensures NamesDistinct(cfg, db')
  {
    hide TicketEdge;
    forall r | r in db'.resources && r in db.resources ensures Known(cfg, db, db'.resources[r].name) {
      assert Named(db, r, db'.resources[r].name);
    }
  }

  /** A step that keeps the cleaners' own knowledge keeps `CleanersFit`. */
  lemma CleanersStay(cfg: Config, s: Sys, s': Sys)
    requires CleanersFit(cfg, s) && Edged(s.db, s'.db) && FreshNames(cfg, s.db, s'.db)
    requires forall j :: j in s'.cleaners && !j.Listing? ==> j in s.cleaners
    requires s'.cleaned == s.cleaned
    ensures CleanersFit(cfg, s')
  {
    hide Known, Gone, Edged, FreshNames, NamesDistinct;
    NamesStayDistinct(cfg, s.db, s'.db);
    forall n | Known(cfg, s.db, n) ensures Known(cfg, s'.db, n) { KnownStays(cfg, s.db, s'.db, n); }
    forall n | Gone(cfg, s.db, n) ensures Gone(cfg, s'.db, n) { GoneStays(cfg, s.db, s'.db, n); }
  }

  lemma SameRowsFresh(cfg: Config, db: Db, db': Db)
    requires db'.resources.Keys == db.resources.Keys
    ensures FreshNames(cfg, db, db')
  {
  }

  lemma AllocateFresh(cfg: Config, db: Db, p: PoolName, r: ResourceId, name: Name, now: Time, id: nat,
                      values: map<Counter, nat>)
    requires r !in db.resources && name !in cfg.foreign && name !in NamesOf(db)
    ensures FreshNames(cfg, db, Allocate(db, p, r, name, now, id, values))
  {
    forall q ensures !Named(db, q, name) {}
  }

  lemma EnvFits(cfg: Config, s: Sys, a: EnvStep)
    requires CleanersFit(cfg, s) && CanEnv(s, a)
    ensures CleanersFit(cfg, DoEnv(s, a))
  {
    hide CleanersFit, Edged;
    EnvEdges(s, a);
    SameRowsFresh(cfg, s.db, DoEnv(s, a).db);
    hide FreshNames;
    CleanersStay(cfg, s, DoEnv(s, a));
  }

  lemma ListedFits(cfg: Config, s: Sys, p: PoolName, names: set<Name>)
    requires CleanersFit(cfg, s) && CanWork(cfg, s, CloudListed(p, names))
    ensures CleanersFit(cfg, DoWork(cfg, s, CloudListed(p, names)))
  {
    hide Known, Gone, NamesDistinct;
    forall n | n in names ensures Known(cfg, s.db, n) { ListedIsKnown(cfg, s.db, n); }
    hide NamesOf;
  }

  lemma ReadFits(cfg: Config, s: Sys, p: PoolName, listed: set<Name>)
    requires CleanersFit(cfg, s) && CanWork(cfg, s, KnownRead(p, listed))
    ensures CleanersFit(cfg, DoWork(cfg, s, KnownRead(p, listed)))
  {
    hide Known, Gone, NamesDistinct;
    forall n | n in listed - NamesOn(s.db) ensures Gone(cfg, s.db, n) { UnlistedIsGone(cfg, s.db, n); }
    hide NamesOn;
  }

  lemma CleanFits(cfg: Config, s: Sys, p: PoolName, unknown: set<Name>, name: Name)
    requires CleanersFit(cfg, s) && CanWork(cfg, s, CleanOne(p, unknown, name))
    ensures CleanersFit(cfg, DoWork(cfg, s, CleanOne(p, unknown, name)))
  {
    hide Known, Gone, NamesDistinct;
  }

  lemma WorkFits(cfg: Config, s: Sys, a: WorkerStep)
    requires Good(cfg, s) && CleanersFit(cfg, s) && CanWork(cfg, s, a)
    ensures CleanersFit(cfg, DoWork(cfg, s, a))
  {
    hide Good, Edged, CleanersFit, DoWork, CanWork, FreshNames;
    match a
    case CloudListed(p, names) => ListedFits(cfg, s, p, names);
    case KnownRead(p, listed) => ReadFits(cfg, s, p, listed);
    case CleanOne(p, unknown, name) => CleanFits(cfg, s, p, unknown, name);
    case _ =>
      WorkEdges(cfg, s, a);
      WorkKeepsTables(cfg, s, a);
      SameRowsFresh(cfg, s.db, DoWork(cfg, s, a).db);
      WorkKeepsCleaners(cfg, s, a);
      CleanersStay(cfg, s, DoWork(cfg, s, a));
  }

  lemma ListedIsKnown(cfg: Config, db: Db, n: Name)
    requires n in cfg.foreign || n in NamesOf(db)
    ensures Known(cfg, db, n)
  {
    if n !in cfg.foreign {
      var r :| r in db.resources && db.resources[r].name == n;
      assert Named(db, r, n);
    }
  }

  /** What the cloud listed and the database does not know as on is dead. */
  lemma UnlistedIsGone(cfg: Config, db: Db, n: Name)
    requires Known(cfg, db, n) && n !in NamesOn(db)
    ensures Gone(cfg, db, n)
  {
    hide Known;
    forall r | Named(db, r, n) ensures db.resources[r].state == ENDED {
      assert db.resources[r].state != ENDED ==> n in NamesOn(db);
    }
  }

  lemma WorkKeepsCleaners(cfg: Config, s: Sys, a: WorkerStep)
    requires CanWork(cfg, s, a) && !a.CloudListed? && !a.KnownRead? && !a.CleanOne?
    ensures var s' := DoWork(cfg, s, a);
            (forall j :: j in s'.cleaners && !j.Listing? ==> j in s.cleaners) && s'.cleaned == s.cleaned
  {
    hide FinishAlloc, FinishRelease, SetState, End, NamesOn, NamesOf, TagRows, TicketOpen;
  }

  lemma ManageFits(cfg: Config, s: Sys, a: ManagerStep)
    requires Good(cfg, s) && CleanersFit(cfg, s) && CanManage(cfg, s, a)
    ensures CleanersFit(cfg, DoManage(cfg, s, a))
  {
    hide CleanersFit, Edged;
    ManageEdges(cfg, s, a);
    ManageFresh(cfg, s, a);
    hide FreshNames;
    ManageKeepsCleaners(cfg, s, a);
    hide DoManage, CanManage;
    CleanersStay(cfg, s, DoManage(cfg, s, a));
  }

  lemma ManageFresh(cfg: Config, s: Sys, a: ManagerStep)
    requires PcFits(cfg, s) && CanManage(cfg, s, a)
    ensures FreshNames(cfg, s.db, DoManage(cfg, s, a).db)
  {
    hide FreshNames, Allocate, SmallestNumbers, NamesOf;
    if a.AllocateOne? {
      AllocateFresh(cfg, s.db, Pool(cfg, s.pc.i), a.r, a.name, s.clock, a.id, a.values);
    } else {
      ManageKeepsRows(cfg, s, a);
      SameRowsFresh(cfg, s.db, DoManage(cfg, s, a).db);
    }
  }

  lemma ManageKeepsRows(cfg: Config, s: Sys, a: ManagerStep)
    requires PcFits(cfg, s) && CanManage(cfg, s, a) && !a.AllocateOne?
    ensures DoManage(cfg, s, a).db.resources.Keys == s.db.resources.Keys
  {
    hide AssignTicket, DetectClosed, RequestRemoval, OnDemand.Decide, OnDemand.WaitingOrder, InitPools, Allocate,
         Assignment.ServiceOrder, MayStart, Closing, ToTerminate, Zeros, Budget, Assignment.ReadyNow, SameTickets,
         SameNumbers, SameStarts, OnlyRow;
  }

  lemma ManageKeepsCleaners(cfg: Config, s: Sys, a: ManagerStep)
    requires PcFits(cfg, s) && CanManage(cfg, s, a)
    ensures var s' := DoManage(cfg, s, a);
            (forall j :: j in s'.cleaners && !j.Listing? ==> j in s.cleaners) && s'.cleaned == s.cleaned
  {
    hide AssignTicket, DetectClosed, RequestRemoval, OnDemand.Decide, OnDemand.WaitingOrder, InitPools, Allocate,
         Assignment.ServiceOrder, MayStart, Closing, ToTerminate, Zeros, Budget, Assignment.ReadyNow, SmallestNumbers,
         NamesOf, PcFits;
  }

  lemma StepFits(cfg: Config, s: Sys, a: Action)
    requires Good(cfg, s) && CleanersFit(cfg, s) && Can(cfg, s, a)
    ensures CleanersFit(cfg, Do(cfg, s, a))
  {
    hide Good, CleanersFit, CanEnv, CanWork, CanManage, DoEnv, DoWork, DoManage, PcFits;
    match a
    case Env(e) => EnvFits(cfg, s, e);
    case Work(w) => WorkFits(cfg, s, w);
    case Manage(m) => ManageFits(cfg, s, m);
  }

  lemma {:induction false} RunFits(cfg: Config, run: Run, i: nat)
    requires ValidConfig(cfg) && Valid(cfg, run) && i < |run.states|
    ensures CleanersFit(cfg, run.states[i])
    decreases i
  {
    hide Good, Can, Do, Takes;
    if i > 0 {
      hide CleanersFit;
      RunFits(cfg, run, i - 1);
      GoodRun(cfg, run, i - 1);
      StepOf(cfg, run, i - 1);
      StepFits(cfg, run.states[i - 1], run.actions[i - 1]);
    }
  }

  lemma {:induction false} CleanedStays(cfg: Config, run: Run, i: nat, j: nat)
    requires ValidConfig(cfg) && Valid(cfg, run) && i <= j < |run.states|
    ensures run.states[i].cleaned <= run.states[j].cleaned
    decreases j
  {
    hide Takes, Can, Do;
    if i < j {
      CleanedStays(cfg, run, i, j - 1);
      StepOf(cfg, run, j - 1);
      hide Valid;
      CleanedGrows(cfg, run.states[j - 1], run.actions[j - 1]);
    }
  }

  lemma CleanedGrows(cfg: Config, s: Sys, a: Action)
    requires Can(cfg, s, a)
    ensures s.cleaned <= Do(cfg, s, a).cleaned
  {
    if a.Manage? {
      ManageKeepsCleaners(cfg, s, a.m);
      hide DoManage;
    } else {
      hide FinishAlloc, FinishRelease, SetState, End, NamesOn, NamesOf, TagRows, TicketOpen, Kill, FixBroken, Watch,
           TakeTicket, CloseTicket;
    }
  }

  /**
   A name that a cleaner ran `cmd_delete` on is at no later time the name of a resource that is
   STARTING, UP or RELEASING.
   */
  lemma NeverCleansWhatIsUsed(cfg: Config, run: Run, i: nat, j: nat, n: Name, r: ResourceId)
    requires ValidConfig(cfg) && Valid(cfg, run) && i <= j < |run.states|
    requires n in run.states[i].cleaned
    requires r in run.states[j].db.resources && run.states[j].db.resources[r].name == n
    ensures run.states[j].db.resources[r].state !in {STARTING, UP, RELEASING}
  {
    CleanedStays(cfg, run, i, j);
    RunFits(cfg, run, j);
    hide Valid, ValidConfig, Known;
    assert Named(run.states[j].db, r, n);
  }

  /**
   What a cleaner does: of the listed names it is to delete those that no resource has which is not
   ENDED, and it is done when it has deleted all of them.
   */
  lemma CleanerDoes(cfg: Config, run: Run, i: nat)
    requires Valid(cfg, run) && i < |run.actions| && run.actions[i].Work?
    ensures var s, s' := run.states[i], run.states[i + 1];
      match run.actions[i].w
      case CloudListed(p, names) => s'.cleaners == s.cleaners - multiset{Listing(p)} + multiset{Comparing(p, names)}
      case KnownRead(p, listed) =>
        exists unknown ::
          && (forall n :: n in unknown <==>
                n in listed && forall r :: Named(s.db, r, n) ==> s.db.resources[r].state == ENDED)
          && s'.cleaners == s.cleaners - multiset{Comparing(p, listed)} + multiset{Deleting(p, unknown)}
      case CleanOne(p, unknown, name) =>
        && name in unknown && s'.cleaned == s.cleaned + {name}
        && s'.cleaners == s.cleaners - multiset{Deleting(p, unknown)} + multiset{Deleting(p, unknown - {name})}
      case CleanDone(p) => Deleting(p, {}) in s.cleaners && s'.cleaners == s.cleaners - multiset{Deleting(p, {})}
      case _ => s'.cleaners == s.cleaners && s'.cleaned == s.cleaned
  {
    StepOf(cfg, run, i);
    hide Takes, Valid, PcFits, CanEnv, CanManage, FinishAlloc, FinishRelease, End, SetState, TagRows, TicketOpen,
         NamesOf;
    if run.actions[i].w.KnownRead? {
      KnownIs(run.states[i].db, run.actions[i].w.listed);
    }
    hide NamesOn, Named;
  }

  lemma KnownIs(db: Db, listed: set<Name>)
    ensures forall n :: n in listed - NamesOn(db) <==>
              n in listed && forall r :: Named(db, r, n) ==> db.resources[r].state == ENDED
  {
    forall n ensures n in NamesOn(db) <==> exists r :: Named(db, r, n) && db.resources[r].state != ENDED {
      if r :| Named(db, r, n) && db.resources[r].state != ENDED { assert n in NamesOn(db); }
    }
  }
}
