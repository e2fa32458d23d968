/**
 Whether ENDED is final, and whether a pool ever has more than `max` resources that are not ENDED.

 `_garbage_collector` starts a terminator for every resource that is still in DELETE_REQUEST, so
 two can work on one resource, and the later one may find it ENDED and write DELETING.  Both
 properties hold exactly as long as no terminator is that late.
 */
module Finality {
  import opened Collections
  import opened Tables
  import opened Logic
  import opened Links
  import opened Protocol
  import opened Invariant
  import opened Edges
  import opened Quotas
  import Assignment
  import Cleaner
  import Safety
  import Starts

  /** The `i`-th step is a terminator that finds its resource ENDED. */
  ghost predicate Late(run: Run, i: nat)
    requires i < |run.actions| && i < |run.states|
  {
    && run.actions[i].Work? && run.actions[i].w.TerminateStart?
    && InStateNow(run.states[i].db, run.actions[i].w.r, ENDED)
  }

  ghost predicate NeverLate(run: Run, n: nat) {
    forall i :: 0 <= i < n && i < |run.actions| && i < |run.states| ==> !Late(run, i)
  }

  /* ---- one step ---- */

  /** DELETE_REQUEST and ENDED stay as they are, except perhaps for `but`. */
  ghost predicate Rests(db: Db, db': Db, but: Option<ResourceId>) {
    forall r: ResourceId :: but != Some(r) ==>
      && (InStateNow(db, r, DELETE_REQUEST) ==> InStateNow(db', r, DELETE_REQUEST))
      && (InStateNow(db, r, ENDED) ==> InStateNow(db', r, ENDED))
  }

  lemma SameRowsRest(db: Db, db': Db, but: Option<ResourceId>)
    requires db'.resources == db.resources
    ensures Rests(db, db', but)
  {
  }

  lemma EnvRests(s: Sys, a: EnvStep)
    requires CanEnv(s, a)
    ensures Rests(s.db, DoEnv(s, a).db, None)
  {
  }

  /** The resource that a terminator's step is about. */
  function Target(a: WorkerStep): Option<ResourceId> {
    match a
    case TerminateStart(r) => Some(r)
    case TerminateEnd(r) => Some(r)
    case _ => None
  }

  lemma OneRowRests(db: Db, db': Db, r: ResourceId)
    requires OnlyRow(db', db, r)
    ensures Rests(db, db', Some(r))
    ensures r in db.resources && !Dying(db.resources[r].state) ==> Rests(db, db', None)
  {
  }

  lemma WorkRests(cfg: Config, s: Sys, a: WorkerStep)
    requires Good(cfg, s) && CanWork(cfg, s, a)
    ensures Rests(s.db, DoWork(cfg, s, a).db, Target(a))
  {
    hide Good, Rests, OnlyRow, FinishAlloc, FinishRelease, End, SetState, NamesOf, NamesOn, TagRows, TicketOpen;
    WorkersFit(cfg, s);
    SameRowsRest(s.db, s.db, Target(a));
    match a
    case AllocDone(r, success, data) => OneRowRests(s.db, DoWork(cfg, s, a).db, r);
    case ReleaseDone(r, success) => OneRowRests(s.db, DoWork(cfg, s, a).db, r);
    case TerminateStart(r) => OneRowRests(s.db, SetState(s.db, r, DELETING), r);
    case TerminateEnd(r) => OneRowRests(s.db, DoWork(cfg, s, a).db, r);
    case _ =>
  }

  lemma DetectRests(db: Db, p: PoolName, hasRelease: bool, now: Time)
    ensures Rests(db, DetectClosed(db, p, hasRelease, now), None)
  {
  }

  lemma RemovalRests(db: Db, p: PoolName, c: PoolConfig, now: Time)
    ensures Rests(db, RequestRemoval(db, p, c, now), None)
  {
    RemovalStates(db, p, c, now);
    hide RequestRemoval;
  }

  lemma AllocateRests(db: Db, p: PoolName, r: ResourceId, name: Name, now: Time, id: nat, values: map<Counter, nat>)
    requires r !in db.resources
    ensures Rests(db, Allocate(db, p, r, name, now, id, values), None)
  {
  }

  lemma ManageRests(cfg: Config, s: Sys, a: ManagerStep)
    requires Good(cfg, s) && CanManage(cfg, s, a)
    ensures Rests(s.db, DoManage(cfg, s, a).db, None)
  {
    SameRowsRest(s.db, s.db, None);
    hide Good, Rests, OnlyRow;
    GoodParts(cfg, s);
    if Quiet(a) {
      QuietChangesNothing(cfg, s, a);
      hide DoManage;
    } else {
      hide Linked, Staffed, Queued, ValidConfig, DetectClosed, RequestRemoval, Allocate, AssignTicket, InitPools, Zeros,
           SmallestNumbers, NamesOf;
      match a
      case Begin => SameRowsRest(s.db, InitPools(cfg, s.db), None);
      case Detect => DetectRests(s.db, Pool(cfg, s.pc.i), cfg.pools[Pool(cfg, s.pc.i)].hasRelease, s.clock);
      case Remove => RemovalRests(s.db, Pool(cfg, s.pc.i), cfg.pools[Pool(cfg, s.pc.i)], s.clock);
      case AllocateOne(r, name, id, values) => AllocateRests(s.db, Pool(cfg, s.pc.i), r, name, s.clock, id, values);
      case Assign =>
        var choice := Assignment.Choice(s.db, s.pc.snapshot, s.pc.queue[0]);
        if choice.Some? {
          OneRowRests(s.db, AssignTicket(s.db, choice.value, s.pc.queue[0], s.clock, Generated(s.uuids)), choice.value);
        }
      case _ =>
    }
  }

  function TargetOf(a: Action): Option<ResourceId> {
    if a.Work? then Target(a.w) else None
  }

  lemma StepRests(cfg: Config, s: Sys, a: Action)
    requires Good(cfg, s) && Can(cfg, s, a)
    ensures Rests(s.db, Do(cfg, s, a).db, TargetOf(a))
  {
    hide Good, Rests, CanEnv, CanWork, CanManage, DoEnv, DoWork, DoManage, PcFits;
    match a
    case Env(e) => EnvRests(s, e);
    case Work(w) => WorkRests(cfg, s, w);
    case Manage(m) => ManageRests(cfg, s, m);
  }

  /** ENDED is left by a late terminator, and by nothing else. */
  lemma EndedLeft(cfg: Config, run: Run, i: nat, r: ResourceId)
    requires ValidConfig(cfg) && Valid(cfg, run) && i < |run.actions|
    requires InStateNow(run.states[i].db, r, ENDED)
    ensures !InStateNow(run.states[i + 1].db, r, ENDED) <==> run.actions[i] == Work(TerminateStart(r))
  {
    hide Good, Can, Do, Takes, Late;
    GoodRun(cfg, run, i);
    StepOf(cfg, run, i);
    StepRests(cfg, run.states[i], run.actions[i]);
    if run.actions[i] == Work(TerminateStart(r)) {
      Safety.TerminatorNeverBlocked(cfg, run, i, r);
    } else if run.actions[i] == Work(TerminateEnd(r)) {
      Safety.BlindWritesAreSafe(cfg, run, i);
    }
  }

  /* ---- runs ---- */

  /** Over a whole run, ENDED is final if and only if no terminator is late. */
  lemma EndedIsFinalIffNeverLate(cfg: Config, run: Run)
    requires ValidConfig(cfg) && Valid(cfg, run)
    ensures (forall i, r :: 0 <= i < |run.actions| && InStateNow(run.states[i].db, r, ENDED) ==>
               InStateNow(run.states[i + 1].db, r, ENDED))
            <==> NeverLate(run, |run.actions|)
  {
    hide Takes, InStateNow;
    forall i, r | 0 <= i < |run.actions| && InStateNow(run.states[i].db, r, ENDED)
      ensures InStateNow(run.states[i + 1].db, r, ENDED) <==> run.actions[i] != Work(TerminateStart(r))
      ensures run.actions[i] == Work(TerminateStart(r)) ==> Late(run, i)
    {
      EndedLeft(cfg, run, i, r);
    }
  }

  /** The resources that are not ENDED and hold no id. */
  function Unnumbered(db: Db): set<ResourceId> {
    set r | r in db.resources && db.resources[r].state != ENDED && r !in db.ids
  }

  /** Every resource that is not ENDED holds an id. */
  ghost predicate AllNumbered(db: Db) {
    forall r :: r in db.resources && db.resources[r].state != ENDED ==> r in db.ids
  }

  /** The resource that a late terminator brings back. */
  ghost function Back(s: Sys, a: Action): set<ResourceId> {
    if a.Work? && a.w.TerminateStart? && InStateNow(s.db, a.w.r, ENDED) then {a.w.r} else {}
  }

  /** Only a late terminator leaves a resource that is not ENDED without an id. */
  lemma UnnumberedStep(cfg: Config, s: Sys, a: Action)
    requires Good(cfg, s) && Quoted(cfg, s) && Can(cfg, s, a)
    ensures Unnumbered(Do(cfg, s, a).db) <= Unnumbered(s.db) + Back(s, a)
  {
    hide Good, Quoted, Unnumbered, CanEnv, CanWork, CanManage, DoEnv, DoWork, DoManage, PcFits, IdsOk, CountersOk;
    GoodParts(cfg, s);
    StepRests(cfg, s, a);
    QuotedParts(cfg, s);
    if a.Manage? && a.m.AllocateOne? {
      AllocateNumbered(cfg, s, a.m);
    } else {
      match a {
        case Env(e) => EnvGivesBack(cfg, s, e);
        case Work(w) => WorkGivesBack(cfg, s, w); if w.TerminateEnd? { EndEnds(cfg, s, w); }
        case Manage(m) => ManageGivesBack(cfg, s, m);
      }
      hide Rests;
      NumberedAfter(s.db, Do(cfg, s, a).db, TargetOf(a));
    }
  }

  lemma EndEnds(cfg: Config, s: Sys, a: WorkerStep)
    requires CanWork(cfg, s, a) && a.TerminateEnd?
    ensures InStateNow(DoWork(cfg, s, a).db, a.r, ENDED)
  {
    hide NamesOf;
  }

  lemma QuotedParts(cfg: Config, s: Sys)
    requires Quoted(cfg, s)
    ensures IdsOk(cfg, s.db) && CountersOk(cfg, s.db)
  {
    hide IdsOk, CountersOk, Within, RoomAhead;
  }

  lemma AllocateNumbered(cfg: Config, s: Sys, a: ManagerStep)
    requires PcFits(cfg, s) && CanManage(cfg, s, a) && a.AllocateOne?
    ensures Unnumbered(DoManage(cfg, s, a).db) <= Unnumbered(s.db)
  {
    hide SmallestNumbers, NamesOf;
  }

  lemma NumberedAfter(db: Db, db': Db, but: Option<ResourceId>)
    requires GivesBack(db, db') && Rests(db, db', but)
    ensures forall r :: r in Unnumbered(db') ==>
      r in Unnumbered(db) || (but == Some(r) && InStateNow(db, r, ENDED) && !InStateNow(db', r, ENDED))
  {
    forall r | r in Unnumbered(db') && !InStateNow(db, r, ENDED) ensures r in Unnumbered(db) {
      assert !InStateNow(db', r, ENDED);
    }
  }

  lemma NumberedIffNone(db: Db)
    ensures AllNumbered(db) <==> Unnumbered(db) == {}
  {
    if AllNumbered(db) {
      forall r ensures r !in Unnumbered(db) {}
    } else {
      var r :| r in db.resources && db.resources[r].state != ENDED && r !in db.ids;
      assert r in Unnumbered(db);
    }
  }

  /** As long as no terminator has been late, every resource that is not ENDED has its id. */
  lemma {:induction false} NeverLateNumbered(cfg: Config, run: Run, n: nat)
    requires ValidConfig(cfg) && Valid(cfg, run) && n < |run.states| && NeverLate(run, n)
    ensures AllNumbered(run.states[n].db)
    decreases n
  {
    hide Good, Quoted, Can, Do, Takes;
    if n > 0 {
      hide AllNumbered, InStateNow;
      NeverLateNumbered(cfg, run, n - 1);
      GoodRun(cfg, run, n - 1);
      RunQuoted(cfg, run, n - 1);
      StepOf(cfg, run, n - 1);
      UnnumberedStep(cfg, run.states[n - 1], run.actions[n - 1]);
      assert !Late(run, n - 1);
      NumberedIffNone(run.states[n - 1].db);
      NumberedIffNone(run.states[n].db);
    }
  }

  /** A late terminator leaves a resource without an id that is not ENDED. */
  lemma LateUnnumbered(cfg: Config, run: Run, i: nat)
    requires ValidConfig(cfg) && Valid(cfg, run) && i < |run.actions| && Late(run, i)
    ensures !AllNumbered(run.states[i + 1].db)
  {
    var r := run.actions[i].w.r;
    hide Takes, Quoted, Valid, Can, Do;
    Safety.TerminatorNeverBlocked(cfg, run, i, r);
    RunQuoted(cfg, run, i);
    GoodRun(cfg, run, i);
    StepOf(cfg, run, i);
    QuotedParts(cfg, run.states[i]);
    StepGivesBack(cfg, run.states[i], run.actions[i].w);
  }

  lemma StepGivesBack(cfg: Config, s: Sys, w: WorkerStep)
    requires Good(cfg, s) && IdsOk(cfg, s.db) && CountersOk(cfg, s.db) && Can(cfg, s, Work(w)) && w.TerminateStart?
    requires InStateNow(s.db, w.r, ENDED)
    ensures w.r !in Do(cfg, s, Work(w)).db.ids
  {
    hide Good, CountersOk, PcFits, DoWork, CanWork;
    WorkGivesBack(cfg, s, w);
  }

  /**
   In a run the resources that count against `max` are always those that hold an id, if and only if
   no terminator is ever late.
   */
  lemma OnIsNumberedIffNeverLate(cfg: Config, run: Run)
    requires ValidConfig(cfg) && Valid(cfg, run)
    ensures (forall i :: 0 <= i < |run.states| ==> AllNumbered(run.states[i].db)) <==> NeverLate(run, |run.actions|)
  {
    hide Takes, AllNumbered, Late;
    if NeverLate(run, |run.actions|) {
      forall i | 0 <= i < |run.states| ensures AllNumbered(run.states[i].db) { NeverLateNumbered(cfg, run, i); }
    } else {
      var i :| 0 <= i < |run.actions| && Late(run, i);
      LateUnnumbered(cfg, run, i);
    }
  }

  /* ---- exactly when `max` is kept ---- */

  /** The `i`-th step is a terminator that is late in pool `p`. */
  ghost predicate LateIn(run: Run, p: PoolName, i: nat)
    requires i < |run.actions| && i < |run.states|
  {
    Late(run, i) && run.states[i].db.resources[run.actions[i].w.r].pool == p
  }

  /** The `i`-th step adds a resource of pool `p` to those that are not ENDED. */
  ghost predicate Adds(cfg: Config, run: Run, p: PoolName, i: nat)
    requires i < |run.actions| && i < |run.states|
  {
    Starts.IsStart(cfg, run, p, i) || LateIn(run, p, i)
  }

  predicate StartsOne(a: Action) { a.Manage? && a.m.AllocateOne? }

  /** A step that is not an allocation. */
  lemma OthersKeepRows(cfg: Config, s: Sys, a: Action)
    requires Can(cfg, s, a) && !StartsOne(a)
    ensures Do(cfg, s, a).db.resources.Keys == s.db.resources.Keys
  {
    hide PcFits, DoEnv, DoWork, DoManage, CanEnv, CanWork, CanManage, SameTickets, SameStarts;
    match a
    case Env(e) => EnvNoneEnds(s, e);
    case Work(w) => WorkKeepsTables(cfg, s, w);
    case Manage(m) => Cleaner.ManageKeepsRows(cfg, s, m);
  }

  /** Without an allocation, only a late terminator brings a resource back. */
  lemma OnShrinks(cfg: Config, run: Run, p: PoolName, i: nat)
    requires ValidConfig(cfg) && Valid(cfg, run) && i < |run.actions| && !Adds(cfg, run, p, i)
    ensures On(run.states[i + 1].db, p) <= On(run.states[i].db, p)
  {
    hide Can, Do, Takes;
    StepOf(cfg, run, i);
    Safety.RunEdge(cfg, run, i);
    if StartsOne(run.actions[i]) {
      StartElsewhere(cfg, run, p, i);
    } else {
      OthersKeepRows(cfg, run.states[i], run.actions[i]);
      hide TicketEdge;
      forall r | r in On(run.states[i + 1].db, p) ensures r in On(run.states[i].db, p) {
        if InStateNow(run.states[i].db, r, ENDED) { EndedLeft(cfg, run, i, r); }
        assert RowEdge(run.states[i].db.resources[r], run.states[i + 1].db.resources[r]);
      }
    }
  }

  lemma StartElsewhere(cfg: Config, run: Run, p: PoolName, i: nat)
    requires Valid(cfg, run) && i < |run.actions| && StartsOne(run.actions[i])
    ensures i + 1 < |run.states|
    ensures var db, db' := run.states[i].db, run.states[i + 1].db;
            var r := run.actions[i].m.r;
            && r !in db.resources
            && On(db', p) == if Starts.IsStart(cfg, run, p, i) then On(db, p) + {r} else On(db, p)
  {
    hide Takes, SmallestNumbers, NamesOf;
    StepOf(cfg, run, i);
    hide Valid;
    var s := run.states[i];
    var a := run.actions[i].m;
    AllocateOn(s.db, Pool(cfg, s.pc.i), a.r, a.name, s.clock, a.id, a.values, p);
  }

  lemma AllocateOn(db: Db, q: PoolName, r: ResourceId, name: Name, now: Time, id: nat, values: map<Counter, nat>,
                   p: PoolName)
    requires r !in db.resources
    ensures On(Allocate(db, q, r, name, now, id, values), p) == if p == q then On(db, p) + {r} else On(db, p)
  {
  }

  /** An allocation and a late terminator add exactly one. */
  lemma AddsOne(cfg: Config, run: Run, p: PoolName, i: nat)
    requires ValidConfig(cfg) && Valid(cfg, run) && i < |run.actions| && Adds(cfg, run, p, i)
    ensures |On(run.states[i + 1].db, p)| == |On(run.states[i].db, p)| + 1
  {
    hide Can, Do, Takes;
    if Starts.IsStart(cfg, run, p, i) {
      StartElsewhere(cfg, run, p, i);
    } else {
      BroughtBack(cfg, run, p, i);
    }
  }

  lemma BroughtBack(cfg: Config, run: Run, p: PoolName, i: nat)
    requires ValidConfig(cfg) && Valid(cfg, run) && i < |run.actions| && LateIn(run, p, i)
    ensures On(run.states[i + 1].db, p) == On(run.states[i].db, p) + {run.actions[i].w.r}
    ensures run.actions[i].w.r !in On(run.states[i].db, p)
  {
    hide Can, Do, Takes;
    var r := run.actions[i].w.r;
    Safety.TerminatorNeverBlocked(cfg, run, i, r);
    StepOf(cfg, run, i);
    hide Valid, ValidConfig;
    LateStep(cfg, run.states[i], r);
    hide TicketOpen;
  }

  lemma LateStep(cfg: Config, s: Sys, r: ResourceId)
    requires Can(cfg, s, Work(TerminateStart(r))) && r in s.db.resources && !TicketOpen(s.db, r)
    ensures Do(cfg, s, Work(TerminateStart(r))).db == SetState(s.db, r, DELETING)
  {
    hide PcFits, TicketOpen, SetState, NamesOf;
  }

  /**
   A pool keeps within `max` throughout a run if and only if it has room whenever a resource is
   allocated in it and whenever a terminator is late in it.
   */
  lemma MaxKeptIff(cfg: Config, run: Run, p: PoolName)
    requires ValidConfig(cfg) && Valid(cfg, run) && p in cfg.pools
    ensures (forall i :: 0 <= i < |run.states| ==> |On(run.states[i].db, p)| <= cfg.pools[p].max)
            <==> (forall i :: 0 <= i < |run.actions| && Adds(cfg, run, p, i) ==>
                    |On(run.states[i].db, p)| < cfg.pools[p].max)
  {
    hide Takes, On, Adds;
    if forall i :: 0 <= i < |run.states| ==> |On(run.states[i].db, p)| <= cfg.pools[p].max {
      forall i | 0 <= i < |run.actions| && Adds(cfg, run, p, i) ensures |On(run.states[i].db, p)| < cfg.pools[p].max {
        AddsOne(cfg, run, p, i);
      }
    }
    if forall i :: 0 <= i < |run.actions| && Adds(cfg, run, p, i) ==> |On(run.states[i].db, p)| < cfg.pools[p].max {
      forall i | 0 <= i < |run.states| ensures |On(run.states[i].db, p)| <= cfg.pools[p].max {
        RoomKept(cfg, run, p, i);
      }
    }
  }

  lemma {:induction false} RoomKept(cfg: Config, run: Run, p: PoolName, n: nat)
    requires ValidConfig(cfg) && Valid(cfg, run) && p in cfg.pools && n < |run.states|
    requires forall i :: 0 <= i < |run.actions| && Adds(cfg, run, p, i) ==> |On(run.states[i].db, p)| < cfg.pools[p].max
    ensures |On(run.states[n].db, p)| <= cfg.pools[p].max
    decreases n
  {
    hide Takes, Adds;
    if n == 0 {
      assert On(run.states[0].db, p) == {};
    } else {
      hide On;
      RoomKept(cfg, run, p, n - 1);
      if Adds(cfg, run, p, n - 1) {
        AddsOne(cfg, run, p, n - 1);
      } else {
        OnShrinks(cfg, run, p, n - 1);
        SubsetSize(On(run.states[n].db, p), On(run.states[n - 1].db, p));
      }
    }
  }

  /** The statistics of pool `p` allowed a start, and it has not been made yet. */
  ghost predicate NearStart(cfg: Config, s: Sys, p: PoolName) {
    (s.pc.Timing? || s.pc.Allocating?) && s.pc.i < |cfg.order| && cfg.order[s.pc.i] == p
  }

  /** The `j`-th step is a late terminator in pool `p` while the start that comes at `i` is near. */
  ghost predicate LateNear(cfg: Config, run: Run, p: PoolName, j: nat, i: nat) {
    && j < i < |run.states| && i <= |run.actions|
    && LateIn(run, p, j)
    && (forall m :: j <= m <= i ==> NearStart(cfg, run.states[m], p))
  }

  /** The statistics and the start are separate transactions: only a late terminator in between fills the pool. */
  lemma {:induction false} FullOnlyIfLate(cfg: Config, run: Run, p: PoolName, i: nat)
    requires ValidConfig(cfg) && Valid(cfg, run) && p in cfg.pools
    requires i < |run.states| && NearStart(cfg, run.states[i], p)
    ensures |On(run.states[i].db, p)| < cfg.pools[p].max || exists j :: LateNear(cfg, run, p, j, i)
    decreases i
  {
    hide Can, Do, Takes, On, Late;
    if i > 0 {
      var b := i - 1;
      NearBefore(cfg, run, p, i);
      if NearStart(cfg, run.states[b], p) {
        FullOnlyIfLate(cfg, run, p, b);
        if j :| LateNear(cfg, run, p, j, b) {
          assert LateNear(cfg, run, p, j, i);
        } else if Adds(cfg, run, p, b) {
          assert LateNear(cfg, run, p, b, i);
        } else {
          OnShrinks(cfg, run, p, b);
          SubsetSize(On(run.states[i].db, p), On(run.states[b].db, p));
        }
      }
    }
  }

  /** Before a state that is near a start comes another, or the look at the statistics. */
  lemma NearBefore(cfg: Config, run: Run, p: PoolName, i: nat)
    requires ValidConfig(cfg) && Valid(cfg, run) && p in cfg.pools
    requires 0 < i < |run.states| && NearStart(cfg, run.states[i], p)
    ensures NearStart(cfg, run.states[i - 1], p) || |On(run.states[i].db, p)| < cfg.pools[p].max
    ensures NearStart(cfg, run.states[i - 1], p) ==> !Starts.IsStart(cfg, run, p, i - 1)
  {
    hide Can, Do, Takes, On;
    StepOf(cfg, run, i - 1);
    GoodRun(cfg, run, i - 1);
    hide Valid, Good;
    GoodParts(cfg, run.states[i - 1]);
    hide ValidConfig, Linked, Staffed, Queued;
    NearStep(cfg, run.states[i - 1], run.actions[i - 1], p);
  }

  lemma NearStep(cfg: Config, s: Sys, a: Action, p: PoolName)
    requires PcFits(cfg, s) && Can(cfg, s, a) && p in cfg.pools && NearStart(cfg, Do(cfg, s, a), p)
    ensures !StartsOne(a)
    ensures NearStart(cfg, s, p) || |On(Do(cfg, s, a).db, p)| < cfg.pools[p].max
  {
    hide DoEnv, DoWork, DoManage, CanEnv, CanWork, SmallestNumbers, NamesOf, On, Free, InState;
    match a
    case Env(e) => EnvPc(s, e);
    case Work(w) => WorkKeepsLoop(cfg, s, w);
    case Manage(m) => TowardsAllocation(cfg, s, m);
  }

  /** So a start into a full pool has a late terminator between the statistics and itself. */
  lemma FullStartNeedsLate(cfg: Config, run: Run, p: PoolName, i: nat)
    requires ValidConfig(cfg) && Valid(cfg, run) && p in cfg.pools && Starts.IsStart(cfg, run, p, i)
    requires |On(run.states[i].db, p)| >= cfg.pools[p].max
    ensures exists j :: LateNear(cfg, run, p, j, i)
  {
    hide Takes, On, Late, Valid;
    FullOnlyIfLate(cfg, run, p, i);
  }

  /* ---- by how much it is exceeded ---- */

  /** The steps before `n` that are terminators late in pool `p`. */
  ghost function LateSteps(run: Run, p: PoolName, n: nat): set<nat> {
    set j: nat | j < n && j < |run.actions| && j < |run.states| && LateIn(run, p, j)
  }

  /** What a pool has beyond the resources that hold an id. */
  function Beyond(db: Db, p: PoolName): set<ResourceId> { On(db, p) * Unnumbered(db) }

  /** A step adds to them only what it brings back. */
  lemma BeyondStep(cfg: Config, run: Run, p: PoolName, i: nat)
    requires ValidConfig(cfg) && Valid(cfg, run) && i < |run.actions|
    ensures |Beyond(run.states[i + 1].db, p)| <= |Beyond(run.states[i].db, p)| + if LateIn(run, p, i) then 1 else 0
  {
    hide Can, Do, Takes, Good, Quoted, Unnumbered, On;
    var db, db' := run.states[i].db, run.states[i + 1].db;
    GoodRun(cfg, run, i);
    RunQuoted(cfg, run, i);
    StepOf(cfg, run, i);
    UnnumberedStep(cfg, run.states[i], run.actions[i]);
    if LateIn(run, p, i) {
      BroughtBack(cfg, run, p, i);
      assert Beyond(db', p) <= Beyond(db, p) + {run.actions[i].w.r};
      SubsetSize(Beyond(db', p), Beyond(db, p) + {run.actions[i].w.r});
    } else {
      OthersBeyond(cfg, run, p, i);
      SubsetSize(Beyond(db', p), Beyond(db, p));
    }
  }

  lemma OthersBeyond(cfg: Config, run: Run, p: PoolName, i: nat)
    requires ValidConfig(cfg) && Valid(cfg, run) && i < |run.actions| && !LateIn(run, p, i)
    requires Unnumbered(run.states[i + 1].db) <= Unnumbered(run.states[i].db) + Back(run.states[i], run.actions[i])
    ensures Beyond(run.states[i + 1].db, p) <= Beyond(run.states[i].db, p)
  {
    hide Can, Do, Takes;
    if StartsOne(run.actions[i]) {
      StartElsewhere(cfg, run, p, i);
    } else {
      OnShrinks(cfg, run, p, i);
      if Late(run, i) {
        BroughtBack(cfg, run, run.states[i].db.resources[run.actions[i].w.r].pool, i);
      }
    }
  }

  lemma {:induction false} BeyondLates(cfg: Config, run: Run, p: PoolName, n: nat)
    requires ValidConfig(cfg) && Valid(cfg, run) && n < |run.states|
    ensures |Beyond(run.states[n].db, p)| <= |LateSteps(run, p, n)|
    decreases n
  {
    hide Takes, Beyond, LateIn;
    if n == 0 {
      assert Beyond(run.states[0].db, p) == {} by { NothingAtStart(cfg, run, p); }
    } else {
      BeyondLates(cfg, run, p, n - 1);
      BeyondStep(cfg, run, p, n - 1);
      assert LateSteps(run, p, n)
             == if LateIn(run, p, n - 1) then LateSteps(run, p, n - 1) + {n - 1} else LateSteps(run, p, n - 1);
    }
  }

  lemma NothingAtStart(cfg: Config, run: Run, p: PoolName)
    requires Valid(cfg, run)
    ensures Beyond(run.states[0].db, p) == {}
  {
    hide Takes;
  }

  /**
   In a run a pool never has more resources that are not ENDED than `max` and one for each
   terminator that has been late in it.
   */
  lemma OnWithinMaxAndLates(cfg: Config, run: Run, i: nat, p: PoolName)
    requires ValidConfig(cfg) && Valid(cfg, run) && i < |run.states| && p in cfg.pools
    ensures |On(run.states[i].db, p)| <= cfg.pools[p].max + |LateSteps(run, p, i)|
  {
    hide Takes, LateSteps, Free, InState, IdsOk;
    QuotasHold(cfg, run, i, p);
    BeyondLates(cfg, run, p, i);
    hide Valid;
    var db := run.states[i].db;
    SubsetSize(On(db, p), Numbered(db, p) + Beyond(db, p));
  }

  /** So without a late terminator `max` is kept. */
  lemma OnWithinMax(cfg: Config, run: Run, i: nat, p: PoolName)
    requires ValidConfig(cfg) && Valid(cfg, run) && i < |run.states| && NeverLate(run, i) && p in cfg.pools
    ensures |On(run.states[i].db, p)| <= cfg.pools[p].max
  {
    hide Takes, Late, On;
    OnWithinMaxAndLates(cfg, run, i, p);
    assert LateSteps(run, p, i) == {};
  }

  /* ---- one terminator at a time ---- */

  ghost predicate OneTerminator(s: Sys) {
    forall r :: s.staff.terminators[r] + s.staff.closers[r] <= 1
  }

  ghost predicate TerminatorsWait(s: Sys) {
    forall r :: r in s.staff.terminators ==> InStateNow(s.db, r, DELETE_REQUEST)
  }

  lemma TerminatorsStep(cfg: Config, s: Sys, a: Action)
    requires Good(cfg, s) && Can(cfg, s, a) && TerminatorsWait(s) && OneTerminator(s)
    ensures TerminatorsWait(Do(cfg, s, a))
  {
    hide Good, InStateNow, CanEnv, CanWork, CanManage, DoEnv, DoWork, DoManage, PcFits, Rests, OneTerminator,
         TerminatorsWait, Sent;
    GoodParts(cfg, s);
    StepRests(cfg, s, a);
    NewTerminators(cfg, s, a);
    TerminatorsAfter(s, Do(cfg, s, a), TargetOf(a));
  }

  lemma TerminatorsAfter(s: Sys, s': Sys, but: Option<ResourceId>)
    requires TerminatorsWait(s) && Rests(s.db, s'.db, but) && Sent(s, s', but)
    ensures TerminatorsWait(s')
  {
  }

  /** Where a terminator may come from; after its step none is left for its resource. */
  ghost predicate Sent(s: Sys, s': Sys, but: Option<ResourceId>) {
    forall r :: r in s'.staff.terminators ==>
      (r in s.staff.terminators && but != Some(r)) || (InStateNow(s.db, r, DELETE_REQUEST) && but == None)
  }

  lemma NewTerminators(cfg: Config, s: Sys, a: Action)
    requires PcFits(cfg, s) && Can(cfg, s, a) && OneTerminator(s)
    ensures Sent(s, Do(cfg, s, a), TargetOf(a))
  {
    hide PcFits, Sent, DoEnv, DoWork, DoManage, CanEnv, CanWork, CanManage, OneTerminator;
    match a
    case Env(e) => EnvSends(s, e);
    case Work(w) => WorkSends(cfg, s, w);
    case Manage(m) => ManageSends(cfg, s, m);
  }

  lemma EnvSends(s: Sys, a: EnvStep)
    requires CanEnv(s, a)
    ensures Sent(s, DoEnv(s, a), None)
  {
    hide Kill, FixBroken, Watch, TakeTicket, CloseTicket;
  }

  lemma WorkSends(cfg: Config, s: Sys, a: WorkerStep)
    requires CanWork(cfg, s, a) && OneTerminator(s)
    ensures Sent(s, DoWork(cfg, s, a), Target(a))
  {
    hide FinishAlloc, FinishRelease, End, SetState, NamesOf, NamesOn, TagRows, TicketOpen, InStateNow;
    if Target(a).Some? {
      var r := Target(a).value;
      assert s.staff.terminators[r] + s.staff.closers[r] <= 1;
    }
  }

  lemma ManageSends(cfg: Config, s: Sys, a: ManagerStep)
    requires PcFits(cfg, s) && CanManage(cfg, s, a)
    ensures Sent(s, DoManage(cfg, s, a), None)
  {
    if a.Collect? {
      assert forall r :: r in ToTerminate(s.db, Pool(cfg, s.pc.i)) ==> InStateNow(s.db, r, DELETE_REQUEST);
      hide ToTerminate, InStateNow;
    } else {
      ManageKeepsTerminators(cfg, s, a);
      hide DoManage, CanManage;
    }
  }

  lemma ManageKeepsTerminators(cfg: Config, s: Sys, a: ManagerStep)
    requires PcFits(cfg, s) && CanManage(cfg, s, a) && !a.Collect?
    ensures DoManage(cfg, s, a).staff.terminators == s.staff.terminators
  {
    hide SmallestNumbers, NamesOf, MayStart, DetectClosed, RequestRemoval, AssignTicket, InitPools, Zeros, Budget,
         Closing, Allocate, Assignment.ServiceOrder, Assignment.ReadyNow;
  }

  /** With one terminator in flight per resource, none is late. */
  lemma {:induction false} OneTerminatorNeverLate(cfg: Config, run: Run, n: nat)
    requires ValidConfig(cfg) && Valid(cfg, run) && n < |run.states|
    requires forall i :: 0 <= i < n ==> OneTerminator(run.states[i])
    ensures NeverLate(run, n) && TerminatorsWait(run.states[n])
    decreases n
  {
    hide Good, Can, Do, Takes, OneTerminator;
    if n > 0 {
      OneTerminatorNeverLate(cfg, run, n - 1);
      GoodRun(cfg, run, n - 1);
      StepOf(cfg, run, n - 1);
      StartsWithTerminator(cfg, run.states[n - 1], run.actions[n - 1]);
      hide TerminatorsWait;
      TerminatorsStep(cfg, run.states[n - 1], run.actions[n - 1]);
    }
  }

  lemma StartsWithTerminator(cfg: Config, s: Sys, a: Action)
    requires Can(cfg, s, a)
    ensures a.Work? && a.w.TerminateStart? ==> a.w.r in s.staff.terminators
  {
    hide PcFits, CanEnv, CanManage, NamesOf;
  }

  /** So with one terminator per resource at any time, the maximum holds in the whole run. */
  lemma OneTerminatorKeepsMax(cfg: Config, run: Run, i: nat, p: PoolName)
    requires ValidConfig(cfg) && Valid(cfg, run) && i < |run.states| && p in cfg.pools
    requires forall k :: 0 <= k < |run.states| ==> OneTerminator(run.states[k])
    ensures |On(run.states[i].db, p)| <= cfg.pools[p].max
    ensures forall r :: i + 1 < |run.states| && InStateNow(run.states[i].db, r, ENDED) ==>
        InStateNow(run.states[i + 1].db, r, ENDED)
  {
    hide Takes, On, Late, TerminatorsWait, InStateNow, OneTerminator;
    OneTerminatorNeverLate(cfg, run, |run.actions|);
    OnWithinMax(cfg, run, i, p);
    EndedIsFinalIffNeverLate(cfg, run);
  }
}
