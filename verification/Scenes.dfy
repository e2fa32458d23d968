/**
 The steps of a server with one pool, for showing what its runs can reach.

 The pool may have one resource, keeps one ready, and has a release command.  The clock stands
 still, so no time limit ever passes; the number of uses is the only limit.

   - `Here(count, s, pc)` says that a run leads to `s`, in which the manager is at `pc`.
   - `ToRemoving`, `ToSizing`, `SizeStops`, `SizeStarts`, `GatherStep` and `FinishStep` take the
     manager through one loop; each names the state that it leads to.
   - `OthersStep` is a step of any other actor, at any place of that loop.
   - `World(x, tickets)` is the database while `x` is the only resource that was ever started, and
     `Used(state, ticket, releases)` is that resource after so many releases.
   - `Serve` gives the resource to the one ticket that waits, and `ServeNobody` is the end of a
     loop in which no ticket waits.
 */
module Scenes {
  import opened Collections
  import opened Tables
  import opened Logic
  import opened Protocol
  import opened Reach
  import OnDemand
  import Assignment

  /** A resource may be used again for a second, and `count` times if that is positive. */
  function OnePool(count: nat): PoolConfig { PoolConfig(1, 1, 1, 0.0, true, 3, 1.0, count, 0.0, {}, [], []) }

  function OneConfig(count: nat): Config { Config(map[0 := OnePool(count)], [0], {}) }

  /** The manager has come to `pc`. */
  ghost predicate Here(count: nat, s: Sys, pc: Pc) {
    && Reachable(OneConfig(count), s) && s.pc == pc && s.clock == 0.0 && (At(pc).Some? ==> At(pc).value == 0)
    && (if pc == Beginning then s.db.lastStart == map[] || s.db.lastStart == map[0 := 0.0]
        else s.db.lastStart == map[0 := 0.0] && s.budget.Keys == {0})
  }

  lemma PoolIsKnown(count: nat, db: Db)
    requires db.lastStart == map[] || db.lastStart == map[0 := 0.0]
    ensures InitPools(OneConfig(count), db) == db.(lastStart := map[0 := 0.0])
    ensures Zeros(OneConfig(count)) == map[0 := 0]
  {
    assert InitPools(OneConfig(count), db).lastStart == map[0 := 0.0];
  }

  /** The actors other than the manager. */
  lemma OthersStep(count: nat, s: Sys, a: Action)
    requires Here(count, s, s.pc) && Can(OneConfig(count), s, a)
    requires (a.Env? && !a.e.Tick? && !a.e.Crash? && !a.e.Boot?) || a.Work?
    ensures Here(count, Do(OneConfig(count), s, a), s.pc)
  {
    hide Reachable, FinishAlloc, FinishRelease, End, SetState, TakeTicket, CloseTicket, Kill, Watch, NamesOf, NamesOn,
         TicketOpen, TagRows;
    StepReachable(OneConfig(count), s, a);
  }

  /* ---- the manager's loop ---- */

  lemma BeginStep(count: nat, s: Sys) returns (s': Sys)
    requires Here(count, s, Beginning)
    ensures Here(count, s', Detecting(0))
    ensures s' == s.(pc := Detecting(0), budget := map[0 := 0], db := s.db.(lastStart := map[0 := 0.0]))
  {
    hide Reachable, DoEnv, DoWork, CanEnv, CanWork;
    s' := s.(pc := Detecting(0), budget := map[0 := 0], db := s.db.(lastStart := map[0 := 0.0]));
    PoolIsKnown(count, s.db);
    hide InitPools, Zeros;
    StepReachable(OneConfig(count), s, Manage(Begin));
  }

  /** To the removal pass, which comes after the release of the closed tickets. */
  lemma ToRemoving(count: nat, s: Sys) returns (s': Sys)
    requires Here(count, s, Beginning)
    ensures Here(count, s', Removing(0))
    ensures s'.db == DetectClosed(s.db.(lastStart := map[0 := 0.0]), 0, true, 0.0)
    ensures s'.staff == s.staff.(releasers := s.staff.releasers + multiset(Closing(s.db, 0)))
  {
    s' := BeginStep(count, s);
    hide Reachable, DoEnv, DoWork, CanEnv, CanWork, Budget, OnDemand.Decide;
    assert Closing(s'.db, 0) == Closing(s.db, 0);
    hide DetectClosed, Closing;
    StepReachable(OneConfig(count), s', Manage(Detect));
    s' := s'.(pc := Deciding, db := DetectClosed(s'.db, 0, true, 0.0),
              staff := s'.staff.(releasers := s'.staff.releasers + multiset(Closing(s'.db, 0))));
    var order := Ascending(AllWaiting(s'.db));
    hide Ascending;
    StepReachable(OneConfig(count), s', Manage(Decide(order)));
    s' := s'.(pc := Removing(0), budget := Budget(OneConfig(count), OnDemand.Decide(OneConfig(count), s'.db, order)));
  }

  /** No check failed, and no reuse limit is reached. */
  ghost predicate Undisturbed(count: nat, db: Db) {
    forall r :: r in db.resources ==>
      db.resources[r].failedChecks == 0 && !Worn(db.resources[r], OnePool(count), 0.0)
  }

  lemma NothingToRemove(count: nat, db: Db)
    requires Undisturbed(count, db)
    ensures RequestRemoval(db, 0, OnePool(count), 0.0) == db
  {
    KillNone(db);
    RequestDeleteNone(db);
    assert Failing(db, 0, 3) == {};
    assert WornOut(db, 0, OnePool(count), 0.0) == {};
  }

  lemma ToSizing(count: nat, s: Sys) returns (s': Sys)
    requires Here(count, s, Removing(0)) && Undisturbed(count, s.db)
    ensures Here(count, s', Sizing(0))
    ensures s' == s.(pc := Sizing(0), staff :=
                  s.staff.(terminators := s.staff.terminators + multiset(ToTerminate(s.db, 0))))
  {
    hide Reachable, DoEnv, DoWork, CanEnv, CanWork, RequestRemoval, ToTerminate, Undisturbed;
    NothingToRemove(count, s.db);
    StepReachable(OneConfig(count), s, Manage(Remove));
    StepReachable(OneConfig(count), s.(pc := Collecting(0)), Manage(Collect));
    s' := s.(pc := Sizing(0), staff := s.staff.(terminators := s.staff.terminators + multiset(ToTerminate(s.db, 0))));
  }

  /** A pool that is full starts nothing. */
  lemma SizeStops(count: nat, s: Sys) returns (s': Sys)
    requires Here(count, s, Sizing(0)) && On(s.db, 0) != {}
    ensures Here(count, s', Gathering) && s' == s.(pc := Gathering)
  {
    hide Reachable, DoEnv, DoWork, CanEnv, CanWork;
    assert |On(s.db, 0)| >= 1;
    hide On;
    StepReachable(OneConfig(count), s, Manage(Size));
    StepReachable(OneConfig(count), s.(pc := Tidying(0)), Manage(Tidy(false)));
    s' := s.(pc := Gathering);
  }

  lemma NoneOn(db: Db)
    requires On(db, 0) == {}
    ensures Free(db, 0) == {} && InState(db, 0, STARTING) == {}
  {
    forall r ensures r !in Free(db, 0) && r !in InState(db, 0, STARTING) { assert r !in On(db, 0); }
  }

  lemma AllocateStep(count: nat, s: Sys, r: ResourceId) returns (s': Sys)
    requires Here(count, s, Allocating(0)) && s.db.ids == map[] && r !in s.db.resources && r !in NamesOf(s.db)
    ensures Here(count, s', Sizing(0)) && s'.db == Allocate(s.db, 0, r, r, 0.0, 0, map[])
    ensures s'.staff == s.staff.(allocators := s.staff.allocators + multiset{r})
  {
    hide Reachable, DoEnv, DoWork, CanEnv, CanWork, NamesOf;
    assert SmallestNumbers(s.db, 0, {}, 0, map[]) by { assert IdsTaken(s.db, 0) == {}; }
    hide SmallestNumbers;
    StepReachable(OneConfig(count), s, Manage(AllocateOne(r, r, 0, map[])));
    s' := s.(db := Allocate(s.db, 0, r, r, 0.0, 0, map[]), budget := s.budget[0 := s.budget[0] - 1], pc := Sizing(0),
             staff := s.staff.(allocators := s.staff.allocators + multiset{r}));
  }

  /** An empty one starts a resource. */
  lemma SizeStarts(count: nat, s: Sys, r: ResourceId) returns (s': Sys)
    requires Here(count, s, Sizing(0)) && On(s.db, 0) == {}
    requires s.db.ids == map[] && r !in s.db.resources && r !in NamesOf(s.db)
    ensures Here(count, s', Sizing(0)) && s'.db == Allocate(s.db, 0, r, r, 0.0, 0, map[])
    ensures s'.staff == s.staff.(allocators := s.staff.allocators + multiset{r})
  {
    hide Reachable, DoEnv, DoWork, CanEnv, CanWork, NamesOf;
    NoneOn(s.db);
    StepReachable(OneConfig(count), s, Manage(Size));
    hide On;
    StepReachable(OneConfig(count), s.(pc := Timing(0)), Manage(MeasureDelay));
    s' := AllocateStep(count, s.(pc := Allocating(0)), r);
  }

  lemma GatherStep(count: nat, s: Sys) returns (s': Sys)
    requires Here(count, s, Gathering)
    ensures s' == s.(pc := Assigning(Assignment.ServiceOrder(s.db, {}), Assignment.ReadyNow(s.db)))
    ensures Here(count, s', s'.pc)
  {
    hide Reachable, DoEnv, DoWork, CanEnv, CanWork, Assignment.ServiceOrder, Assignment.ReadyNow;
    StepReachable(OneConfig(count), s, Manage(Gather));
    assert OnDemand.OnDemandTags(OneConfig(count)) == {};
    s' := s.(pc := Assigning(Assignment.ServiceOrder(s.db, {}), Assignment.ReadyNow(s.db)));
  }

  /** The end of the loop, and the next one begins. */
  lemma FinishStep(count: nat, s: Sys) returns (s': Sys)
    requires s.pc.Assigning? && Here(count, s, s.pc) && s.pc.queue == []
    ensures Here(count, s', Beginning) && s' == s.(pc := Beginning)
  {
    hide Reachable, DoEnv, DoWork, CanEnv, CanWork;
    StepReachable(OneConfig(count), s, Manage(Finish));
    StepReachable(OneConfig(count), s.(pc := Resting), Manage(WakeUp));
    s' := s.(pc := Beginning);
  }

  lemma ServeNobody(count: nat, s: Sys) returns (s': Sys)
    requires Here(count, s, Gathering) && AllWaiting(s.db) == {}
    ensures Here(count, s', Beginning) && s' == s.(pc := Beginning)
  {
    hide Here, Assignment.ReadyNow;
    assert forall asking :: Assignment.WaitingTickets(s.db, {}, asking) <= AllWaiting(s.db);
    assert Assignment.ServiceOrder(s.db, {}) == [];
    hide Assignment.ServiceOrder;
    s' := GatherStep(count, s);
    s' := FinishStep(count, s');
  }

  /* ---- one resource ---- */

  function World(x: Resource, tickets: map<TicketId, Ticket>): Db {
    Db(map[0 := x], tickets, map[0 := 0], map[0 := map[]], map[0 := 0.0])
  }

  /** The resource is up and was never used. */
  const FRESH := Resource(0, 0, UP, None, NoSandbox, None, None, 0, 0, Some([]), map[])

  lemma Booted(count: nat) returns (s: Sys)
    ensures Here(count, s, Beginning) && s.staff == NOBODY && s.db == Db(map[], map[], map[], map[], map[])
  {
    hide Reachable;
    s := Sys(Db(map[], map[], map[], map[], map[]), NOBODY, multiset{}, Down, 0.0, 0, map[], {});
    StartReachable(OneConfig(count), s);
    StepReachable(OneConfig(count), s, Env(Boot));
    assert FixBroken(s.db) == s.db;
    s := s.(pc := Beginning);
  }

  lemma FirstStarts(count: nat) returns (s: Sys)
    ensures Here(count, s, Beginning) && s.staff == NOBODY.(allocators := multiset{0})
    ensures s.db == World(NewRow(0, 0), map[])
  {
    s := Booted(count);
    hide Here;
    assert Closing(s.db, 0) == {} && ToTerminate(s.db, 0) == {};
    s := ToRemoving(count, s);
    assert s.db == Db(map[], map[], map[], map[], map[0 := 0.0]);
    s := ToSizing(count, s);
    s := SizeStarts(count, s, 0);
    assert s.db == World(NewRow(0, 0), map[]) && 0 in On(s.db, 0);
    s := SizeStops(count, s);
    s := ServeNobody(count, s);
  }

  lemma FirstIsUp(count: nat) returns (s: Sys)
    ensures Here(count, s, Beginning) && s.staff == NOBODY && s.db == World(FRESH, map[])
  {
    s := FirstStarts(count);
    var a := Work(AllocDone(0, true, []));
    OthersStep(count, s, a);
    hide Reachable;
    assert Do(OneConfig(count), s, a) == s.(staff := NOBODY, db := World(FRESH, map[]));
    s := Do(OneConfig(count), s, a);
  }

  /* ---- tickets that want the same sandbox ---- */

  const ASKING := Ticket(None, OPEN, Given(0), {})
  const SERVED := Ticket(Some(0), OPEN, Given(0), {})
  const CLOSING := Ticket(Some(0), CLOSED, Given(0), {})

  /** The resource after it was released `releases` times. */
  function Used(state: RState, ticket: Option<TicketId>, releases: nat): Resource {
    Resource(0, 0, state, ticket, Given(0), Some(0.0), if releases == 0 then None else Some(0.0), releases, 0,
             Some([]), map[])
  }

  /** Nobody waits, and the resource can be given to a ticket. */
  ghost predicate AtRest(x: Resource, tickets: map<TicketId, Ticket>) {
    (x == FRESH || exists releases :: x == Used(UP, None, releases)) && AllWaiting(World(x, tickets)) == {}
  }

  lemma TakeStep(count: nat, s: Sys, pc: Pc, x: Resource, tickets: map<TicketId, Ticket>, t: TicketId) returns (s': Sys)
    requires Here(count, s, pc) && pc != Down && s.db == World(x, tickets) && t !in tickets
    ensures Here(count, s', pc) && s' == s.(db := World(x, tickets[t := ASKING]))
  {
    hide Reachable;
    OthersStep(count, s, Env(Take(t, {}, Given(0))));
    s' := s.(db := World(x, tickets[t := ASKING]));
  }

  lemma ReleaseStep(count: nat, s: Sys, pc: Pc, releases: nat, tickets: map<TicketId, Ticket>) returns (s': Sys)
    requires Here(count, s, pc) && pc != Down && s.db == World(Used(RELEASING, None, releases), tickets)
    requires s.staff == NOBODY.(releasers := multiset{0})
    ensures Here(count, s', pc) && s' == s.(db := World(Used(UP, None, releases), tickets), staff := NOBODY)
  {
    hide Reachable, DoEnv, DoManage, CanEnv, CanManage;
    var a := Work(ReleaseDone(0, true));
    OthersStep(count, s, a);
    assert Do(OneConfig(count), s, a) == s.(db := World(Used(UP, None, releases), tickets), staff := NOBODY);
    s' := Do(OneConfig(count), s, a);
  }

  /** The one ticket that waits has its turn, and there is a resource for it. */
  lemma ToAssigning(count: nat, s: Sys, x: Resource, tickets: map<TicketId, Ticket>, t: TicketId) returns (s': Sys)
    requires Here(count, s, Gathering) && s.db == World(x, tickets[t := ASKING]) && t !in tickets && AtRest(x, tickets)
    ensures s' == s.(pc := Assigning([t], {0})) && Here(count, s', s'.pc)
    ensures Assignment.Choice(s.db, {0}, t) == Some(0)
  {
    hide Here;
    TurnOf(x, tickets, t);
    ChosenFor(s.db, t);
    hide Assignment.ServiceOrder, Assignment.ReadyNow, Assignment.Choice, AtRest;
    s' := GatherStep(count, s);
  }

  lemma TurnOf(x: Resource, tickets: map<TicketId, Ticket>, t: TicketId)
    requires t !in tickets && AtRest(x, tickets)
    ensures var db := World(x, tickets[t := ASKING]);
            Assignment.ServiceOrder(db, {}) == [t] && Assignment.ReadyNow(db) == {0}
  {
    var db := World(x, tickets[t := ASKING]);
    forall u ensures u in AllWaiting(db) <==> u == t {
      assert u in AllWaiting(World(x, tickets)) <==> u in AllWaiting(db) && u != t;
    }
    assert AllWaiting(db) == {t};
    assert Assignment.WaitingTickets(db, {}, true) == {} && Assignment.WaitingTickets(db, {}, false) == {t};
    AscendingUnique([t], {t});
    assert Ascending({}) == [];
    assert Assignment.ReadyNow(db) == {0};
  }

  lemma ChosenFor(db: Db, t: TicketId)
    requires db.resources.Keys == {0} && t in db.tickets && Assignment.Suitable(db, {0}, db.tickets[t], 0)
    ensures Assignment.Choice(db, {0}, t) == Some(0)
  {
    hide Ready, Assignment.Preferred;
    Assignment.ServedIffPossible(db, {0}, t);
  }

  lemma AssignStep(count: nat, s: Sys, r: ResourceId) returns (s': Sys)
    requires s.pc.Assigning? && Here(count, s, s.pc) && s.pc.queue != [] && s.pc.queue[0] in s.db.tickets
    requires Assignment.Choice(s.db, s.pc.snapshot, s.pc.queue[0]) == Some(r)
    ensures Here(count, s', s'.pc) && s'.pc == Assigning(s.pc.queue[1..], s.pc.snapshot) && s'.staff == s.staff
    ensures s'.db == AssignTicket(s.db, r, s.pc.queue[0], 0.0, Generated(s.uuids))
  {
    hide Reachable, DoEnv, DoWork, CanEnv, CanWork, AssignTicket, Assignment.IsChoice;
    StepReachable(OneConfig(count), s, Manage(Assign));
    s' := Do(OneConfig(count), s, Manage(Assign));
  }

  /** The ticket takes the resource, and the next loop begins. */
  lemma Serve(count: nat, s: Sys, x: Resource, tickets: map<TicketId, Ticket>, t: TicketId) returns (s': Sys)
    requires Here(count, s, Gathering) && s.db == World(x, tickets[t := ASKING]) && t !in tickets && AtRest(x, tickets)
    ensures Here(count, s', Beginning) && s'.staff == s.staff
    ensures s'.db == World(Used(UP, Some(t), x.releases), tickets[t := SERVED])
  {
    hide Here, Assignment.Choice;
    s' := ToAssigning(count, s, x, tickets, t);
    s' := AssignStep(count, s', 0);
    s' := FinishStep(count, s');
  }
}
