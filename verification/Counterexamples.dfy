/**
 Runs that show that the exceptions named in `Reuse`, `FailedReleases` and `Fairness` do occur.

   - `LimitIsExceeded`: a resource is used and released, and used again.  The second release ends
     when the removal pass is over, so the pass does not see that the resource is worn out, and the
     next ticket gets it.
   - `MarkIsIgnored`: the release of a resource fails.  The pool has no `reuse_max_count`, so
     "one more than the maximum" means nothing to the removal pass.
   - `EnvyAfterCheck`: two tickets wait for one resource.  A check of it fails just before the
     first ticket has its turn, and another one succeeds just before the second.

 All three begin with the empty database.
 */
module Counterexamples {
  import opened Collections
  import opened Tables
  import opened Logic
  import opened Protocol
  import opened Reach
  import opened Scenes
  import opened FailedReleases
  import Assignment
  import Fairness
  import Reuse

  /** A loop that has nothing to release and to remove. */
  lemma QuietLoop(count: nat, s: Sys, x: Resource, tickets: map<TicketId, Ticket>) returns (s': Sys)
    requires Here(count, s, Beginning) && s.db == World(x, tickets) && x.pool == 0 && x.state == UP
    requires x.ticket.None? && x.failedChecks == 0 && !Worn(x, OnePool(count), 0.0)
    ensures Here(count, s', Gathering) && s'.db == s.db && s'.staff == s.staff
  {
    hide Here;
    assert Closing(s.db, 0) == {} && ToTerminate(s.db, 0) == {} && 0 in On(s.db, 0);
    assert DetectClosed(s.db, 0, true, 0.0).resources == s.db.resources;
    hide DetectClosed, Closing, On, ToTerminate;
    s' := ToRemoving(count, s);
    s' := ToSizing(count, s');
    s' := SizeStops(count, s');
  }

  /** A ticket is taken, and a loop serves it. */
  lemma UseIt(count: nat, s: Sys, x: Resource, tickets: map<TicketId, Ticket>, t: TicketId) returns (s': Sys)
    requires Here(count, s, Beginning) && s.db == World(x, tickets) && AtRest(x, tickets) && t !in tickets
    requires count == 0 || x.releases <= count
    ensures Here(count, s', Beginning) && s'.staff == s.staff
    ensures s'.db == World(Used(UP, Some(t), x.releases), tickets[t := SERVED])
  {
    hide Here;
    s' := TakeStep(count, s, Beginning, x, tickets, t);
    assert x.pool == 0 && !Worn(x, OnePool(count), 0.0);
    hide Worn, World;
    s' := QuietLoop(count, s', x, tickets[t := ASKING]);
    s' := Serve(count, s', x, tickets, t);
  }

  /** The ticket is closed, and the next loop starts to release the resource. */
  lemma CloseIt(count: nat, s: Sys, tickets: map<TicketId, Ticket>, t: TicketId, releases: nat) returns (s': Sys)
    requires Here(count, s, Beginning) && s.db == World(Used(UP, Some(t), releases), tickets[t := SERVED])
    requires s.staff == NOBODY
    ensures Here(count, s', Removing(0)) && s'.staff == NOBODY.(releasers := multiset{0})
    ensures s'.db == World(Used(RELEASING, None, releases + 1), tickets[t := CLOSING])
  {
    OthersStep(count, s, Env(Close(t)));
    hide Reachable;
    assert tickets[t := SERVED][t := CLOSING] == tickets[t := CLOSING];
    s' := s.(db := World(Used(UP, Some(t), releases), tickets[t := CLOSING]));
    assert s' == Do(OneConfig(count), s, Env(Close(t)));
    hide Here;
    IsReleased(tickets[t := CLOSING], t, releases);
    hide DetectClosed, Closing;
    s' := ToRemoving(count, s');
  }

  lemma IsReleased(tickets: map<TicketId, Ticket>, t: TicketId, releases: nat)
    requires t in tickets && tickets[t] == CLOSING
    ensures var db := World(Used(UP, Some(t), releases), tickets);
            && Closing(db, 0) == {0}
            && DetectClosed(db, 0, true, 0.0) == World(Used(RELEASING, None, releases + 1), tickets)
  {
    var db := World(Used(UP, Some(t), releases), tickets);
    assert DetectClosed(db, 0, true, 0.0).resources == map[0 := Used(RELEASING, None, releases + 1)];
  }

  /** A loop goes on while the resource is being released. */
  lemma WhileReleasing(count: nat, s: Sys, releases: nat, tickets: map<TicketId, Ticket>) returns (s': Sys)
    requires Here(count, s, Removing(0)) && s.db == World(Used(RELEASING, None, releases), tickets)
    ensures Here(count, s', Gathering) && s'.db == s.db && s'.staff == s.staff
  {
    hide Here;
    assert ToTerminate(s.db, 0) == {} && 0 in On(s.db, 0);
    hide On, ToTerminate;
    s' := ToSizing(count, s);
    s' := SizeStops(count, s');
  }

  /* ---- a release that ends late ---- */

  /** One use is over. */
  lemma UsedOnce() returns (s: Sys)
    ensures Here(1, s, Beginning) && s.staff == NOBODY && s.db == World(Used(UP, None, 1), map[0 := CLOSING])
  {
    hide Here;
    s := FirstIsUp(1);
    s := UseIt(1, s, FRESH, map[], 0);
    s := CloseIt(1, s, map[], 0, 0);
    s := WhileReleasing(1, s, 1, map[0 := CLOSING]);
    s := ServeNobody(1, s);
    s := ReleaseStep(1, s, Beginning, 1, map[0 := CLOSING]);
  }

  /** The second release ends when the removal pass is over. */
  lemma UsedTwice() returns (s: Sys)
    ensures Here(1, s, Gathering) && s.staff == NOBODY
    ensures s.db == World(Used(UP, None, 2), map[0 := CLOSING, 1 := CLOSING])
  {
    hide Here;
    s := UsedOnce();
    s := UseIt(1, s, Used(UP, None, 1), map[0 := CLOSING], 1);
    s := CloseIt(1, s, map[0 := CLOSING], 1, 1);
    s := WhileReleasing(1, s, 2, map[0 := CLOSING, 1 := CLOSING]);
    s := ReleaseStep(1, s, Gathering, 2, map[0 := CLOSING, 1 := CLOSING]);
  }

  /** With `reuse_max_count: 1`, a resource serves three tickets. */
  lemma LimitIsExceeded() returns (run: Run, i: nat)
    ensures ValidConfig(OneConfig(1)) && Valid(OneConfig(1), run) && i + 1 == |run.actions|
    ensures OneConfig(1).pools[0].reuseMaxCount == 1 && Reuse.Exceeds(OneConfig(1), run, i, 0)
    ensures Reuse.Served(run.states[i + 1].db, 0) == {0, 1, 2}
  {
    hide Initial, Takes, Can, Do, Here;
    var s := UsedTwice();
    var tickets := map[0 := CLOSING, 1 := CLOSING];
    s := TakeStep(1, s, Gathering, Used(UP, None, 2), tickets, 2);
    s := ToAssigning(1, s, Used(UP, None, 2), tickets, 2);
    LastAssignment(s);
    var before :| Valid(OneConfig(1), before) && before.states[|before.actions|] == s;
    i := |before.actions|;
    run := Extend(OneConfig(1), before, Manage(Assign));
  }

  lemma LastAssignment(s: Sys)
    requires s.db == World(Used(UP, None, 2), map[0 := CLOSING, 1 := CLOSING, 2 := ASKING])
    requires Here(1, s, Assigning([2], {0})) && Assignment.Choice(s.db, {0}, 2) == Some(0)
    ensures Reachable(OneConfig(1), s) && Can(OneConfig(1), s, Manage(Assign)) && Reuse.Given(s) == Some(0)
    ensures Reuse.Served(Do(OneConfig(1), s, Manage(Assign)).db, 0) == {0, 1, 2}
  {
    hide Reachable, Assignment.IsChoice;
  }

  /* ---- a mark without effect ---- */

  lemma FirstRelease() returns (s: Sys)
    ensures Here(0, s, Removing(0)) && s.staff == NOBODY.(releasers := multiset{0})
    ensures s.db == World(Used(RELEASING, None, 1), map[0 := CLOSING])
  {
    hide Here;
    s := FirstIsUp(0);
    s := UseIt(0, s, FRESH, map[], 0);
    s := CloseIt(0, s, map[], 0, 0);
  }

  lemma ReleaseFails(s: Sys) returns (s': Sys)
    requires Here(0, s, Removing(0)) && s.staff == NOBODY.(releasers := multiset{0})
    requires s.db == World(Used(RELEASING, None, 1), map[0 := CLOSING])
    ensures Reachable(OneConfig(0), s) && Can(OneConfig(0), s, Work(ReleaseDone(0, false)))
    ensures s' == Do(OneConfig(0), s, Work(ReleaseDone(0, false))) && Here(0, s', Removing(0))
    ensures s'.db == World(Used(UP, None, 1), map[0 := CLOSING])
  {
    hide Reachable;
    OthersStep(0, s, Work(ReleaseDone(0, false)));
    s' := s.(db := World(Used(UP, None, 1), map[0 := CLOSING]), staff := NOBODY);
    assert s' == Do(OneConfig(0), s, Work(ReleaseDone(0, false)));
  }

  lemma PassIgnores(s: Sys)
    requires Here(0, s, Removing(0)) && s.db == World(Used(UP, None, 1), map[0 := CLOSING])
    ensures Can(OneConfig(0), s, Manage(Remove)) && Do(OneConfig(0), s, Manage(Remove)).db == s.db
  {
    hide Reachable, RequestRemoval;
    NothingToRemove(0, s.db);
  }

  /** Without `reuse_max_count`, a resource whose release failed gets past the removal pass. */
  lemma MarkIsIgnored() returns (run: Run, i: nat)
    ensures ValidConfig(OneConfig(0)) && Valid(OneConfig(0), run) && i + 2 == |run.actions|
    ensures run.actions[i] == Work(ReleaseDone(0, false)) && run.actions[i + 1] == Manage(Remove)
    ensures !MarkCounts(OneConfig(0).pools[0]) && 0 in run.states[i + 1].db.resources
    ensures Marked(run.states[i + 1].db.resources[0], OneConfig(0).pools[0])
    ensures Fairness.ReadyAt(run.states[i + 2].db, 0)
  {
    hide Initial, Takes, Can, Do, Here;
    var s := FirstRelease();
    var s' := ReleaseFails(s);
    PassIgnores(s');
    var before :| Valid(OneConfig(0), before) && before.states[|before.actions|] == s;
    i := |before.actions|;
    run := Extend(OneConfig(0), before, Work(ReleaseDone(0, false)));
    run := Extend(OneConfig(0), run, Manage(Remove));
  }

  /* ---- a check during the pass ---- */

  const WANTED := map[0 := ASKING, 1 := ASKING]

  /** The pass begins with two tickets and one resource. */
  lemma TwoWait() returns (s: Sys)
    ensures Here(0, s, Assigning([0, 1], {0})) && s.db == World(FRESH, WANTED)
  {
    hide Here;
    s := FirstIsUp(0);
    s := TakeStep(0, s, Beginning, FRESH, map[], 0);
    s := TakeStep(0, s, Beginning, FRESH, map[0 := ASKING], 1);
    s := QuietLoop(0, s, FRESH, WANTED);
    BothTurns();
    hide Assignment.ServiceOrder, Assignment.ReadyNow;
    s := GatherStep(0, s);
  }

  lemma BothTurns()
    ensures Assignment.ServiceOrder(World(FRESH, WANTED), {}) == [0, 1]
    ensures Assignment.ReadyNow(World(FRESH, WANTED)) == {0}
  {
    var db := World(FRESH, WANTED);
    assert Assignment.WaitingTickets(db, {}, true) == {} && Assignment.WaitingTickets(db, {}, false) == {0, 1};
    AscendingUnique([0, 1], {0, 1});
    assert Ascending({}) == [];
    assert Assignment.ReadyNow(db) == {0};
  }

  /** What the Watcher writes. */
  function Checked(failures: nat): Resource { FRESH.(failedChecks := failures) }

  lemma CheckStep(s: Sys, queue: seq<TicketId>, failures: nat, success: bool) returns (s': Sys)
    requires Here(0, s, Assigning(queue, {0})) && s.db == World(Checked(failures), WANTED)
    ensures Can(OneConfig(0), s, Env(Check(0, success))) && s' == Do(OneConfig(0), s, Env(Check(0, success)))
    ensures Here(0, s', s.pc) && s'.db == World(Checked(if success then 0 else failures + 1), WANTED)
  {
    hide Reachable;
    OthersStep(0, s, Env(Check(0, success)));
    s' := s.(db := World(Checked(if success then 0 else failures + 1), WANTED));
    assert s' == Do(OneConfig(0), s, Env(Check(0, success)));
  }

  /** The first ticket finds the resource failing. */
  lemma FirstIsPassedOver(s: Sys) returns (s': Sys)
    requires Here(0, s, Assigning([0, 1], {0})) && s.db == World(Checked(1), WANTED)
    ensures Can(OneConfig(0), s, Manage(Assign)) && s' == Do(OneConfig(0), s, Manage(Assign))
    ensures Here(0, s', Assigning([1], {0})) && s'.db == s.db && Assignment.Choice(s.db, {0}, 0).None?
  {
    hide Reachable, AssignTicket, Assignment.Choice;
    Assignment.ServedIffPossible(s.db, {0}, 0);
    StepReachable(OneConfig(0), s, Manage(Assign));
    s' := Do(OneConfig(0), s, Manage(Assign));
  }

  /** The second one gets it. */
  lemma SecondIsServed(s: Sys)
    requires Here(0, s, Assigning([1], {0})) && s.db == World(Checked(0), WANTED)
    ensures Reachable(OneConfig(0), s) && Can(OneConfig(0), s, Manage(Assign))
    ensures Assignment.Choice(s.db, {0}, 1) == Some(0) && Assignment.Suitable(s.db, {0}, ASKING, 0)
    ensures Do(OneConfig(0), s, Manage(Assign)).pc == Assigning([], {0})
  {
    hide Reachable, AssignTicket;
    ChosenFor(s.db, 1);
  }

  /** A check fails, and the first ticket has its turn. */
  lemma FirstTurn() returns (run: Run, n: nat)
    ensures Valid(OneConfig(0), run) && |run.actions| == n + 2 && |run.states| == n + 3
    ensures run.actions[n + 1] == Manage(Assign) && run.states[n + 1].pc == Assigning([0, 1], {0})
    ensures run.states[n + 1].db == run.states[n + 2].db == World(Checked(1), WANTED)
    ensures Here(0, run.states[n + 2], Assigning([1], {0}))
  {
    hide Initial, Takes, Can, Do;
    var s := TwoWait();
    var before :| Valid(OneConfig(0), before) && before.states[|before.actions|] == s;
    n := |before.actions|;
    s := CheckStep(s, [0, 1], 0, false);
    assert s.pc == Assigning([0, 1], {0});
    hide Here;
    run := Extend(OneConfig(0), before, Env(Check(0, false)));
    s := FirstIsPassedOver(s);
    run := Extend(OneConfig(0), run, Manage(Assign));
  }

  /** A check succeeds, and the second one has its turn. */
  lemma SecondTurn() returns (run: Run, n: nat)
    ensures Valid(OneConfig(0), run) && |run.actions| == n + 4 && |run.states| == n + 5
    ensures run.actions[n + 1] == run.actions[n + 3] == Manage(Assign)
    ensures run.states[n + 1].pc == Assigning([0, 1], {0}) && run.states[n + 1].db == World(Checked(1), WANTED)
    ensures run.states[n + 2].pc == run.states[n + 3].pc == Assigning([1], {0})
    ensures run.states[n + 3].db == World(Checked(0), WANTED)
  {
    hide Initial, Takes, Can, Do, Reachable;
    run, n := FirstTurn();
    var s := CheckStep(run.states[n + 2], [1], 1, true);
    assert run.states[n + 2].pc == s.pc == Assigning([1], {0});
    hide Here;
    run := Extend(OneConfig(0), run, Env(Check(0, true)));
    SecondIsServed(s);
    run := Extend(OneConfig(0), run, Manage(Assign));
  }

  /**
   The second ticket gets a resource that could have served the first, and the first got nothing:
   the resource was checked with success between their turns.
   */
  lemma EnvyAfterCheck() returns (run: Run, a: nat, b: nat)
    ensures ValidConfig(OneConfig(0)) && Valid(OneConfig(0), run) && a < b < |run.actions| < |run.states|
    ensures Fairness.Pass(run, a, b, {0}) && Fairness.Serves(run, a, 0) && Fairness.Serves(run, b, 1)
    ensures Assignment.Choice(run.states[b].db, {0}, 1) == Some(0)
    ensures Assignment.Suitable(run.states[b].db, {0}, run.states[a].db.tickets[0], 0)
    ensures !Fairness.GotBetter(run, a, {0}, 0, 0)
  {
    hide Valid, Assignment.Choice;
    var n;
    run, n := SecondTurn();
    a, b := n + 1, n + 3;
    forall k | a <= k <= b ensures Fairness.InPass(run.states[k], {0}) {
      assert k == n + 1 || k == n + 2 || k == n + 3;
    }
    Assignment.ServedIffPossible(run.states[a].db, {0}, 0);
    ChosenFor(run.states[b].db, 1);
  }
}
