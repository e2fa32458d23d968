/**
 A run in which two terminators work on one resource, in a pool with `max: 1`:

   - a resource is started and comes up, and the maintainer kills it;
   - a loop finds it in DELETE_REQUEST and starts a terminator;
   - the next loop starts another one, since the first has not begun;
   - the first terminator deletes the resource and writes ENDED;
   - the loop finds the pool empty and starts a second resource;
   - the other terminator writes DELETING, although the first resource had ended.

 Now two resources of the pool are not ENDED.
 */
module TwoTerminators {
  import opened Tables
  import opened Logic
  import opened Protocol
  import opened Finality
  import opened Reach
  import opened Scenes
  import opened Invariant

  const CFG := OneConfig(0)

  /** The database while only the first resource was ever started. */
  function First(state: RState): Db { World(FRESH.(state := state), map[]) }

  /** And when it has ended. */
  const LAST := Db(map[0 := FRESH.(state := ENDED)], map[], map[], map[], map[0 := 0.0])

  lemma Killed() returns (s: Sys)
    ensures Here(0, s, Beginning) && s.staff == NOBODY && s.db == First(DELETE_REQUEST)
  {
    s := FirstIsUp(0);
    OthersStep(0, s, Env(KillOne(0)));
    hide Reachable;
    assert Kill(s.db, {0}).resources == map[0 := FRESH.(state := DELETE_REQUEST)] && Kill(s.db, {0}).tickets == map[];
    s := Do(CFG, s, Env(KillOne(0)));
  }

  /** A loop sends a terminator for it. */
  lemma SendOne(s: Sys) returns (s': Sys)
    requires Here(0, s, Beginning) && s.db == First(DELETE_REQUEST)
    ensures Here(0, s', Sizing(0)) && s'.db == s.db
    ensures s'.staff == s.staff.(terminators := s.staff.terminators + multiset{0})
  {
    hide Reachable;
    assert Closing(s.db, 0) == {} && ToTerminate(s.db, 0) == {0};
    assert DetectClosed(s.db, 0, true, 0.0).resources == s.db.resources;
    s' := ToRemoving(0, s);
    s' := ToSizing(0, s');
  }

  lemma TwoSent() returns (s: Sys)
    ensures Here(0, s, Sizing(0)) && s.staff == NOBODY.(terminators := multiset{0, 0}) && s.db == First(DELETE_REQUEST)
  {
    hide Here;
    s := Killed();
    s := SendOne(s);
    assert 0 in On(s.db, 0) && AllWaiting(s.db) == {};
    s := SizeStops(0, s);
    s := ServeNobody(0, s);
    s := SendOne(s);
  }

  /** The first of them is fast. */
  lemma FirstTerminator(s: Sys) returns (s': Sys)
    requires Here(0, s, Sizing(0)) && s.staff == NOBODY.(terminators := multiset{0, 0}) && s.db == First(DELETE_REQUEST)
    ensures Here(0, s', Sizing(0)) && s'.staff == NOBODY.(terminators := multiset{0}) && s'.db == LAST
  {
    hide Reachable;
    s' := FirstBegins(s);
    OthersStep(0, s', Work(TerminateEnd(0)));
    assert Do(CFG, s', Work(TerminateEnd(0))) == s'.(db := LAST, staff := NOBODY.(terminators := multiset{0}));
    s' := Do(CFG, s', Work(TerminateEnd(0)));
  }

  lemma FirstBegins(s: Sys) returns (s': Sys)
    requires Here(0, s, Sizing(0)) && s.staff == NOBODY.(terminators := multiset{0, 0}) && s.db == First(DELETE_REQUEST)
    ensures Here(0, s', Sizing(0)) && s'.staff == Staff(multiset{}, multiset{}, multiset{0}, multiset{0})
    ensures s'.db == First(DELETING)
  {
    hide Reachable;
    OthersStep(0, s, Work(TerminateStart(0)));
    s' := s.(db := First(DELETING), staff := Staff(multiset{}, multiset{}, multiset{0}, multiset{0}));
    assert s' == Do(CFG, s, Work(TerminateStart(0)));
  }

  /** The pool starts another resource. */
  lemma SecondIsLate() returns (s: Sys)
    ensures Here(0, s, Sizing(0)) && s.staff == Staff(multiset{1}, multiset{}, multiset{0}, multiset{})
    ensures s.db == Allocate(LAST, 0, 1, 1, 0.0, 0, map[])
  {
    s := TwoSent();
    s := FirstTerminator(s);
    hide Here;
    OnlyEnded();
    hide On, NamesOf;
    s := SizeStarts(0, s, 1);
  }

  lemma OnlyEnded()
    ensures On(LAST, 0) == {} && 1 !in LAST.resources && 1 !in NamesOf(LAST)
  {
    forall n | n in NamesOf(LAST) ensures n == 0 {
      var r :| r in LAST.resources && LAST.resources[r].name == n;
    }
  }

  /** With `max: 1`, two resources count against the maximum, and one of them had ended. */
  lemma MaxIsExceeded() returns (run: Run, i: nat)
    ensures ValidConfig(CFG) && Valid(CFG, run) && i < |run.actions| && Late(run, i)
    ensures InStateNow(run.states[i].db, 0, ENDED) && InStateNow(run.states[i + 1].db, 0, DELETING)
    ensures CFG.pools[0].max == 1 && |On(run.states[i + 1].db, 0)| == 2
  {
    hide Initial, Takes, On, Can, Do, Here;
    var s := SecondIsLate();
    LastStep(s);
    var run0 :| Valid(CFG, run0) && run0.states[|run0.actions|] == s;
    i := |run0.actions|;
    run := Extend(CFG, run0, Work(TerminateStart(0)));
  }

  lemma LastStep(s: Sys)
    requires Here(0, s, Sizing(0)) && s.staff == Staff(multiset{1}, multiset{}, multiset{0}, multiset{})
    requires s.db == Allocate(LAST, 0, 1, 1, 0.0, 0, map[])
    ensures Reachable(CFG, s) && Can(CFG, s, Work(TerminateStart(0))) && InStateNow(s.db, 0, ENDED)
    ensures InStateNow(Do(CFG, s, Work(TerminateStart(0))).db, 0, DELETING)
    ensures |On(Do(CFG, s, Work(TerminateStart(0))).db, 0)| == 2
  {
    hide Reachable;
    TwoOn(s.db);
  }

  lemma TwoOn(db: Db)
    requires db == Allocate(LAST, 0, 1, 1, 0.0, 0, map[])
    ensures |On(SetState(db, 0, DELETING), 0)| == 2
  {
    assert On(SetState(db, 0, DELETING), 0) == {0, 1};
  }
}
