/**
 One pass of `_assign_tickets` is serial dictatorship over the snapshot it takes first, although the
 API threads, the workers and the maintainer take their steps between its transactions.

 Only a resource that is failing its checks escapes: it comes back if a check succeeds, too late for
 the tickets that had their turn before.
 */
module Fairness {
  import opened Collections
  import opened Tables
  import opened Logic
  import opened Links
  import opened Protocol
  import opened Invariant
  import opened Edges
  import opened Assignment
  import Decisions
  import OnDemand
  import Reuse
  import Safety

  /** The states from `a` to `b` are within one pass over `snapshot`. */
  ghost predicate Pass(run: Run, a: nat, b: nat, snapshot: set<ResourceId>) {
    && a <= b < |run.states| && b <= |run.actions|
    && (forall k :: a <= k <= b ==> InPass(run.states[k], snapshot))
  }

  ghost predicate InPass(s: Sys, snapshot: set<ResourceId>) {
    s.pc.Assigning? && s.pc.snapshot == snapshot
  }

  /** A successful check of `r`. */
  ghost predicate Resets(a: Action, r: ResourceId) {
    a.Env? && a.e.Check? && a.e.success && a.e.r == r
  }

  /** `r` was checked with success at some step from `a` on and before `b`. */
  ghost predicate ResetBetween(run: Run, a: nat, b: nat, r: ResourceId) {
    exists k :: a <= k < b && k < |run.actions| && Resets(run.actions[k], r)
  }

  ghost predicate ReadyAt(db: Db, r: ResourceId) {
    r in db.resources && Ready(db.resources[r])
  }

  ghost predicate IdleAt(db: Db, r: ResourceId) {
    r in db.resources && Reuse.Idle(db.resources[r])
  }

  /** The rows differ in the count of failed checks at most. */
  predicate SameButChecks(x: Resource, y: Resource) { y == x.(failedChecks := y.failedChecks) }

  /* ---- one step ---- */

  /**
   If `r` is up and untaken afterwards it was so before, with the same row but for the failed
   checks; and these become none only if `reset`.
   */
  ghost predicate IdleBefore(db: Db, db': Db, r: ResourceId, reset: bool) {
    IdleAt(db', r) ==>
      && r in db.resources && SameButChecks(db.resources[r], db'.resources[r])
      && (db'.resources[r].failedChecks == 0 ==> reset || db.resources[r].failedChecks == 0)
  }

  lemma SameIdle(db: Db, db': Db, r: ResourceId, reset: bool)
    requires db'.resources == db.resources
    ensures IdleBefore(db, db', r, reset)
  {
  }

  lemma EnvIdle(s: Sys, a: EnvStep, r: ResourceId)
    requires CanEnv(s, a) && !a.Boot?
    ensures IdleBefore(s.db, DoEnv(s, a).db, r, Resets(Env(a), r))
  {
    hide Reuse.Idle;
    match a
    case KillOne(q) => KillIdle(s.db, {q}, r); hide Kill, IdleBefore;
    case Check(q, success) => CheckIdle(s.db, q, success, r); hide Watch, IdleBefore;
    case Take(t, tags, sandbox) => SameIdle(s.db, TakeTicket(s.db, t, tags, sandbox), r, false);
    case Close(t) => SameIdle(s.db, CloseTicket(s.db, t), r, false);
    case _ => SameIdle(s.db, s.db, r, false);
  }

  lemma KillIdle(db: Db, doomed: set<ResourceId>, r: ResourceId)
    ensures IdleBefore(db, Kill(db, doomed), r, false)
  {
  }

  lemma CheckIdle(db: Db, q: ResourceId, success: bool, r: ResourceId)
    requires q in db.resources
    ensures IdleBefore(db, Watch(db, q, success), r, success && q == r)
  {
  }

  /** A worker changes no row that is up. */
  lemma WorkIdle(cfg: Config, s: Sys, a: WorkerStep, r: ResourceId)
    requires Good(cfg, s) && CanWork(cfg, s, a) && s.pc.Assigning? && r in s.pc.snapshot
    ensures IdleBefore(s.db, DoWork(cfg, s, a).db, r, false)
  {
    hide Good, IdleBefore, OnlyRow, FinishAlloc, FinishRelease, End, SetState, NamesOf, NamesOn, TagRows, TicketOpen,
         Linked, Staffed, PcFits, ValidConfig, InStateNow;
    WorkersFit(cfg, s);
    GoodParts(cfg, s);
    SameIdle(s.db, s.db, r, false);
    match a
    case AllocDone(q, success, data) => OutsideIdle(s, DoWork(cfg, s, a).db, q, r);
    case ReleaseDone(q, success) => OutsideIdle(s, DoWork(cfg, s, a).db, q, r);
    case TerminateStart(q) => DyingIdle(s.db, q, r);
    case TerminateEnd(q) => DyingIdle(s.db, q, r);
    case _ =>
  }

  /** The snapshot has no resource that is STARTING or RELEASING. */
  lemma OutsideIdle(s: Sys, db': Db, q: ResourceId, r: ResourceId)
    requires Queued(s) && s.pc.Assigning? && r in s.pc.snapshot && OnlyRow(db', s.db, q)
    requires InStateNow(s.db, q, STARTING) || InStateNow(s.db, q, RELEASING)
    ensures IdleBefore(s.db, db', r, false)
  {
  }

  lemma DyingIdle(db: Db, q: ResourceId, r: ResourceId)
    requires q in db.resources
    ensures IdleBefore(db, SetState(db, q, DELETING), r, false) && IdleBefore(db, End(db, q), r, false)
  {
  }

  lemma AssignIdle(db: Db, q: ResourceId, t: TicketId, now: Time, uuid: Sandbox, r: ResourceId)
    requires q in db.resources && t in db.tickets
    ensures IdleBefore(db, AssignTicket(db, q, t, now, uuid), r, false)
  {
  }

  lemma ManageIdle(cfg: Config, s: Sys, a: ManagerStep, r: ResourceId)
    requires PcFits(cfg, s) && CanManage(cfg, s, a) && s.pc.Assigning?
    ensures IdleBefore(s.db, DoManage(cfg, s, a).db, r, false)
  {
    hide PcFits, IdleBefore, AssignTicket, OnlyRow;
    SameIdle(s.db, s.db, r, false);
    if a.Assign? {
      var choice := Choice(s.db, s.pc.snapshot, s.pc.queue[0]);
      if choice.Some? { AssignIdle(s.db, choice.value, s.pc.queue[0], s.clock, Generated(s.uuids), r); }
    }
  }

  lemma StepIdle(cfg: Config, s: Sys, a: Action, r: ResourceId)
    requires Good(cfg, s) && Can(cfg, s, a) && s.pc.Assigning? && Do(cfg, s, a).pc.Assigning? && r in s.pc.snapshot
    ensures IdleBefore(s.db, Do(cfg, s, a).db, r, Resets(a, r))
  {
    hide Good, IdleBefore, CanWork, CanManage, DoWork, DoManage, PcFits;
    match a
    case Env(e) => EnvIdle(s, e, r);
    case Work(w) => WorkIdle(cfg, s, w, r);
    case Manage(m) => ManageIdle(cfg, s, m, r);
  }

  /* ---- over the pass ---- */

  /**
   A snapshot resource that is up and untaken at `b` has been so since `a`, with the same row but for
   the failed checks.  If it had failed some and has none any more, a check succeeded in between.
   */
  lemma {:induction false} IdleSince(cfg: Config, run: Run, a: nat, b: nat, snapshot: set<ResourceId>, r: ResourceId)
    requires ValidConfig(cfg) && Valid(cfg, run) && Pass(run, a, b, snapshot)
    requires r in snapshot && IdleAt(run.states[b].db, r)
    ensures r in run.states[a].db.resources
    ensures var x, y := run.states[a].db.resources[r], run.states[b].db.resources[r];
            SameButChecks(x, y) && (x.failedChecks > 0 && y.failedChecks == 0 ==> ResetBetween(run, a, b, r))
    decreases b
  {
    hide Good, Can, Do, Takes, Resets;
    if a < b {
      assert InPass(run.states[b], snapshot) && InPass(run.states[b - 1], snapshot);
      GoodRun(cfg, run, b - 1);
      StepOf(cfg, run, b - 1);
      StepIdle(cfg, run.states[b - 1], run.actions[b - 1], r);
      IdleSince(cfg, run, a, b - 1, snapshot, r);
      assert Resets(run.actions[b - 1], r) ==> ResetBetween(run, a, b, r);
      assert ResetBetween(run, a, b - 1, r) ==> ResetBetween(run, a, b, r);
    }
  }

  /** The `k`-th step serves the ticket at the head of the queue, or finds nothing for it. */
  ghost predicate Serves(run: Run, k: nat, t: TicketId) {
    && k < |run.actions| && k + 1 < |run.states| && run.actions[k] == Manage(Assign)
    && run.states[k].pc.Assigning? && run.states[k].pc.queue != [] && run.states[k].pc.queue[0] == t
    && t in run.states[k].db.tickets
  }

  /** What happened to the ticket is what `Choice` says. */
  lemma ServedAsChosen(cfg: Config, run: Run, k: nat, t: TicketId)
    requires ValidConfig(cfg) && Valid(cfg, run) && Serves(run, k, t)
    ensures run.states[k].db.tickets[t].resource.None?
    ensures var choice := Choice(run.states[k].db, run.states[k].pc.snapshot, t);
      && t in run.states[k + 1].db.tickets && run.states[k + 1].db.tickets[t].resource == choice
      && (choice.Some? ==> choice.value in run.states[k + 1].db.resources
                           && run.states[k + 1].db.resources[choice.value].ticket == Some(t))
  {
    hide Good, Can, Takes;
    GoodRun(cfg, run, k);
    StepOf(cfg, run, k);
    hide Valid;
    GoodParts(cfg, run.states[k]);
    hide ValidConfig, Linked, Staffed, Suitable, IsChoice, Ready;
    ServeStep(cfg, run.states[k]);
  }

  lemma ServeStep(cfg: Config, s: Sys)
    requires PcFits(cfg, s) && CanManage(cfg, s, Assign)
    ensures var s' := DoManage(cfg, s, Assign); var t := s.pc.queue[0]; var choice := Choice(s.db, s.pc.snapshot, t);
      && s'.pc == Assigning(s.pc.queue[1..], s.pc.snapshot)
      && t in s'.db.tickets
      && s'.db.tickets[t].resource == (if choice.Some? then choice else s.db.tickets[t].resource)
      && (choice.Some? ==> choice.value in s'.db.resources && s'.db.resources[choice.value].ticket == Some(t))
  {
  }

  /** At step `a` ticket `t` gets a resource that it prefers to `r`. */
  ghost predicate GotBetter(run: Run, a: nat, snapshot: set<ResourceId>, t: TicketId, r: ResourceId) {
    && a + 1 < |run.states| && t in run.states[a].db.tickets && t in run.states[a + 1].db.tickets
    && var db, got := run.states[a].db, Choice(run.states[a].db, snapshot, t);
       && got.Some? && run.states[a + 1].db.tickets[t].resource == got
       && got.value != r && got.value in db.resources && r in db.resources
       && Preferred(db, db.tickets[t].tags, got.value, r)
  }

  /* ---- a resource that is failing its checks ---- */

  /** The ticket could have `r`, and only the failed checks of `r` may be in the way. */
  ghost predicate WouldSuit(db: Db, snapshot: set<ResourceId>, t: Ticket, r: ResourceId) {
    r in db.resources && Suitable(Watch(db, r, true), snapshot, t, r)
  }

  /** If the next check of `r` succeeded, the ticket would get `r`. */
  ghost predicate WouldGet(db: Db, snapshot: set<ResourceId>, t: TicketId, r: ResourceId) {
    t in db.tickets && r in db.resources && Choice(Watch(db, r, true), snapshot, t) == Some(r)
  }

  lemma SuitsUnlessFailing(db: Db, snapshot: set<ResourceId>, t: Ticket, r: ResourceId)
    requires WouldSuit(db, snapshot, t, r)
    ensures Suitable(db, snapshot, t, r) <==> db.resources[r].failedChecks == 0
    ensures forall o :: o != r ==> (Suitable(Watch(db, r, true), snapshot, t, o) <==> Suitable(db, snapshot, t, o))
  {
  }

  /** A row that changed only in its failed checks, and has none left, suits as it would have. */
  lemma SuitsLater(db: Db, db': Db, snapshot: set<ResourceId>, t: Ticket, t': Ticket, r: ResourceId)
    requires r in db.resources && ReadyAt(db', r) && SameButChecks(db.resources[r], db'.resources[r])
    requires t'.sandbox == t.sandbox && t'.tags == t.tags
    ensures Suitable(db', snapshot, t', r) <==> WouldSuit(db, snapshot, t, r)
  {
  }

  /** The failed checks have no influence on the preference. */
  lemma SamePreference(db: Db, tags: set<Tag>, r: ResourceId, a: ResourceId, b: ResourceId)
    requires r in db.resources && a in db.resources && b in db.resources
    ensures Preferred(Watch(db, r, true), tags, a, b) <==> Preferred(db, tags, a, b)
  {
    SameRank(db.resources[a], Watch(db, r, true).resources[a], tags);
    SameRank(db.resources[b], Watch(db, r, true).resources[b], tags);
    hide Rank;
  }

  lemma SameRank(x: Resource, y: Resource, tags: set<Tag>)
    requires SameButChecks(x, y)
    ensures Rank(y, tags) == Rank(x, tags)
  {
    SumMonotone(x.tags.Keys * tags, TagPriority(x), TagPriority(y));
    SumMonotone(x.tags.Keys * tags, TagPriority(y), TagPriority(x));
  }

  /** A failing resource would be the choice exactly if the ticket does not get a preferred one. */
  lemma WouldGetIff(db: Db, snapshot: set<ResourceId>, t: TicketId, r: ResourceId)
    requires t in db.tickets && WouldSuit(db, snapshot, db.tickets[t], r) && db.resources[r].failedChecks > 0
    ensures var choice := Choice(db, snapshot, t);
            WouldGet(db, snapshot, t, r) <==>
              choice.None? || (choice.value in db.resources && Preferred(db, db.tickets[t].tags, r, choice.value))
  {
    var db', ticket := Watch(db, r, true), db.tickets[t];
    var choice, choice' := Choice(db, snapshot, t), Choice(db', snapshot, t);
    SuitsUnlessFailing(db, snapshot, ticket, r);
    ServedIffPossible(db, snapshot, t);
    ServedIffPossible(db', snapshot, t);
    forall o | Suitable(db, snapshot, ticket, o)
      ensures Preferred(db', ticket.tags, r, o) <==> Preferred(db, ticket.tags, r, o)
    {
      SamePreference(db, ticket.tags, r, r, o);
    }
    hide Watch, Preferred;
  }

  /**
   No envy: if at step `b` a later ticket gets a resource that could have served the ticket of an
   earlier step `a`, that ticket got one it prefers.  It is passed over if and only if the resource
   was failing its checks at its turn, and would have been its choice otherwise; and then the
   resource was checked with success in between.
   */
  lemma NoEnvy(cfg: Config, run: Run, a: nat, b: nat, snapshot: set<ResourceId>, t: TicketId, u: TicketId,
               r: ResourceId)
    requires ValidConfig(cfg) && Valid(cfg, run) && a < b && Pass(run, a, b, snapshot)
    requires Serves(run, a, t) && Serves(run, b, u) && Choice(run.states[b].db, snapshot, u) == Some(r)
    requires Suitable(run.states[b].db, snapshot, run.states[a].db.tickets[t], r)
    ensures var db := run.states[a].db;
      && WouldSuit(db, snapshot, db.tickets[t], r)
      && (Suitable(db, snapshot, db.tickets[t], r) <==> db.resources[r].failedChecks == 0)
      && (!GotBetter(run, a, snapshot, t, r) <==>
            db.resources[r].failedChecks > 0 && WouldGet(db, snapshot, t, r))
    ensures ResetBetween(run, a, b, r) || GotBetter(run, a, snapshot, t, r)
  {
    hide Valid, ValidConfig, Resets, Preferred;
    var db := run.states[a].db;
    assert InPass(run.states[a], snapshot);
    IdleSince(cfg, run, a, b, snapshot, r);
    IdleSince(cfg, run, a + 1, b, snapshot, r);
    ServedAsChosen(cfg, run, a, t);
    SuitsUnlessFailing(db, snapshot, db.tickets[t], r);
    if db.resources[r].failedChecks == 0 {
      ServedIffPossible(db, snapshot, t);
      assert Suitable(db, snapshot, db.tickets[t], r);
      assert IsChoice(db, snapshot, db.tickets[t], Choice(db, snapshot, t).value);
    } else {
      WouldGetIff(db, snapshot, t, r);
      var choice := Choice(db, snapshot, t);
      if choice.Some? { PreferredIsTotal(db, db.tickets[t].tags, r, choice.value, r); }
    }
  }

  /* ---- the beginning of the pass ---- */

  /** The queue and the snapshot of a pass, as it begins. */
  lemma PassBegins(cfg: Config, run: Run, i: nat)
    requires Valid(cfg, run) && i < |run.actions| && run.actions[i] == Manage(Gather)
    ensures var db, pc := run.states[i].db, run.states[i + 1].pc;
      && pc.Assigning?
      && (forall t :: t in pc.queue <==>
            t in db.tickets && db.tickets[t].resource.None? && db.tickets[t].state == OPEN)
      && (forall j, k :: 0 <= j < k < |pc.queue| && pc.queue[j] in db.tickets && pc.queue[k] in db.tickets ==>
            var first, second := db.tickets[pc.queue[j]].tags, db.tickets[pc.queue[k]].tags;
            if Decisions.AsksFor(cfg, first) <==> Decisions.AsksFor(cfg, second) then pc.queue[j] < pc.queue[k]
            else Decisions.AsksFor(cfg, first))
      && (forall r :: r in pc.snapshot <==>
            r in db.resources && db.resources[r].state == UP && db.resources[r].ticket.None?
            && db.resources[r].failedChecks == 0)
  {
    hide Takes, ServiceOrder;
    StepOf(cfg, run, i);
    hide Valid;
    var db, pc := run.states[i].db, run.states[i + 1].pc;
    GatherStep(cfg, run.states[i]);
    hide Can, Do;
    OrderOfService(db, OnDemand.OnDemandTags(cfg));
    forall t | t in db.tickets
      ensures ComesFirst(db, OnDemand.OnDemandTags(cfg), t) <==> Decisions.AsksFor(cfg, db.tickets[t].tags)
    {
      Decisions.AsksIff(cfg, db.tickets[t].tags);
      hide Decisions.AsksFor;
    }
    hide Decisions.AsksFor, ComesFirst;
  }

  lemma GatherStep(cfg: Config, s: Sys)
    requires Can(cfg, s, Manage(Gather))
    ensures Do(cfg, s, Manage(Gather)).pc
            == Assigning(ServiceOrder(s.db, OnDemand.OnDemandTags(cfg)), ReadyNow(s.db))
  {
    hide ServiceOrder, ReadyNow;
  }

  /* ---- the end of the pass ---- */

  lemma QueueStep(cfg: Config, run: Run, k: nat, snapshot: set<ResourceId>)
    requires Valid(cfg, run) && k < |run.actions| && InPass(run.states[k], snapshot)
      && InPass(run.states[k + 1], snapshot)
    ensures if run.actions[k] == Manage(Assign)
            then run.states[k].pc.queue != [] && run.states[k + 1].pc.queue == run.states[k].pc.queue[1..]
                 && Serves(run, k, run.states[k].pc.queue[0])
            else run.states[k + 1].pc.queue == run.states[k].pc.queue
  {
    StepOf(cfg, run, k);
    hide Takes, Valid, SmallestNumbers, NamesOf, NamesOn, TagRows, TicketOpen, FinishAlloc, FinishRelease, End,
         SetState, Kill, FixBroken, Watch, TakeTicket, CloseTicket, AssignTicket;
  }

  /** Every ticket that has left the queue had its turn. */
  lemma {:induction false} HadItsTurn(cfg: Config, run: Run, a: nat, b: nat, snapshot: set<ResourceId>, t: TicketId)
    returns (k: nat)
    requires Valid(cfg, run) && Pass(run, a, b, snapshot)
    requires t in run.states[a].pc.queue && t !in run.states[b].pc.queue
    ensures a <= k < b && Serves(run, k, t)
    decreases b - a
  {
    hide Takes, Resets, Can, Do;
    assert InPass(run.states[a], snapshot);
    if a == b {
      assert false;
    } else {
      assert InPass(run.states[a + 1], snapshot);
      QueueStep(cfg, run, a, snapshot);
      if t in run.states[a + 1].pc.queue {
        k := HadItsTurn(cfg, run, a + 1, b, snapshot, t);
      } else {
        k := a;
      }
    }
  }

  /** A ticket without a resource has had none, and has not changed but for its state. */
  lemma Unserved(cfg: Config, run: Run, k: nat, b: nat, t: TicketId)
    requires ValidConfig(cfg) && Valid(cfg, run) && k <= b < |run.states|
    requires t in run.states[k].db.tickets && t in run.states[b].db.tickets
      && run.states[b].db.tickets[t].resource.None?
    ensures run.states[k].db.tickets[t].(state := OPEN) == run.states[b].db.tickets[t].(state := OPEN)
  {
    hide Takes;
    Safety.RunLater(cfg, run, k, b);
    Safety.RunLinked(cfg, run, b);
    hide Valid, ValidConfig, Staffed;
    assert TicketOk(run.states[b].db, run.states[b].uuids, t);
  }

  /**
   When the pass is over, a ticket that had been queued and is still without a resource has had its
   turn, at `k`.  A snapshot resource that is ready now could serve it if and only if it was failing
   its checks then, and that alone was in the way; a check has succeeded since.
   */
  lemma NothingLeftBehind(cfg: Config, run: Run, a: nat, b: nat, snapshot: set<ResourceId>, t: TicketId)
    returns (k: nat)
    requires ValidConfig(cfg) && Valid(cfg, run) && Pass(run, a, b, snapshot)
    requires t in run.states[a].pc.queue && run.states[b].pc.queue == []
    requires t in run.states[b].db.tickets && run.states[b].db.tickets[t].resource.None?
    ensures a <= k < b && Serves(run, k, t) && Choice(run.states[k].db, snapshot, t).None?
    ensures forall r :: r in snapshot && ReadyAt(run.states[b].db, r) ==>
      var db := run.states[k].db;
      && r in db.resources
      && (Suitable(run.states[b].db, snapshot, run.states[b].db.tickets[t], r) <==>
            db.resources[r].failedChecks > 0 && WouldSuit(db, snapshot, db.tickets[t], r))
    ensures forall r :: Suitable(run.states[b].db, snapshot, run.states[b].db.tickets[t], r) ==>
      ResetBetween(run, k, b, r)
  {
    hide Takes, Resets, Can, Do, Preferred, Valid, ValidConfig;
    k := HadItsTurn(cfg, run, a, b, snapshot, t);
    assert InPass(run.states[k], snapshot);
    Unserved(cfg, run, k, b, t);
    ServedAsChosen(cfg, run, k, t);
    Unserved(cfg, run, k + 1, b, t);
    ServedIffPossible(run.states[k].db, snapshot, t);
    forall r | r in snapshot && ReadyAt(run.states[b].db, r)
      ensures r in run.states[k].db.resources
      ensures Suitable(run.states[b].db, snapshot, run.states[b].db.tickets[t], r) <==>
                run.states[k].db.resources[r].failedChecks > 0
                && WouldSuit(run.states[k].db, snapshot, run.states[k].db.tickets[t], r)
      ensures run.states[k].db.resources[r].failedChecks > 0 ==> ResetBetween(run, k, b, r)
    {
      IdleSince(cfg, run, k, b, snapshot, r);
      var db, ticket := run.states[k].db, run.states[k].db.tickets[t];
      SuitsLater(db, run.states[b].db, snapshot, ticket, run.states[b].db.tickets[t], r);
      if WouldSuit(db, snapshot, ticket, r) { SuitsUnlessFailing(db, snapshot, ticket, r); }
      hide Suitable, WouldSuit;
    }
  }
}
