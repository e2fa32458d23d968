/**
 What `collectTicket` answers, in terms of what has happened to the ticket: whether it was given a
 resource, what `cmd_new` wrote for it, whether it was closed, and whether it lost the resource.
 */
module Answers {
  import opened Collections
  import opened Tables
  import opened Logic
  import opened Links
  import opened Protocol
  import opened Invariant
  import opened Edges
  import opened History
  import Assignment
  import OnDemand
  import Removal
  import Reuse
  import Safety

  /* ---- what happens to a ticket ---- */

  /** The ticket is open, and its resource is up before and to be deleted after. */
  ghost predicate Loses(db: Db, db': Db, t: TicketId) {
    && t in db.tickets && db.tickets[t].state == OPEN && db.tickets[t].resource.Some?
    && InStateNow(db, db.tickets[t].resource.value, UP) && InStateNow(db', db.tickets[t].resource.value, DELETE_REQUEST)
  }

  /** What the step `a` may do to a ticket. */
  ghost predicate TicketRecorded(db: Db, db': Db, a: Action, t: TicketId)
    requires t in db'.tickets
  {
    var y := db'.tickets[t];
    if t in db.tickets then
      var x := db.tickets[t];
      && y.tags == x.tags
      && y.state == (if a == Env(Close(t)) then CLOSED else if Loses(db, db', t) then FAILED else x.state)
      && (y.resource == x.resource || (x.resource.None? && a == Manage(Assign)))
    else
      a.Env? && a.e.Take? && a.e.t == t && y == Ticket(None, OPEN, a.e.sandbox, a.e.tags)
  }

  ghost predicate TicketsRecorded(db: Db, db': Db, a: Action) {
    && db.tickets.Keys <= db'.tickets.Keys
    && (forall t :: t in db'.tickets ==> TicketRecorded(db, db', a, t))
  }

  /** A transaction that leaves the tickets alone and requests no deletion of what is up and taken. */
  lemma TicketsAlone(db: Db, db': Db, a: Action)
    requires db'.tickets == db.tickets && !(a.Env? && a.e.Close?)
    requires forall t :: t in db.tickets ==> !Loses(db, db', t)
    ensures TicketsRecorded(db, db', a)
  {
    hide Loses;
  }

  lemma KillTickets(cfg: Config, db: Db, uuids: nat, r: ResourceId)
    requires Linked(cfg, db, uuids)
    ensures TicketsRecorded(db, Kill(db, {r}), Env(KillOne(r)))
  {
    forall t | t in db.tickets ensures TicketRecorded(db, Kill(db, {r}), Env(KillOne(r)), t) {
      assert TicketOk(db, uuids, t);
    }
    hide TicketRecorded;
  }

  lemma EnvTickets(cfg: Config, s: Sys, a: EnvStep)
    requires Linked(cfg, s.db, s.uuids) && CanEnv(s, a)
    ensures TicketsRecorded(s.db, DoEnv(s, a).db, Env(a))
  {
    hide Linked, Kill;
    match a
    case KillOne(r) => KillTickets(cfg, s.db, s.uuids, r); hide TicketsRecorded;
    case _ =>
  }

  lemma NothingLost(db: Db, db': Db, r: ResourceId, t: TicketId)
    requires OnlyRow(db', db, r) && !InStateNow(db, r, UP)
    ensures !Loses(db, db', t)
  {
  }

  lemma SameIsKept(db: Db, t: TicketId)
    ensures !Loses(db, db, t)
  {
  }

  /** A worker's resource is not up, so no ticket loses it. */
  lemma WorkTakesNothing(cfg: Config, s: Sys, a: WorkerStep, t: TicketId)
    requires Good(cfg, s) && CanWork(cfg, s, a)
    ensures !Loses(s.db, DoWork(cfg, s, a).db, t)
  {
    WorkersFit(cfg, s);
    hide Good, NamesOf, NamesOn, TagRows, TicketOpen, SameRows, SameNumbers, SameStarts, SameTickets, FinishAlloc,
         FinishRelease, End, SetState, OnlyRow, Loses;
    match a
    case AllocDone(r, success, data) => NothingLost(s.db, DoWork(cfg, s, a).db, r, t);
    case ReleaseDone(r, success) => NothingLost(s.db, DoWork(cfg, s, a).db, r, t);
    case TerminateStart(r) => NothingLost(s.db, SetState(s.db, r, DELETING), r, t); SameIsKept(s.db, t);
    case TerminateEnd(r) => NothingLost(s.db, DoWork(cfg, s, a).db, r, t);
    case _ => SameIsKept(s.db, t);
  }

  lemma WorkTickets(cfg: Config, s: Sys, a: WorkerStep)
    requires Good(cfg, s) && CanWork(cfg, s, a)
    ensures TicketsRecorded(s.db, DoWork(cfg, s, a).db, Work(a))
  {
    hide Good, TicketsRecorded, Loses, CanWork, DoWork;
    WorkKeepsTables(cfg, s, a);
    forall t | t in s.db.tickets ensures !Loses(s.db, DoWork(cfg, s, a).db, t) { WorkTakesNothing(cfg, s, a, t); }
    TicketsAlone(s.db, DoWork(cfg, s, a).db, Work(a));
  }

  lemma PassTickets(cfg: Config, db: Db, uuids: nat, p: PoolName, now: Time)
    requires Linked(cfg, db, uuids) && p in cfg.pools
    ensures TicketsRecorded(db, RequestRemoval(db, p, cfg.pools[p], now), Manage(Remove))
  {
    hide RequestRemoval, Linked, Removal.Fails, Removal.PastLimits, Removal.Unneeded;
    var db' := RequestRemoval(db, p, cfg.pools[p], now);
    Removal.PassKeys(db, p, cfg.pools[p], now);
    forall t | t in db.tickets ensures TicketRecorded(db, db', Manage(Remove), t) {
      Removal.PassTickets(db, p, cfg.pools[p], now, t);
      if db.tickets[t].state == OPEN && db.tickets[t].resource.Some? {
        OpenIsTaken(cfg, db, uuids, t);
        Removal.PassRows(cfg, db, uuids, p, now, db.tickets[t].resource.value);
        Removal.TakenIsNeeded(db, p, cfg.pools[p], db.tickets[t].resource.value);
      }
    }
    hide TicketRecorded;
  }

  lemma OpenIsTaken(cfg: Config, db: Db, uuids: nat, t: TicketId)
    requires Linked(cfg, db, uuids) && t in db.tickets && db.tickets[t].state == OPEN && db.tickets[t].resource.Some?
    ensures InStateNow(db, db.tickets[t].resource.value, UP)
    ensures db.resources[db.tickets[t].resource.value].ticket == Some(t)
  {
    assert TicketOk(db, uuids, t);
  }

  lemma DetectTickets(db: Db, p: PoolName, hasRelease: bool, now: Time)
    ensures TicketsRecorded(db, DetectClosed(db, p, hasRelease, now), Manage(Detect))
  {
    hide ToRelease;
  }

  lemma AssignTickets(db: Db, r: ResourceId, t: TicketId, now: Time, uuid: Sandbox)
    requires r in db.resources && t in db.tickets && db.tickets[t].resource.None?
    ensures TicketsRecorded(db, AssignTicket(db, r, t, now, uuid), Manage(Assign))
  {
  }

  lemma SameRowsTickets(db: Db, db': Db, a: Action)
    requires db'.tickets == db.tickets && !(a.Env? && a.e.Close?)
    requires forall r :: r in db.resources && r in db'.resources ==> db'.resources[r].state == db.resources[r].state
    ensures TicketsRecorded(db, db', a)
  {
  }

  lemma ManageTickets(cfg: Config, s: Sys, a: ManagerStep)
    requires Good(cfg, s) && Can(cfg, s, Manage(a))
    ensures TicketsRecorded(s.db, DoManage(cfg, s, a).db, Manage(a))
  {
    hide Good, TicketsRecorded;
    GoodParts(cfg, s);
    SameRowsTickets(s.db, s.db, Manage(a));
    if Quiet(a) {
      QuietChangesNothing(cfg, s, a);
      hide DoManage;
    } else if a.Assign? {
      Reuse.AssignStep(cfg, s);
      if Reuse.Given(s).Some? {
        AssignTickets(s.db, Reuse.Given(s).value, s.pc.queue[0], s.clock, Generated(s.uuids));
      }
      hide Reuse.Given, Linked, AssignTicket, DoManage, CanManage;
    } else {
      hide Linked, DetectClosed, RequestRemoval, InitPools, Zeros, SmallestNumbers, NamesOf;
      match a
      case Begin => SameRowsTickets(s.db, InitPools(cfg, s.db), Manage(a));
      case Detect => DetectTickets(s.db, Pool(cfg, s.pc.i), cfg.pools[Pool(cfg, s.pc.i)].hasRelease, s.clock);
      case Remove => PassTickets(cfg, s.db, s.uuids, Pool(cfg, s.pc.i), s.clock);
      case AllocateOne(r, name, id, values) => SameRowsTickets(s.db, DoManage(cfg, s, a).db, Manage(a));
      case _ =>
    }
  }

  lemma StepTickets(cfg: Config, s: Sys, a: Action)
    requires Good(cfg, s) && Can(cfg, s, a)
    ensures TicketsRecorded(s.db, Do(cfg, s, a).db, a)
  {
    hide Good, PcFits, TicketsRecorded, DoEnv, DoWork, DoManage, CanEnv, CanWork, CanManage;
    GoodParts(cfg, s);
    match a
    case Env(e) => EnvTickets(cfg, s, e);
    case Work(w) => WorkTickets(cfg, s, w);
    case Manage(m) => ManageTickets(cfg, s, m);
  }

  lemma RunTickets(cfg: Config, run: Run, i: nat)
    requires ValidConfig(cfg) && Valid(cfg, run) && i < |run.actions|
    ensures TicketsRecorded(run.states[i].db, run.states[i + 1].db, run.actions[i])
  {
    hide Good, Can, Do, Takes, TicketsRecorded;
    GoodRun(cfg, run, i);
    StepOf(cfg, run, i);
    StepTickets(cfg, run.states[i], run.actions[i]);
  }

  /* ---- the answers ---- */

  ghost predicate Closed(run: Run, i: nat, t: TicketId) {
    exists j :: 0 <= j < i && j < |run.actions| && run.actions[j] == Env(Close(t))
  }

  /** The `j`-th step takes the resource of the open ticket away from it, to delete it. */
  ghost predicate LostAt(run: Run, j: nat, t: TicketId) {
    j + 1 < |run.states| && Loses(run.states[j].db, run.states[j + 1].db, t)
  }

  ghost predicate Lost(run: Run, i: nat, t: TicketId) {
    exists j: nat :: j < i && LostAt(run, j, t)
  }

  /** The `j`-th step is the turn of the ticket, and gives it a resource. */
  ghost predicate ServedAt(run: Run, j: nat, t: TicketId) {
    && j + 1 < |run.states| && j < |run.actions| && run.actions[j] == Manage(Assign)
    && t in run.states[j].db.tickets && run.states[j].db.tickets[t].resource.None?
    && t in run.states[j + 1].db.tickets && run.states[j + 1].db.tickets[t].resource.Some?
  }

  ghost predicate Served(run: Run, i: nat, t: TicketId) {
    exists j: nat :: j < i && ServedAt(run, j, t)
  }

  /** Nothing happens to a ticket before it is taken. */
  lemma NotYet(cfg: Config, run: Run, i: nat, t: TicketId)
    requires ValidConfig(cfg) && Valid(cfg, run) && i < |run.states| && t !in run.states[i].db.tickets
    ensures !Closed(run, i, t) && !Lost(run, i, t) && !Served(run, i, t)
  {
    hide Takes, Loses;
    forall j | 0 <= j < i ensures t !in run.states[j].db.tickets && run.actions[j] != Env(Close(t)) {
      Safety.RunLater(cfg, run, j, i);
      ClosesKnown(cfg, run, j);
    }
    forall j: nat | j < i ensures !LostAt(run, j, t) { LosesOpen(run, j, t); }
  }

  lemma LosesOpen(run: Run, j: nat, t: TicketId)
    ensures LostAt(run, j, t) ==> t in run.states[j].db.tickets && run.states[j].db.tickets[t].state == OPEN
  {
  }

  lemma ClosesKnown(cfg: Config, run: Run, i: nat)
    requires Valid(cfg, run) && i < |run.actions|
    ensures run.actions[i].Env? && run.actions[i].e.Close? ==> run.actions[i].e.t in run.states[i].db.tickets
  {
    StepOf(cfg, run, i);
    hide Takes, Valid, PcFits, CanWork, CanManage, Do;
  }

  lemma {:induction false} TicketIs(cfg: Config, run: Run, i: nat, t: TicketId)
    requires ValidConfig(cfg) && Valid(cfg, run) && i < |run.states| && t in run.states[i].db.tickets
    ensures var ticket := run.states[i].db.tickets[t];
      && ticket.state == (if Closed(run, i, t) then CLOSED else if Lost(run, i, t) then FAILED else OPEN)
      && (ticket.resource.Some? <==> Served(run, i, t))
    decreases i
  {
    hide Takes, Loses, TicketEdge;
    if i > 0 {
      var b := i - 1;
      RunTickets(cfg, run, b);
      assert TicketRecorded(run.states[b].db, run.states[i].db, run.actions[b], t);
      assert Closed(run, i, t) <==> Closed(run, b, t) || run.actions[b] == Env(Close(t));
      assert Lost(run, i, t) <==> Lost(run, b, t) || LostAt(run, b, t);
      assert Served(run, i, t) <==> Served(run, b, t) || ServedAt(run, b, t);
      hide Closed, Lost, Served;
      if t in run.states[b].db.tickets {
        TicketIs(cfg, run, b, t);
        Safety.RunEdge(cfg, run, b);
        LosesOpen(run, b, t);
      } else {
        NotYet(cfg, run, b, t);
        LosesOpen(run, b, t);
      }
    }
  }

  /* ---- who takes a resource away ---- */

  /** The maintainer's `kill` fails the open tickets of a resource, removes it if it is up, and does no more. */
  lemma KillDoes(cfg: Config, run: Run, i: nat, r: ResourceId)
    requires Valid(cfg, run) && i < |run.actions| && run.actions[i] == Env(KillOne(r))
    ensures var db, db' := run.states[i].db, run.states[i + 1].db;
      && db'.resources.Keys == db.resources.Keys && db'.tickets.Keys == db.tickets.Keys
      && (forall q :: q in db.resources ==>
            db'.resources[q] == if q == r && db.resources[q].state == UP
                                then db.resources[q].(state := DELETE_REQUEST) else db.resources[q])
      && (forall t :: t in db.tickets ==>
            db'.tickets[t] == if db.tickets[t].resource == Some(r) && db.tickets[t].state == OPEN
                              then db.tickets[t].(state := FAILED) else db.tickets[t])
      && run.states[i + 1] == run.states[i].(db := db.(resources := db'.resources, tickets := db'.tickets))
  {
    StepOf(cfg, run, i);
    hide Takes, Valid, PcFits, CanWork, CanManage;
  }

  /** The ticket is open at the `j`-th step, and the step kills its resource. */
  ghost predicate KilledBy(cfg: Config, run: Run, j: nat, t: TicketId)
    requires j < |run.actions| && j < |run.states| && t in run.states[j].db.tickets
    requires run.states[j].db.tickets[t].resource.Some?
  {
    var r := run.states[j].db.tickets[t].resource.value;
    || run.actions[j] == Env(KillOne(r))
    || (r in run.states[j].db.resources
        && var p := run.states[j].db.resources[r].pool;
           Removal.PassAt(cfg, run, j, p) && p in cfg.pools && Removal.FailedTooOften(run, j, r, cfg.pools[p]))
  }

  /** An open ticket loses its resource to the maintainer, or to the removal pass for failed checks. */
  lemma LostIff(cfg: Config, run: Run, j: nat, t: TicketId)
    requires ValidConfig(cfg) && Valid(cfg, run) && j < |run.actions| && t in run.states[j].db.tickets
    requires run.states[j].db.tickets[t].state == OPEN && run.states[j].db.tickets[t].resource.Some?
    ensures LostAt(run, j, t) <==> KilledBy(cfg, run, j, t)
  {
    hide Takes, Linked, Good;
    var s, a := run.states[j], run.actions[j];
    var r := s.db.tickets[t].resource.value;
    Safety.RunLinked(cfg, run, j);
    OpenIsTaken(cfg, s.db, s.uuids, t);
    StepOf(cfg, run, j);
    GoodRun(cfg, run, j);
    if a == Manage(Remove) {
      PassPlace(cfg, s);
      var p := cfg.order[s.pc.i];
      Removal.PassDoes(cfg, run, j, p);
      if s.db.resources[r].pool == p { Removal.TakenGoes(cfg, run, j, p, r); }
      assert Removal.PassRow(s.db, run.states[j + 1].db, p, cfg.pools[p], s.clock, r);
      hide Can, Do;
    } else {
      OthersKill(cfg, s, a, t);
      hide Can, Do;
    }
  }

  lemma PassPlace(cfg: Config, s: Sys)
    requires Can(cfg, s, Manage(Remove))
    ensures s.pc.Removing? && s.pc.i < |cfg.order|
  {
  }

  lemma EnvKills(s: Sys, a: EnvStep, t: TicketId)
    requires CanEnv(s, a) && t in s.db.tickets && s.db.tickets[t].state == OPEN && s.db.tickets[t].resource.Some?
    requires InStateNow(s.db, s.db.tickets[t].resource.value, UP)
    ensures Loses(s.db, DoEnv(s, a).db, t) <==> a == KillOne(s.db.tickets[t].resource.value)
  {
  }

  lemma ManageKillsNone(cfg: Config, s: Sys, a: ManagerStep, t: TicketId)
    requires PcFits(cfg, s) && CanManage(cfg, s, a) && !a.Remove? && t in s.db.tickets
    ensures t in DoManage(cfg, s, a).db.tickets && DoManage(cfg, s, a).db.tickets[t].state == s.db.tickets[t].state
  {
    hide MayStart, OnDemand.Decide, OnDemand.WaitingOrder, Assignment.ServiceOrder, Assignment.ReadyNow, InitPools,
         Zeros, Budget, SmallestNumbers, Allocate, NamesOf, DetectClosed, Closing;
  }

  lemma ManageTakesNothing(cfg: Config, s: Sys, a: ManagerStep, t: TicketId)
    requires Good(cfg, s) && Can(cfg, s, Manage(a)) && !a.Remove? && t in s.db.tickets
    ensures !Loses(s.db, DoManage(cfg, s, a).db, t)
  {
    hide Good, CanManage, DoManage, PcFits, Loses;
    ManageTickets(cfg, s, a);
    ManageKillsNone(cfg, s, a, t);
    assert TicketRecorded(s.db, DoManage(cfg, s, a).db, Manage(a), t);
    if Loses(s.db, DoManage(cfg, s, a).db, t) { LoserIsOpen(s.db, DoManage(cfg, s, a).db, t); }
  }

  lemma LoserIsOpen(db: Db, db': Db, t: TicketId)
    requires Loses(db, db', t)
    ensures db.tickets[t].state == OPEN
  {
  }

  lemma OthersKill(cfg: Config, s: Sys, a: Action, t: TicketId)
    requires Good(cfg, s) && Can(cfg, s, a) && a != Manage(Remove)
    requires t in s.db.tickets && s.db.tickets[t].state == OPEN && s.db.tickets[t].resource.Some?
    requires InStateNow(s.db, s.db.tickets[t].resource.value, UP)
    ensures Loses(s.db, Do(cfg, s, a).db, t) <==> a == Env(KillOne(s.db.tickets[t].resource.value))
  {
    hide Good, Loses, CanEnv, CanWork, CanManage, DoEnv, DoWork, DoManage, PcFits;
    match a
    case Env(e) => EnvKills(s, e, t);
    case Work(w) => WorkTakesNothing(cfg, s, w, t);
    case Manage(m) => ManageTakesNothing(cfg, s, m, t);
  }

  /* ---- the output ---- */

  /** The start of `r` has ended with this result and output before the `i`-th step. */
  ghost predicate Wrote(run: Run, i: nat, r: ResourceId, success: bool, data: Data) {
    exists j :: 0 <= j < i && j < |run.actions| && run.actions[j] == Work(AllocDone(r, success, data))
  }

  /** A row holds what `cmd_new` wrote; if the start failed the resource is dead and was never used. */
  lemma {:induction false} DataIs(cfg: Config, run: Run, i: nat, r: ResourceId)
    requires ValidConfig(cfg) && Valid(cfg, run) && i < |run.states| && r in run.states[i].db.resources
    requires run.states[i].db.resources[r].data.Some?
    ensures var x := run.states[i].db.resources[r];
      || Wrote(run, i, r, true, x.data.value)
      || (Wrote(run, i, r, false, x.data.value) && Dying(x.state) && x.sandbox.NoSandbox?)
    decreases i
  {
    hide Takes, Linked;
    if i > 0 {
      var b := i - 1;
      RunRecorded(cfg, run, b);
      Safety.RunEdge(cfg, run, b);
      assert forall ok, d :: Wrote(run, b, r, ok, d) ==> Wrote(run, i, r, ok, d);
      if IsAlloc(run.actions[b], r) {
        Safety.BlindWritesAreSafe(cfg, run, b);
        FreshStart(cfg, run, i, r);
        assert Wrote(run, i, r, run.actions[b].w.success, run.actions[b].w.data);
      } else {
        DataIs(cfg, run, b, r);
      }
    }
  }

  lemma FreshStart(cfg: Config, run: Run, i: nat, r: ResourceId)
    requires ValidConfig(cfg) && Valid(cfg, run) && 0 < i < |run.states| && IsAlloc(run.actions[i - 1], r)
    ensures r in run.states[i].db.resources && run.states[i].db.resources[r].sandbox.NoSandbox?
  {
    var s, a := run.states[i - 1], run.actions[i - 1];
    hide Takes;
    Safety.BlindWritesAreSafe(cfg, run, i - 1);
    Safety.RunLinked(cfg, run, i - 1);
    StepOf(cfg, run, i - 1);
    hide Valid, ValidConfig;
    assert RowOk(cfg, s.db, r);
    hide Linked, Staffed, PcFits, TagRows, NamesOf;
  }

  /**
   `collectTicket` on a known ticket: closed once it was closed; failed from when it lost its resource
   to when it is closed; ready once it was given a resource, with what `cmd_new` wrote for that one.
   */
  lemma AnswersTell(cfg: Config, run: Run, i: nat, t: TicketId)
    requires ValidConfig(cfg) && Valid(cfg, run) && i < |run.states| && t in run.states[i].db.tickets
    ensures var answer := CollectTicket(run.states[i].db, t);
      && answer.closed == Some(Closed(run, i, t))
      && answer.failed == Some(Lost(run, i, t) && !Closed(run, i, t))
      && answer.ready == Some(Served(run, i, t))
      && (answer.output.Some? <==> Served(run, i, t))
      && (answer.output.Some? ==>
            && run.states[i].db.tickets[t].resource.Some?
            && Wrote(run, i, run.states[i].db.tickets[t].resource.value, true, answer.output.value))
  {
    hide Takes;
    var db := run.states[i].db;
    TicketIs(cfg, run, i, t);
    Safety.RunLinked(cfg, run, i);
    hide Closed, Lost, Served, Wrote, Staffed;
    assert TicketOk(db, run.states[i].uuids, t);
    if db.tickets[t].resource.Some? {
      var r := db.tickets[t].resource.value;
      assert RowOk(cfg, db, r);
      DataIs(cfg, run, i, r);
    }
    hide Linked, Valid, ValidConfig;
  }

  /* ---- the tags ---- */

  /** The `k`-th tag of the list gives `tag` its priority: it is the last one of that name. */
  predicate LastOf(tags: seq<PoolTag>, k: nat, tag: Tag) {
    k < |tags| && tags[k].name == tag && forall j :: k < j < |tags| ==> tags[j].name != tag
  }

  lemma {:induction false} TagRowsAre(tags: seq<PoolTag>)
    ensures forall tag :: tag in TagRows(tags) <==> tag in TagNames(tags)
    ensures forall k: nat, tag :: LastOf(tags, k, tag) ==>
              tag in TagRows(tags) && TagRows(tags)[tag] == tags[k].priority
    decreases |tags|
  {
    if tags != [] {
      var n := |tags| - 1;
      TagRowsAre(tags[..n]);
      assert tags == tags[..n] + [tags[n]];
      assert TagNames(tags) == TagNames(tags[..n]) + {tags[n].name};
      forall k: nat, tag | LastOf(tags, k, tag) && k < n ensures LastOf(tags[..n], k, tag) && tag != tags[n].name {}
    }
  }

  /** A resource that has started has the tags of its pool, each with the last priority listed for it. */
  lemma {:induction false} TagsAre(cfg: Config, run: Run, i: nat, r: ResourceId)
    requires ValidConfig(cfg) && Valid(cfg, run) && i < |run.states| && r in run.states[i].db.resources
    requires run.states[i].db.resources[r].data.Some?
    ensures run.states[i].db.resources[r].pool in cfg.pools
    ensures var x := run.states[i].db.resources[r]; var tags := cfg.pools[x.pool].TagsAll();
      && x.tags.Keys == TagNames(tags)
      && (forall k: nat, tag :: LastOf(tags, k, tag) ==> tag in x.tags && x.tags[tag] == tags[k].priority)
    decreases i
  {
    hide Takes, TagRows, TagNames;
    Reuse.PoolKnown(cfg, run, i, r);
    if i > 0 {
      var b := i - 1;
      RunRecorded(cfg, run, b);
      Safety.RunEdge(cfg, run, b);
      if IsAlloc(run.actions[b], r) {
        StartedTags(cfg, run, i, r);
        TagRowsAre(cfg.pools[run.states[i].db.resources[r].pool].TagsAll());
      } else {
        TagsAre(cfg, run, b, r);
      }
    }
  }

  lemma StartedTags(cfg: Config, run: Run, i: nat, r: ResourceId)
    requires ValidConfig(cfg) && Valid(cfg, run) && 0 < i < |run.states| && IsAlloc(run.actions[i - 1], r)
    requires r in run.states[i].db.resources && run.states[i].db.resources[r].pool in cfg.pools
    ensures run.states[i].db.resources[r].tags == TagRows(cfg.pools[run.states[i].db.resources[r].pool].TagsAll())
  {
    hide Takes;
    StepOf(cfg, run, i - 1);
    hide Valid, ValidConfig, PcFits, TagRows, NamesOf;
  }

  /** The resource of a ticket has all the tags that the ticket asked for. */
  lemma {:induction false} ServedHasTags(cfg: Config, run: Run, i: nat, t: TicketId)
    requires ValidConfig(cfg) && Valid(cfg, run) && i < |run.states| && t in run.states[i].db.tickets
    requires run.states[i].db.tickets[t].resource.Some?
    ensures var r := run.states[i].db.tickets[t].resource.value;
      && r in run.states[i].db.resources
      && run.states[i].db.tickets[t].tags <= run.states[i].db.resources[r].tags.Keys
    decreases i
  {
    hide Takes, Linked, Loses;
    var b := i - 1;
    var r := run.states[i].db.tickets[t].resource.value;
    if i > 0 {
      RunTickets(cfg, run, b);
      Safety.RunEdge(cfg, run, b);
      assert TicketRecorded(run.states[b].db, run.states[i].db, run.actions[b], t);
      if run.states[b].db.tickets[t].resource.Some? {
        ServedHasTags(cfg, run, b, t);
        Safety.RunLinked(cfg, run, b);
        NotStarting(cfg, run.states[b].db, run.states[b].uuids, t);
      } else {
        GivenHasTags(cfg, run, b, t);
      }
    }
  }

  lemma NotStarting(cfg: Config, db: Db, uuids: nat, t: TicketId)
    requires Linked(cfg, db, uuids) && t in db.tickets && db.tickets[t].resource.Some?
    ensures var r := db.tickets[t].resource.value; r in db.resources && db.resources[r].state != STARTING
  {
    assert TicketOk(db, uuids, t);
    assert RowOk(cfg, db, db.tickets[t].resource.value);
  }

  lemma GivenHasTags(cfg: Config, run: Run, j: nat, t: TicketId)
    requires ValidConfig(cfg) && Valid(cfg, run) && j < |run.actions| && ServedAt(run, j, t)
    ensures var r := run.states[j + 1].db.tickets[t].resource.value;
      && r in run.states[j].db.resources && run.states[j].db.resources[r].state == UP
      && run.states[j].db.tickets[t].tags <= run.states[j].db.resources[r].tags.Keys
  {
    hide Takes, Linked;
    GoodRun(cfg, run, j);
    StepOf(cfg, run, j);
    hide Valid, ValidConfig, Good;
    Reuse.AssignStep(cfg, run.states[j]);
    hide Can, Do;
  }
}
