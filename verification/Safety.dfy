/**
 What holds in every state of every run of the server, and between any two states of a run:
 whatever the interleaving of the manager, the API threads, the workers, the Watcher and the
 maintainer, and across crashes and restarts.
 */
module Safety {
  import opened Collections
  import opened Tables
  import opened Logic
  import opened Links
  import opened Protocol
  import opened Invariant
  import opened Edges

  /* ---- from steps to runs ---- */

  /** What stays of a resource over any number of steps. */
  ghost predicate RowLater(x: Resource, y: Resource) {
    && y.pool == x.pool && y.name == x.name
    && (x.state != STARTING ==> y.state != STARTING && y.data == x.data && y.tags == x.tags)
    && (Dying(x.state) ==> Dying(y.state) && y.ticket == x.ticket && y.sandbox == x.sandbox && y.releases == x.releases)
    && (!x.sandbox.NoSandbox? ==> y.sandbox == x.sandbox)
  }

  ghost predicate Later(db: Db, db': Db) {
    && (forall r :: r in db.resources ==> r in db'.resources && RowLater(db.resources[r], db'.resources[r]))
    && (forall t :: t in db.tickets ==> t in db'.tickets && TicketEdge(db.tickets[t], db'.tickets[t]))
  }

  lemma EdgeIsLater(db: Db, db': Db)
    requires Edged(db, db')
    ensures Later(db, db')
  {
  }

  lemma LaterComposes(a: Db, b: Db, c: Db)
    requires Later(a, b) && Later(b, c)
    ensures Later(a, c)
  {
  }

  lemma RunEdge(cfg: Config, run: Run, i: nat)
    requires ValidConfig(cfg) && Valid(cfg, run) && i < |run.actions|
    ensures Edged(run.states[i].db, run.states[i + 1].db)
  {
    hide Good, Can, Do, Takes, Edged;
    GoodRun(cfg, run, i);
    StepOf(cfg, run, i);
    GoodStep(cfg, run.states[i], run.actions[i]);
  }

  lemma {:induction false} RunLater(cfg: Config, run: Run, i: nat, j: nat)
    requires ValidConfig(cfg) && Valid(cfg, run) && i <= j < |run.states|
    ensures Later(run.states[i].db, run.states[j].db)
    decreases j
  {
    hide Takes, Edged, Later;
    if i == j {
      SameTables(run.states[i].db, run.states[i].db);
      EdgeIsLater(run.states[i].db, run.states[i].db);
    } else {
      RunLater(cfg, run, i, j - 1);
      RunEdge(cfg, run, j - 1);
      EdgeIsLater(run.states[j - 1].db, run.states[j].db);
      LaterComposes(run.states[i].db, run.states[j - 1].db, run.states[j].db);
    }
  }

  lemma RunLinked(cfg: Config, run: Run, i: nat)
    requires ValidConfig(cfg) && Valid(cfg, run) && i < |run.states|
    ensures Linked(cfg, run.states[i].db, run.states[i].uuids) && Staffed(run.states[i])
  {
    hide Takes, Linked, Good, Staffed;
    GoodRun(cfg, run, i);
    GoodParts(cfg, run.states[i]);
  }

  /* ---- tickets and resources ---- */

  /** An open ticket and its resource always point at each other, and the resource is up. */
  lemma Pairing(cfg: Config, run: Run, i: nat)
    requires ValidConfig(cfg) && Valid(cfg, run) && i < |run.states|
    ensures var db := run.states[i].db;
      && (forall t :: t in db.tickets && db.tickets[t].state == OPEN && db.tickets[t].resource.Some? ==>
            && InStateNow(db, db.tickets[t].resource.value, UP)
            && db.resources[db.tickets[t].resource.value].ticket == Some(t))
      && (forall r :: r in db.resources && db.resources[r].ticket.Some? ==>
            && db.resources[r].ticket.value in db.tickets
            && db.tickets[db.resources[r].ticket.value].resource == Some(r)
            && (db.resources[r].state == UP ==> db.tickets[db.resources[r].ticket.value].state != FAILED))
      && (forall r, q :: r in db.resources && q in db.resources && db.resources[r].ticket.Some? ==>
            db.resources[r].ticket == db.resources[q].ticket ==> r == q)
  {
    RunLinked(cfg, run, i);
    hide Valid, ValidConfig, Staffed;
    PairingOf(cfg, run.states[i].db, run.states[i].uuids);
  }

  lemma PairingOf(cfg: Config, db: Db, uuids: nat)
    requires Linked(cfg, db, uuids)
    ensures forall t :: t in db.tickets && db.tickets[t].state == OPEN && db.tickets[t].resource.Some? ==>
            && InStateNow(db, db.tickets[t].resource.value, UP)
            && db.resources[db.tickets[t].resource.value].ticket == Some(t)
    ensures forall r :: r in db.resources && db.resources[r].ticket.Some? ==>
            && db.resources[r].ticket.value in db.tickets
            && db.tickets[db.resources[r].ticket.value].resource == Some(r)
            && (db.resources[r].state == UP ==> db.tickets[db.resources[r].ticket.value].state != FAILED)
  {
    forall t | t in db.tickets ensures TicketOk(db, uuids, t) {}
    forall r | r in db.resources && db.resources[r].ticket.Some?
      ensures db.resources[r].ticket.value in db.tickets
      ensures db.tickets[db.resources[r].ticket.value].resource == Some(r)
      ensures db.resources[r].state == UP ==> db.tickets[db.resources[r].ticket.value].state != FAILED
    {
      assert RowOk(cfg, db, r);
      assert TicketOk(db, uuids, db.resources[r].ticket.value);
    }
  }

  /** `release_resource(ticket)` frees the resource that the loop of `detect_closed_tickets` is at. */
  lemma ReleasedIsTheOneFound(cfg: Config, run: Run, i: nat, p: PoolName)
    requires ValidConfig(cfg) && Valid(cfg, run) && i < |run.states|
    ensures TicketsKnow(run.states[i].db, p)
  {
    Pairing(cfg, run, i);
    hide Valid;
  }

  /** The guard "can't delete, ticket opened" of TerminateWorker never fires. */
  lemma TerminatorNeverBlocked(cfg: Config, run: Run, i: nat, r: ResourceId)
    requires ValidConfig(cfg) && Valid(cfg, run) && i < |run.actions|
    requires run.actions[i] == Work(TerminateStart(r))
    ensures r in run.states[i].db.resources && Dying(run.states[i].db.resources[r].state)
    ensures !TicketOpen(run.states[i].db, r)
    ensures InStateNow(run.states[i + 1].db, r, DELETING)
  {
    GoodRun(cfg, run, i);
    StepOf(cfg, run, i);
    hide Takes, Valid, Linked, ValidConfig, Queued, PcFits, TicketOpen;
    WorkersFit(cfg, run.states[i]);
    NoOpenTicket(cfg, run.states[i].db, run.states[i].uuids, r);
  }

  /** DELETE_REQUEST, DELETING and ENDED are never left, not even over a restart. */
  lemma DyingIsForever(cfg: Config, run: Run, i: nat, j: nat, r: ResourceId)
    requires ValidConfig(cfg) && Valid(cfg, run) && i <= j < |run.states|
    requires r in run.states[i].db.resources && Dying(run.states[i].db.resources[r].state)
    ensures r in run.states[j].db.resources && Dying(run.states[j].db.resources[r].state)
    ensures run.states[j].db.resources[r].ticket == run.states[i].db.resources[r].ticket
  {
    hide Valid, ValidConfig;
    RunLater(cfg, run, i, j);
  }

  /**
   While the server is up each STARTING resource has exactly one AllocWorker and each RELEASING
   one exactly one ReleaseWorker, and no other resource has any.
   */
  lemma OneWorkerEach(cfg: Config, run: Run, i: nat, r: ResourceId)
    requires ValidConfig(cfg) && Valid(cfg, run) && i < |run.states| && run.states[i].pc != Down
    ensures run.states[i].staff.allocators[r] == if InStateNow(run.states[i].db, r, STARTING) then 1 else 0
    ensures run.states[i].staff.releasers[r] == if InStateNow(run.states[i].db, r, RELEASING) then 1 else 0
  {
    RunLinked(cfg, run, i);
    hide Valid, ValidConfig, Linked;
  }

  /** So the states that the workers write without looking are the right ones. */
  lemma BlindWritesAreSafe(cfg: Config, run: Run, i: nat)
    requires ValidConfig(cfg) && Valid(cfg, run) && i < |run.actions| && run.actions[i].Work?
    ensures match run.actions[i].w
            case AllocDone(r, success, data) =>
              && InStateNow(run.states[i].db, r, STARTING)
              && InStateNow(run.states[i + 1].db, r, if success then UP else ENDED)
            case ReleaseDone(r, success) =>
              InStateNow(run.states[i].db, r, RELEASING) && InStateNow(run.states[i + 1].db, r, UP)
            case TerminateEnd(r) =>
              IsDying(run.states[i].db, r) && InStateNow(run.states[i + 1].db, r, ENDED)
            case _ => true
  {
    GoodRun(cfg, run, i);
    StepOf(cfg, run, i);
    hide Takes, Valid, Linked, ValidConfig, Queued, PcFits, TicketOpen, NamesOf, NamesOn, TagRows;
    WorkersFit(cfg, run.states[i]);
  }

  /* ---- what users observe ---- */

  /** Once `collectTicket` says ready, every later call says ready with the same output. */
  lemma AnswersAreStable(cfg: Config, run: Run, i: nat, j: nat, t: TicketId)
    requires ValidConfig(cfg) && Valid(cfg, run) && i <= j < |run.states|
    requires CollectTicket(run.states[i].db, t).ready == Some(true)
    ensures CollectTicket(run.states[j].db, t).ready == Some(true)
    ensures CollectTicket(run.states[j].db, t).output == CollectTicket(run.states[i].db, t).output
    ensures CollectTicket(run.states[i].db, t).output.Some?
  {
    RunLater(cfg, run, i, j);
    RunLinked(cfg, run, i);
    hide Valid, ValidConfig, Staffed;
    var db := run.states[i].db;
    assert TicketOk(db, run.states[i].uuids, t);
    assert RowOk(cfg, db, db.tickets[t].resource.value);
  }

  /** A ticket only goes from OPEN to FAILED to CLOSED, or from OPEN to CLOSED. */
  lemma TicketsAge(cfg: Config, run: Run, i: nat, j: nat, t: TicketId)
    requires ValidConfig(cfg) && Valid(cfg, run) && i <= j < |run.states|
    requires t in run.states[i].db.tickets
    ensures t in run.states[j].db.tickets
    ensures run.states[i].db.tickets[t].state == CLOSED ==> run.states[j].db.tickets[t].state == CLOSED
    ensures run.states[i].db.tickets[t].state == FAILED ==> run.states[j].db.tickets[t].state in {FAILED, CLOSED}
    ensures run.states[j].db.tickets[t].state == FAILED ==>
              run.states[j].db.tickets[t].resource.Some?
              && IsDying(run.states[j].db, run.states[j].db.tickets[t].resource.value)
  {
    RunLater(cfg, run, i, j);
    RunLinked(cfg, run, j);
    hide Valid, ValidConfig, Staffed;
    assert TicketOk(run.states[j].db, run.states[j].uuids, t);
  }

  /**
   A ticket that `collectTicket` reports closed stays closed and is not failed; one reported failed
   is ready, and later failed or closed.
   */
  lemma AnswersAge(cfg: Config, run: Run, i: nat, j: nat, t: TicketId)
    requires ValidConfig(cfg) && Valid(cfg, run) && i <= j < |run.states|
    requires t in run.states[i].db.tickets
    ensures var now, later := CollectTicket(run.states[i].db, t), CollectTicket(run.states[j].db, t);
      && (now.closed == Some(true) ==> later.closed == Some(true) && later.failed == Some(false))
      && (now.failed == Some(true) ==> later.failed == Some(true) || later.closed == Some(true))
      && (later.failed == Some(true) ==> later.ready == Some(true) && later.output.Some?)
  {
    TicketsAge(cfg, run, i, j, t);
    if CollectTicket(run.states[j].db, t).ready == Some(true) { AnswersAreStable(cfg, run, j, j, t); }
    hide Valid, ValidConfig;
  }

  /* ---- sandboxes ---- */

  /** A resource's sandbox never changes once set, and is that of every ticket it ever served. */
  lemma SandboxIsolation(cfg: Config, run: Run, i: nat, j: nat, r: ResourceId)
    requires ValidConfig(cfg) && Valid(cfg, run) && i <= j < |run.states|
    requires r in run.states[i].db.resources
    ensures r in run.states[j].db.resources
    ensures !run.states[i].db.resources[r].sandbox.NoSandbox? ==>
              run.states[j].db.resources[r].sandbox == run.states[i].db.resources[r].sandbox
    ensures forall t :: t in run.states[j].db.tickets && run.states[j].db.tickets[t].resource == Some(r) ==>
              && run.states[j].db.tickets[t].sandbox == run.states[j].db.resources[r].sandbox
              && !run.states[j].db.tickets[t].sandbox.NoSandbox?
  {
    RunLater(cfg, run, i, j);
    RunLinked(cfg, run, j);
    hide Valid, ValidConfig, Staffed;
    forall t | t in run.states[j].db.tickets ensures TicketOk(run.states[j].db, run.states[j].uuids, t) {}
  }

  /** `assign_ticket` returns true whenever the manager calls it. */
  lemma AssignReturnsTrue(cfg: Config, run: Run, i: nat)
    requires ValidConfig(cfg) && Valid(cfg, run) && i < |run.actions| && run.actions[i] == Manage(Assign)
    ensures run.states[i].pc.Assigning? && run.states[i].pc.queue != []
    ensures var t := run.states[i].pc.queue[0]; var db := run.states[i + 1].db;
      && t in db.tickets
      && (db.tickets[t].resource.Some? ==>
            && db.tickets[t].resource.value in db.resources
            && db.resources[db.tickets[t].resource.value].sandbox == db.tickets[t].sandbox)
  {
    StepOf(cfg, run, i);
    RunEdge(cfg, run, i);
    RunLinked(cfg, run, i + 1);
    hide Valid, ValidConfig, Staffed, Takes, Do;
    var t := run.states[i].pc.queue[0];
    assert TicketOk(run.states[i + 1].db, run.states[i + 1].uuids, t);
  }

  /** A resource first given to a ticket without a sandbox never serves a second ticket. */
  lemma OwnSandboxMeansNoSharing(cfg: Config, run: Run, i: nat, j: nat, t: TicketId, r: ResourceId, u: TicketId)
    requires ValidConfig(cfg) && Valid(cfg, run) && i < j < |run.states|
    requires t in run.states[i].db.tickets && run.states[i].db.tickets[t].sandbox.NoSandbox?
    requires t in run.states[j].db.tickets && run.states[j].db.tickets[t].resource == Some(r)
    requires u in run.states[j].db.tickets && run.states[j].db.tickets[u].resource == Some(r)
    ensures u == t
  {
    RunLater(cfg, run, i, j);
    RunLinked(cfg, run, j);
    hide Valid, ValidConfig, Staffed;
    var db := run.states[j].db;
    assert TicketOk(db, run.states[j].uuids, t) && TicketOk(db, run.states[j].uuids, u);
    assert SameUuid(db.tickets[t], db.tickets[u]);
  }
}
