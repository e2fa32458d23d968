/**
 How rows and tickets hang together in every reachable database, and that each transaction keeps
 it so.  Most of what the other modules prove rests on this.
 */
module Links {
  import opened Collections
  import opened Tables
  import opened Logic

  ghost predicate RowOk(cfg: Config, db: Db, r: ResourceId)
    requires r in db.resources
  {
    var x := db.resources[r];
    && x.pool in cfg.pools
    // the ticket a resource is taken by knows the resource
    && (x.ticket.Some? ==> x.ticket.value in db.tickets && db.tickets[x.ticket.value].resource == Some(r))
    && (x.ticket.Some? || x.releases > 0 ==> !x.sandbox.NoSandbox?)
    && (x.state == STARTING ==> x.ticket.None? && x.sandbox.NoSandbox? && x.data.None?)
    && (x.state == RELEASING ==> x.ticket.None? && x.releases > 0 && cfg.pools[x.pool].hasRelease)
    && (x.state == UP || x.state == RELEASING || !x.sandbox.NoSandbox? ==> x.data.Some?)
    && (x.sandbox.NoSandbox? <==> x.sandboxedSince.None?)
    && (x.releasedAt.None? <==> x.releases == 0)
  }

  ghost predicate TicketOk(db: Db, uuids: nat, t: TicketId)
    requires t in db.tickets
  {
    var y := db.tickets[t];
    match y.resource
    case None => y.state != FAILED && !y.sandbox.Generated?
    case Some(r) =>
      && r in db.resources
      && y.sandbox == db.resources[r].sandbox && !y.sandbox.NoSandbox?
      && (y.sandbox.Generated? ==> y.sandbox.serial < uuids)
      // an open ticket's resource is up and taken by that ticket
      && (y.state == OPEN ==> db.resources[r].state == UP && db.resources[r].ticket == Some(t))
      // a ticket fails only together with its resource
      && (y.state == FAILED ==> Dying(db.resources[r].state))
  }

  ghost predicate SameUuid(a: Ticket, b: Ticket) {
    a.sandbox.Generated? && a.sandbox == b.sandbox
  }

  ghost predicate Linked(cfg: Config, db: Db, uuids: nat) {
    && (forall r :: r in db.resources ==> RowOk(cfg, db, r))
    && (forall t :: t in db.tickets ==> TicketOk(db, uuids, t))
    // a generated sandbox belongs to one ticket
    && (forall t, u :: t in db.tickets && u in db.tickets && SameUuid(db.tickets[t], db.tickets[u]) ==> t == u)
  }

  /** A ticket that has a resource. */
  ghost predicate TicketOfRow(db: Db, t: TicketId) {
    t in db.tickets && db.tickets[t].resource.Some? && db.tickets[t].resource.value in db.resources
  }

  /** A transaction that only changes rows, and those only as `RowOk` and `TicketOk` allow. */
  lemma RowsOnly(cfg: Config, db: Db, uuids: nat, db': Db)
    requires Linked(cfg, db, uuids)
    requires db'.tickets == db.tickets && db.resources.Keys <= db'.resources.Keys
    requires forall r :: r in db'.resources ==> RowOk(cfg, db', r)
    requires forall r :: r in db.resources ==> db'.resources[r].sandbox == db.resources[r].sandbox
    requires forall t :: TicketOfRow(db, t) ==>
      var r := db.tickets[t].resource.value;
      && (db.tickets[t].state == OPEN ==>
            db'.resources[r].state == db.resources[r].state && db'.resources[r].ticket == db.resources[r].ticket)
      && (Dying(db.resources[r].state) ==> Dying(db'.resources[r].state))
    ensures Linked(cfg, db', uuids)
  {
    forall t | t in db'.tickets ensures TicketOk(db', uuids, t) {
      assert TicketOk(db, uuids, t);
    }
  }

  lemma AssignKeeps(cfg: Config, db: Db, uuids: nat, r: ResourceId, t: TicketId, now: Time)
    requires Linked(cfg, db, uuids)
    requires r in db.resources && t in db.tickets && db.tickets[t].resource.None?
    requires Ready(db.resources[r])
    requires db.resources[r].sandbox.NoSandbox? || db.resources[r].sandbox == db.tickets[t].sandbox
    ensures Linked(cfg, AssignTicket(db, r, t, now, Generated(uuids)), uuids + 1)
    // `assign_ticket` returns true
    ensures var db' := AssignTicket(db, r, t, now, Generated(uuids));
            db'.resources[r].sandbox == db'.tickets[t].sandbox
  {
    var db' := AssignTicket(db, r, t, now, Generated(uuids));
    forall q | q in db'.resources ensures RowOk(cfg, db', q) { AssignRow(cfg, db, uuids, r, t, now, q); }
    forall u | u in db'.tickets ensures TicketOk(db', uuids + 1, u) { AssignKeepsTicket(cfg, db, uuids, r, t, now, u); }
    assert TicketOk(db, uuids, t);
    forall u | u in db.tickets ensures !SameUuid(db.tickets[u], db'.tickets[t]) || u == t {
      assert TicketOk(db, uuids, u);
    }
    hide RowOk, TicketOk;
  }

  lemma AssignRow(cfg: Config, db: Db, uuids: nat, r: ResourceId, t: TicketId, now: Time, q: ResourceId)
    requires Linked(cfg, db, uuids)
    requires r in db.resources && t in db.tickets && db.tickets[t].resource.None? && Ready(db.resources[r])
    requires q in db.resources
    ensures RowOk(cfg, AssignTicket(db, r, t, now, Generated(uuids)), q)
  {
    assert RowOk(cfg, db, q);
    hide Linked;
  }

  lemma AssignKeepsTicket(cfg: Config, db: Db, uuids: nat, r: ResourceId, t: TicketId, now: Time, u: TicketId)
    requires Linked(cfg, db, uuids)
    requires r in db.resources && t in db.tickets && db.tickets[t].resource.None? && Ready(db.resources[r])
    requires db.resources[r].sandbox.NoSandbox? || db.resources[r].sandbox == db.tickets[t].sandbox
    requires u in db.tickets
    ensures TicketOk(AssignTicket(db, r, t, now, Generated(uuids)), uuids + 1, u)
  {
    assert TicketOk(db, uuids, u);
    assert RowOk(cfg, db, r);
    hide Linked;
  }

  lemma DetectKeeps(cfg: Config, db: Db, uuids: nat, p: PoolName, now: Time)
    requires Linked(cfg, db, uuids) && p in cfg.pools
    ensures Linked(cfg, DetectClosed(db, p, cfg.pools[p].hasRelease, now), uuids)
  {
    var db' := DetectClosed(db, p, cfg.pools[p].hasRelease, now);
    forall q | q in db'.resources ensures RowOk(cfg, db', q) {
      assert RowOk(cfg, db, q);
    }
    forall t | t in db'.tickets ensures TicketOk(db', uuids, t) {
      assert TicketOk(db, uuids, t);
    }
  }

  lemma KillKeeps(cfg: Config, db: Db, uuids: nat, doomed: set<ResourceId>)
    requires Linked(cfg, db, uuids)
    ensures Linked(cfg, Kill(db, doomed), uuids)
  {
    forall q | q in db.resources ensures RowOk(cfg, Kill(db, doomed), q) { KillRow(cfg, db, uuids, doomed, q); }
    forall t | t in db.tickets ensures TicketOk(Kill(db, doomed), uuids, t) { KillTicket(cfg, db, uuids, doomed, t); }
    hide RowOk, TicketOk;
  }

  lemma KillRow(cfg: Config, db: Db, uuids: nat, doomed: set<ResourceId>, q: ResourceId)
    requires Linked(cfg, db, uuids) && q in db.resources
    ensures RowOk(cfg, Kill(db, doomed), q)
  {
    assert RowOk(cfg, db, q);
    hide Linked;
  }

  lemma KillTicket(cfg: Config, db: Db, uuids: nat, doomed: set<ResourceId>, t: TicketId)
    requires Linked(cfg, db, uuids) && t in db.tickets
    ensures TicketOk(Kill(db, doomed), uuids, t)
  {
    assert TicketOk(db, uuids, t);
    hide Linked;
  }

  lemma RequestDeleteKeeps(cfg: Config, db: Db, uuids: nat, which: set<ResourceId>)
    requires Linked(cfg, db, uuids)
    requires forall r :: r in which && r in db.resources ==>
               db.resources[r].ticket.None? || Dying(db.resources[r].state)
    ensures Linked(cfg, RequestDelete(db, which), uuids)
  {
    var db' := RequestDelete(db, which);
    forall q | q in db'.resources ensures RowOk(cfg, db', q) {
      assert RowOk(cfg, db, q);
    }
    hide RowOk;
    forall t | t in db'.tickets ensures TicketOk(db', uuids, t) {
      assert TicketOk(db, uuids, t);
    }
  }

  lemma RemovalKeeps(cfg: Config, db: Db, uuids: nat, p: PoolName, now: Time)
    requires Linked(cfg, db, uuids) && p in cfg.pools
    ensures Linked(cfg, RequestRemoval(db, p, cfg.pools[p], now), uuids)
  {
    hide Linked, RequestDelete, Kill, RowOk, TicketOk;
    var c := cfg.pools[p];
    KillKeeps(cfg, db, uuids, Failing(db, p, c.livecheckAttempts));
    var db1 := Kill(db, Failing(db, p, c.livecheckAttempts));
    RequestDeleteKeeps(cfg, db1, uuids, WornOut(db1, p, c, now));
    var db2 := Retire(db1, p, c, now);
    if c.tagsOnDemand != [] {
      SurplusUnused(db2, p, c);
      RequestDeleteKeeps(cfg, db2, uuids, Surplus(db2, p, c));
    }
  }

  lemma SurplusUnused(db: Db, p: PoolName, c: PoolConfig)
    ensures Surplus(db, p, c) <= Unused(db, p)
  {
  }

  lemma FixBrokenKeeps(cfg: Config, db: Db, uuids: nat)
    requires Linked(cfg, db, uuids)
    ensures Linked(cfg, FixBroken(db), uuids)
  {
    forall r | r in Broken(db) ensures db.resources[r].ticket.None? || Dying(db.resources[r].state) {
      assert RowOk(cfg, db, r);
    }
    hide Linked;
    RequestDeleteKeeps(cfg, db, uuids, Broken(db));
  }

  lemma WatchKeeps(cfg: Config, db: Db, uuids: nat, r: ResourceId, success: bool)
    requires Linked(cfg, db, uuids) && r in db.resources
    ensures Linked(cfg, Watch(db, r, success), uuids)
  {
    var db' := Watch(db, r, success);
    forall q | q in db'.resources ensures RowOk(cfg, db', q) {
      assert RowOk(cfg, db, q);
    }
    hide RowOk;
    RowsOnly(cfg, db, uuids, db');
  }

  lemma FinishAllocKeeps(cfg: Config, db: Db, uuids: nat, r: ResourceId, success: bool, data: Data, tags: map<Tag, int>)
    requires Linked(cfg, db, uuids) && r in db.resources && db.resources[r].state == STARTING
    ensures Linked(cfg, FinishAlloc(db, r, success, data, tags), uuids)
  {
    var db' := FinishAlloc(db, r, success, data, tags);
    assert RowOk(cfg, db, r);
    forall q | q in db'.resources ensures RowOk(cfg, db', q) {
      assert RowOk(cfg, db, q);
    }
    forall t | t in db.tickets ensures db.tickets[t].resource != Some(r) {
      assert TicketOk(db, uuids, t);
    }
    hide RowOk, TicketOk;
    RowsOnly(cfg, db, uuids, db');
  }

  lemma FinishReleaseKeeps(cfg: Config, db: Db, uuids: nat, r: ResourceId, success: bool, reuseMaxCount: nat)
    requires Linked(cfg, db, uuids) && r in db.resources && db.resources[r].state == RELEASING
    ensures Linked(cfg, FinishRelease(db, r, success, reuseMaxCount), uuids)
  {
    var db' := FinishRelease(db, r, success, reuseMaxCount);
    assert RowOk(cfg, db, r);
    forall q | q in db'.resources ensures RowOk(cfg, db', q) {
      assert RowOk(cfg, db, q);
    }
    forall t | t in db.tickets && db.tickets[t].resource == Some(r) ensures db.tickets[t].state == CLOSED {
      assert TicketOk(db, uuids, t);
    }
    hide RowOk, TicketOk;
    RowsOnly(cfg, db, uuids, db');
  }

  lemma DyingKeeps(cfg: Config, db: Db, uuids: nat, r: ResourceId)
    requires Linked(cfg, db, uuids) && r in db.resources && Dying(db.resources[r].state)
    ensures Linked(cfg, SetState(db, r, DELETING), uuids)
    ensures Linked(cfg, End(db, r), uuids)
  {
    hide RowOk;
    var db1, db2 := SetState(db, r, DELETING), End(db, r);
    forall q | q in db.resources ensures RowOk(cfg, db1, q) && RowOk(cfg, db2, q) {
      DyingKeepsRow(cfg, db, r, q);
    }
    forall t | t in db.tickets && db.tickets[t].resource == Some(r) ensures db.tickets[t].state != OPEN {
      assert TicketOk(db, uuids, t);
    }
    hide TicketOk, Linked;
    RowsOnlyAt(cfg, db, uuids, db1, r);
    RowsOnlyAt(cfg, db, uuids, db2, r);
  }

  lemma DyingKeepsRow(cfg: Config, db: Db, r: ResourceId, q: ResourceId)
    requires r in db.resources && Dying(db.resources[r].state) && q in db.resources && RowOk(cfg, db, q)
    ensures RowOk(cfg, SetState(db, r, DELETING), q) && RowOk(cfg, End(db, r), q)
  {
  }

  /** `RowsOnly` for a transaction that changes the state of one dying resource. */
  lemma RowsOnlyAt(cfg: Config, db: Db, uuids: nat, db': Db, r: ResourceId)
    requires Linked(cfg, db, uuids) && r in db.resources && Dying(db.resources[r].state)
    requires db'.tickets == db.tickets && db'.resources.Keys == db.resources.Keys
    requires forall q :: q in db.resources && q != r ==> db'.resources[q] == db.resources[q]
    requires db'.resources[r].sandbox == db.resources[r].sandbox && Dying(db'.resources[r].state)
    requires forall q :: q in db'.resources ==> RowOk(cfg, db', q)
    requires forall t :: t in db.tickets && db.tickets[t].resource == Some(r) ==> db.tickets[t].state != OPEN
    ensures Linked(cfg, db', uuids)
  {
    hide RowOk, TicketOk;
    RowsOnly(cfg, db, uuids, db');
  }

  /** The guard of TerminateWorker, an open ticket on the resource, never fires. */
  lemma NoOpenTicket(cfg: Config, db: Db, uuids: nat, r: ResourceId)
    requires Linked(cfg, db, uuids) && r in db.resources && Dying(db.resources[r].state)
    ensures !TicketOpen(db, r)
  {
    assert RowOk(cfg, db, r);
    if db.resources[r].ticket.Some? {
      assert TicketOk(db, uuids, db.resources[r].ticket.value);
    }
  }

  lemma AllocateKeeps(cfg: Config, db: Db, uuids: nat, p: PoolName, r: ResourceId, name: Name, now: Time, id: nat,
                      values: map<Counter, nat>)
    requires Linked(cfg, db, uuids) && p in cfg.pools && r !in db.resources
    ensures Linked(cfg, Allocate(db, p, r, name, now, id, values), uuids)
  {
    var db' := Allocate(db, p, r, name, now, id, values);
    forall q | q in db'.resources ensures RowOk(cfg, db', q) {
      if q != r { assert RowOk(cfg, db, q); }
    }
    hide RowOk;
    RowsOnly(cfg, db, uuids, db');
  }

  lemma TakeKeeps(cfg: Config, db: Db, uuids: nat, t: TicketId, tags: set<Tag>, sandbox: Sandbox)
    requires Linked(cfg, db, uuids) && t !in db.tickets && !sandbox.Generated?
    ensures Linked(cfg, TakeTicket(db, t, tags, sandbox), uuids)
  {
    var db' := TakeTicket(db, t, tags, sandbox);
    forall q | q in db'.resources ensures RowOk(cfg, db', q) {
      assert RowOk(cfg, db, q);
    }
    forall u | u in db'.tickets ensures TicketOk(db', uuids, u) {
      if u != t { assert TicketOk(db, uuids, u); }
    }
  }

  lemma CloseKeeps(cfg: Config, db: Db, uuids: nat, t: TicketId)
    requires Linked(cfg, db, uuids) && t in db.tickets
    ensures Linked(cfg, CloseTicket(db, t), uuids)
  {
    var db' := CloseTicket(db, t);
    forall q | q in db'.resources ensures RowOk(cfg, db', q) {
      assert RowOk(cfg, db, q);
    }
    forall u | u in db'.tickets ensures TicketOk(db', uuids, u) {
      assert TicketOk(db, uuids, u);
    }
  }

  /** Only the tables of numbers and starts differ. */
  lemma OtherTablesKeep(cfg: Config, db: Db, uuids: nat, db': Db)
    requires Linked(cfg, db, uuids)
    requires db'.resources == db.resources && db'.tickets == db.tickets
    ensures Linked(cfg, db', uuids)
  {
    forall q | q in db'.resources ensures RowOk(cfg, db', q) {
      assert RowOk(cfg, db, q);
    }
    forall u | u in db'.tickets ensures TicketOk(db', uuids, u) {
      assert TicketOk(db, uuids, u);
    }
  }
}
