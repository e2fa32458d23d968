/**
 What a removal pass does to every resource and ticket, and why: in terms of the checks, releases
 and assignments of the run and of its clock.
 */
module Removal {
  import opened Collections
  import opened Tables
  import opened Logic
  import opened Links
  import opened Protocol
  import opened Invariant
  import opened Edges
  import opened History
  import Reuse
  import Safety

  /* ---- one pass ---- */

  /** The resource has failed as many checks in a row as the pool allows. */
  predicate Fails(x: Resource, c: PoolConfig) {
    x.failedChecks > 0 && x.failedChecks >= c.livecheckAttempts
  }

  /** One of the limits on the reuse of a released resource is exceeded at time `now`. */
  predicate PastLimits(x: Resource, c: PoolConfig, now: Time, releasedAt: Time, sandboxedSince: Time) {
    || c.reuseOpportunityTime == 0.0
    || now - releasedAt > c.reuseOpportunityTime
    || (c.reuseMaxTime != 0.0 && now - sandboxedSince > c.reuseMaxTime)
    || (c.reuseMaxCount > 0 && x.releases > c.reuseMaxCount)
  }

  /** A resource of the pool that could be assigned now and never was. */
  predicate NeverUsed(x: Resource, p: PoolName) {
    x.pool == p && x.state == UP && x.ticket.None? && x.failedChecks == 0 && x.releases == 0
  }

  function Newer(db: Db, p: PoolName, r: ResourceId): set<ResourceId> {
    set q | q in db.resources && q > r && NeverUsed(db.resources[q], p)
  }

  /** The tickets without a resource, not closed, whose tags the pool provides. */
  function WaitingFor(db: Db, c: PoolConfig): set<TicketId> {
    set t | t in db.tickets && db.tickets[t].resource.None? && db.tickets[t].state == OPEN
            && forall tag :: tag in db.tickets[t].tags ==>
                 exists k :: 0 <= k < |c.TagsAll()| && c.TagsAll()[k].name == tag
  }

  /** In an on-demand pool: there are enough newer ones for all tickets that wait. */
  predicate Unneeded(db: Db, p: PoolName, c: PoolConfig, r: ResourceId)
    requires r in db.resources
  {
    c.tagsOnDemand != [] && NeverUsed(db.resources[r], p) && |Newer(db, p, r)| >= |WaitingFor(db, c)|
  }

  /** The pass requests the removal of `r`. */
  predicate Goes(db: Db, p: PoolName, c: PoolConfig, now: Time, r: ResourceId)
    requires r in db.resources
  {
    var x := db.resources[r];
    || Fails(x, c)
    || (x.ticket.None? && x.releasedAt.Some? && x.sandboxedSince.Some?
        && PastLimits(x, c, now, x.releasedAt.value, x.sandboxedSince.value))
    || Unneeded(db, p, c, r)
  }

  ghost predicate PassRow(db: Db, db': Db, p: PoolName, c: PoolConfig, now: Time, r: ResourceId)
    requires r in db.resources
  {
    var x := db.resources[r];
    && r in db'.resources
    && db'.resources[r] ==
         if x.pool == p && x.state == UP && Goes(db, p, c, now, r) then x.(state := DELETE_REQUEST) else x
  }

  /** A ticket fails together with its resource. */
  ghost predicate PassTicket(db: Db, db': Db, p: PoolName, c: PoolConfig, t: TicketId)
    requires t in db.tickets
  {
    var y := db.tickets[t];
    && t in db'.tickets
    && db'.tickets[t] ==
         if y.state == OPEN && y.resource.Some? && y.resource.value in db.resources
            && db.resources[y.resource.value].pool == p && db.resources[y.resource.value].state == UP
            && Fails(db.resources[y.resource.value], c)
         then y.(state := FAILED) else y
  }

  lemma PassTickets(db: Db, p: PoolName, c: PoolConfig, now: Time, t: TicketId)
    requires t in db.tickets
    ensures PassTicket(db, RequestRemoval(db, p, c, now), p, c, t)
  {
    hide Surplus, WornOut;
  }

  lemma WaitingSame(db: Db, c: PoolConfig)
    ensures WaitingFor(db, c) == WaitingOn(db, TagNames(c.TagsAll()))
  {
  }

  lemma KillRow(db: Db, p: PoolName, c: PoolConfig, r: ResourceId)
    requires r in db.resources
    ensures var x := db.resources[r]; var db' := Kill(db, Failing(db, p, c.livecheckAttempts));
      && r in db'.resources
      && db'.resources[r] ==
           if x.pool == p && x.state == UP && Fails(x, c) then x.(state := DELETE_REQUEST) else x
  {
  }

  lemma KillLeaves(db: Db, p: PoolName, c: PoolConfig)
    ensures var db' := Kill(db, Failing(db, p, c.livecheckAttempts));
            Unused(db', p) == Unused(db, p) && AllWaiting(db') == AllWaiting(db)
  {
    var db' := Kill(db, Failing(db, p, c.livecheckAttempts));
    forall r | r in db.resources ensures r in Unused(db', p) <==> r in Unused(db, p) { KillRow(db, p, c, r); }
    hide Unused, Failing;
  }

  /** A row whose time of release and first use are recorded together. */
  predicate Kept(x: Resource) {
    x.releasedAt.Some? ==> x.sandboxedSince.Some? && x.releases > 0
  }

  lemma RetireRow(db: Db, p: PoolName, c: PoolConfig, now: Time, r: ResourceId)
    requires r in db.resources && Kept(db.resources[r])
    ensures var x := db.resources[r]; var db' := Retire(db, p, c, now);
      && r in db'.resources
      && db'.resources[r] ==
           if x.pool == p && x.state == UP && x.ticket.None? && x.releasedAt.Some?
              && PastLimits(x, c, now, x.releasedAt.value, x.sandboxedSince.value)
           then x.(state := DELETE_REQUEST) else x
  {
  }

  lemma RetireLeaves(db: Db, p: PoolName, c: PoolConfig, now: Time)
    requires forall r :: r in db.resources ==> Kept(db.resources[r])
    ensures Unused(Retire(db, p, c, now), p) == Unused(db, p)
  {
    forall r | r in db.resources ensures r in Unused(Retire(db, p, c, now), p) <==> r in Unused(db, p) {
      RetireRow(db, p, c, now, r);
    }
  }

  lemma TrimRow(db: Db, p: PoolName, c: PoolConfig, r: ResourceId)
    requires r in db.resources
    ensures var x := db.resources[r];
      && r in Trim(db, p, c).resources
      && Trim(db, p, c).resources[r] ==
           if c.tagsOnDemand != [] && r in Surplus(db, p, c) then x.(state := DELETE_REQUEST) else x
  {
    hide Surplus;
  }

  lemma RowsKept(cfg: Config, db: Db, uuids: nat)
    requires Linked(cfg, db, uuids)
    ensures forall r :: r in db.resources ==> Kept(db.resources[r])
  {
    forall r | r in db.resources ensures Kept(db.resources[r]) { assert RowOk(cfg, db, r); }
  }

  /** The surplus, one resource at a time. */
  lemma SurplusIff(db: Db, p: PoolName, c: PoolConfig, r: ResourceId)
    ensures r in Surplus(db, p, c) <==>
              r in Unused(db, p) && |WaitingOn(db, TagNames(c.TagsAll()))| <= |set q | q in Unused(db, p) && q > r|
  {
    var unused, keep := Unused(db, p), |WaitingOn(db, TagNames(c.TagsAll()))|;
    hide Unused, WaitingOn;
    AllButSplits(unused, keep);
    var left, newer := unused - AllBut(unused, keep), set q | q in unused && q > r;
    hide AllBut;
    if r in unused {
      if r in left {
        assert newer <= left - {r};
        SubsetSize(newer, left - {r});
      } else {
        assert left <= newer;
        SubsetSize(left, newer);
      }
    }
  }

  lemma UnneededIff(db: Db, p: PoolName, c: PoolConfig, r: ResourceId)
    requires r in db.resources
    ensures Unneeded(db, p, c, r) <==> c.tagsOnDemand != [] && r in Surplus(db, p, c)
  {
    SurplusIff(db, p, c, r);
    WaitingSame(db, c);
    assert Newer(db, p, r) == set q | q in Unused(db, p) && q > r;
    assert NeverUsed(db.resources[r], p) <==> r in Unused(db, p);
    hide Surplus, Newer, NeverUsed, Unused, WaitingFor, WaitingOn;
  }

  lemma SameSurplus(a: Db, b: Db, p: PoolName, c: PoolConfig)
    requires Unused(a, p) == Unused(b, p) && WaitingOn(a, TagNames(c.TagsAll())) == WaitingOn(b, TagNames(c.TagsAll()))
    ensures Surplus(a, p, c) == Surplus(b, p, c)
  {
    hide Unused, WaitingOn;
  }

  /** The whole pass, one row at a time. */
  lemma PassRows(cfg: Config, db: Db, uuids: nat, p: PoolName, now: Time, r: ResourceId)
    requires Linked(cfg, db, uuids) && p in cfg.pools && r in db.resources
    ensures PassRow(db, RequestRemoval(db, p, cfg.pools[p], now), p, cfg.pools[p], now, r)
  {
    var c := cfg.pools[p];
    var db1 := Kill(db, Failing(db, p, c.livecheckAttempts));
    var db2 := Retire(db1, p, c, now);
    RowsKept(cfg, db, uuids);
    hide Linked;
    forall q | q in db1.resources ensures Kept(db1.resources[q]) { KillRow(db, p, c, q); }
    KillRow(db, p, c, r);
    RetireRow(db1, p, c, now, r);
    TrimRow(db2, p, c, r);
    KillLeaves(db, p, c);
    RetireLeaves(db1, p, c, now);
    UnneededIff(db, p, c, r);
    SameWaiting(db, db2, TagNames(c.TagsAll()));
    SameSurplus(db, db2, p, c);
    hide Kill, Retire, Trim, Surplus, Unused, WaitingOn, Failing, PastLimits, Fails;
    assert Unneeded(db, p, c, r) ==> NeverUsed(db.resources[r], p);
    hide Unneeded;
  }

  lemma SameWaiting(a: Db, b: Db, tags: set<Tag>)
    requires AllWaiting(a) == AllWaiting(b)
    requires forall t :: t in a.tickets && t in b.tickets ==> a.tickets[t].tags == b.tickets[t].tags
    ensures WaitingOn(a, tags) == WaitingOn(b, tags)
  {
    forall t ensures t in WaitingOn(a, tags) <==> t in WaitingOn(b, tags) {
      assert t in WaitingOn(a, tags) <==> t in AllWaiting(a) && a.tickets[t].tags <= tags;
      assert t in WaitingOn(b, tags) <==> t in AllWaiting(b) && b.tickets[t].tags <= tags;
    }
  }

  /* ---- the passes of a run ---- */

  /** The `i`-th step is a removal pass over pool `p`. */
  ghost predicate PassAt(cfg: Config, run: Run, i: nat, p: PoolName) {
    && i < |run.actions| && i + 1 < |run.states| && run.actions[i] == Manage(Remove)
    && run.states[i].pc.Removing? && run.states[i].pc.i < |cfg.order| && cfg.order[run.states[i].pc.i] == p
  }

  /** The pass changes exactly the rows and tickets that it should. */
  lemma PassDoes(cfg: Config, run: Run, i: nat, p: PoolName)
    requires ValidConfig(cfg) && Valid(cfg, run) && PassAt(cfg, run, i, p)
    ensures p in cfg.pools
    ensures var s := run.states[i]; var db' := run.states[i + 1].db;
      && (forall r :: r in s.db.resources ==> PassRow(s.db, db', p, cfg.pools[p], s.clock, r))
      && (forall t :: t in s.db.tickets ==> PassTicket(s.db, db', p, cfg.pools[p], t))
      && db'.resources.Keys == s.db.resources.Keys && db'.tickets.Keys == s.db.tickets.Keys
  {
    hide Can, Takes, PassRow, PassTicket, RequestRemoval, Linked;
    var s := run.states[i];
    assert p in cfg.pools;
    StepOf(cfg, run, i);
    Safety.RunLinked(cfg, run, i);
    hide Valid, ValidConfig, Staffed;
    Reuse.RemoveStep(cfg, s);
    hide Do;
    forall r | r in s.db.resources ensures PassRow(s.db, run.states[i + 1].db, p, cfg.pools[p], s.clock, r) {
      PassRows(cfg, s.db, s.uuids, p, s.clock, r);
    }
    forall t | t in s.db.tickets ensures PassTicket(s.db, run.states[i + 1].db, p, cfg.pools[p], t) {
      PassTickets(s.db, p, cfg.pools[p], s.clock, t);
    }
    PassKeys(s.db, p, cfg.pools[p], s.clock);
  }

  lemma PassKeys(db: Db, p: PoolName, c: PoolConfig, now: Time)
    ensures RequestRemoval(db, p, c, now).resources.Keys == db.resources.Keys
    ensures RequestRemoval(db, p, c, now).tickets.Keys == db.tickets.Keys
  {
    hide Surplus, WornOut, Failing;
  }

  /** As many checks in a row have failed before the pass as the pool allows. */
  ghost predicate FailedTooOften(run: Run, i: nat, r: ResourceId, c: PoolConfig)
    requires i <= |run.actions|
  {
    FailedInARow(run, i, r) > 0 && FailedInARow(run, i, r) >= c.livecheckAttempts
  }

  /** The pass removes a resource that a ticket has, and fails the ticket, only for failed checks. */
  lemma TakenGoes(cfg: Config, run: Run, i: nat, p: PoolName, r: ResourceId)
    requires ValidConfig(cfg) && Valid(cfg, run) && PassAt(cfg, run, i, p) && r in run.states[i].db.resources
    requires var x := run.states[i].db.resources[r]; x.pool == p && x.state == UP && x.ticket.Some?
    ensures p in cfg.pools
    ensures InStateNow(run.states[i + 1].db, r, DELETE_REQUEST) <==> FailedTooOften(run, i, r, cfg.pools[p])
  {
    hide Takes, Linked;
    PassDoes(cfg, run, i, p);
    FailedChecks(cfg, run, i, r);
    assert PassRow(run.states[i].db, run.states[i + 1].db, p, cfg.pools[p], run.states[i].clock, r);
    hide Valid, ValidConfig, PastLimits, Unneeded, PassTicket, FailedInARow;
    assert !Unneeded(run.states[i].db, p, cfg.pools[p], r) by { TakenIsNeeded(run.states[i].db, p, cfg.pools[p], r); }
  }

  lemma TakenIsNeeded(db: Db, p: PoolName, c: PoolConfig, r: ResourceId)
    requires r in db.resources && (db.resources[r].ticket.Some? || db.resources[r].releases > 0)
    ensures !Unneeded(db, p, c, r)
  {
  }

  /**
   An untaken resource that was released before: the pass removes it exactly if it fails its checks,
   or there is no reuse, or too much time has passed since the last release or the first use, or it
   was released too often.
   */
  lemma ReleasedGoes(cfg: Config, run: Run, i: nat, p: PoolName, r: ResourceId) returns (released: nat, taken: nat)
    requires ValidConfig(cfg) && Valid(cfg, run) && PassAt(cfg, run, i, p) && r in run.states[i].db.resources
    requires var x := run.states[i].db.resources[r]; x.pool == p && x.state == UP && x.ticket.None?
    requires exists j :: 0 <= j < i && Freed(run, j, r)
    ensures p in cfg.pools && LastFreed(run, released, i, r) && FirstTook(run, taken, i, r)
    ensures run.actions[released] == Manage(Detect) && run.actions[taken] == Manage(Assign)
    ensures var c, now := cfg.pools[p], run.states[i].clock;
      InStateNow(run.states[i + 1].db, r, DELETE_REQUEST) <==>
        || FailedTooOften(run, i, r, c)
        || c.reuseOpportunityTime == 0.0
        || now - run.states[released].clock > c.reuseOpportunityTime
        || (c.reuseMaxTime != 0.0 && now - run.states[taken].clock > c.reuseMaxTime)
        || (c.reuseMaxCount > 0 && run.states[i].db.resources[r].releases > c.reuseMaxCount)
  {
    hide Takes, Linked, Freed, Took, Staffed;
    var x := run.states[i].db.resources[r];
    PassDoes(cfg, run, i, p);
    FailedChecks(cfg, run, i, r);
    ReleasedAt(cfg, run, i, r);
    SandboxedSince(cfg, run, i, r);
    Safety.RunLinked(cfg, run, i);
    RowsKept(cfg, run.states[i].db, run.states[i].uuids);
    released :| LastFreed(run, released, i, r) && x.releasedAt.value == run.states[released].clock;
    taken :| FirstTook(run, taken, i, r) && x.sandboxedSince.value == run.states[taken].clock;
    ThenAndThere(cfg, run, released, taken, i, r);
    assert PassRow(run.states[i].db, run.states[i + 1].db, p, cfg.pools[p], run.states[i].clock, r);
    hide Valid, ValidConfig, Unneeded, PassTicket, FailedInARow;
    TakenIsNeeded(run.states[i].db, p, cfg.pools[p], r);
  }

  lemma ThenAndThere(cfg: Config, run: Run, released: nat, taken: nat, i: nat, r: ResourceId)
    requires ValidConfig(cfg) && Valid(cfg, run) && i < |run.states|
    requires LastFreed(run, released, i, r) && FirstTook(run, taken, i, r)
    ensures run.actions[released] == Manage(Detect) && run.actions[taken] == Manage(Assign)
  {
    hide Takes;
    WhoFrees(cfg, run, released, r);
    WhoFrees(cfg, run, taken, r);
  }

  /** A resource that was never taken: only for failed checks, or because nobody needs it. */
  lemma NeverTakenGoes(cfg: Config, run: Run, i: nat, p: PoolName, r: ResourceId)
    requires ValidConfig(cfg) && Valid(cfg, run) && PassAt(cfg, run, i, p) && r in run.states[i].db.resources
    requires var x := run.states[i].db.resources[r]; x.pool == p && x.state == UP && x.ticket.None?
    requires forall j :: 0 <= j < i ==> !Freed(run, j, r)
    ensures p in cfg.pools
    ensures InStateNow(run.states[i + 1].db, r, DELETE_REQUEST) <==>
              FailedTooOften(run, i, r, cfg.pools[p]) || Unneeded(run.states[i].db, p, cfg.pools[p], r)
  {
    hide Takes, Freed;
    PassDoes(cfg, run, i, p);
    FailedChecks(cfg, run, i, r);
    ReleasedAt(cfg, run, i, r);
    assert PassRow(run.states[i].db, run.states[i + 1].db, p, cfg.pools[p], run.states[i].clock, r);
    hide Valid, ValidConfig, PastLimits, Unneeded, PassTicket, FailedInARow;
  }
}
