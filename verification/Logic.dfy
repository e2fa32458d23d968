/**
 The transactions of `resallocserver/manager.py`, `logic.py`, `api.py` and `main.py` as functions
 on the database.  The methods of the classes in modules `Databases` and `Pools`, and of module
 `Workers`, are proved to compute them, and the protocol is built from them.  The clock is read once per transaction.
 */
module Logic {
  import opened Collections
  import opened Tables

  /** Which tables a transaction leaves alone. */
  predicate SameRows(a: Db, b: Db) { a.resources.Keys == b.resources.Keys }
  predicate SameTickets(a: Db, b: Db) { a.tickets == b.tickets }
  predicate SameNumbers(a: Db, b: Db) { a.ids == b.ids && a.counters == b.counters }
  predicate SameStarts(a: Db, b: Db) { a.lastStart == b.lastStart }

  /** At most one row differs. */
  predicate OnlyRow(a: Db, b: Db, r: ResourceId) {
    a.resources.Keys == b.resources.Keys && forall q :: q in b.resources && q != r ==> a.resources[q] == b.resources[q]
  }

  /* ---- tickets and resources ---- */

  /** `assign_ticket`; `uuid` is the sandbox it generates if the ticket has none. */
  function AssignTicket(db: Db, r: ResourceId, t: TicketId, now: Time, uuid: Sandbox): (d: Db)
    requires r in db.resources && t in db.tickets
    ensures OnlyRow(d, db, r) && SameRows(d, db) && SameNumbers(d, db) && SameStarts(d, db)
  {
    var row, ticket := db.resources[r], db.tickets[t];
    var sandbox := if ticket.sandbox.NoSandbox? then uuid else ticket.sandbox;
    var row' := row.(ticket := Some(t));
    db.(tickets := db.tickets[t := ticket.(resource := Some(r), sandbox := sandbox)],
        resources := db.resources[r :=
          if row.sandbox.NoSandbox? then row'.(sandbox := sandbox, sandboxedSince := Some(now)) else row'])
  }

  /** What `release_resource` and the switch to RELEASING do to a row. */
  function Released(row: Resource, now: Time, hasRelease: bool): Resource {
    row.(ticket := None, releasedAt := Some(now), releases := row.releases + 1,
         state := if hasRelease then RELEASING else row.state)
  }

  /** A taken resource of pool `p` whose ticket was closed. */
  predicate ToRelease(db: Db, p: PoolName, r: ResourceId)
    requires r in db.resources
  {
    var row := db.resources[r];
    && row.pool == p && row.state == UP && row.ticket.Some?
    && row.ticket.value in db.tickets && db.tickets[row.ticket.value].state == CLOSED
  }

  /** `Pool.detect_closed_tickets` */
  function DetectClosed(db: Db, p: PoolName, hasRelease: bool, now: Time): (d: Db)
    ensures SameRows(d, db) && SameTickets(d, db) && SameNumbers(d, db) && SameStarts(d, db)
  {
    db.(resources := map r | r in db.resources ::
          if ToRelease(db, p, r) then Released(db.resources[r], now, hasRelease) else db.resources[r])
  }

  /** The resources that `detect_closed_tickets` releases. */
  function Closing(db: Db, p: PoolName): set<ResourceId> {
    set r | r in db.resources && ToRelease(db, p, r)
  }

  function ReleaseAll(db: Db, which: set<ResourceId>, hasRelease: bool, now: Time): (d: Db)
    ensures SameRows(d, db) && SameTickets(d, db) && SameNumbers(d, db) && SameStarts(d, db)
  {
    db.(resources := map r | r in db.resources ::
          if r in which then Released(db.resources[r], now, hasRelease) else db.resources[r])
  }

  lemma DetectReleasesAll(db: Db, p: PoolName, hasRelease: bool, now: Time)
    ensures DetectClosed(db, p, hasRelease, now) == ReleaseAll(db, Closing(db, p), hasRelease, now)
    ensures db == ReleaseAll(db, {}, hasRelease, now)
  {
    assert DetectClosed(db, p, hasRelease, now).resources == ReleaseAll(db, Closing(db, p), hasRelease, now).resources;
    assert db.resources == ReleaseAll(db, {}, hasRelease, now).resources;
  }

  /** One round of the loop of `detect_closed_tickets`, on a resource `r` that is to be released. */
  lemma ReleaseOneMore(db: Db, which: set<ResourceId>, r: ResourceId, hasRelease: bool, now: Time)
    requires r in db.resources && r !in which
    ensures var d := ReleaseAll(db, which, hasRelease, now);
      var once := d.resources[r := Released(db.resources[r], now, false)];
      && d.resources[r] == db.resources[r]
      && ReleaseAll(db, which + {r}, hasRelease, now)
           == d.(resources := if hasRelease then once[r := once[r].(state := RELEASING)] else once)
  {
    var d := ReleaseAll(db, which, hasRelease, now);
    var once := d.resources[r := Released(db.resources[r], now, false)];
    assert ReleaseAll(db, which + {r}, hasRelease, now).resources
           == if hasRelease then once[r := once[r].(state := RELEASING)] else once;
  }

  /** The ticket of every resource that is to be released knows the resource. */
  ghost predicate TicketsKnow(db: Db, p: PoolName) {
    forall r :: r in Closing(db, p) ==>
      r in db.resources && db.resources[r].ticket.Some? && db.resources[r].ticket.value in db.tickets
      && db.tickets[db.resources[r].ticket.value].resource == Some(r)
  }

  lemma TakenRows(db: Db, p: PoolName)
    ensures Closing(db, p) <= Taken(db, p) <= db.resources.Keys
    ensures forall r :: r in Taken(db, p) ==>
      && db.resources[r].ticket.Some?
      && (r in Closing(db, p) <==>
            db.resources[r].ticket.value in db.tickets && db.tickets[db.resources[r].ticket.value].state == CLOSED)
  {
  }

  /** `QResources.kill` for every id in `doomed`. */
  function Kill(db: Db, doomed: set<ResourceId>): (d: Db)
    ensures SameRows(d, db) && SameNumbers(d, db) && SameStarts(d, db)
  {
    db.(resources := map r | r in db.resources ::
          (if r in doomed && db.resources[r].state == UP
           then db.resources[r].(state := DELETE_REQUEST) else db.resources[r]),
        tickets := map t | t in db.tickets ::
          var ticket := db.tickets[t];
          if ticket.resource.Some? && ticket.resource.value in doomed && ticket.state == OPEN
          then ticket.(state := FAILED) else ticket)
  }

  lemma KillNone(db: Db)
    ensures Kill(db, {}) == db
  {
    assert Kill(db, {}).resources == db.resources && Kill(db, {}).tickets == db.tickets;
  }

  lemma KillOneMore(db: Db, doomed: set<ResourceId>, r: ResourceId)
    ensures Kill(Kill(db, doomed), {r}) == Kill(db, doomed + {r})
  {
    assert Kill(Kill(db, doomed), {r}).resources == Kill(db, doomed + {r}).resources;
    assert Kill(Kill(db, doomed), {r}).tickets == Kill(db, doomed + {r}).tickets;
  }

  /* ---- removal ---- */

  function Failing(db: Db, p: PoolName, attempts: int): set<ResourceId> {
    set r | r in db.resources && db.resources[r].pool == p && db.resources[r].state == UP
            && db.resources[r].failedChecks > 0 && db.resources[r].failedChecks >= attempts
  }

  /** `QResources.check_failure_candidates` */
  function CheckFailureCandidates(db: Db, p: PoolName): set<ResourceId> {
    set r | r in db.resources && db.resources[r].pool == p && db.resources[r].state == UP
      && db.resources[r].failedChecks > 0
  }

  /** `QResources.clean_candidates` */
  function CleanCandidates(db: Db, p: PoolName): set<ResourceId> {
    set r | r in db.resources && db.resources[r].pool == p && db.resources[r].state == UP
            && db.resources[r].ticket.None? && db.resources[r].releasedAt.Some?
  }

  lemma Candidates(db: Db, p: PoolName, attempts: int, doomed: set<ResourceId>)
    ensures Failing(db, p, attempts) <= CheckFailureCandidates(db, p) <= db.resources.Keys
    ensures forall r :: r in CheckFailureCandidates(db, p) ==>
      && r in Kill(db, doomed).resources && Kill(db, doomed).resources[r].failedChecks == db.resources[r].failedChecks
      && (r in Failing(db, p, attempts) <==> db.resources[r].failedChecks >= attempts)
  {
  }

  /** A clean candidate that one of the reuse limits retires. */
  predicate Worn(row: Resource, c: PoolConfig, now: Time) {
    && row.state == UP && row.ticket.None? && row.releasedAt.Some?
    && (|| c.reuseOpportunityTime == 0.0
        || row.releasedAt.value < now - c.reuseOpportunityTime
        || (c.reuseMaxTime != 0.0 && row.sandboxedSince.Some?
            && row.sandboxedSince.value < now - c.reuseMaxTime)
        || (c.reuseMaxCount != 0 && row.releases > c.reuseMaxCount))
  }

  function RequestDelete(db: Db, which: set<ResourceId>): (d: Db)
    ensures SameRows(d, db) && SameTickets(d, db) && SameNumbers(d, db) && SameStarts(d, db)
  {
    db.(resources := map r | r in db.resources ::
          if r in which then db.resources[r].(state := DELETE_REQUEST) else db.resources[r])
  }

  lemma RequestDeleteNone(db: Db)
    ensures RequestDelete(db, {}) == db
  {
    assert RequestDelete(db, {}).resources == db.resources;
  }

  /** Deleting one more is one more assignment to a row's state. */
  lemma RequestDeleteOneMore(db: Db, which: set<ResourceId>, r: ResourceId)
    requires r in db.resources && r !in which
    ensures r in RequestDelete(db, which).resources && RequestDelete(db, which).resources[r] == db.resources[r]
    ensures RequestDelete(db, which + {r}) == SetState(RequestDelete(db, which), r, DELETE_REQUEST)
  {
  }

  function WornOut(db: Db, p: PoolName, c: PoolConfig, now: Time): set<ResourceId> {
    set r | r in db.resources && db.resources[r].pool == p && Worn(db.resources[r], c, now)
  }

  function Retire(db: Db, p: PoolName, c: PoolConfig, now: Time): Db {
    RequestDelete(db, WornOut(db, p, c, now))
  }

  /** The ready resources of a pool that no ticket ever took. */
  function Unused(db: Db, p: PoolName): set<ResourceId> {
    set r | r in db.resources && db.resources[r].pool == p && Ready(db.resources[r])
            && db.resources[r].releases == 0
  }

  /** The waiting tickets that a pool providing `tags` can serve. */
  function WaitingOn(db: Db, tags: set<Tag>): set<TicketId> {
    set t | t in db.tickets && Waiting(db.tickets[t]) && db.tickets[t].tags <= tags
  }

  function AllWaiting(db: Db): set<TicketId> {
    set t | t in db.tickets && Waiting(db.tickets[t])
  }

  lemma WaitingOnUs(db: Db, tags: set<Tag>)
    ensures WaitingOn(db, tags) <= AllWaiting(db) <= db.tickets.Keys
    ensures forall t :: t in AllWaiting(db) ==> (t in WaitingOn(db, tags) <==> db.tickets[t].tags <= tags)
  {
  }

  /** The oldest unused resources, as many as there are too many. */
  ghost function Surplus(db: Db, p: PoolName, c: PoolConfig): set<ResourceId> {
    AllBut(Unused(db, p), |WaitingOn(db, TagNames(c.TagsAll()))|)
  }

  lemma SurplusIsPicked(db: Db, p: PoolName, c: PoolConfig)
    ensures var resources, waiting := Ascending(Unused(db, p)), |WaitingOn(db, TagNames(c.TagsAll()))|;
            Surplus(db, p, c) == if |resources| <= waiting then {}
                                 else Picked(resources, |resources| - waiting, Unused(db, p))
  {
    hide Unused, WaitingOn;
    var resources, waiting := Ascending(Unused(db, p)), |WaitingOn(db, TagNames(c.TagsAll()))|;
    if |resources| > waiting {
      forall r | r in resources[..|resources| - waiting] ensures r in resources {}
    }
  }

  /** `Pool._request_on_demand_resources_removal` */
  ghost function Trim(db: Db, p: PoolName, c: PoolConfig): (d: Db)
    ensures SameRows(d, db) && SameTickets(d, db) && SameNumbers(d, db) && SameStarts(d, db)
  {
    if c.tagsOnDemand == [] then db else RequestDelete(db, Surplus(db, p, c))
  }

  /** `Pool._request_resource_removal` */
  ghost function RequestRemoval(db: Db, p: PoolName, c: PoolConfig, now: Time): (d: Db)
    ensures SameRows(d, db) && SameNumbers(d, db) && SameStarts(d, db)
  {
    Trim(Retire(Kill(db, Failing(db, p, c.livecheckAttempts)), p, c, now), p, c)
  }

  /** `QResources.clean`, for one pool */
  function ToTerminate(db: Db, p: PoolName): set<ResourceId> {
    set r | r in db.resources && db.resources[r].pool == p && db.resources[r].state == DELETE_REQUEST
  }

  /* ---- the life of a resource ---- */

  function InState(db: Db, p: PoolName, s: RState): set<ResourceId> {
    set r | r in db.resources && db.resources[r].pool == p && db.resources[r].state == s
  }

  /** `QResources.on`, for one pool */
  function On(db: Db, p: PoolName): set<ResourceId> {
    set r | r in db.resources && db.resources[r].pool == p && db.resources[r].state != ENDED
  }

  /** `stats()['ready']`: unlike `QResources.ready` it ignores the failed checks. */
  function Untaken(db: Db, p: PoolName): set<ResourceId> {
    set r | r in db.resources && db.resources[r].pool == p && db.resources[r].state == UP
            && db.resources[r].ticket.None?
  }

  /** `stats()['taken']` */
  function Taken(db: Db, p: PoolName): set<ResourceId> {
    set r | r in db.resources && db.resources[r].pool == p && db.resources[r].state == UP
            && db.resources[r].ticket.Some?
  }

  /** `stats()['free']` */
  function Free(db: Db, p: PoolName): set<ResourceId> {
    set r | r in Untaken(db, p) && db.resources[r].releases <= 0
  }

  /** The resources of a pool that hold a row of `ids_within_pool`. */
  function Numbered(db: Db, p: PoolName): set<ResourceId> {
    set r | r in db.ids && r in db.resources && db.resources[r].pool == p
  }

  /** The numbers taken in a pool. */
  function IdsTaken(db: Db, p: PoolName): set<nat> {
    set r | r in Numbered(db, p) :: db.ids[r]
  }

  /** The resources that hold a value of counter `c`. */
  function Holders(db: Db, c: Counter): set<ResourceId> {
    set r | r in db.counters && c in db.counters[r]
  }

  function ValuesTaken(db: Db, c: Counter): set<nat> {
    set r | r in Holders(db, c) :: db.counters[r][c]
  }

  function NewRow(p: PoolName, name: Name): Resource {
    Resource(p, name, STARTING, None, NoSandbox, None, None, 0, 0, None, map[])
  }

  /** The transaction of `Pool.allocate`, given the fresh row id, the name and the numbers it found. */
  function Allocate(db: Db, p: PoolName, r: ResourceId, name: Name, now: Time, id: nat,
                    values: map<Counter, nat>): (d: Db)
    ensures SameTickets(d, db)
  {
    db.(resources := db.resources[r := NewRow(p, name)], ids := db.ids[r := id],
        counters := db.counters[r := values], lastStart := db.lastStart[p := now])
  }

  /** The numbers are the smallest free ones. */
  ghost predicate SmallestNumbers(db: Db, p: PoolName, counters: set<Counter>, id: nat, values: map<Counter, nat>) {
    && SmallestFree(IdsTaken(db, p), id)
    && values.Keys == counters
    && (forall c :: c in counters ==> SmallestFree(ValuesTaken(db, c), values[c]))
  }

  /** A resource ends, and gives its numbers back. */
  function End(db: Db, r: ResourceId): (d: Db)
    requires r in db.resources
    ensures OnlyRow(d, db, r) && SameRows(d, db) && SameTickets(d, db) && SameStarts(d, db)
  {
    db.(resources := db.resources[r := db.resources[r].(state := ENDED)],
        ids := db.ids - {r}, counters := db.counters - {r})
  }

  /** The second transaction of `AllocWorker.job`. */
  function FinishAlloc(db: Db, r: ResourceId, success: bool, data: Data, tags: map<Tag, int>): (d: Db)
    requires r in db.resources
    ensures OnlyRow(d, db, r) && SameRows(d, db) && SameTickets(d, db) && SameStarts(d, db)
  {
    var db' := db.(resources := db.resources[r :=
                 db.resources[r].(state := UP, data := Some(data), tags := tags)]);
    if success then db' else End(db', r)
  }

  /** The second transaction of `ReleaseWorker.job`. */
  function FinishRelease(db: Db, r: ResourceId, success: bool, reuseMaxCount: nat): (d: Db)
    requires r in db.resources
    ensures OnlyRow(d, db, r) && SameRows(d, db) && SameTickets(d, db) && SameNumbers(d, db) && SameStarts(d, db)
  {
    var row := db.resources[r];
    db.(resources := db.resources[r :=
      if success then row.(state := UP) else row.(state := UP, releases := reuseMaxCount + 1)])
  }

  /** The guard of `TerminateWorker.job`. */
  predicate TicketOpen(db: Db, r: ResourceId)
    requires r in db.resources
  {
    var t := db.resources[r].ticket;
    t.Some? && t.value in db.tickets && db.tickets[t.value].state == OPEN
  }

  function SetState(db: Db, r: ResourceId, s: RState): (d: Db)
    requires r in db.resources
    ensures OnlyRow(d, db, r) && SameRows(d, db) && SameTickets(d, db) && SameNumbers(d, db) && SameStarts(d, db)
  {
    db.(resources := db.resources[r := db.resources[r].(state := s)])
  }

  /** The resources whose worker a crash may have killed. */
  function Broken(db: Db): set<ResourceId> {
    set r | r in db.resources && db.resources[r].state in {STARTING, DELETING, RELEASING}
  }

  /** `QResources.fix_broken_after_restart` */
  function FixBroken(db: Db): (d: Db)
    ensures SameRows(d, db) && SameTickets(d, db) && SameNumbers(d, db) && SameStarts(d, db)
  {
    RequestDelete(db, Broken(db))
  }

  /** One round of the Watcher's second loop, for a check that succeeded or failed. */
  function Watch(db: Db, r: ResourceId, success: bool): (d: Db)
    requires r in db.resources
    ensures OnlyRow(d, db, r) && SameRows(d, db) && SameTickets(d, db) && SameNumbers(d, db) && SameStarts(d, db)
  {
    db.(resources := db.resources[r := db.resources[r].(failedChecks :=
          if success then 0 else db.resources[r].failedChecks + 1)])
  }

  /* ---- the API ---- */

  function TakeTicket(db: Db, t: TicketId, tags: set<Tag>, sandbox: Sandbox): (d: Db)
    ensures d.resources == db.resources && SameNumbers(d, db) && SameStarts(d, db)
  {
    db.(tickets := db.tickets[t := Ticket(None, OPEN, sandbox, tags)])
  }

  function CloseTicket(db: Db, t: TicketId): (d: Db)
    requires t in db.tickets
    ensures d.resources == db.resources && SameNumbers(d, db) && SameStarts(d, db)
  {
    db.(tickets := db.tickets[t := db.tickets[t].(state := CLOSED)])
  }

  /** What `collectTicket` answers; `ready` is None for an unknown ticket. */
  datatype Answer = Answer(ready: Option<bool>, output: Option<Data>, closed: Option<bool>, failed: Option<bool>)

  function CollectTicket(db: Db, t: TicketId): Answer {
    if t !in db.tickets then Answer(None, None, None, None) else
    var ticket := db.tickets[t];
    var found := ticket.resource.Some? && ticket.resource.value in db.resources;
    Answer(Some(found), if found then db.resources[ticket.resource.value].data else None,
           Some(ticket.state == CLOSED), Some(ticket.state == FAILED))
  }
}
