/**
 The quotas and the numbers: how many resources of a pool start, wait and exist at once, and which
 ids and counter values they hold.  The statistics are gathered in one transaction and the resource
 is allocated in a later one, with any other actor in between.
 */
module Quotas {
  import opened Collections
  import opened Tables
  import opened Logic
  import opened Protocol
  import opened Invariant
  import opened Edges
  import Assignment

  /** The pools that use a counter, and how many resources they may have together. */
  function Users(cfg: Config, c: Counter): set<PoolName> {
    set p | p in cfg.pools && c in cfg.pools[p].counters
  }

  function MaxOf(cfg: Config): PoolName -> int {
    p => if p in cfg.pools then cfg.pools[p].max else 0
  }

  ghost function Capacity(cfg: Config, c: Counter): int { Sum(Users(cfg, c), MaxOf(cfg)) }

  function UnspentIn(db: Db, p: PoolName): set<ResourceId> {
    set r | r in db.resources && db.resources[r].pool == p && Unspent(db.resources[r])
  }

  ghost predicate Within(c: PoolConfig, db: Db, p: PoolName) {
    && |InState(db, p, STARTING)| <= c.maxStarting
    && (c.maxPrealloc > 0 ==> |UnspentIn(db, p)| <= c.maxPrealloc)
    && |Numbered(db, p)| <= c.max
  }

  /** There is room for one more. */
  ghost predicate Below(c: PoolConfig, db: Db, p: PoolName) {
    && |InState(db, p, STARTING)| < c.maxStarting
    && (c.maxPrealloc > 0 ==> |UnspentIn(db, p)| < c.maxPrealloc)
    && |Numbered(db, p)| < c.max
  }

  /** Exactly the resources in use, and possibly some that are being deleted, hold an id. */
  ghost predicate IdsOk(cfg: Config, db: Db) {
    && (forall r :: r in db.resources ==> db.resources[r].pool in cfg.pools)
    && (forall r :: r in db.ids ==> r in db.resources && db.resources[r].state != ENDED)
    && (forall r :: r in db.resources && db.resources[r].state in {STARTING, UP, RELEASING} ==> r in db.ids)
    && (forall r :: r in db.ids && r in db.resources && db.resources[r].pool in cfg.pools ==>
          db.ids[r] < cfg.pools[db.resources[r].pool].max)
    && (forall r, q :: SameId(db, r, q) ==> r == q)
  }

  ghost predicate SameId(db: Db, r: ResourceId, q: ResourceId) {
    && r in db.ids && q in db.ids && db.ids[r] == db.ids[q]
    && r in db.resources && q in db.resources && db.resources[r].pool == db.resources[q].pool
  }

  ghost predicate Holds(db: Db, r: ResourceId, c: Counter) {
    r in db.counters && c in db.counters[r]
  }

  /** A resource with an id holds a value of every counter of its pool; each value has one holder. */
  ghost predicate CountersOk(cfg: Config, db: Db) {
    && db.counters.Keys == db.ids.Keys
    && (forall r :: r in db.counters && r in db.resources && db.resources[r].pool in cfg.pools ==>
          db.counters[r].Keys == cfg.pools[db.resources[r].pool].counters)
    && (forall r, c :: Holds(db, r, c) ==> db.counters[r][c] < Capacity(cfg, c))
    && (forall r, q, c :: Holds(db, r, c) && Holds(db, q, c) && db.counters[r][c] == db.counters[q][c] ==> r == q)
  }

  ghost predicate Quoted(cfg: Config, s: Sys) {
    && IdsOk(cfg, s.db) && CountersOk(cfg, s.db)
    && (forall p :: p in cfg.pools ==> Within(cfg.pools[p], s.db, p))
    && RoomAhead(cfg, s)
  }

  ghost predicate RoomAhead(cfg: Config, s: Sys) {
    (s.pc.Timing? || s.pc.Allocating?) && s.pc.i < |cfg.order| && cfg.order[s.pc.i] in cfg.pools ==>
      Below(cfg.pools[cfg.order[s.pc.i]], s.db, cfg.order[s.pc.i])
  }

  /* ---- every step but an allocation only gives back ---- */

  /** No row is added; ids and values are given back by exactly the resources that end. */
  ghost predicate GivesBack(db: Db, db': Db) {
    && db'.resources.Keys == db.resources.Keys
    && (forall r :: r in db'.ids <==> r in db.ids && !InStateNow(db', r, ENDED))
    && (forall r :: r in db'.ids ==> db'.ids[r] == db.ids[r])
    && (forall r :: r in db'.counters <==> r in db.counters && !InStateNow(db', r, ENDED))
    && (forall r :: r in db'.counters ==> db'.counters[r] == db.counters[r])
  }

  /** A transaction after which nothing has ended that had not ended before. */
  ghost predicate NoneEnds(db: Db, db': Db) {
    && SameRows(db', db) && SameNumbers(db', db)
    && (forall r :: InStateNow(db', r, ENDED) ==> InStateNow(db, r, ENDED))
  }

  lemma NoneEndsGivesBack(cfg: Config, db: Db, db': Db)
    requires IdsOk(cfg, db) && CountersOk(cfg, db) && NoneEnds(db, db')
    ensures GivesBack(db, db')
  {
  }

  lemma EndGivesBack(cfg: Config, db: Db, r: ResourceId)
    requires IdsOk(cfg, db) && CountersOk(cfg, db) && r in db.resources
    ensures GivesBack(db, End(db, r))
  {
  }

  lemma FinishAllocGivesBack(cfg: Config, db: Db, r: ResourceId, success: bool, data: Data, tags: map<Tag, int>)
    requires IdsOk(cfg, db) && CountersOk(cfg, db) && InStateNow(db, r, STARTING)
    ensures GivesBack(db, FinishAlloc(db, r, success, data, tags))
  {
    if success {
      FinishAllocNoneEnds(db, r, data, tags);
      hide FinishAlloc, NoneEnds, IdsOk, CountersOk, GivesBack;
      NoneEndsGivesBack(cfg, db, FinishAlloc(db, r, success, data, tags));
    } else {
      OneGivesBack(cfg, db, FinishAlloc(db, r, success, data, tags), r);
    }
  }

  lemma FinishAllocNoneEnds(db: Db, r: ResourceId, data: Data, tags: map<Tag, int>)
    requires InStateNow(db, r, STARTING)
    ensures NoneEnds(db, FinishAlloc(db, r, true, data, tags))
  {
  }

  /** One resource ends and gives its numbers back. */
  lemma OneGivesBack(cfg: Config, db: Db, db': Db, r: ResourceId)
    requires IdsOk(cfg, db) && CountersOk(cfg, db) && OnlyRow(db', db, r) && InStateNow(db', r, ENDED)
    requires db'.ids == db.ids - {r} && db'.counters == db.counters - {r}
    ensures GivesBack(db, db')
  {
  }

  lemma EnvGivesBack(cfg: Config, s: Sys, a: EnvStep)
    requires IdsOk(cfg, s.db) && CountersOk(cfg, s.db) && CanEnv(s, a)
    ensures GivesBack(s.db, DoEnv(s, a).db)
  {
    EnvNoneEnds(s, a);
    hide GivesBack, NoneEnds, IdsOk, CountersOk;
    NoneEndsGivesBack(cfg, s.db, DoEnv(s, a).db);
  }

  lemma EnvNoneEnds(s: Sys, a: EnvStep)
    requires CanEnv(s, a)
    ensures NoneEnds(s.db, DoEnv(s, a).db)
  {
  }

  lemma WorkGivesBack(cfg: Config, s: Sys, a: WorkerStep)
    requires Good(cfg, s) && IdsOk(cfg, s.db) && CountersOk(cfg, s.db) && CanWork(cfg, s, a)
    ensures GivesBack(s.db, DoWork(cfg, s, a).db)
  {
    hide Good, GivesBack, NoneEnds, IdsOk, CountersOk, FinishAlloc, FinishRelease, End, SetState, NamesOf, NamesOn,
         TagRows, TicketOpen;
    WorkersFit(cfg, s);
    match a
    case AllocDone(r, success, data) =>
      FinishAllocGivesBack(cfg, s.db, r, success, data, TagRows(cfg.pools[s.db.resources[r].pool].TagsAll()));
    case ReleaseDone(r, success) =>
      FinishReleaseNoneEnds(s.db, r, success, cfg.pools[s.db.resources[r].pool].reuseMaxCount);
      NoneEndsGivesBack(cfg, s.db, DoWork(cfg, s, a).db);
    case TerminateStart(r) =>
      DeletingNoneEnds(s.db, r);
      SameNoneEnds(s.db, s.db);
      NoneEndsGivesBack(cfg, s.db, DoWork(cfg, s, a).db);
    case TerminateEnd(r) => EndGivesBack(cfg, s.db, r);
    case _ =>
      SameNoneEnds(s.db, s.db);
      NoneEndsGivesBack(cfg, s.db, s.db);
  }

  lemma FinishReleaseNoneEnds(db: Db, r: ResourceId, success: bool, reuseMaxCount: nat)
    requires r in db.resources
    ensures NoneEnds(db, FinishRelease(db, r, success, reuseMaxCount))
  {
  }

  lemma DeletingNoneEnds(db: Db, r: ResourceId)
    requires r in db.resources
    ensures NoneEnds(db, SetState(db, r, DELETING))
  {
  }

  lemma SameNoneEnds(db: Db, db': Db)
    requires db'.resources == db.resources && SameNumbers(db', db)
    ensures NoneEnds(db, db')
  {
  }

  lemma DetectNoneEnds(db: Db, p: PoolName, hasRelease: bool, now: Time)
    ensures NoneEnds(db, DetectClosed(db, p, hasRelease, now))
  {
  }

  lemma RemovalNoneEnds(db: Db, p: PoolName, c: PoolConfig, now: Time)
    ensures NoneEnds(db, RequestRemoval(db, p, c, now))
  {
    RemovalStates(db, p, c, now);
    hide RequestRemoval;
  }

  lemma AssignNoneEnds(db: Db, r: ResourceId, t: TicketId, now: Time, uuid: Sandbox)
    requires r in db.resources && t in db.tickets
    ensures NoneEnds(db, AssignTicket(db, r, t, now, uuid))
  {
  }

  lemma ManageNoneEnds(cfg: Config, s: Sys, a: ManagerStep)
    requires PcFits(cfg, s) && CanManage(cfg, s, a) && !a.AllocateOne?
    ensures NoneEnds(s.db, DoManage(cfg, s, a).db)
  {
    hide NoneEnds, DetectClosed, RequestRemoval, AssignTicket, InitPools, Zeros, SmallestNumbers;
    SameNoneEnds(s.db, s.db);
    if Quiet(a) {
      QuietChangesNothing(cfg, s, a);
      hide DoManage;
    } else {
      match a
      case Begin => SameNoneEnds(s.db, InitPools(cfg, s.db));
      case Detect => DetectNoneEnds(s.db, Pool(cfg, s.pc.i), cfg.pools[Pool(cfg, s.pc.i)].hasRelease, s.clock);
      case Remove => RemovalNoneEnds(s.db, Pool(cfg, s.pc.i), cfg.pools[Pool(cfg, s.pc.i)], s.clock);
      case Assign =>
        var choice := Assignment.Choice(s.db, s.pc.snapshot, s.pc.queue[0]);
        if choice.Some? { AssignNoneEnds(s.db, choice.value, s.pc.queue[0], s.clock, Generated(s.uuids)); }
      case Collect =>
      case Tidy(launch) =>
    }
  }

  lemma ManageGivesBack(cfg: Config, s: Sys, a: ManagerStep)
    requires PcFits(cfg, s) && IdsOk(cfg, s.db) && CountersOk(cfg, s.db) && CanManage(cfg, s, a) && !a.AllocateOne?
    ensures GivesBack(s.db, DoManage(cfg, s, a).db)
  {
    ManageNoneEnds(cfg, s, a);
    hide GivesBack, NoneEnds, IdsOk, CountersOk, DoManage, CanManage;
    NoneEndsGivesBack(cfg, s.db, DoManage(cfg, s, a).db);
  }

  /* ---- what giving back keeps ---- */

  lemma IdsStay(cfg: Config, db: Db, db': Db)
    requires IdsOk(cfg, db) && Edged(db, db') && GivesBack(db, db')
    ensures IdsOk(cfg, db')
  {
    hide TicketEdge, SameId;
    forall r, q | SameId(db', r, q) ensures SameId(db, r, q) { SameIdBefore(db, db', r, q); }
    forall r | r in db'.ids ensures r in db'.resources
      && db'.resources[r].state != ENDED { assert !InStateNow(db', r, ENDED); }
    forall r | r in db'.resources && db'.resources[r].state in {STARTING, UP, RELEASING} ensures r in db'.ids {
      assert RowEdge(db.resources[r], db'.resources[r]) && !InStateNow(db', r, ENDED);
    }
    forall r | r in db'.resources ensures db'.resources[r].pool == db.resources[r].pool {
      assert RowEdge(db.resources[r], db'.resources[r]);
    }
    hide RowEdge, InStateNow;
  }

  lemma SameIdBefore(db: Db, db': Db, r: ResourceId, q: ResourceId)
    requires Edged(db, db') && GivesBack(db, db') && SameId(db', r, q)
    ensures SameId(db, r, q)
  {
    hide TicketEdge;
  }

  lemma CountersStay(cfg: Config, db: Db, db': Db)
    requires CountersOk(cfg, db) && IdsOk(cfg, db) && Edged(db, db') && GivesBack(db, db')
    ensures CountersOk(cfg, db')
  {
    hide TicketEdge, Capacity, GivesBack, Edged, IdsOk, Holds;
    CountersBefore(cfg, db, db');
    HeldBefore(db, db');
  }

  lemma CountersBefore(cfg: Config, db: Db, db': Db)
    requires Edged(db, db') && GivesBack(db, db') && CountersOk(cfg, db)
    ensures db'.counters.Keys == db'.ids.Keys
    ensures forall r :: r in db'.counters && r in db'.resources ==>
      r in db.counters && r in db.resources && db'.counters[r] == db.counters[r]
        && db'.resources[r].pool == db.resources[r].pool
  {
    hide TicketEdge;
  }

  lemma HeldBefore(db: Db, db': Db)
    requires GivesBack(db, db')
    ensures forall r, c :: Holds(db', r, c) ==> Holds(db, r, c) && db'.counters[r][c] == db.counters[r][c]
  {
  }

  lemma SetsShrink(db: Db, db': Db, p: PoolName)
    requires Edged(db, db') && GivesBack(db, db')
    ensures InState(db', p, STARTING) <= InState(db, p, STARTING)
    ensures UnspentIn(db', p) <= UnspentIn(db, p)
    ensures Numbered(db', p) <= Numbered(db, p)
  {
    hide TicketEdge;
  }

  lemma QuotaStays(c: PoolConfig, db: Db, db': Db, p: PoolName)
    requires Edged(db, db') && GivesBack(db, db')
    ensures Within(c, db, p) ==> Within(c, db', p)
    ensures Below(c, db, p) ==> Below(c, db', p)
  {
    SetsShrink(db, db', p);
    hide Edged, GivesBack;
    SubsetSize(InState(db', p, STARTING), InState(db, p, STARTING));
    SubsetSize(UnspentIn(db', p), UnspentIn(db, p));
    SubsetSize(Numbered(db', p), Numbered(db, p));
  }

  /* ---- the statistics ---- */

  /** What `MayStart` reads off the statistics. */
  lemma StatisticsTell(cfg: Config, db: Db, p: PoolName, budget: int)
    requires IdsOk(cfg, db) && p in cfg.pools && MayStart(cfg.pools[p], db, p, budget)
    ensures Below(cfg.pools[p], db, p)
  {
    hide Free, InState, UnspentIn;
    assert Numbered(db, p) <= On(db, p);
    SubsetSize(Numbered(db, p), On(db, p));
    hide IdsOk, Numbered, On;
    UnspentParts(db, p);
  }

  lemma UnspentParts(db: Db, p: PoolName)
    ensures UnspentIn(db, p) == Free(db, p) + InState(db, p, STARTING) && Free(db, p) !! InState(db, p, STARTING)
  {
  }

  /* ---- an allocation ---- */

  /** The smallest free id is new in the pool, and there is one below the maximum. */
  lemma NextId(cfg: Config, db: Db, p: PoolName, id: nat)
    requires p in cfg.pools && |Numbered(db, p)| < cfg.pools[p].max
    requires SmallestFree(IdsTaken(db, p), id)
    ensures id < cfg.pools[p].max
    ensures forall q :: q in Numbered(db, p) ==> db.ids[q] != id
  {
    forall q | q in Numbered(db, p) ensures db.ids[q] in IdsTaken(db, p) {}
    ImageBound(Numbered(db, p), r => if r in db.ids then db.ids[r] else 0, IdsTaken(db, p));
    SmallestFreeBound(IdsTaken(db, p), id);
  }

  function NumberedCount(db: Db): PoolName -> int { (p: PoolName) => |Numbered(db, p)| }

  /** Resources that hold an id are at most as many as their pools count together. */
  lemma {:induction false} CountByPool(db: Db, held: set<ResourceId>, pools: set<PoolName>)
    requires forall r :: r in held ==> exists p :: p in pools && r in Numbered(db, p)
    ensures |held| <= Sum(pools, NumberedCount(db))
    decreases pools
  {
    hide Numbered;
    if pools == {} {
      assert held == {};
    } else {
      var p :| p in pools;
      SumRemove(pools, NumberedCount(db), p);
      var here, rest := held * Numbered(db, p), held - Numbered(db, p);
      SubsetSize(here, Numbered(db, p));
      assert held == here + rest;
      forall r | r in rest ensures exists q :: q in pools - {p} && r in Numbered(db, q) {
        var q :| q in pools && r in Numbered(db, q);
      }
      CountByPool(db, rest, pools - {p});
    }
  }

  /** The holders of a counter's values are the numbered resources of the pools that use it. */
  lemma HoldersByPool(cfg: Config, db: Db, c: Counter, r: ResourceId) returns (p: PoolName)
    requires IdsOk(cfg, db) && CountersOk(cfg, db) && r in Holders(db, c)
    ensures p in Users(cfg, c) && r in Numbered(db, p)
  {
    p := db.resources[r].pool;
  }

  lemma HoldersBound(cfg: Config, db: Db, p: PoolName, c: Counter)
    requires IdsOk(cfg, db) && CountersOk(cfg, db)
    requires forall q :: q in cfg.pools ==> |Numbered(db, q)| <= cfg.pools[q].max
    requires p in Users(cfg, c) && |Numbered(db, p)| < cfg.pools[p].max
    ensures |Holders(db, c)| < Capacity(cfg, c)
  {
    forall r | r in Holders(db, c) ensures exists q :: q in Users(cfg, c) && r in Numbered(db, q) {
      var q := HoldersByPool(cfg, db, c, r);
    }
    hide IdsOk, CountersOk, Numbered, Holders;
    CountByPool(db, Holders(db, c), Users(cfg, c));
    SumStrict(Users(cfg, c), NumberedCount(db), MaxOf(cfg), p);
  }

  /** The smallest free value is new, and below what the pools that use the counter may have together. */
  lemma NextValue(cfg: Config, db: Db, p: PoolName, c: Counter, value: nat)
    requires IdsOk(cfg, db) && CountersOk(cfg, db)
    requires forall q :: q in cfg.pools ==> |Numbered(db, q)| <= cfg.pools[q].max
    requires p in Users(cfg, c) && |Numbered(db, p)| < cfg.pools[p].max
    requires SmallestFree(ValuesTaken(db, c), value)
    ensures value < Capacity(cfg, c)
    ensures forall q :: Holds(db, q, c) ==> db.counters[q][c] != value
  {
    HoldersBound(cfg, db, p, c);
    hide IdsOk, CountersOk, Numbered, Capacity;
    forall q | Holds(db, q, c) ensures db.counters[q][c] in ValuesTaken(db, c) { assert q in Holders(db, c); }
    ImageBound(Holders(db, c), r => if r in db.counters
      && c in db.counters[r] then db.counters[r][c] else 0, ValuesTaken(db, c));
    SmallestFreeBound(ValuesTaken(db, c), value);
  }

  lemma AllocateIds(cfg: Config, db: Db, p: PoolName, r: ResourceId, name: Name, now: Time, id: nat,
                    values: map<Counter, nat>)
    requires IdsOk(cfg, db) && p in cfg.pools && r !in db.resources && |Numbered(db, p)| < cfg.pools[p].max
    requires SmallestFree(IdsTaken(db, p), id)
    ensures IdsOk(cfg, Allocate(db, p, r, name, now, id, values))
  {
    NextId(cfg, db, p, id);
    var db' := Allocate(db, p, r, name, now, id, values);
    forall q | q in db.ids && q in db.resources && db.resources[q].pool == p ensures db.ids[q] != id {
      assert q in Numbered(db, p);
    }
    hide Numbered, IdsTaken;
    forall a, b | SameId(db', a, b) && a != r && b != r ensures a == b { assert SameId(db, a, b); }
  }

  lemma AllocateCounters(cfg: Config, db: Db, p: PoolName, r: ResourceId, name: Name, now: Time, id: nat,
                         values: map<Counter, nat>)
    requires IdsOk(cfg, db) && CountersOk(cfg, db) && p in cfg.pools && r !in db.resources
      && |Numbered(db, p)| < cfg.pools[p].max
    requires forall q :: q in cfg.pools ==> |Numbered(db, q)| <= cfg.pools[q].max
    requires SmallestNumbers(db, p, cfg.pools[p].counters, id, values)
    ensures CountersOk(cfg, Allocate(db, p, r, name, now, id, values))
  {
    hide Capacity, SmallestFree;
    forall c | c in values
      ensures values[c] < Capacity(cfg, c) && forall q :: Holds(db, q, c) ==> db.counters[q][c] != values[c]
    {
      hide IdsOk, CountersOk;
      NextValue(cfg, db, p, c, values[c]);
    }
    hide Numbered, ValuesTaken, IdsTaken, SmallestNumbers;
    AddCounters(cfg, db, Allocate(db, p, r, name, now, id, values), r, values);
  }

  /** Adding a row `r` with new values. */
  lemma AddCounters(cfg: Config, db: Db, db': Db, r: ResourceId, values: map<Counter, nat>)
    requires CountersOk(cfg, db) && r !in db.counters
    requires db'.counters == db.counters[r := values] && db'.ids.Keys == db.ids.Keys + {r}
    requires forall q :: q in db.counters ==>
        q in db.resources && q in db'.resources && db'.resources[q].pool == db.resources[q].pool
    requires r in db'.resources && db'.resources[r].pool in cfg.pools
      && values.Keys == cfg.pools[db'.resources[r].pool].counters
    requires forall c :: c in values ==>
               values[c] < Capacity(cfg, c) && forall q :: Holds(db, q, c) ==> db.counters[q][c] != values[c]
    ensures CountersOk(cfg, db')
  {
    hide Capacity;
    forall q, c | Holds(db', q, c)
      ensures if q == r then c in values && db'.counters[q][c] == values[c]
              else Holds(db, q, c) && db'.counters[q][c] == db.counters[q][c]
    {
    }
    assert db'.counters.Keys == db'.ids.Keys;
    hide Holds;
  }

  lemma AllocateQuota(cfg: Config, db: Db, p: PoolName, r: ResourceId, name: Name, now: Time, id: nat,
                      values: map<Counter, nat>, q: PoolName)
    requires p in cfg.pools && q in cfg.pools && r !in db.resources && r !in db.ids
    requires Within(cfg.pools[q], db, q) && Below(cfg.pools[p], db, p)
    ensures Within(cfg.pools[q], Allocate(db, p, r, name, now, id, values), q)
  {
    AllocateSets(db, p, r, name, now, id, values, q);
    hide Allocate, InState, UnspentIn, Numbered;
  }

  lemma AllocateSets(db: Db, p: PoolName, r: ResourceId, name: Name, now: Time, id: nat, values: map<Counter, nat>,
                     q: PoolName)
    requires r !in db.resources && r !in db.ids
    ensures var db' := Allocate(db, p, r, name, now, id, values);
      var more := if p == q then {r} else {};
      && InState(db', q, STARTING) == InState(db, q, STARTING) + more
      && UnspentIn(db', q) == UnspentIn(db, q) + more
      && Numbered(db', q) == Numbered(db, q) + more
    ensures r !in InState(db, q, STARTING) + UnspentIn(db, q) + Numbered(db, q)
  {
  }

  /* ---- all steps ---- */

  lemma QuotedAfter(cfg: Config, s: Sys, s': Sys)
    requires Quoted(cfg, s) && Edged(s.db, s'.db) && GivesBack(s.db, s'.db) && RoomAhead(cfg, s')
    ensures Quoted(cfg, s')
  {
    hide Edged, GivesBack, IdsOk, CountersOk, Within, RoomAhead;
    IdsStay(cfg, s.db, s'.db);
    CountersStay(cfg, s.db, s'.db);
    forall p | p in cfg.pools ensures Within(cfg.pools[p], s'.db, p) { QuotaStays(cfg.pools[p], s.db, s'.db, p); }
  }

  /** As long as the manager stays where it is, there stays room. */
  lemma RoomStays(cfg: Config, s: Sys, s': Sys)
    requires RoomAhead(cfg, s) && Edged(s.db, s'.db) && GivesBack(s.db, s'.db)
      && (s'.pc == s.pc || s'.pc == Down || s'.pc == Beginning)
    ensures RoomAhead(cfg, s')
  {
    hide Edged, GivesBack, Within, Below;
    if s.pc.Timing? || s.pc.Allocating? {
      if s.pc.i < |cfg.order| && cfg.order[s.pc.i] in cfg.pools {
        QuotaStays(cfg.pools[cfg.order[s.pc.i]], s.db, s'.db, cfg.order[s.pc.i]);
      }
    }
  }

  lemma EnvPc(s: Sys, a: EnvStep)
    requires CanEnv(s, a)
    ensures var pc := DoEnv(s, a).pc; pc == s.pc || pc == Down || pc == Beginning
  {
    hide Kill, FixBroken, Watch, TakeTicket, CloseTicket;
  }

  lemma EnvQuoted(cfg: Config, s: Sys, a: EnvStep)
    requires Quoted(cfg, s) && CanEnv(s, a)
    ensures Quoted(cfg, DoEnv(s, a))
  {
    hide Edged, GivesBack, IdsOk, CountersOk, Within, RoomAhead;
    EnvEdges(s, a);
    EnvGivesBack(cfg, s, a);
    EnvPc(s, a);
    hide DoEnv, CanEnv;
    RoomStays(cfg, s, DoEnv(s, a));
    QuotedAfter(cfg, s, DoEnv(s, a));
  }

  lemma WorkQuoted(cfg: Config, s: Sys, a: WorkerStep)
    requires Good(cfg, s) && Quoted(cfg, s) && CanWork(cfg, s, a)
    ensures Quoted(cfg, DoWork(cfg, s, a))
  {
    hide Good, Edged, GivesBack, IdsOk, CountersOk, Within, RoomAhead, DoWork, CanWork;
    WorkEdges(cfg, s, a);
    WorkGivesBack(cfg, s, a);
    WorkKeepsLoop(cfg, s, a);
    RoomStays(cfg, s, DoWork(cfg, s, a));
    QuotedAfter(cfg, s, DoWork(cfg, s, a));
  }

  lemma ManageRoom(cfg: Config, s: Sys, a: ManagerStep)
    requires PcFits(cfg, s) && Quoted(cfg, s) && CanManage(cfg, s, a)
    ensures RoomAhead(cfg, DoManage(cfg, s, a))
  {
    hide Within, Below, IdsOk, CountersOk, MayStart, DoManage, CanManage;
    TowardsAllocation(cfg, s, a);
    if s.pc.Sizing? {
      var p := cfg.order[s.pc.i];
      if MayStart(cfg.pools[p], s.db, p, s.budget[p]) { StatisticsTell(cfg, s.db, p, s.budget[p]); }
    }
  }

  lemma AllocateTables(cfg: Config, db: Db, p: PoolName, r: ResourceId, name: Name, now: Time, id: nat,
                       values: map<Counter, nat>)
    requires IdsOk(cfg, db) && CountersOk(cfg, db) && p in cfg.pools && r !in db.resources
    requires Below(cfg.pools[p], db, p) && forall q :: q in cfg.pools ==> Within(cfg.pools[q], db, q)
    requires SmallestNumbers(db, p, cfg.pools[p].counters, id, values)
    ensures var db' := Allocate(db, p, r, name, now, id, values);
      IdsOk(cfg, db') && CountersOk(cfg, db') && forall q :: q in cfg.pools ==> Within(cfg.pools[q], db', q)
  {
    assert r !in db.ids;
    assert |Numbered(db, p)| < cfg.pools[p].max;
    forall q | q in cfg.pools ensures |Numbered(db, q)| <= cfg.pools[q].max { assert Within(cfg.pools[q], db, q); }
    hide IdsOk, CountersOk, SmallestFree, IdsTaken, ValuesTaken, Allocate, Numbered, Within, Below;
    AllocateIds(cfg, db, p, r, name, now, id, values);
    AllocateCounters(cfg, db, p, r, name, now, id, values);
    forall q | q in cfg.pools ensures Within(cfg.pools[q], Allocate(db, p, r, name, now, id, values), q) {
      AllocateQuota(cfg, db, p, r, name, now, id, values, q);
    }
  }

  lemma AllocateQuoted(cfg: Config, s: Sys, a: ManagerStep)
    requires PcFits(cfg, s) && Quoted(cfg, s) && CanManage(cfg, s, a) && a.AllocateOne?
    ensures Quoted(cfg, DoManage(cfg, s, a))
  {
    hide IdsOk, CountersOk, Within, Below, SmallestNumbers, NamesOf, Allocate;
    AllocateTables(cfg, s.db, Pool(cfg, s.pc.i), a.r, a.name, s.clock, a.id, a.values);
  }

  lemma ManageQuoted(cfg: Config, s: Sys, a: ManagerStep)
    requires Good(cfg, s) && Quoted(cfg, s) && CanManage(cfg, s, a)
    ensures Quoted(cfg, DoManage(cfg, s, a))
  {
    hide Edged, GivesBack, IdsOk, CountersOk, Within, RoomAhead, DoManage, CanManage;
    if a.AllocateOne? {
      AllocateQuoted(cfg, s, a);
    } else {
      ManageEdges(cfg, s, a);
      ManageGivesBack(cfg, s, a);
      ManageRoom(cfg, s, a);
      QuotedAfter(cfg, s, DoManage(cfg, s, a));
    }
  }

  lemma StepQuoted(cfg: Config, s: Sys, a: Action)
    requires Good(cfg, s) && Quoted(cfg, s) && Can(cfg, s, a)
    ensures Quoted(cfg, Do(cfg, s, a))
  {
    hide Good, Quoted, CanEnv, CanWork, CanManage, DoEnv, DoWork, DoManage, PcFits;
    match a
    case Env(e) => EnvQuoted(cfg, s, e);
    case Work(w) => WorkQuoted(cfg, s, w);
    case Manage(m) => ManageQuoted(cfg, s, m);
  }

  lemma InitialQuoted(cfg: Config, s: Sys)
    requires Initial(cfg, s)
    ensures Quoted(cfg, s)
  {
    forall p ensures |InState(s.db, p, STARTING)| == |UnspentIn(s.db, p)| == |Numbered(s.db, p)| == 0 {}
  }

  lemma {:induction false} RunQuoted(cfg: Config, run: Run, i: nat)
    requires ValidConfig(cfg) && Valid(cfg, run) && i < |run.states|
    ensures Quoted(cfg, run.states[i])
    decreases i
  {
    hide Good, Can, Do, Takes, Quoted;
    if i == 0 {
      InitialQuoted(cfg, run.states[0]);
    } else {
      RunQuoted(cfg, run, i - 1);
      GoodRun(cfg, run, i - 1);
      StepOf(cfg, run, i - 1);
      StepQuoted(cfg, run.states[i - 1], run.actions[i - 1]);
    }
  }

  /* ---- the results ---- */

  /** No pool ever exceeds `max_starting`, `max_prealloc` or the `max` numbered resources. */
  lemma QuotasHold(cfg: Config, run: Run, i: nat, p: PoolName)
    requires ValidConfig(cfg) && Valid(cfg, run) && i < |run.states| && p in cfg.pools
    ensures |InState(run.states[i].db, p, STARTING)| <= cfg.pools[p].maxStarting
    ensures cfg.pools[p].maxPrealloc > 0 ==>
              |Free(run.states[i].db, p)| + |InState(run.states[i].db, p, STARTING)| <= cfg.pools[p].maxPrealloc
    ensures |Numbered(run.states[i].db, p)| <= cfg.pools[p].max
  {
    RunQuoted(cfg, run, i);
    hide Valid, ValidConfig, IdsOk, CountersOk, Numbered, RoomAhead;
    var db := run.states[i].db;
    assert Within(cfg.pools[p], db, p);
    assert UnspentIn(db, p) == Free(db, p) + InState(db, p, STARTING);
    hide UnspentIn;
    assert Free(db, p) !! InState(db, p, STARTING);
  }

  /**
   Every resource in use has an id below `max` that no other resource of its pool has, and a value
   of each of the pool's counters that no other resource has, below what the pools that use the
   counter may have together.
   */
  lemma NumbersAreUnique(cfg: Config, run: Run, i: nat, r: ResourceId)
    requires ValidConfig(cfg) && Valid(cfg, run) && i < |run.states|
    requires r in run.states[i].db.resources
    ensures var db := run.states[i].db; var x := db.resources[r];
      && x.pool in cfg.pools
      && (x.state in {STARTING, UP, RELEASING} ==> r in db.ids)
      && (x.state == ENDED ==> r !in db.ids)
      && (r in db.ids <==> r in db.counters)
      && (r in db.ids ==>
            && db.ids[r] < cfg.pools[x.pool].max
            && (forall q :: q in db.ids && q in db.resources && db.resources[q].pool == x.pool && q != r ==>
                      db.ids[q] != db.ids[r])
            && db.counters[r].Keys == cfg.pools[x.pool].counters
            && (forall c :: c in db.counters[r] ==> db.counters[r][c] < Capacity(cfg, c))
            && (forall q, c :: Holds(db, q, c) && c in db.counters[r] && q != r ==>
                      db.counters[q][c] != db.counters[r][c]))
  {
    RunQuoted(cfg, run, i);
    hide Valid, ValidConfig, RoomAhead, Within, Capacity;
    var db := run.states[i].db;
    if r in db.ids {
      forall q | q in db.ids && q in db.resources && db.resources[q].pool == db.resources[r].pool && q != r
        ensures db.ids[q] != db.ids[r]
      {
        assert SameId(db, q, r) <==> db.ids[q] == db.ids[r];
      }
      forall c | c in db.counters[r] ensures Holds(db, r, c) {}
    }
  }
}
