/**
 `Manager._decide_where_to_start_on_demand_instances` of `resallocserver/manager.py`: for which
 waiting tickets, and in which pools, the next loop starts on-demand resources.

 The decision is a fold over the waiting tickets (`Reserve`), then one over the tickets that are
 left without a resource (`Plan`).
 */
module OnDemand {
  import opened Collections
  import opened Tables
  import opened Logic

  /* ---- `Pool.get_tags_priority` ---- */

  /** The sum of the priorities of the pool's tags that are asked for. */
  function Score(tags: seq<PoolTag>, queried: set<Tag>): int {
    if tags == [] then 0
    else Score(tags[..|tags| - 1], queried)
         + if tags[|tags| - 1].name in queried then tags[|tags| - 1].priority else 0
  }

  /** The pool has every tag that is asked for. */
  predicate Covers(c: PoolConfig, queried: set<Tag>) {
    queried <= TagNames(c.TagsAll())
  }

  /* ---- the pools ---- */

  function OnDemandTags(cfg: Config): set<Tag> {
    set p, tag | p in cfg.pools && tag in TagNames(cfg.pools[p].tagsOnDemand) :: tag
  }

  predicate AsksOnDemand(cfg: Config, tags: set<Tag>) {
    tags * OnDemandTags(cfg) != {}
  }

  /** The on-demand pools, sorted by name. */
  ghost function OnDemandPools(cfg: Config): seq<PoolName> {
    Ascending(set p | p in cfg.pools && cfg.pools[p].tagsOnDemand != [])
  }

  /** `stats["already_existing"]` */
  function Existing(db: Db, p: PoolName): nat {
    |InState(db, p, STARTING)| + |Untaken(db, p)| + |InState(db, p, RELEASING)|
  }

  /* ---- first part: tickets that likely have a resource already ---- */

  /** The first pool that covers the tags and has a resource not yet accounted for. */
  function Spare(cfg: Config, pools: seq<PoolName>, tags: set<Tag>, existing: map<PoolName, nat>): Option<PoolName> {
    if pools == [] then None
    else if pools[0] in cfg.pools && pools[0] in existing && Covers(cfg.pools[pools[0]], tags) && existing[pools[0]] > 0
    then Some(pools[0])
    else Spare(cfg, pools[1..], tags, existing)
  }

  predicate Coverable(cfg: Config, pools: seq<PoolName>, tags: set<Tag>) {
    exists p :: p in pools && p in cfg.pools && Covers(cfg.pools[p], tags)
  }

  /** `existing` counts down; `reserved`, which `Manager` does not keep, says which ticket counted it down. */
  datatype Demand = Demand(existing: map<PoolName, nat>, reserved: map<TicketId, PoolName>, toSolve: seq<TicketId>)

  function Account(cfg: Config, db: Db, pools: seq<PoolName>, d: Demand, t: TicketId): Demand
    requires t in db.tickets
  {
    var tags := db.tickets[t].tags;
    if !AsksOnDemand(cfg, tags) || !Coverable(cfg, pools, tags) then d else
    match Spare(cfg, pools, tags, d.existing)
    case Some(p) =>
      if p in d.existing && d.existing[p] > 0
      then Demand(d.existing[p := d.existing[p] - 1], d.reserved[t := p], d.toSolve) else d
    case None => d.(toSolve := d.toSolve + [t])
  }

  ghost function Reserve(cfg: Config, db: Db, order: seq<TicketId>): Demand
    requires forall t :: t in order ==> t in db.tickets
  {
    var pools := OnDemandPools(cfg);
    if order == [] then Demand(map p | p in pools :: Existing(db, p), map[], [])
    else Account(cfg, db, pools, Reserve(cfg, db, order[..|order| - 1]), order[|order| - 1])
  }

  lemma ReserveNone(cfg: Config, db: Db)
    ensures Reserve(cfg, db, []) == Demand(map p | p in OnDemandPools(cfg) :: Existing(db, p), map[], [])
  {
  }

  lemma ReserveNext(cfg: Config, db: Db, order: seq<TicketId>, i: nat)
    requires i < |order| && forall t :: t in order ==> t in db.tickets
    ensures order[i] in db.tickets && (forall t :: t in order[..i] ==> t in db.tickets)
      && (forall t :: t in order[..i + 1] ==> t in db.tickets)
    ensures Reserve(cfg, db, order[..i + 1])
            == Account(cfg, db, OnDemandPools(cfg), Reserve(cfg, db, order[..i]), order[i])
  {
    var some := order[..i + 1];
    assert some[..|some| - 1] == order[..i] && order[i] in order;
  }

  /* ---- second part: where to start the resources that are missing ---- */

  /** Neither quota is reached, counting the starts planned so far. */
  predicate Room(cfg: Config, db: Db, p: PoolName, planned: nat)
    requires p in cfg.pools
  {
    && planned + |On(db, p)| < cfg.pools[p].max
    && planned + |InState(db, p, STARTING)| < cfg.pools[p].maxStarting
  }

  predicate Usable(cfg: Config, db: Db, p: PoolName, tags: set<Tag>, starts: map<PoolName, nat>) {
    p in cfg.pools && p in starts && Covers(cfg.pools[p], tags) && Room(cfg, db, p, starts[p])
  }

  /** `p` is the usable pool of the highest priority; the first such in the list. */
  ghost predicate BestPool(cfg: Config, db: Db, pools: seq<PoolName>, tags: set<Tag>, starts: map<PoolName, nat>,
                           p: PoolName)
  {
    exists i :: 0 <= i < |pools| && pools[i] == p && BestAt(cfg, db, pools, tags, starts, i)
  }

  ghost predicate BestAt(cfg: Config, db: Db, pools: seq<PoolName>, tags: set<Tag>, starts: map<PoolName, nat>, i: nat)
    requires i < |pools|
  {
    && Usable(cfg, db, pools[i], tags, starts)
    && (forall j :: 0 <= j < |pools| && Usable(cfg, db, pools[j], tags, starts) ==>
          var a, b := Score(cfg.pools[pools[i]].TagsAll(), tags), Score(cfg.pools[pools[j]].TagsAll(), tags);
          a > b || (a == b && i <= j))
  }

  function PickPool(cfg: Config, db: Db, pools: seq<PoolName>, tags: set<Tag>,
                    starts: map<PoolName, nat>): Option<PoolName>
  {
    if pools == [] then None else
    var before, p := PickPool(cfg, db, pools[..|pools| - 1], tags, starts), pools[|pools| - 1];
    if !Usable(cfg, db, p, tags, starts) then before
    else if before.Some? && before.value in cfg.pools
            && Score(cfg.pools[before.value].TagsAll(), tags) >= Score(cfg.pools[p].TagsAll(), tags)
    then before else Some(p)
  }

  /** `starts` is `start_on_demand_this_cycle`; `startedFor`, which `Manager` does not keep, says for whom. */
  datatype Plan = Plan(starts: map<PoolName, nat>, startedFor: map<TicketId, PoolName>)

  function Start(cfg: Config, db: Db, pools: seq<PoolName>, plan: Plan, t: TicketId): Plan
    requires t in db.tickets
  {
    match PickPool(cfg, db, pools, db.tickets[t].tags, plan.starts)
    case None => plan
    case Some(p) =>
      if p in plan.starts
      then Plan(plan.starts[p := plan.starts[p] + 1], plan.startedFor[t := p]) else plan
  }

  ghost function MakePlan(cfg: Config, db: Db, toSolve: seq<TicketId>): Plan
    requires forall t :: t in toSolve ==> t in db.tickets
  {
    var pools := OnDemandPools(cfg);
    if toSolve == [] then Plan(map p | p in pools :: 0, map[])
    else Start(cfg, db, pools, MakePlan(cfg, db, toSolve[..|toSolve| - 1]), toSolve[|toSolve| - 1])
  }

  lemma MakePlanNone(cfg: Config, db: Db)
    ensures MakePlan(cfg, db, []) == Plan(map p | p in OnDemandPools(cfg) :: 0, map[])
  {
  }

  lemma MakePlanNext(cfg: Config, db: Db, toSolve: seq<TicketId>, i: nat)
    requires i < |toSolve| && forall t :: t in toSolve ==> t in db.tickets
    ensures toSolve[i] in db.tickets && (forall t :: t in toSolve[..i] ==> t in db.tickets)
      && (forall t :: t in toSolve[..i + 1] ==> t in db.tickets)
    ensures MakePlan(cfg, db, toSolve[..i + 1]) ==
            Start(cfg, db, OnDemandPools(cfg), MakePlan(cfg, db, toSolve[..i]), toSolve[i])
  {
    var some := toSolve[..i + 1];
    assert some[..|some| - 1] == toSolve[..i] && toSolve[i] in toSolve;
  }

  /** `order` lists the waiting tickets, each once, in whatever order the database returns them. */
  ghost predicate WaitingOrder(db: Db, order: seq<TicketId>) {
    && (forall t :: t in order <==> t in db.tickets && Waiting(db.tickets[t]))
    && (forall i, j :: 0 <= i < j < |order| ==> order[i] != order[j])
  }

  lemma {:induction false} ToSolveFromOrder(cfg: Config, db: Db, order: seq<TicketId>)
    requires forall t :: t in order ==> t in db.tickets
    ensures forall t :: t in Reserve(cfg, db, order).toSolve ==> t in order
    decreases |order|
  {
    if order != [] {
      ToSolveFromOrder(cfg, db, order[..|order| - 1]);
    }
  }

  /** The whole decision. */
  ghost function Decide(cfg: Config, db: Db, order: seq<TicketId>): Plan
    requires WaitingOrder(db, order)
  {
    ToSolveFromOrder(cfg, db, order);
    MakePlan(cfg, db, Reserve(cfg, db, order).toSolve)
  }

  /* ---- what the first part accounts for ---- */

  function For(m: map<TicketId, PoolName>, p: PoolName): set<TicketId> {
    set t | t in m && m[t] == p
  }

  /** Waiting tickets that ask for an on-demand tag and that pool `p` covers. */
  function Wanting(cfg: Config, db: Db, p: PoolName): set<TicketId> {
    set t | t in db.tickets && Waiting(db.tickets[t]) && Wants(cfg, db.tickets[t].tags, p)
  }

  predicate Wants(cfg: Config, tags: set<Tag>, p: PoolName) {
    AsksOnDemand(cfg, tags) && p in cfg.pools && Covers(cfg.pools[p], tags)
  }

  /** Each resource that exists is reserved for one ticket or still to be reserved. */
  ghost predicate Balanced(db: Db, pools: seq<PoolName>, d: Demand) {
    && d.existing.Keys == (set p | p in pools)
    && (forall p :: p in d.existing ==> d.existing[p] + |For(d.reserved, p)| == Existing(db, p))
  }

  ghost predicate ReservedOk(cfg: Config, db: Db, d: Demand, order: seq<TicketId>) {
    forall t :: t in d.reserved ==> t in order && t in db.tickets && Wants(cfg, db.tickets[t].tags, d.reserved[t])
  }

  ghost predicate ToSolveOk(cfg: Config, db: Db, d: Demand, order: seq<TicketId>) {
    && (forall t :: t in d.toSolve ==>
              t in order && t !in d.reserved && t in db.tickets && AsksOnDemand(cfg, db.tickets[t].tags))
    && (forall i, j :: 0 <= i < j < |d.toSolve| ==> d.toSolve[i] != d.toSolve[j])
  }

  /** A ticket to solve found all the pools that could serve it spent. */
  ghost predicate AllSpent(cfg: Config, db: Db, d: Demand) {
    forall t, p :: t in d.toSolve && p in d.existing && t in db.tickets && Wants(cfg, db.tickets[t].tags, p) ==>
        d.existing[p] == 0
  }

  ghost predicate Counted(cfg: Config, db: Db, pools: seq<PoolName>, d: Demand, order: seq<TicketId>) {
    Balanced(db, pools, d) && ReservedOk(cfg, db, d, order) && ToSolveOk(cfg, db, d, order) && AllSpent(cfg, db, d)
  }

  lemma {:induction false} SpareIsSpare(cfg: Config, pools: seq<PoolName>, tags: set<Tag>, existing: map<PoolName, nat>)
    ensures match Spare(cfg, pools, tags, existing)
            case Some(p) => p in pools && p in cfg.pools && Covers(cfg.pools[p], tags) && p in existing
              && existing[p] > 0
            case None => forall p :: p in pools && p in cfg.pools && p in existing && Covers(cfg.pools[p], tags) ==>
                existing[p] == 0
    decreases |pools|
  {
    if pools != [] {
      SpareIsSpare(cfg, pools[1..], tags, existing);
      assert forall p :: p in pools ==> p == pools[0] || p in pools[1..];
    }
  }

  lemma ForOneMore(m: map<TicketId, PoolName>, t: TicketId, p: PoolName)
    requires t !in m
    ensures forall q :: For(m[t := p], q) == if q == p then For(m, q) + {t} else For(m, q)
    ensures t !in For(m, p)
  {
  }

  lemma ReserveBalances(db: Db, pools: seq<PoolName>, d: Demand, t: TicketId, p: PoolName)
    requires Balanced(db, pools, d) && t !in d.reserved && p in d.existing && d.existing[p] > 0
    ensures Balanced(db, pools, Demand(d.existing[p := d.existing[p] - 1], d.reserved[t := p], d.toSolve))
  {
    hide Existing, For;
    ForOneMore(d.reserved, t, p);
  }

  lemma ReserveOne(cfg: Config, db: Db, pools: seq<PoolName>, d: Demand, order: seq<TicketId>, t: TicketId, p: PoolName)
    requires Counted(cfg, db, pools, d, order) && t !in order && t in db.tickets
    requires Wants(cfg, db.tickets[t].tags, p) && p in d.existing && d.existing[p] > 0
    ensures var d' := Demand(d.existing[p := d.existing[p] - 1], d.reserved[t := p], d.toSolve);
            Counted(cfg, db, pools, d', order + [t])
  {
    hide Existing, Wants, AsksOnDemand, Balanced;
    ReserveBalances(db, pools, d, t, p);
  }

  lemma SolveOne(cfg: Config, db: Db, pools: seq<PoolName>, d: Demand, order: seq<TicketId>, t: TicketId)
    requires Counted(cfg, db, pools, d, order) && t !in order && t in db.tickets
      && AsksOnDemand(cfg, db.tickets[t].tags)
    requires forall p :: p in d.existing && Wants(cfg, db.tickets[t].tags, p) ==> d.existing[p] == 0
    ensures Counted(cfg, db, pools, d.(toSolve := d.toSolve + [t]), order + [t])
  {
    hide Existing, AsksOnDemand, Wants, For;
  }

  lemma SkipOne(cfg: Config, db: Db, pools: seq<PoolName>, d: Demand, order: seq<TicketId>, t: TicketId)
    requires Counted(cfg, db, pools, d, order)
    ensures Counted(cfg, db, pools, d, order + [t])
  {
    hide Wants, AsksOnDemand, Balanced, AllSpent;
  }

  lemma AccountCounts(cfg: Config, db: Db, pools: seq<PoolName>, d: Demand, order: seq<TicketId>, t: TicketId)
    requires Counted(cfg, db, pools, d, order) && t !in order && t in db.tickets
    ensures Counted(cfg, db, pools, Account(cfg, db, pools, d, t), order + [t])
  {
    hide Counted, Spare, Covers, AsksOnDemand;
    var tags := db.tickets[t].tags;
    SpareIsSpare(cfg, pools, tags, d.existing);
    SkipOne(cfg, db, pools, d, order, t);
    if AsksOnDemand(cfg, tags) && Coverable(cfg, pools, tags) {
      CountedPools(cfg, db, pools, d, order);
      match Spare(cfg, pools, tags, d.existing)
      case Some(p) => ReserveOne(cfg, db, pools, d, order, t, p);
      case None => SolveOne(cfg, db, pools, d, order, t);
    }
  }

  lemma CountedPools(cfg: Config, db: Db, pools: seq<PoolName>, d: Demand, order: seq<TicketId>)
    requires Counted(cfg, db, pools, d, order)
    ensures d.existing.Keys == (set p | p in pools)
  {
  }

  lemma {:induction false} ReserveCounts(cfg: Config, db: Db, order: seq<TicketId>)
    requires forall t :: t in order ==> t in db.tickets
    requires forall i, j :: 0 <= i < j < |order| ==> order[i] != order[j]
    ensures Counted(cfg, db, OnDemandPools(cfg), Reserve(cfg, db, order), order)
    decreases |order|
  {
    hide Counted, OnDemandPools, Account;
    if order == [] {
      NothingCounted(cfg, db);
    } else {
      var before, t := order[..|order| - 1], order[|order| - 1];
      assert order == before + [t];
      ReserveCounts(cfg, db, before);
      AccountCounts(cfg, db, OnDemandPools(cfg), Reserve(cfg, db, before), before, t);
    }
  }

  lemma NothingCounted(cfg: Config, db: Db)
    ensures Counted(cfg, db, OnDemandPools(cfg), Reserve(cfg, db, []), [])
  {
    hide Existing, OnDemandPools;
    assert forall p :: For(map[], p) == {};
  }

  /* ---- what the second part plans ---- */

  /** The order of preference among usable pools: priority, then the place in the list. */
  lemma {:induction false} PickIsBest(cfg: Config, db: Db, pools: seq<PoolName>, tags: set<Tag>,
                                      starts: map<PoolName, nat>)
    requires forall i, j :: 0 <= i < j < |pools| ==> pools[i] != pools[j]
    ensures match PickPool(cfg, db, pools, tags, starts)
            case Some(p) => BestPool(cfg, db, pools, tags, starts, p)
            case None => forall p :: p in pools ==> !Usable(cfg, db, p, tags, starts)
    decreases |pools|
  {
    hide Score, Covers, Room, BestAt;
    if pools != [] {
      var n := |pools| - 1;
      var before, p := pools[..n], pools[n];
      PickIsBest(cfg, db, before, tags, starts);
      assert pools == before + [p];
      if Usable(cfg, db, p, tags, starts) {
        match PickPool(cfg, db, before, tags, starts)
        case None => OnlyUsable(cfg, db, pools, tags, starts);
        case Some(b) =>
          var i :| 0 <= i < n && before[i] == b && BestAt(cfg, db, before, tags, starts, i);
          OneMoreUsable(cfg, db, pools, tags, starts, i);
      } else if q :| PickPool(cfg, db, before, tags, starts) == Some(q) {
        var i :| 0 <= i < n && before[i] == q && BestAt(cfg, db, before, tags, starts, i);
        OneMoreUsable(cfg, db, pools, tags, starts, i);
      }
    }
  }

  /** There is one best pool, and it is picked. */
  lemma BestIsPicked(cfg: Config, db: Db, pools: seq<PoolName>, tags: set<Tag>, starts: map<PoolName, nat>, p: PoolName)
    requires forall i, j :: 0 <= i < j < |pools| ==> pools[i] != pools[j]
    requires BestPool(cfg, db, pools, tags, starts, p)
    ensures PickPool(cfg, db, pools, tags, starts) == Some(p)
  {
    hide Score, Covers, Room, PickPool;
    PickIsBest(cfg, db, pools, tags, starts);
    assert p in pools;
    var q := PickPool(cfg, db, pools, tags, starts).value;
    var i :| 0 <= i < |pools| && pools[i] == p && BestAt(cfg, db, pools, tags, starts, i);
    var k :| 0 <= k < |pools| && pools[k] == q && BestAt(cfg, db, pools, tags, starts, k);
  }

  lemma OnlyUsable(cfg: Config, db: Db, pools: seq<PoolName>, tags: set<Tag>, starts: map<PoolName, nat>)
    requires pools != [] && Usable(cfg, db, pools[|pools| - 1], tags, starts)
    requires forall p :: p in pools[..|pools| - 1] ==> !Usable(cfg, db, p, tags, starts)
    ensures BestAt(cfg, db, pools, tags, starts, |pools| - 1)
  {
    hide Score, Usable;
    forall j | 0 <= j < |pools| - 1 ensures pools[j] in pools[..|pools| - 1] {
      assert pools[j] == pools[..|pools| - 1][j];
    }
  }

  lemma OneMoreUsable(cfg: Config, db: Db, pools: seq<PoolName>, tags: set<Tag>, starts: map<PoolName, nat>, i: nat)
    requires i < |pools| - 1 && BestAt(cfg, db, pools[..|pools| - 1], tags, starts, i)
    ensures pools[i] in cfg.pools
    ensures var n := |pools| - 1;
            if Usable(cfg, db, pools[n], tags, starts) && pools[n] in cfg.pools
               && Score(cfg.pools[pools[i]].TagsAll(), tags) < Score(cfg.pools[pools[n]].TagsAll(), tags)
            then BestAt(cfg, db, pools, tags, starts, n) else BestAt(cfg, db, pools, tags, starts, i)
  {
    assert forall j :: 0 <= j < |pools| ==>
             pools[j] == if j < |pools| - 1 then pools[..|pools| - 1][j] else pools[|pools| - 1];
    hide Score, Covers, Room;
  }

  /** The starts of each pool are those for tickets that it covers. */
  ghost predicate PlanOk(cfg: Config, db: Db, pools: seq<PoolName>, plan: Plan, toSolve: seq<TicketId>) {
    && plan.starts.Keys == (set p | p in pools)
    && (forall p :: p in plan.starts ==> plan.starts[p] == |For(plan.startedFor, p)|)
    && (forall t :: t in plan.startedFor ==>
          t in toSolve && t in db.tickets && CoversTicket(cfg, db.tickets[t], plan.startedFor[t]))
  }

  predicate CoversTicket(cfg: Config, t: Ticket, p: PoolName) {
    p in cfg.pools && Covers(cfg.pools[p], t.tags)
  }

  /** The starts planned for a pool fit both of its quotas. */
  ghost predicate PlanFits(cfg: Config, db: Db, plan: Plan) {
    forall p :: p in plan.starts && p in cfg.pools && plan.starts[p] > 0 ==>
      && plan.starts[p] + |On(db, p)| <= cfg.pools[p].max
      && plan.starts[p] + |InState(db, p, STARTING)| <= cfg.pools[p].maxStarting
  }

  lemma StartOnePlans(cfg: Config, db: Db, pools: seq<PoolName>, plan: Plan, toSolve: seq<TicketId>, t: TicketId,
                      p: PoolName)
    requires PlanOk(cfg, db, pools, plan, toSolve)
    requires t !in toSolve && t in db.tickets && p in plan.starts && CoversTicket(cfg, db.tickets[t], p)
    ensures PlanOk(cfg, db, pools, Plan(plan.starts[p := plan.starts[p] + 1], plan.startedFor[t := p]), toSolve + [t])
  {
    hide For, CoversTicket;
    ForOneMore(plan.startedFor, t, p);
  }

  lemma StartOneFits(cfg: Config, db: Db, plan: Plan, tags: set<Tag>, t: TicketId, p: PoolName)
    requires PlanFits(cfg, db, plan) && p in plan.starts && Usable(cfg, db, p, tags, plan.starts)
    ensures PlanFits(cfg, db, Plan(plan.starts[p := plan.starts[p] + 1], plan.startedFor[t := p]))
  {
    hide Covers, On, InState;
  }

  lemma StartPlans(cfg: Config, db: Db, pools: seq<PoolName>, plan: Plan, toSolve: seq<TicketId>, t: TicketId)
    requires forall i, j :: 0 <= i < j < |pools| ==> pools[i] != pools[j]
    requires PlanOk(cfg, db, pools, plan, toSolve) && PlanFits(cfg, db, plan) && t !in toSolve && t in db.tickets
    ensures PlanOk(cfg, db, pools, Start(cfg, db, pools, plan, t), toSolve + [t])
    ensures PlanFits(cfg, db, Start(cfg, db, pools, plan, t))
  {
    PickIsBest(cfg, db, pools, db.tickets[t].tags, plan.starts);
    hide PickPool, For, Covers, Room, PlanFits;
    match PickPool(cfg, db, pools, db.tickets[t].tags, plan.starts)
    case None =>
    case Some(p) =>
      StartOnePlans(cfg, db, pools, plan, toSolve, t, p);
      StartOneFits(cfg, db, plan, db.tickets[t].tags, t, p);
  }

  lemma {:induction false} MakePlanPlans(cfg: Config, db: Db, toSolve: seq<TicketId>)
    requires forall t :: t in toSolve ==> t in db.tickets
    requires forall i, j :: 0 <= i < j < |toSolve| ==> toSolve[i] != toSolve[j]
    ensures PlanOk(cfg, db, OnDemandPools(cfg), MakePlan(cfg, db, toSolve), toSolve)
    ensures PlanFits(cfg, db, MakePlan(cfg, db, toSolve))
    decreases |toSolve|
  {
    PoolsDistinct(cfg);
    hide OnDemandPools, Start, On, InState;
    if toSolve == [] {
      assert forall p :: For(map[], p) == {};
    } else {
      hide PlanOk, PlanFits;
      var before, t := toSolve[..|toSolve| - 1], toSolve[|toSolve| - 1];
      assert toSolve == before + [t];
      MakePlanPlans(cfg, db, before);
      StartPlans(cfg, db, OnDemandPools(cfg), MakePlan(cfg, db, before), before, t);
    }
  }

  lemma PoolsDistinct(cfg: Config)
    ensures var pools := OnDemandPools(cfg);
      && (forall i, j :: 0 <= i < j < |pools| ==> pools[i] != pools[j])
      && (forall p :: p in pools <==> p in cfg.pools && cfg.pools[p].tagsOnDemand != [])
  {
    hide Ascending;
  }

  /* ---- the results ---- */

  lemma DecisionIsSound(cfg: Config, db: Db, order: seq<TicketId>) returns (d: Demand)
    requires WaitingOrder(db, order)
    ensures (forall t :: t in order ==> t in db.tickets) && d == Reserve(cfg, db, order)
    ensures Counted(cfg, db, OnDemandPools(cfg), d, order)
    ensures PlanOk(cfg, db, OnDemandPools(cfg), Decide(cfg, db, order), d.toSolve)
    ensures PlanFits(cfg, db, Decide(cfg, db, order))
  {
    hide OnDemandPools, PlanOk, PlanFits, Wants;
    d := Reserve(cfg, db, order);
    ReserveCounts(cfg, db, order);
    MakePlanPlans(cfg, db, d.toSolve);
  }

  /**
   Starts never exceed the demand: a pool that is to start resources has, together with those that
   exist already, at most one for every waiting on-demand ticket that it covers.
   */
  lemma StartsMatchDemand(cfg: Config, db: Db, order: seq<TicketId>, p: PoolName)
    requires WaitingOrder(db, order)
    requires var starts := Decide(cfg, db, order).starts; p in starts && starts[p] > 0
    ensures Existing(db, p) + Decide(cfg, db, order).starts[p] <= |Wanting(cfg, db, p)|
  {
    var d := DecisionIsSound(cfg, db, order);
    var plan := Decide(cfg, db, order);
    hide OnDemandPools, Decide, Existing, Covers, AsksOnDemand;
    var reserved, started := For(d.reserved, p), For(plan.startedFor, p);
    assert started != {};
    var t :| t in started;
    assert d.existing[p] == 0;
    assert reserved !! started;
    assert reserved <= Wanting(cfg, db, p);
    assert started <= Wanting(cfg, db, p);
    hide For, Wanting, Counted, PlanOk;
    SubsetSize(reserved + started, Wanting(cfg, db, p));
  }

  /**
   Every start is for one ticket, and no ticket gets two, over all the pools; tickets that reserved
   a resource get none; and the starts fit the quotas as they were when the statistics were taken.
   */
  lemma OneStartPerTicket(cfg: Config, db: Db, order: seq<TicketId>)
    requires WaitingOrder(db, order)
    ensures var plan := Decide(cfg, db, order);
      && (forall p :: p in plan.starts ==> plan.starts[p] == |For(plan.startedFor, p)|)
      && (forall t :: t in plan.startedFor ==>
            && t in db.tickets && Waiting(db.tickets[t]) && Wants(cfg, db.tickets[t].tags, plan.startedFor[t])
            && t !in Reserve(cfg, db, order).reserved)
      && PlanFits(cfg, db, plan)
  {
    var d := DecisionIsSound(cfg, db, order);
    hide OnDemandPools, Decide, Existing, Covers, AsksOnDemand, For, PlanFits;
  }

  /** The size of the part of the tickets that each pool has. */
  function Sizes(m: map<TicketId, PoolName>): PoolName -> int { (p: PoolName) => |For(m, p)| }

  lemma {:induction false} PartsAddUp(m: map<TicketId, PoolName>, pools: set<PoolName>, tickets: set<TicketId>)
    requires forall p :: p in pools ==> For(m, p) <= tickets
    ensures Sum(pools, Sizes(m)) <= |tickets|
    decreases pools
  {
    hide For;
    if pools != {} {
      var p :| p in pools;
      SumRemove(pools, Sizes(m), p);
      forall q | q in pools - {p} ensures For(m, q) <= tickets - For(m, p) { PartsAreDisjoint(m, p, q); }
      PartsAddUp(m, pools - {p}, tickets - For(m, p));
      TakeAway(tickets, For(m, p));
    }
  }

  lemma PartsAreDisjoint(m: map<TicketId, PoolName>, p: PoolName, q: PoolName)
    requires p != q
    ensures For(m, p) !! For(m, q)
  {
  }

  lemma TakeAway(s: set<TicketId>, part: set<TicketId>)
    requires part <= s
    ensures |s| == |s - part| + |part|
  {
    assert s == (s - part) + part;
  }

  /** The waiting tickets that the first part reserved no resource for. */
  ghost function Unreserved(cfg: Config, db: Db, order: seq<TicketId>): set<TicketId>
    requires WaitingOrder(db, order)
  {
    set t | t in db.tickets && Waiting(db.tickets[t]) && t !in Reserve(cfg, db, order).reserved
  }

  function StartsOf(plan: Plan): PoolName -> int { (p: PoolName) => if p in plan.starts then plan.starts[p] else 0 }

  /** All the pools together start at most one resource for each ticket without a reservation. */
  lemma StartsInAll(cfg: Config, db: Db, order: seq<TicketId>)
    requires WaitingOrder(db, order)
    ensures var plan := Decide(cfg, db, order);
            Sum(plan.starts.Keys, StartsOf(plan)) <= |Unreserved(cfg, db, order)|
  {
    OneStartPerTicket(cfg, db, order);
    hide Decide, PlanFits, Wants, Reserve;
    var plan := Decide(cfg, db, order);
    forall p | p in plan.starts ensures For(plan.startedFor, p) <= Unreserved(cfg, db, order) {}
    hide For, Unreserved;
    PartsAddUp(plan.startedFor, plan.starts.Keys, Unreserved(cfg, db, order));
    SumMonotone(plan.starts.Keys, StartsOf(plan), Sizes(plan.startedFor));
  }

  /* ---- `get_tags_priority` ---- */

  /** The tags of a pool that are asked for. */
  function Found(tags: seq<PoolTag>, queried: set<Tag>): set<Tag> {
    set i | 0 <= i < |tags| && tags[i].name in queried :: tags[i].name
  }

  lemma OneMoreTag(tags: seq<PoolTag>, i: nat, queried: set<Tag>)
    requires i < |tags|
    ensures Score(tags[..i + 1], queried) ==
            Score(tags[..i], queried) + if tags[i].name in queried then tags[i].priority else 0
    ensures Found(tags[..i + 1], queried) ==
            Found(tags[..i], queried) + if tags[i].name in queried then {tags[i].name} else {}
    ensures Score(tags[..0], queried) == 0 && Found(tags[..0], queried) == {}
  {
    var some := tags[..i + 1];
    assert some[..|some| - 1] == tags[..i];
    forall x ensures x in Found(some, queried) <==>
        x in Found(tags[..i], queried) || (x == tags[i].name && x in queried) {
      if j :| 0 <= j < i && tags[..i][j].name == x { assert some[j].name == x; }
    }
  }

  /** A pool has a priority for a ticket if and only if it provides all its tags. */
  lemma FoundAllIffCovers(c: PoolConfig, queried: set<Tag>)
    ensures Found(c.TagsAll(), queried) == queried <==> Covers(c, queried)
  {
    var tags := c.TagsAll();
    assert forall x :: x in Found(tags, queried) <==> x in TagNames(tags) && x in queried;
  }
}
