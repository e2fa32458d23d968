/**
 What `_decide_where_to_start_on_demand_instances` decides for every waiting ticket, in terms of the
 tickets before it, of the rows and of the configuration: which tickets count on a resource that
 exists, which trigger a start and where, and which get nothing because all quotas are reached.
 */
module Decisions {
  import opened Collections
  import opened Tables
  import opened Logic
  import opened OnDemand

  /* ---- the terms ---- */

  /** The ticket asks for a tag that some pool provides on demand. */
  ghost predicate AsksFor(cfg: Config, tags: set<Tag>) {
    exists p, k :: p in cfg.pools && OnDemandTag(cfg.pools[p], k, tags)
  }

  predicate OnDemandTag(c: PoolConfig, k: int, tags: set<Tag>) {
    0 <= k < |c.tagsOnDemand| && c.tagsOnDemand[k].name in tags
  }

  /** An on-demand pool that has every tag that is asked for. */
  predicate CanServe(cfg: Config, tags: set<Tag>, p: PoolName) {
    && p in cfg.pools && cfg.pools[p].tagsOnDemand != []
    && forall tag :: tag in tags ==> HasTag(cfg.pools[p].TagsAll(), tag)
  }

  predicate HasTag(tags: seq<PoolTag>, tag: Tag) {
    exists k :: 0 <= k < |tags| && tags[k].name == tag
  }

  /** The resources of the pool that are starting, or up and untaken, or being released. */
  function Present(db: Db, p: PoolName): set<ResourceId> {
    set r | r in db.resources && db.resources[r].pool == p
            && (db.resources[r].state in {STARTING, RELEASING}
                || (db.resources[r].state == UP && db.resources[r].ticket.None?))
  }

  /** With `planned` more starts one of the quotas of the pool is reached. */
  predicate Full(cfg: Config, db: Db, p: PoolName, planned: nat)
    requires p in cfg.pools
  {
    || planned + |set r | r in db.resources && db.resources[r].pool == p && db.resources[r].state != ENDED|
         >= cfg.pools[p].max
    || planned + |set r | r in db.resources && db.resources[r].pool == p && db.resources[r].state == STARTING|
         >= cfg.pools[p].maxStarting
  }

  /** The places of the asked tags in the pool's list. */
  function Places(tags: seq<PoolTag>, queried: set<Tag>): set<int> {
    set k | 0 <= k < |tags| && tags[k].name in queried
  }

  function PriorityAt(tags: seq<PoolTag>): int -> int { k => if 0 <= k < |tags| then tags[k].priority else 0 }

  ghost function Weight(tags: seq<PoolTag>, queried: set<Tag>): int {
    Sum(Places(tags, queried), PriorityAt(tags))
  }

  /** The tickets before the `i`-th that `m` sends to pool `p`. */
  function Earlier(m: map<TicketId, PoolName>, p: PoolName, order: seq<TicketId>, i: nat): set<TicketId>
    requires i <= |order|
  {
    set t | t in order[..i] && t in m && m[t] == p
  }

  /* ---- they are the terms of the decision ---- */

  lemma AsksIff(cfg: Config, tags: set<Tag>)
    ensures AsksOnDemand(cfg, tags) <==> AsksFor(cfg, tags)
  {
    if AsksOnDemand(cfg, tags) {
      var tag :| tag in tags && tag in OnDemandTags(cfg);
      var p :| p in cfg.pools && tag in TagNames(cfg.pools[p].tagsOnDemand);
      var k :| 0 <= k < |cfg.pools[p].tagsOnDemand| && cfg.pools[p].tagsOnDemand[k].name == tag;
      assert OnDemandTag(cfg.pools[p], k, tags);
    }
    if AsksFor(cfg, tags) {
      var p, k :| p in cfg.pools && OnDemandTag(cfg.pools[p], k, tags);
      var tag := cfg.pools[p].tagsOnDemand[k].name;
      assert tag in TagNames(cfg.pools[p].tagsOnDemand);
      assert tag in tags * OnDemandTags(cfg);
    }
  }

  lemma CanServeIff(cfg: Config, tags: set<Tag>, p: PoolName)
    ensures CanServe(cfg, tags, p) <==> p in OnDemandPools(cfg) && p in cfg.pools && Covers(cfg.pools[p], tags)
  {
    PoolsDistinct(cfg);
    hide OnDemandPools;
    if p in cfg.pools {
      forall tag ensures tag in TagNames(cfg.pools[p].TagsAll()) <==> HasTag(cfg.pools[p].TagsAll(), tag) {}
    }
  }

  lemma PresentIs(db: Db, p: PoolName)
    ensures Existing(db, p) == |Present(db, p)|
  {
    var a, b, c := InState(db, p, STARTING), Untaken(db, p), InState(db, p, RELEASING);
    assert Present(db, p) == a + b + c;
    assert a !! b && a + b !! c;
    hide InState, Untaken, Present;
  }

  lemma FullIff(cfg: Config, db: Db, p: PoolName, planned: nat)
    requires p in cfg.pools
    ensures Full(cfg, db, p, planned) <==> !Room(cfg, db, p, planned)
  {
    assert On(db, p) == set r | r in db.resources && db.resources[r].pool == p && db.resources[r].state != ENDED;
    assert InState(db, p, STARTING)
           == set r | r in db.resources && db.resources[r].pool == p && db.resources[r].state == STARTING;
  }

  lemma {:induction false} WeightIs(tags: seq<PoolTag>, queried: set<Tag>)
    ensures Score(tags, queried) == Weight(tags, queried)
    decreases |tags|
  {
    if tags == [] {
      assert Places(tags, queried) == {};
    } else {
      var n := |tags| - 1;
      var before := tags[..n];
      WeightIs(before, queried);
      SumMonotone(Places(before, queried), PriorityAt(tags), PriorityAt(before));
      SumMonotone(Places(before, queried), PriorityAt(before), PriorityAt(tags));
      if tags[n].name in queried {
        assert Places(tags, queried) - {n} == Places(before, queried);
        SumRemove(Places(tags, queried), PriorityAt(tags), n);
      } else {
        assert Places(tags, queried) == Places(before, queried);
      }
    }
  }

  /* ---- one ticket after another ---- */

  /** Tickets that wait, each once. */
  ghost predicate Listed(db: Db, order: seq<TicketId>) {
    (forall t :: t in order ==> t in db.tickets) && (forall i, j :: 0 <= i < j < |order| ==> order[i] != order[j])
  }

  ghost function DemandAt(cfg: Config, db: Db, order: seq<TicketId>, i: nat): Demand
    requires Listed(db, order) && i <= |order|
  {
    Reserve(cfg, db, order[..i])
  }

  ghost function PlanAt(cfg: Config, db: Db, order: seq<TicketId>, i: nat): Plan
    requires Listed(db, order) && i <= |order|
  {
    ToSolveFromOrder(cfg, db, order[..i]);
    MakePlan(cfg, db, DemandAt(cfg, db, order, i).toSolve)
  }

  lemma NextDemand(cfg: Config, db: Db, order: seq<TicketId>, i: nat)
    requires Listed(db, order) && i < |order|
    ensures order[i] in db.tickets
    ensures DemandAt(cfg, db, order, i + 1)
            == Account(cfg, db, OnDemandPools(cfg), DemandAt(cfg, db, order, i), order[i])
  {
    hide Account, OnDemandPools;
    ReserveNext(cfg, db, order, i);
  }

  lemma NextPlan(cfg: Config, db: Db, order: seq<TicketId>, i: nat)
    requires Listed(db, order) && i < |order|
    ensures order[i] in db.tickets
    ensures var before, after := DemandAt(cfg, db, order, i).toSolve, DemandAt(cfg, db, order, i + 1).toSolve;
      PlanAt(cfg, db, order, i + 1) ==
        if after == before + [order[i]]
        then Start(cfg, db, OnDemandPools(cfg), PlanAt(cfg, db, order, i), order[i])
        else PlanAt(cfg, db, order, i)
  {
    NextDemand(cfg, db, order, i);
    var before, after := DemandAt(cfg, db, order, i).toSolve, DemandAt(cfg, db, order, i + 1).toSolve;
    assert after == before || after == before + [order[i]] by { hide DemandAt, Spare, Coverable; }
    hide Account, DemandAt, Reserve, OnDemandPools, Start;
    if after == before + [order[i]] {
      assert after[..|after| - 1] == before;
    }
  }

  lemma {:induction false} SpareIsFirst(cfg: Config, pools: seq<PoolName>, tags: set<Tag>, existing: map<PoolName, nat>)
    requires Increasing(pools)
    ensures match Spare(cfg, pools, tags, existing)
            case Some(p) =>
              forall q :: q in pools && q < p && q in cfg.pools && q in existing && Covers(cfg.pools[q], tags) ==>
                existing[q] == 0
            case None => true
    decreases |pools|
  {
    hide Covers;
    if pools != [] {
      SpareIsFirst(cfg, pools[1..], tags, existing);
      SpareIsSpare(cfg, pools[1..], tags, existing);
      assert forall p :: p in pools ==> p == pools[0] || p in pools[1..];
      forall p | p in pools[1..] ensures p > pools[0] {
        var i :| 0 <= i < |pools| - 1 && pools[1..][i] == p;
        assert pools[i + 1] == p;
      }
    }
  }

  /** Some pool that can serve the ticket has a resource that no ticket before counts on. */
  ghost predicate Unclaimed(cfg: Config, db: Db, tags: set<Tag>, m: map<TicketId, PoolName>, p: PoolName) {
    CanServe(cfg, tags, p) && |For(m, p)| < |Present(db, p)|
  }

  lemma PrefixListed(db: Db, order: seq<TicketId>, i: nat)
    requires Listed(db, order) && i <= |order|
    ensures Listed(db, order[..i])
    ensures i < |order| ==> order[i] !in order[..i] && order[i] in db.tickets
  {
    forall t | t in order[..i] ensures t in order {}
  }

  lemma DemandFits(cfg: Config, db: Db, order: seq<TicketId>, i: nat)
    requires Listed(db, order) && i <= |order|
    ensures var d := DemandAt(cfg, db, order, i);
      && (forall p :: p in d.existing <==> p in OnDemandPools(cfg))
      && (forall p :: p in d.existing ==> d.existing[p] + |For(d.reserved, p)| == |Present(db, p)|)
      && (forall t :: t in d.reserved ==> t in order[..i])
      && (forall t :: t in d.toSolve ==> t in order[..i] && t !in d.reserved)
  {
    hide OnDemandPools, Present, For, Wants;
    PrefixListed(db, order, i);
    ReserveCounts(cfg, db, order[..i]);
    forall p ensures Existing(db, p) == |Present(db, p)| { PresentIs(db, p); }
    hide Existing;
  }

  /** The ticket is asked for on demand, and some pool can serve it. */
  ghost predicate Concerns(cfg: Config, tags: set<Tag>) {
    AsksFor(cfg, tags) && exists p :: CanServe(cfg, tags, p)
  }

  ghost predicate Claims(cfg: Config, db: Db, tags: set<Tag>, d: Demand, d': Demand, t: TicketId) {
    && t in d'.reserved && d'.toSolve == d.toSolve && d'.reserved == d.reserved[t := d'.reserved[t]]
    && Unclaimed(cfg, db, tags, d.reserved, d'.reserved[t])
    && (forall q :: q < d'.reserved[t] ==> !Unclaimed(cfg, db, tags, d.reserved, q))
  }

  lemma OneDemand(cfg: Config, db: Db, order: seq<TicketId>, i: nat)
    requires Listed(db, order) && i < |order|
    ensures order[i] in db.tickets
    ensures var t, d, d' := order[i], DemandAt(cfg, db, order, i), DemandAt(cfg, db, order, i + 1);
      var tags := db.tickets[t].tags;
      if !Concerns(cfg, tags) then d'.reserved == d.reserved && d'.toSolve == d.toSolve
      else if exists p :: Unclaimed(cfg, db, tags, d.reserved, p) then Claims(cfg, db, tags, d, d', t)
      else d'.reserved == d.reserved && d'.toSolve == d.toSolve + [t]
  {
    var pools, d, t := OnDemandPools(cfg), DemandAt(cfg, db, order, i), order[i];
    NextDemand(cfg, db, order, i);
    DemandFits(cfg, db, order, i);
    hide DemandAt, OnDemandPools;
    var tags := db.tickets[t].tags;
    AsksIff(cfg, tags);
    SpareIsFirst(cfg, pools, tags, d.existing) by { PoolsSorted(cfg); }
    SpareIsSpare(cfg, pools, tags, d.existing);
    forall p ensures CanServe(cfg, tags, p) <==> p in pools && p in cfg.pools && Covers(cfg.pools[p], tags) {
      CanServeIff(cfg, tags, p);
    }
    hide CanServe, Covers, AsksFor, AsksOnDemand, Present, For, Spare;
    assert forall p :: Unclaimed(cfg, db, tags, d.reserved, p) <==>
      p in pools && p in cfg.pools && Covers(cfg.pools[p], tags) && d.existing[p] > 0;
    hide Unclaimed;
  }

  lemma PoolsSorted(cfg: Config)
    ensures Increasing(OnDemandPools(cfg))
  {
    hide Ascending;
  }

  /** Some quota of the pool is left, with the starts for the tickets before. */
  ghost predicate Startable(cfg: Config, db: Db, tags: set<Tag>, m: map<TicketId, PoolName>, p: PoolName) {
    CanServe(cfg, tags, p) && !Full(cfg, db, p, |For(m, p)|)
  }

  /** `p` is preferred to `q`: the asked tags have more priority in it, or as much and it comes first by name. */
  ghost predicate Better(cfg: Config, tags: set<Tag>, p: PoolName, q: PoolName)
    requires p in cfg.pools && q in cfg.pools
  {
    var a, b := Weight(cfg.pools[p].TagsAll(), tags), Weight(cfg.pools[q].TagsAll(), tags);
    a > b || (a == b && p < q)
  }

  ghost predicate StartsBest(cfg: Config, db: Db, tags: set<Tag>, m: map<TicketId, PoolName>,
                             m': map<TicketId, PoolName>, t: TicketId)
  {
    && t in m' && m' == m[t := m'[t]] && Startable(cfg, db, tags, m, m'[t])
    && (forall q :: q != m'[t] && Startable(cfg, db, tags, m, q) ==> Better(cfg, tags, m'[t], q))
  }

  lemma PlanAtFits(cfg: Config, db: Db, order: seq<TicketId>, i: nat)
    requires Listed(db, order) && i <= |order|
    ensures var plan := PlanAt(cfg, db, order, i);
      && (forall p :: p in plan.starts <==> p in OnDemandPools(cfg))
      && (forall p :: p in plan.starts ==> plan.starts[p] == |For(plan.startedFor, p)|)
      && (forall t :: t in plan.startedFor ==> t in DemandAt(cfg, db, order, i).toSolve)
  {
    var d := DemandAt(cfg, db, order, i);
    PrefixListed(db, order, i);
    ToSolveFromOrder(cfg, db, order[..i]);
    ReserveCounts(cfg, db, order[..i]);
    MakePlanPlans(cfg, db, d.toSolve);
    hide OnDemandPools, For, CoversTicket;
  }

  lemma StartableIff(cfg: Config, db: Db, tags: set<Tag>, plan: Plan, p: PoolName)
    requires forall q :: q in plan.starts <==> q in OnDemandPools(cfg)
    requires forall q :: q in plan.starts ==> plan.starts[q] == |For(plan.startedFor, q)|
    ensures Startable(cfg, db, tags, plan.startedFor, p)
            <==> p in OnDemandPools(cfg) && Usable(cfg, db, p, tags, plan.starts)
  {
    CanServeIff(cfg, tags, p);
    if p in cfg.pools { FullIff(cfg, db, p, |For(plan.startedFor, p)|); }
    hide For, Full, Room, Covers, CanServe, OnDemandPools;
  }

  /** The pool that is picked is better than all others that are usable. */
  lemma BestIsBetter(cfg: Config, db: Db, pools: seq<PoolName>, tags: set<Tag>, starts: map<PoolName, nat>, p: PoolName,
                     q: PoolName)
    requires Increasing(pools) && BestPool(cfg, db, pools, tags, starts, p)
    requires q in pools && q != p && Usable(cfg, db, q, tags, starts)
    ensures p in pools && Usable(cfg, db, p, tags, starts) && p in cfg.pools && q in cfg.pools
    ensures Better(cfg, tags, p, q)
  {
    hide Covers, Room, Weight, Score;
    var i :| 0 <= i < |pools| && pools[i] == p && BestAt(cfg, db, pools, tags, starts, i);
    var j :| 0 <= j < |pools| && pools[j] == q;
    WeightIs(cfg.pools[p].TagsAll(), tags);
    WeightIs(cfg.pools[q].TagsAll(), tags);
  }

  lemma BestIsUsable(cfg: Config, db: Db, pools: seq<PoolName>, tags: set<Tag>, starts: map<PoolName, nat>, p: PoolName)
    requires BestPool(cfg, db, pools, tags, starts, p)
    ensures p in pools && Usable(cfg, db, p, tags, starts)
  {
    hide Covers, Room, Score;
  }

  lemma PickIs(cfg: Config, db: Db, tags: set<Tag>, plan: Plan)
    requires forall p :: p in plan.starts <==> p in OnDemandPools(cfg)
    requires forall p :: p in plan.starts ==> plan.starts[p] == |For(plan.startedFor, p)|
    ensures match PickPool(cfg, db, OnDemandPools(cfg), tags, plan.starts)
            case None => forall p :: !Startable(cfg, db, tags, plan.startedFor, p)
            case Some(p) =>
              && Startable(cfg, db, tags, plan.startedFor, p)
              && forall q :: q != p && Startable(cfg, db, tags, plan.startedFor, q) ==> Better(cfg, tags, p, q)
  {
    var pools := OnDemandPools(cfg);
    PoolsDistinct(cfg);
    PoolsSorted(cfg);
    PickIsBest(cfg, db, pools, tags, plan.starts);
    hide PickPool, Startable, Better, Usable, BestPool;
    forall p ensures Startable(cfg, db, tags, plan.startedFor, p)
      <==> p in pools && Usable(cfg, db, p, tags, plan.starts)
    {
      StartableIff(cfg, db, tags, plan, p);
    }
    hide OnDemandPools;
    match PickPool(cfg, db, pools, tags, plan.starts)
    case None =>
    case Some(p) =>
      BestIsUsable(cfg, db, pools, tags, plan.starts, p);
      forall q | q != p && Startable(cfg, db, tags, plan.startedFor, q)
        ensures p in cfg.pools && q in cfg.pools && Better(cfg, tags, p, q)
      {
        BestIsBetter(cfg, db, pools, tags, plan.starts, p, q);
      }
  }

  lemma StartPicks(cfg: Config, db: Db, plan: Plan, t: TicketId)
    requires t in db.tickets
    requires forall p :: p in plan.starts <==> p in OnDemandPools(cfg)
    requires forall p :: p in plan.starts ==> plan.starts[p] == |For(plan.startedFor, p)|
    ensures var plan' := Start(cfg, db, OnDemandPools(cfg), plan, t); var tags := db.tickets[t].tags;
      if exists p :: Startable(cfg, db, tags, plan.startedFor, p)
      then StartsBest(cfg, db, tags, plan.startedFor, plan'.startedFor, t)
      else plan'.startedFor == plan.startedFor
  {
    hide OnDemandPools, PickPool, Better, Startable, For;
    var tags := db.tickets[t].tags;
    PickIs(cfg, db, tags, plan);
    var pick := PickPool(cfg, db, OnDemandPools(cfg), tags, plan.starts);
    if pick.Some? { StartableIff(cfg, db, tags, plan, pick.value); }
  }

  lemma OnePlan(cfg: Config, db: Db, order: seq<TicketId>, i: nat)
    requires Listed(db, order) && i < |order|
    ensures order[i] in db.tickets
    ensures var t, plan, plan' := order[i], PlanAt(cfg, db, order, i), PlanAt(cfg, db, order, i + 1);
      var before, after := DemandAt(cfg, db, order, i).toSolve, DemandAt(cfg, db, order, i + 1).toSolve;
      var tags := db.tickets[t].tags;
      if after == before + [t] && exists p :: Startable(cfg, db, tags, plan.startedFor, p)
      then StartsBest(cfg, db, tags, plan.startedFor, plan'.startedFor, t)
      else plan'.startedFor == plan.startedFor
  {
    hide PlanAt, DemandAt, OnDemandPools, Start, Startable, StartsBest, For;
    NextPlan(cfg, db, order, i);
    PlanAtFits(cfg, db, order, i);
    StartPicks(cfg, db, PlanAt(cfg, db, order, i), order[i]);
  }

  /* ---- the whole decision ---- */

  /** What was decided for a ticket is kept. */
  lemma {:induction false} Kept(cfg: Config, db: Db, order: seq<TicketId>, i: nat, j: nat)
    requires Listed(db, order) && i <= j <= |order|
    ensures forall t :: t in order[..i] ==>
              && SameFor(DemandAt(cfg, db, order, i).reserved, DemandAt(cfg, db, order, j).reserved, t)
              && SameFor(PlanAt(cfg, db, order, i).startedFor, PlanAt(cfg, db, order, j).startedFor, t)
    decreases j
  {
    hide DemandAt, PlanAt;
    if i < j {
      Kept(cfg, db, order, i, j - 1);
      OneDemand(cfg, db, order, j - 1);
      OnePlan(cfg, db, order, j - 1);
      assert forall t :: t in order[..i] ==> t != order[j - 1];
      hide Unclaimed, Startable, Concerns;
    }
  }

  predicate SameFor(m: map<TicketId, PoolName>, m': map<TicketId, PoolName>, t: TicketId) {
    (t in m <==> t in m') && (t in m ==> m[t] == m'[t])
  }

  /** So the tickets for which something was decided before are those that come earlier. */
  lemma EarlierIs(cfg: Config, db: Db, order: seq<TicketId>, i: nat, p: PoolName)
    requires Listed(db, order) && i <= |order|
    ensures For(DemandAt(cfg, db, order, i).reserved, p)
            == Earlier(DemandAt(cfg, db, order, |order|).reserved, p, order, i)
    ensures For(PlanAt(cfg, db, order, i).startedFor, p)
            == Earlier(PlanAt(cfg, db, order, |order|).startedFor, p, order, i)
  {
    Kept(cfg, db, order, i, |order|);
    DemandFits(cfg, db, order, i);
    PlanAtFits(cfg, db, order, i);
    hide DemandAt, PlanAt, OnDemandPools;
  }

  /** Some of the pool's resources are left when the earlier tickets have claimed theirs. */
  ghost predicate Left(cfg: Config, db: Db, tags: set<Tag>, claimed: map<TicketId, PoolName>, order: seq<TicketId>,
                       i: nat, p: PoolName)
    requires i <= |order|
  {
    CanServe(cfg, tags, p) && |Earlier(claimed, p, order, i)| < |Present(db, p)|
  }

  /** Neither quota is reached when the resources for the earlier tickets are started. */
  ghost predicate MayStart(cfg: Config, db: Db, tags: set<Tag>, started: map<TicketId, PoolName>, order: seq<TicketId>,
                           i: nat, p: PoolName)
    requires i <= |order|
  {
    CanServe(cfg, tags, p) && !Full(cfg, db, p, |Earlier(started, p, order, i)|)
  }

  lemma WaitingIsListed(db: Db, order: seq<TicketId>)
    requires WaitingOrder(db, order)
    ensures Listed(db, order)
  {
  }

  lemma TermsAgree(cfg: Config, db: Db, order: seq<TicketId>, i: nat, tags: set<Tag>, p: PoolName)
    requires Listed(db, order) && i <= |order|
    ensures Unclaimed(cfg, db, tags, DemandAt(cfg, db, order, i).reserved, p)
            <==> Left(cfg, db, tags, DemandAt(cfg, db, order, |order|).reserved, order, i, p)
    ensures Startable(cfg, db, tags, PlanAt(cfg, db, order, i).startedFor, p)
            <==> MayStart(cfg, db, tags, PlanAt(cfg, db, order, |order|).startedFor, order, i, p)
  {
    EarlierIs(cfg, db, order, i, p);
    hide DemandAt, PlanAt, CanServe, Full, Present, For, Earlier;
  }

  /** Who counts on a resource that exists, and in which pool. */
  ghost predicate ClaimIs(cfg: Config, db: Db, order: seq<TicketId>, i: nat, claimed: map<TicketId, PoolName>)
    requires i < |order| && order[i] in db.tickets
  {
    var t, tags := order[i], db.tickets[order[i]].tags;
    && (t in claimed <==> Concerns(cfg, tags) && exists p :: Left(cfg, db, tags, claimed, order, i, p))
    && (t in claimed ==>
          && Left(cfg, db, tags, claimed, order, i, claimed[t])
          && forall q :: q < claimed[t] ==> !Left(cfg, db, tags, claimed, order, i, q))
  }

  /** For whom a resource is started, and in which pool. */
  ghost predicate StartIs(cfg: Config, db: Db, order: seq<TicketId>, i: nat, claimed: map<TicketId, PoolName>,
                          started: map<TicketId, PoolName>)
    requires i < |order| && order[i] in db.tickets
  {
    var t, tags := order[i], db.tickets[order[i]].tags;
    && (t in started <==>
          && Concerns(cfg, tags) && t !in claimed
          && exists p :: MayStart(cfg, db, tags, started, order, i, p))
    && (t in started ==>
          && MayStart(cfg, db, tags, started, order, i, started[t])
          && forall q :: q != started[t] && MayStart(cfg, db, tags, started, order, i, q) ==>
               Better(cfg, tags, started[t], q))
  }

  lemma TicketClaims(cfg: Config, db: Db, order: seq<TicketId>, i: nat)
    requires Listed(db, order) && i < |order|
    ensures order[i] in db.tickets && ClaimIs(cfg, db, order, i, DemandAt(cfg, db, order, |order|).reserved)
  {
    var t := order[i];
    var tags := db.tickets[t].tags;
    Kept(cfg, db, order, i + 1, |order|);
    DemandFits(cfg, db, order, i);
    OneDemand(cfg, db, order, i);
    PrefixListed(db, order, i);
    forall p { TermsAgree(cfg, db, order, i, tags, p); }
    assert t in order[..i + 1];
    hide DemandAt, PlanAt, Unclaimed, Startable, Left, MayStart, For, Present, Concerns, OnDemandPools;
  }

  lemma TicketStarts(cfg: Config, db: Db, order: seq<TicketId>, i: nat)
    requires Listed(db, order) && i < |order|
    ensures order[i] in db.tickets
    ensures StartIs(cfg, db, order, i, DemandAt(cfg, db, order, |order|).reserved,
                    PlanAt(cfg, db, order, |order|).startedFor)
  {
    var t := order[i];
    var tags := db.tickets[t].tags;
    Kept(cfg, db, order, i + 1, |order|);
    DemandFits(cfg, db, order, i);
    PlanAtFits(cfg, db, order, i);
    OneDemand(cfg, db, order, i);
    OnePlan(cfg, db, order, i);
    PrefixListed(db, order, i);
    forall p { TermsAgree(cfg, db, order, i, tags, p); }
    assert t in order[..i + 1];
    hide DemandAt, PlanAt, Unclaimed, Startable, Left, MayStart, For, Present, Concerns, OnDemandPools, Better;
  }

  lemma Whole(cfg: Config, db: Db, order: seq<TicketId>)
    requires WaitingOrder(db, order)
    ensures Listed(db, order)
    ensures DemandAt(cfg, db, order, |order|) == Reserve(cfg, db, order)
    ensures PlanAt(cfg, db, order, |order|) == Decide(cfg, db, order)
  {
    hide Reserve, MakePlan;
    assert order[..|order|] == order;
  }

  /**
   What the decision is.  A ticket counts on a resource that exists if some pool that can serve it has
   more of them than tickets before count on, and then on the first such pool by name.  Otherwise a
   resource is started for it if such a pool has both quotas left, after the starts for the tickets
   before, and then in the best of them.  And so many are started in each pool.
   */
  lemma DecisionIs(cfg: Config, db: Db, order: seq<TicketId>)
    requires WaitingOrder(db, order)
    ensures var claimed, plan := Reserve(cfg, db, order).reserved, Decide(cfg, db, order);
      && (forall i :: 0 <= i < |order| ==>
            && order[i] in db.tickets && ClaimIs(cfg, db, order, i, claimed)
            && StartIs(cfg, db, order, i, claimed, plan.startedFor))
      && (forall p :: p in plan.starts <==> p in cfg.pools && cfg.pools[p].tagsOnDemand != [])
      && (forall p :: p in plan.starts ==> plan.starts[p] == |For(plan.startedFor, p)|)
      && (forall t :: t in plan.startedFor ==> t in order)
  {
    Whole(cfg, db, order);
    hide ClaimIs, StartIs, Reserve, MakePlan, DemandAt, PlanAt, Decide, WaitingOrder, For;
    forall i | 0 <= i < |order|
      ensures order[i] in db.tickets && ClaimIs(cfg, db, order, i, Reserve(cfg, db, order).reserved)
      ensures StartIs(cfg, db, order, i, Reserve(cfg, db, order).reserved, Decide(cfg, db, order).startedFor)
    {
      TicketClaims(cfg, db, order, i);
      TicketStarts(cfg, db, order, i);
    }
    PlanAtFits(cfg, db, order, |order|);
    DemandFits(cfg, db, order, |order|);
    PoolsDistinct(cfg);
    hide OnDemandPools;
  }

  lemma FullGrows(cfg: Config, db: Db, tags: set<Tag>, m: map<TicketId, PoolName>, order: seq<TicketId>, i: nat,
                  p: PoolName)
    requires i <= |order| && CanServe(cfg, tags, p) && !MayStart(cfg, db, tags, m, order, i, p)
    ensures p in cfg.pools && cfg.pools[p].tagsOnDemand != [] && Full(cfg, db, p, |For(m, p)|)
  {
    SubsetSize(Earlier(m, p, order, i), For(m, p));
    hide Earlier, For;
  }

  /**
   Nobody is forgotten: a waiting ticket that asks for an on-demand tag and can be served counts on a
   resource or triggers a start, unless every pool that can serve it ends up with a quota reached.
   */
  lemma NobodyIsForgotten(cfg: Config, db: Db, order: seq<TicketId>, t: TicketId)
    requires WaitingOrder(db, order) && t in db.tickets && Waiting(db.tickets[t]) && Concerns(cfg, db.tickets[t].tags)
    ensures var plan := Decide(cfg, db, order);
      || t in Reserve(cfg, db, order).reserved
      || t in plan.startedFor
      || forall p :: CanServe(cfg, db.tickets[t].tags, p) ==>
           p in plan.starts && p in cfg.pools && Full(cfg, db, p, plan.starts[p])
  {
    DecisionIs(cfg, db, order);
    var i :| 0 <= i < |order| && order[i] == t;
    var tags, plan := db.tickets[t].tags, Decide(cfg, db, order);
    hide Decide, Reserve, WaitingOrder, ClaimIs, Concerns, For, CanServe, Full, MayStart, Better;
    assert StartIs(cfg, db, order, i, Reserve(cfg, db, order).reserved, plan.startedFor);
    if t !in plan.startedFor && t !in Reserve(cfg, db, order).reserved {
      forall p | CanServe(cfg, tags, p)
        ensures p in plan.starts && p in cfg.pools && Full(cfg, db, p, plan.starts[p])
      {
        FullGrows(cfg, db, tags, plan.startedFor, order, i, p);
      }
    }
  }
}
