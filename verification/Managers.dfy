/**
 Class `Manager` of `resallocserver/manager.py`: the queue of tickets, the choice of a resource for
 a ticket, and the decision where to start on-demand resources, with the loops and priority queues
 of that file.  Each is proved to compute the function of module `Assignment` or `OnDemand`.
 */
module Managers {
  import opened Collections
  import opened Tables
  import opened Databases
  import opened Pools
  import PriorityQueues
  import Serving
  import Logic
  import Assignment
  import OnDemand

  const ON_DEMAND_PRIORITY := 10

  /* ---- `_assign_tickets` ---- */

  function TicketPriority(db: Db, onDemand: set<Tag>, t: TicketId): int
    requires t in db.tickets
  {
    if Assignment.ComesFirst(db, onDemand, t) then ON_DEMAND_PRIORITY else 0
  }

  /** The first transaction: the tickets to serve, and the resources that are ready now. */
  method GatherQueue(db: Database, onDemand: set<Tag>)
    returns (queue: PriorityQueues.PriorityQueue, resourceIds: set<ResourceId>)
    ensures queue.Valid() && fresh(queue) && fresh(queue.entries)
    // popping until the queue is empty gives the order of service
    ensures Serving.Drains(queue.live, Assignment.ServiceOrder(db.Value(), onDemand))
    ensures resourceIds == Assignment.ReadyNow(db.Value())
  {
    hide Ascending, Logic.AllWaiting, Logic.WaitingOn, InQueue, PriorityQueues.Represents, Increasing, Lists,
         Serving.Drains;
    ghost var d := db.Value();
    var waiting := ListAscending(Logic.AllWaiting(db.Value()));
    queue := new PriorityQueues.PriorityQueue();
    NothingInQueue(d, onDemand, waiting);
    for i := 0 to |waiting|
      invariant db.Value() == d && queue.Valid() && fresh(queue) && fresh(queue.entries) && queue.counter == i
      invariant InQueue(d, onDemand, waiting, i, queue.live)
    {
      var t := waiting[i];
      WaitingInTable(d, waiting, i);
      OneMoreInQueue(d, onDemand, waiting, i, queue.live);
      var onDemandTicket := db.tickets[t].tags * onDemand != {};
      queue.AddTask(t, if onDemandTicket then ON_DEMAND_PRIORITY else 0);
    }
    QueueIsServiceOrder(d, onDemand, waiting, queue.live);
    resourceIds := Assignment.ReadyNow(db.Value());
  }

  lemma WaitingInTable(db: Db, waiting: seq<TicketId>, i: nat)
    requires waiting == Ascending(Logic.AllWaiting(db)) && i < |waiting|
    ensures waiting[i] in db.tickets
  {
    assert waiting[i] in waiting;
  }

  /** The first `n` tickets are in the queue, the `j`-th under number `j`. */
  ghost predicate InQueue(db: Db, onDemand: set<Tag>, waiting: seq<TicketId>, n: nat, live: map<TicketId, Serving.Item>)
  {
    && n <= |waiting|
    && (forall t :: t in live <==> t in waiting[..n])
    && (forall j :: 0 <= j < n ==>
          waiting[j] in live && waiting[j] in db.tickets &&
          live[waiting[j]] == Serving.Item(TicketPriority(db, onDemand, waiting[j]), j))
  }

  lemma NothingInQueue(db: Db, onDemand: set<Tag>, waiting: seq<TicketId>)
    ensures InQueue(db, onDemand, waiting, 0, map[])
  {
  }

  lemma OneMoreInQueue(db: Db, onDemand: set<Tag>, waiting: seq<TicketId>, n: nat, live: map<TicketId, Serving.Item>)
    requires InQueue(db, onDemand, waiting, n, live) && n < |waiting| && waiting[n] in db.tickets && Increasing(waiting)
    ensures InQueue(db, onDemand, waiting, n + 1,
                    live[waiting[n] := Serving.Item(TicketPriority(db, onDemand, waiting[n]), n)])
  {
    assert waiting[..n + 1] == waiting[..n] + [waiting[n]];
  }

  lemma QueueIsServiceOrder(db: Db, onDemand: set<Tag>, waiting: seq<TicketId>, live: map<TicketId, Serving.Item>)
    requires InQueue(db, onDemand, waiting, |waiting|, live)
    requires Increasing(waiting) && Lists(waiting, Logic.AllWaiting(db))
    ensures Serving.Drains(live, Assignment.ServiceOrder(db, onDemand))
  {
    Assignment.OrderOfService(db, onDemand);
    var q := Assignment.ServiceOrder(db, onDemand);
    assert waiting[..|waiting|] == waiting;
    forall t ensures t in q <==> t in live { assert t in waiting <==> t in Logic.AllWaiting(db); }
    hide Assignment.ServiceOrder, Assignment.ComesFirst, Logic.AllWaiting, InQueue;
    forall i, j | 0 <= i < j < |q|
      ensures q[i] in live && q[j] in live && q[i] != q[j] && Serving.Ahead(live[q[i]], live[q[j]])
    {
      assert q[i] in q && q[j] in q;
      InOrder(db, onDemand, waiting, live, q[i], q[j]);
    }
    Serving.OrderIsDrain(live, q);
  }

  lemma InOrder(db: Db, onDemand: set<Tag>, waiting: seq<TicketId>, live: map<TicketId, Serving.Item>, t: TicketId,
                u: TicketId)
    requires InQueue(db, onDemand, waiting, |waiting|, live) && Increasing(waiting)
    requires t in live && u in live && t in db.tickets && u in db.tickets
    requires if Assignment.ComesFirst(db, onDemand, t) == Assignment.ComesFirst(db, onDemand, u) then t < u
             else Assignment.ComesFirst(db, onDemand, t)
    ensures t != u && Serving.Ahead(live[t], live[u])
  {
    hide Assignment.ComesFirst;
    assert waiting[..|waiting|] == waiting;
    var a :| 0 <= a < |waiting| && waiting[a] == t;
    var b :| 0 <= b < |waiting| && waiting[b] == u;
  }

  /* ---- one ticket of `_assign_tickets` ---- */

  /** The sum of the priorities of the asked tags, and the bonus for a sandboxed resource. */
  method PriorityOf(row: Resource, ticketTags: set<Tag>) returns (priority: int)
    ensures priority == Assignment.Rank(row, ticketTags)
  {
    priority := 0;
    var tags := row.tags.Keys;
    while tags != {}
      invariant tags <= row.tags.Keys
      invariant priority + Sum(tags * ticketTags, Assignment.TagPriority(row)) ==
                Sum(row.tags.Keys * ticketTags, Assignment.TagPriority(row))
      decreases tags
    {
      var tag :| tag in tags;
      if tag in ticketTags {
        SumRemove(tags * ticketTags, Assignment.TagPriority(row), tag);
        assert tags * ticketTags - {tag} == (tags - {tag}) * ticketTags;
        priority := priority + row.tags[tag];
      } else {
        assert tags * ticketTags == (tags - {tag}) * ticketTags;
      }
      tags := tags - {tag};
    }
    assert tags * ticketTags == {};
    if !row.sandbox.NoSandbox? {
      priority := priority + Assignment.REUSED_RESOURCE_PRIORITY;
    }
  }

  /** The suitable ones among the first `n` ready resources are queued by rank, in the order of their ids. */
  ghost predicate Ranked(db: Db, snapshot: set<ResourceId>, t: Ticket, ready: seq<ResourceId>, n: nat,
                         live: map<ResourceId, Serving.Item>, counter: nat)
  {
    && n <= |ready|
    && (forall r :: r in live <==> r in ready[..n] && Assignment.Suitable(db, snapshot, t, r))
    && (forall r :: r in live ==> r in db.resources && live[r].number < counter
                                  && live[r].priority == Assignment.Rank(db.resources[r], t.tags))
    && (forall r, o :: r in live && o in live && r < o ==> live[r].number < live[o].number)
  }

  lemma NoneRanked(db: Db, snapshot: set<ResourceId>, t: Ticket, ready: seq<ResourceId>)
    ensures Ranked(db, snapshot, t, ready, 0, map[], 0)
  {
  }

  lemma OneMoreRanked(db: Db, snapshot: set<ResourceId>, t: Ticket, ready: seq<ResourceId>, n: nat,
                      live: map<ResourceId, Serving.Item>, counter: nat)
    requires Ranked(db, snapshot, t, ready, n, live, counter) && n < |ready| && Increasing(ready)
      && ready[n] in db.resources
    ensures var r := ready[n];
      if Assignment.Suitable(db, snapshot, t, r)
      then Ranked(db, snapshot, t, ready, n + 1,
                  live[r := Serving.Item(Assignment.Rank(db.resources[r], t.tags), counter)], counter + 1)
      else Ranked(db, snapshot, t, ready, n + 1, live, counter)
  {
    hide Assignment.Suitable, Assignment.Rank;
    assert ready[..n + 1] == ready[..n] + [ready[n]];
    forall o | o in live ensures o < ready[n] {
      assert o in ready[..n];
    }
  }

  lemma RankedDecides(db: Db, snapshot: set<ResourceId>, t: TicketId, ready: seq<ResourceId>,
                      live: map<ResourceId, Serving.Item>, counter: nat, popped: Option<ResourceId>)
    requires t in db.tickets && Lists(ready, Assignment.ReadyNow(db))
    requires Ranked(db, snapshot, db.tickets[t], ready, |ready|, live, counter)
    requires popped.None? <==> live == map[]
    requires popped.Some? ==> Serving.First(live, popped.value)
    ensures popped == Assignment.Choice(db, snapshot, t)
  {
    assert ready[..|ready|] == ready;
    forall r | Assignment.Suitable(db, snapshot, db.tickets[t], r) ensures r in live && r in db.resources {
      assert r in ready;
    }
    forall r | r in live ensures Assignment.Suitable(db, snapshot, db.tickets[t], r) && r in db.resources {}
    hide Assignment.Rank, Assignment.Suitable;
    Assignment.ServedIffPossible(db, snapshot, t);
    if popped.Some? {
      var r := popped.value;
      forall o | o != r && Assignment.Suitable(db, snapshot, db.tickets[t], o)
        ensures Assignment.Preferred(db, db.tickets[t].tags, r, o)
      {
        assert Serving.Ahead(live[r], live[o]);
        assert o < r ==> live[o].number < live[r].number;
      }
      assert Assignment.IsChoice(db, snapshot, db.tickets[t], r);
      Assignment.ChoiceIsUnique(db, snapshot, db.tickets[t], r, Assignment.Choice(db, snapshot, t).value);
    }
  }

  /** One round of the loop: the ticket gets the resource of its choice, if there is one. */
  method AssignNext(db: Database, resourceIds: set<ResourceId>, t: TicketId, now: Time, uuid: Sandbox)
    returns (served: bool)
    requires t in db.tickets
    modifies db`resources, db`tickets
    ensures var choice := Assignment.Choice(old(db.Value()), resourceIds, t);
      && served == choice.Some?
      && db.Value() == if choice.Some? then Logic.AssignTicket(old(db.Value()), choice.value, t, now, uuid)
                       else old(db.Value())
  {
    hide Ascending, Lists, Increasing, Ranked, Assignment.Choice, Assignment.Rank, PriorityQueues.Represents,
         Serving.First;
    ghost var d := db.Value();
    var ticket := db.tickets[t];
    var resources := ListAscending(Assignment.ReadyNow(db.Value()));
    var queue := new PriorityQueues.PriorityQueue();
    NoneRanked(d, resourceIds, ticket, resources);
    for i := 0 to |resources|
      invariant db.Value() == d && queue.Valid() && fresh(queue) && fresh(queue.entries)
      invariant Ranked(d, resourceIds, ticket, resources, i, queue.live, queue.counter)
    {
      var r := resources[i];
      ReadyInTable(d, resources, i);
      OneMoreRanked(d, resourceIds, ticket, resources, i, queue.live, queue.counter);
      if r !in resourceIds {
        continue;
      }
      var row := db.resources[r];
      if !row.sandbox.NoSandbox? && row.sandbox != ticket.sandbox {
        continue;
      }
      if !(ticket.tags <= row.tags.Keys) {
        continue;
      }
      var priority := PriorityOf(row, ticket.tags);
      queue.AddTask(r, priority);
    }
    ghost var live, counter := queue.live, queue.counter;
    var popped := queue.PopTask();
    RankedDecides(d, resourceIds, t, resources, live, counter, popped);
    if popped.None? {
      return false;
    }
    var _ := db.AssignTicket(popped.value, t, now, uuid);
    return true;
  }

  lemma ReadyInTable(db: Db, ready: seq<ResourceId>, i: nat)
    requires ready == Ascending(Assignment.ReadyNow(db)) && i < |ready|
    ensures ready[i] in db.resources && Ready(db.resources[ready[i]])
  {
    assert ready[i] in ready;
  }

  /* ---- `_decide_where_to_start_on_demand_instances` ---- */

  /** The pool objects are those of the configuration. */
  ghost predicate PoolsFit(cfg: Config, pools: map<PoolName, Pool>) {
    && pools.Keys == cfg.pools.Keys
    && (forall p :: p in pools ==> pools[p].name == p && pools[p].config == cfg.pools[p])
  }

  /** The inner loop of the first part: a pool that likely has a resource for the tags already. */
  method FindSpare(cfg: Config, pools: map<PoolName, Pool>, poolsOnDemand: seq<PoolName>, tags: set<Tag>,
                   existing: map<PoolName, nat>)
    returns (spare: Option<PoolName>, capable: bool)
    requires PoolsFit(cfg, pools)
    requires forall p :: p in poolsOnDemand ==> p in pools && p in existing
    ensures spare == OnDemand.Spare(cfg, poolsOnDemand, tags, existing)
    ensures capable <==> OnDemand.Coverable(cfg, poolsOnDemand, tags)
    ensures spare.Some? ==> capable
  {
    capable := false;
    for i := 0 to |poolsOnDemand|
      invariant OnDemand.Spare(cfg, poolsOnDemand, tags, existing)
                == OnDemand.Spare(cfg, poolsOnDemand[i..], tags, existing)
      invariant capable <==> OnDemand.Coverable(cfg, poolsOnDemand[..i], tags)
    {
      var p := poolsOnDemand[i];
      assert p in poolsOnDemand && poolsOnDemand[..i + 1] == poolsOnDemand[..i] + [p];
      assert poolsOnDemand[i..][0] == p && poolsOnDemand[i..][1..] == poolsOnDemand[i + 1..];
      var priority := pools[p].GetTagsPriority(tags);
      if priority.None? {
        continue;
      }
      capable := true;
      if existing[p] > 0 {
        return Some(p), true;
      }
    }
    assert poolsOnDemand[..|poolsOnDemand|] == poolsOnDemand;
    return None, capable;
  }

  /** The first part: the waiting tickets to start resources for. */
  method TicketsToSolve(cfg: Config, db: Database, pools: map<PoolName, Pool>, poolsOnDemand: seq<PoolName>,
                        order: seq<TicketId>)
    returns (toSolve: seq<TicketId>)
    requires PoolsFit(cfg, pools) && poolsOnDemand == OnDemand.OnDemandPools(cfg)
    requires forall t :: t in order ==> t in db.tickets
    ensures toSolve == OnDemand.Reserve(cfg, db.Value(), order).toSolve
  {
    hide OnDemand.OnDemandPools, OnDemand.Spare, OnDemand.Existing, OnDemand.Coverable, OnDemand.Reserve,
         OnDemand.Covers;
    ghost var d := db.Value();
    OnDemand.PoolsDistinct(cfg);
    OnDemand.ReserveNone(cfg, d);
    var existing := map p | p in poolsOnDemand :: OnDemand.Existing(db.Value(), p);
    var onDemandTags := OnDemand.OnDemandTags(cfg);
    toSolve := [];
    assert order[..0] == [] && order[..|order|] == order;
    for i := 0 to |order|
      invariant existing == OnDemand.Reserve(cfg, d, order[..i]).existing
        && toSolve == OnDemand.Reserve(cfg, d, order[..i]).toSolve
      invariant forall p :: p in poolsOnDemand ==> p in existing
    {
      var t := order[i];
      assert t in order;
      OnDemand.ReserveNext(cfg, d, order, i);
      OnDemand.SpareIsSpare(cfg, poolsOnDemand, db.tickets[t].tags, existing);
      if db.tickets[t].tags * onDemandTags == {} {
        continue;
      }
      var spare, capable := FindSpare(cfg, pools, poolsOnDemand, db.tickets[t].tags, existing);
      if spare.Some? {
        existing := existing[spare.value := existing[spare.value] - 1];
        continue;
      }
      if !capable {
        continue;
      }
      toSolve := toSolve + [t];
    }
  }

  /** The capable pools among the first `n` are queued by priority, in the order of the list. */
  ghost predicate Offered(cfg: Config, pools: seq<PoolName>, tags: set<Tag>, n: nat, live: map<PoolName, Serving.Item>,
                          counter: nat)
  {
    && n <= |pools|
    && (forall p :: p in live <==> p in pools[..n] && p in cfg.pools && OnDemand.Covers(cfg.pools[p], tags))
    && (forall p :: p in live ==>
              live[p].priority == OnDemand.Score(cfg.pools[p].TagsAll(), tags) && live[p].number < counter)
    && (forall i, j :: 0 <= i < j < n && pools[i] in live && pools[j] in live ==>
              live[pools[i]].number < live[pools[j]].number)
  }

  lemma NoneOffered(cfg: Config, pools: seq<PoolName>, tags: set<Tag>)
    ensures Offered(cfg, pools, tags, 0, map[], 0)
  {
  }

  lemma OneMoreOffered(cfg: Config, pools: seq<PoolName>, tags: set<Tag>, n: nat, live: map<PoolName, Serving.Item>,
                       counter: nat)
    requires Offered(cfg, pools, tags, n, live, counter) && n < |pools| && pools[n] in cfg.pools
    requires forall i, j :: 0 <= i < j < |pools| ==> pools[i] != pools[j]
    ensures var p := pools[n];
      if OnDemand.Covers(cfg.pools[p], tags)
      then Offered(cfg, pools, tags, n + 1,
                   live[p := Serving.Item(OnDemand.Score(cfg.pools[p].TagsAll(), tags), counter)], counter + 1)
      else Offered(cfg, pools, tags, n + 1, live, counter)
  {
    hide OnDemand.Covers, OnDemand.Score;
    assert pools[..n + 1] == pools[..n] + [pools[n]];
    forall i | 0 <= i < n ensures pools[i] != pools[n] && pools[i] in pools[..n] { assert pools[i] == pools[..n][i]; }
  }

  /** Popping the offers until one has room picks the best usable pool. */
  lemma OfferDecides(cfg: Config, db: Db, pools: seq<PoolName>, tags: set<Tag>, starts: map<PoolName, nat>,
                     all: map<PoolName, Serving.Item>, counter: nat, left: map<PoolName, Serving.Item>, p: PoolName)
    requires Offered(cfg, pools, tags, |pools|, all, counter) && starts.Keys == (set q | q in pools)
    requires forall i, j :: 0 <= i < j < |pools| ==> pools[i] != pools[j]
    requires forall q :: q in left ==> q in all && left[q] == all[q]
    requires forall q :: q in all && q !in left ==> !OnDemand.Usable(cfg, db, q, tags, starts)
    requires p in left && Serving.First(left, p) && OnDemand.Usable(cfg, db, p, tags, starts)
    ensures OnDemand.PickPool(cfg, db, pools, tags, starts) == Some(p)
  {
    hide OnDemand.Covers, OnDemand.Score, OnDemand.Room, OnDemand.PickPool;
    assert pools[..|pools|] == pools;
    var i :| 0 <= i < |pools| && pools[i] == p;
    forall j | 0 <= j < |pools| && OnDemand.Usable(cfg, db, pools[j], tags, starts)
      ensures var a := OnDemand.Score(cfg.pools[p].TagsAll(), tags);
              var b := OnDemand.Score(cfg.pools[pools[j]].TagsAll(), tags);
              a > b || (a == b && i <= j)
    {
      assert pools[j] in pools && pools[j] in left;
      assert j < i ==> all[pools[j]].number < all[pools[i]].number;
    }
    assert OnDemand.BestAt(cfg, db, pools, tags, starts, i);
    hide Offered, OnDemand.Usable, OnDemand.BestAt;
    OnDemand.BestIsPicked(cfg, db, pools, tags, starts, p);
  }

  lemma NoOfferDecides(cfg: Config, db: Db, pools: seq<PoolName>, tags: set<Tag>, starts: map<PoolName, nat>,
                       all: map<PoolName, Serving.Item>, counter: nat)
    requires Offered(cfg, pools, tags, |pools|, all, counter)
    requires forall i, j :: 0 <= i < j < |pools| ==> pools[i] != pools[j]
    requires forall q :: q in all ==> !OnDemand.Usable(cfg, db, q, tags, starts)
    ensures OnDemand.PickPool(cfg, db, pools, tags, starts) == None
  {
    hide OnDemand.Score, OnDemand.Room, OnDemand.PickPool, OnDemand.Covers;
    assert pools[..|pools|] == pools;
    OnDemand.PickIsBest(cfg, db, pools, tags, starts);
  }

  /** The on-demand pools of the configuration, and how many starts each of them has planned. */
  ghost predicate PlanShown(cfg: Config, pools: map<PoolName, Pool>, poolsOnDemand: seq<PoolName>,
                            starts: map<PoolName, nat>)
    reads pools.Values
  {
    && poolsOnDemand == OnDemand.OnDemandPools(cfg)
    && starts.Keys == (set q | q in poolsOnDemand)
    && (forall p :: p in poolsOnDemand ==> p in pools && pools[p].startOnDemandThisCycle == starts[p])
  }

  /** The priority queue of the pools that have all the tags. */
  method OfferPools(cfg: Config, pools: map<PoolName, Pool>, poolsOnDemand: seq<PoolName>, tags: set<Tag>)
    returns (queue: PriorityQueues.PriorityQueue)
    requires PoolsFit(cfg, pools) && poolsOnDemand == OnDemand.OnDemandPools(cfg)
    ensures queue.Valid() && fresh(queue) && fresh(queue.entries)
    ensures Offered(cfg, poolsOnDemand, tags, |poolsOnDemand|, queue.live, queue.counter)
  {
    hide OnDemand.OnDemandPools, OnDemand.Covers, OnDemand.Score, Offered, PriorityQueues.Represents;
    queue := new PriorityQueues.PriorityQueue();
    OnDemand.PoolsDistinct(cfg);
    NoneOffered(cfg, poolsOnDemand, tags);
    for i := 0 to |poolsOnDemand|
      invariant queue.Valid() && fresh(queue) && fresh(queue.entries)
      invariant Offered(cfg, poolsOnDemand, tags, i, queue.live, queue.counter)
    {
      var p := poolsOnDemand[i];
      assert p in poolsOnDemand;
      OneMoreOffered(cfg, poolsOnDemand, tags, i, queue.live, queue.counter);
      var priority := pools[p].GetTagsPriority(tags);
      if priority.None? {
        continue;
      }
      queue.AddTask(p, priority.value);
    }
  }

  /** The first pool off the queue that has room. */
  method PopPool(cfg: Config, db: Database, pools: map<PoolName, Pool>, poolsOnDemand: seq<PoolName>, tags: set<Tag>,
                 queue: PriorityQueues.PriorityQueue, ghost starts: map<PoolName, nat>)
    returns (chosen: Option<PoolName>)
    requires PoolsFit(cfg, pools) && PlanShown(cfg, pools, poolsOnDemand, starts)
    requires queue.Valid() && Offered(cfg, poolsOnDemand, tags, |poolsOnDemand|, queue.live, queue.counter)
    modifies queue
    ensures chosen == OnDemand.PickPool(cfg, db.Value(), poolsOnDemand, tags, starts)
  {
    hide OnDemand.OnDemandPools, OnDemand.Covers, OnDemand.Score, Offered, OnDemand.PickPool, PriorityQueues.Represents,
         Logic.On, Logic.InState, OnDemand.Usable;
    ghost var all, counter := queue.live, queue.counter;
    OnDemand.PoolsDistinct(cfg);
    while true
      invariant queue.Valid()
      invariant forall q :: q in queue.live ==> q in all && queue.live[q] == all[q]
      invariant forall q :: q in all && q !in queue.live ==> !OnDemand.Usable(cfg, db.Value(), q, tags, starts)
      decreases queue.live
    {
      ghost var left := queue.live;
      var popped := queue.PopTask();
      if popped.None? {
        NoOfferDecides(cfg, db.Value(), poolsOnDemand, tags, starts, all, counter);
        return None;
      }
      var p := popped.value;
      OfferedIsPool(cfg, db.Value(), poolsOnDemand, tags, starts, all, counter, p);
      var start := pools[p].startOnDemandThisCycle;
      var stats := StatsOf(db.Value(), p);
      if start + stats.on >= pools[p].config.max || start + stats.start >= pools[p].config.maxStarting {
        continue;
      }
      OfferDecides(cfg, db.Value(), poolsOnDemand, tags, starts, all, counter, left, p);
      return Some(p);
    }
  }

  lemma OfferedIsPool(cfg: Config, db: Db, pools: seq<PoolName>, tags: set<Tag>, starts: map<PoolName, nat>,
                      live: map<PoolName, Serving.Item>, counter: nat, p: PoolName)
    requires Offered(cfg, pools, tags, |pools|, live, counter) && p in live && starts.Keys == (set q | q in pools)
    ensures p in pools && p in cfg.pools && p in starts
    ensures OnDemand.Usable(cfg, db, p, tags, starts) <==>
              starts[p] + |Logic.On(db, p)| < cfg.pools[p].max
              && starts[p] + |Logic.InState(db, p, STARTING)| < cfg.pools[p].maxStarting
  {
    assert pools[..|pools|] == pools;
    hide OnDemand.Covers, Logic.On, Logic.InState;
  }

  /** The body of the second loop: one ticket starts at most one resource, in the pool picked for it. */
  method StartForTicket(cfg: Config, db: Database, pools: map<PoolName, Pool>, poolsOnDemand: seq<PoolName>,
                        tags: set<Tag>, ghost starts: map<PoolName, nat>)
    requires PoolsFit(cfg, pools) && PlanShown(cfg, pools, poolsOnDemand, starts)
    modifies pools.Values
    ensures var pick := OnDemand.PickPool(cfg, db.Value(), poolsOnDemand, tags, starts);
      && (pick.Some? ==> pick.value in starts)
      && PlanShown(cfg, pools, poolsOnDemand,
                   if pick.Some? then starts[pick.value := starts[pick.value] + 1] else starts)
    ensures forall p :: p in pools && p !in poolsOnDemand ==>
            pools[p].startOnDemandThisCycle == old(pools[p].startOnDemandThisCycle)
  {
    hide OnDemand.OnDemandPools, OnDemand.PickPool, PriorityQueues.Represents, Offered, OnDemand.BestPool,
         OnDemand.Usable;
    var queue := OfferPools(cfg, pools, poolsOnDemand, tags);
    var chosen := PopPool(cfg, db, pools, poolsOnDemand, tags, queue, starts);
    if chosen.Some? {
      OnDemand.PoolsDistinct(cfg);
      OnDemand.PickIsBest(cfg, db.Value(), poolsOnDemand, tags, starts);
      PickedIsListed(cfg, db.Value(), poolsOnDemand, tags, starts, chosen.value);
      var pool := pools[chosen.value];
      pool.startOnDemandThisCycle := pool.startOnDemandThisCycle + 1;
    }
  }

  lemma PickedIsListed(cfg: Config, db: Db, pools: seq<PoolName>, tags: set<Tag>, starts: map<PoolName, nat>,
                       p: PoolName)
    requires OnDemand.BestPool(cfg, db, pools, tags, starts, p)
    ensures p in pools
  {
  }

  /** The second part: start resources for the tickets that are to be solved. */
  method StartForTickets(cfg: Config, db: Database, pools: map<PoolName, Pool>, poolsOnDemand: seq<PoolName>,
                         toSolve: seq<TicketId>)
    requires PoolsFit(cfg, pools) && forall t :: t in toSolve ==> t in db.tickets
    requires PlanShown(cfg, pools, poolsOnDemand, OnDemand.MakePlan(cfg, db.Value(), []).starts)
    modifies pools.Values
    ensures PlanShown(cfg, pools, poolsOnDemand, OnDemand.MakePlan(cfg, db.Value(), toSolve).starts)
    ensures forall p :: p in pools && p !in poolsOnDemand ==>
            pools[p].startOnDemandThisCycle == old(pools[p].startOnDemandThisCycle)
  {
    hide OnDemand.OnDemandPools, OnDemand.MakePlan, OnDemand.PickPool, PlanShown;
    ghost var d := db.Value();
    assert toSolve[..0] == [] && toSolve[..|toSolve|] == toSolve;
    for i := 0 to |toSolve|
      invariant PlanShown(cfg, pools, poolsOnDemand, OnDemand.MakePlan(cfg, d, toSolve[..i]).starts)
      invariant forall p :: p in pools && p !in poolsOnDemand ==>
                pools[p].startOnDemandThisCycle == old(pools[p].startOnDemandThisCycle)
    {
      OnDemand.MakePlanNext(cfg, d, toSolve, i);
      ShownPools(cfg, pools, poolsOnDemand, OnDemand.MakePlan(cfg, d, toSolve[..i]).starts);
      var tags := db.tickets[toSolve[i]].tags;
      StartForTicket(cfg, db, pools, poolsOnDemand, tags, OnDemand.MakePlan(cfg, d, toSolve[..i]).starts);
    }
  }

  lemma ShownPools(cfg: Config, pools: map<PoolName, Pool>, poolsOnDemand: seq<PoolName>, starts: map<PoolName, nat>)
    requires PlanShown(cfg, pools, poolsOnDemand, starts)
    ensures poolsOnDemand == OnDemand.OnDemandPools(cfg)
  {
    hide OnDemand.OnDemandPools;
  }

  /** The whole decision leaves `start_on_demand_this_cycle` of every on-demand pool as `OnDemand.Decide` says. */
  method DecideWhereToStart(cfg: Config, db: Database, pools: map<PoolName, Pool>, order: seq<TicketId>)
    requires PoolsFit(cfg, pools) && OnDemand.WaitingOrder(db.Value(), order)
    requires forall p :: p in pools ==> pools[p].startOnDemandThisCycle == 0
    modifies pools.Values
    ensures PlanShown(cfg, pools, OnDemand.OnDemandPools(cfg), OnDemand.Decide(cfg, old(db.Value()), order).starts)
    ensures forall p :: p in pools && p !in OnDemand.OnDemandPools(cfg) ==>
            pools[p].startOnDemandThisCycle == old(pools[p].startOnDemandThisCycle)
  {
    var poolsOnDemand := ListAscending(set p | p in cfg.pools && cfg.pools[p].tagsOnDemand != []);
    assert poolsOnDemand == OnDemand.OnDemandPools(cfg);
    hide OnDemand.OnDemandPools, OnDemand.MakePlan, OnDemand.Reserve, OnDemand.Counted, OnDemand.PlanOk,
         OnDemand.PlanFits, PlanShown, PoolsFit;
    OnDemand.ToSolveFromOrder(cfg, db.Value(), order);
    var toSolve := TicketsToSolve(cfg, db, pools, poolsOnDemand, order);
    NoPlanShown(cfg, db.Value(), pools, poolsOnDemand);
    StartForTickets(cfg, db, pools, poolsOnDemand, toSolve);
  }

  lemma NoPlanShown(cfg: Config, db: Db, pools: map<PoolName, Pool>, poolsOnDemand: seq<PoolName>)
    requires PoolsFit(cfg, pools) && poolsOnDemand == OnDemand.OnDemandPools(cfg)
    requires forall p :: p in pools ==> pools[p].startOnDemandThisCycle == 0
    ensures PlanShown(cfg, pools, poolsOnDemand, OnDemand.MakePlan(cfg, db, []).starts)
  {
    OnDemand.PoolsDistinct(cfg);
    OnDemand.MakePlanNone(cfg, db);
    hide OnDemand.OnDemandPools, OnDemand.MakePlan;
  }
}
