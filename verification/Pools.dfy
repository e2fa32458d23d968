/**
 Class `Pool` of `resallocserver/manager.py`: the loops that bring one pool up to date.  Each method
 is proved to compute the transaction of module `Logic` or the function of module `OnDemand`.
 */
module Pools {
  import opened Collections
  import opened Tables
  import opened Databases
  import Logic
  import OnDemand
  import Protocol

  /** `_find_smallest_number` */
  method FindSmallestNumber(used: set<nat>) returns (tryId: nat)
    ensures SmallestFree(used, tryId)
    ensures tryId <= |used|
  {
    tryId := 0;
    ghost var tried := {};
    while tryId in used
      invariant tried <= used && forall k: nat :: k in tried <==> k < tryId
      decreases used - tried
    {
      tried := tried + {tryId};
      tryId := tryId + 1;
    }
    SmallestFreeBound(used, tryId);
  }

  predicate IsCandidate(res: Resource) { res.state == UP && res.ticket.None? && res.releasedAt.Some? }

  lemma CandidateRows(db: Db, p: PoolName, c: PoolConfig, now: Time)
    ensures Logic.WornOut(db, p, c, now) <= Logic.CleanCandidates(db, p)
    ensures forall r :: r in Logic.CleanCandidates(db, p) ==>
      && r in db.resources && IsCandidate(db.resources[r])
      && (r in Logic.WornOut(db, p, c, now) <==> Logic.Worn(db.resources[r], c, now))
  {
  }

  class Pool {
    const name: PoolName
    const config: PoolConfig
    var startOnDemandThisCycle: int

    constructor (name: PoolName, config: PoolConfig)
      ensures this.name == name && this.config == config && startOnDemandThisCycle == 0
    {
      this.name, this.config, startOnDemandThisCycle := name, config, 0;
    }

    /** `get_tags_priority`: a priority if and only if the pool provides every tag that is asked for. */
    method GetTagsPriority(queried: set<Tag>) returns (result: Option<int>)
      ensures result.Some? <==> OnDemand.Covers(config, queried)
      ensures result.Some? ==> result.value == OnDemand.Score(config.TagsAll(), queried)
    {
      var priority, foundTags := 0, {};
      var tags := config.TagsAll();
      for i := 0 to |tags|
        invariant priority == OnDemand.Score(tags[..i], queried)
        invariant foundTags == OnDemand.Found(tags[..i], queried)
      {
        OnDemand.OneMoreTag(tags, i, queried);
        if tags[i].name in queried {
          priority := priority + tags[i].priority;
          foundTags := foundTags + {tags[i].name};
        }
      }
      assert tags[..|tags|] == tags;
      OnDemand.FoundAllIffCovers(config, queried);
      if foundTags == queried {
        return Some(priority);
      }
      return None;
    }

    /** The guards at the head of the loop of `_allocate_more_resources`. */
    method MayAllocate(db: Database) returns (may: bool)
      ensures may <==> Protocol.MayStart(config, db.Value(), name, startOnDemandThisCycle)
    {
      var stats := StatsOf(db.Value(), name);
      if stats.on >= config.max {
        return false;
      }
      if config.maxPrealloc != 0 {
        if stats.free + stats.start >= config.maxPrealloc {
          return false;
        }
      } else if startOnDemandThisCycle <= 0 {
        return false;
      }
      may := !(stats.start >= config.maxStarting);
    }

    /** `allocate`; `r` and `resourceName` are the new row's id and name. */
    method Allocate(db: Database, r: ResourceId, resourceName: Name, now: Time)
    returns (id: nat, values: map<Counter, nat>)
      requires r !in db.resources
      modifies db
      ensures Logic.SmallestNumbers(old(db.Value()), name, config.counters, id, values)
      ensures db.Value() == Logic.Allocate(old(db.Value()), name, r, resourceName, now, id, values)
    {
      ghost var before := db.Value();
      id := FindSmallestNumber(Logic.IdsTaken(db.Value(), name));
      values := map[];
      var names := config.counters;
      while names != {}
        invariant db.Value() == before
        invariant names <= config.counters && values.Keys == config.counters - names
        invariant forall c :: c in values ==> SmallestFree(Logic.ValuesTaken(before, c), values[c])
        decreases names
      {
        var c :| c in names;
        var found := FindSmallestNumber(Logic.ValuesTaken(db.Value(), c));
        values := values[c := found];
        names := names - {c};
      }
      db.lastStart := db.lastStart[name := now];
      db.resources := db.resources[r := Logic.NewRow(name, resourceName)];
      db.ids := db.ids[r := id];
      db.counters := db.counters[r := values];
    }
  
    /**
     `detect_closed_tickets`: returns the resources to start a ReleaseWorker for.  That the ticket of
     a taken resource knows the resource is an invariant of the server.
     */
    method DetectClosedTickets(db: Database, now: Time) returns (closeResources: seq<ResourceId>)
      requires Logic.TicketsKnow(db.Value(), name)
      modifies db`resources
      ensures db.Value() == Logic.DetectClosed(old(db.Value()), name, config.hasRelease, now)
      ensures closeResources == if config.hasRelease then Ascending(Logic.Closing(old(db.Value()), name)) else []
    {
      ghost var before, closing := db.Value(), Logic.Closing(db.Value(), name);
      var taken := ListAscending(Logic.Taken(db.Value(), name));
      closeResources := [];
      Logic.TakenRows(before, name);
      PickedEnds(taken, Logic.Taken(before, name), closing);
      Logic.DetectReleasesAll(before, name, config.hasRelease, now);
      hide Logic.Taken, Logic.Closing, Logic.ReleaseAll, Logic.Released, Picked, Logic.DetectClosed, Ascending,
           Logic.SameRows, Logic.SameNumbers, Logic.SameStarts, Increasing, Lists;
      PickedListNone(taken, closing);
      for i := 0 to |taken|
        invariant db.Value() == Logic.ReleaseAll(before, Picked(taken, i, closing), config.hasRelease, now)
        invariant config.hasRelease ==> Increasing(closeResources) && Lists(closeResources, Picked(taken, i, closing))
        invariant !config.hasRelease ==> closeResources == []
      {
        var r := taken[i];
        PickedNext(taken, i, closing);
        Logic.ReleaseOneMore(before, Picked(taken, i, closing), r, config.hasRelease, now);
        var t := db.resources[r].ticket.value;
        if t in db.tickets && db.tickets[t].state == CLOSED {
          db.ReleaseResource(t, now);
          if config.hasRelease {
            db.resources := db.resources[r := db.resources[r].(state := RELEASING)];
            PickedListGrows(taken, i, closing, closeResources);
            closeResources := closeResources + [r];
          }
        }
      }
      if config.hasRelease { AscendingUnique(closeResources, closing); }
    }

    /** The first loop of `_request_resource_removal`: kill what failed its checks too often. */
    method KillFailing(db: Database)
      modifies db
      ensures db.Value() == Logic.Kill(old(db.Value()), Logic.Failing(old(db.Value()), name, config.livecheckAttempts))
    {
      ghost var before, failing := db.Value(), Logic.Failing(db.Value(), name, config.livecheckAttempts);
      var candidates := ListAscending(Logic.CheckFailureCandidates(db.Value(), name));
      Logic.KillNone(before);
      Logic.Candidates(before, name, config.livecheckAttempts, {});
      PickedEnds(candidates, Logic.CheckFailureCandidates(before, name), failing);
      hide Logic.Kill, Logic.Failing, Logic.CheckFailureCandidates, Picked;
      for i := 0 to |candidates|
        invariant db.Value() == Logic.Kill(before, Picked(candidates, i, failing))
      {
        var r := candidates[i];
        PickedNext(candidates, i, failing);
        Logic.Candidates(before, name, config.livecheckAttempts, Picked(candidates, i, failing));
        if db.resources[r].failedChecks >= config.livecheckAttempts {
          Logic.KillOneMore(before, Picked(candidates, i, failing), r);
          db.Kill(r);
        }
      }
    }

    /** The second loop: what the reuse limits retire. */
    method RetireWorn(db: Database, now: Time)
      modifies db`resources
      ensures db.Value() == Logic.Retire(old(db.Value()), name, config, now)
    {
      ghost var before, wornOut := db.Value(), Logic.WornOut(db.Value(), name, config, now);
      var candidates := ListAscending(Logic.CleanCandidates(db.Value(), name));
      Logic.RequestDeleteNone(before);
      CandidateRows(before, name, config, now);
      PickedEnds(candidates, Logic.CleanCandidates(before, name), wornOut);
      hide Logic.RequestDelete, Logic.WornOut, Logic.CleanCandidates, Logic.Worn, Picked, IsCandidate, Logic.SameRows,
           Logic.SameTickets, Logic.SameNumbers, Logic.SameStarts, Logic.OnlyRow, Ascending, Increasing, Lists;
      for i := 0 to |candidates|
        invariant db.Value() == Logic.RequestDelete(before, Picked(candidates, i, wornOut))
      {
        var r := candidates[i];
        PickedNext(candidates, i, wornOut);
        Logic.RequestDeleteOneMore(before, Picked(candidates, i, wornOut), r);
        var worn := IsWorn(db.resources[r], now);
        if worn {
          db.resources := db.resources[r := db.resources[r].(state := DELETE_REQUEST)];
        }
      }
    }

    /** The chain of tests on one clean candidate. */
    method IsWorn(res: Resource, now: Time) returns (worn: bool)
      requires IsCandidate(res)
      ensures worn <==> Logic.Worn(res, config, now)
    {
      if config.reuseOpportunityTime == 0.0 {
        return true;
      }
      if res.releasedAt.value < now - config.reuseOpportunityTime {
        return true;
      }
      if config.reuseMaxTime != 0.0 {
        var lastAllowed := now - config.reuseMaxTime;
        if res.sandboxedSince.Some? && res.sandboxedSince.value < lastAllowed {
          return true;
        }
      }
      if config.reuseMaxCount != 0 && res.releases > config.reuseMaxCount {
        return true;
      }
      return false;
    }

    /** How many of the waiting tickets the pool can serve. */
    method CountWaiting(db: Database) returns (waitingOnUs: nat)
      ensures waitingOnUs == |Logic.WaitingOn(db.Value(), TagNames(config.TagsAll()))|
    {
      waitingOnUs := 0;
      var weProvide := TagNames(config.TagsAll());
      var waiting := ListAscending(Logic.AllWaiting(db.Value()));
      ghost var all, onUs := Logic.AllWaiting(db.Value()), Logic.WaitingOn(db.Value(), weProvide);
      Logic.WaitingOnUs(db.Value(), weProvide);
      PickedEnds(waiting, all, onUs);
      hide Logic.WaitingOn, Logic.AllWaiting, Picked;
      for i := 0 to |waiting|
        invariant waitingOnUs == |Picked(waiting, i, onUs)|
      {
        PickedNext(waiting, i, onUs);
        if db.tickets[waiting[i]].tags <= weProvide {
          waitingOnUs := waitingOnUs + 1;
        }
      }
    }

    /** `_request_on_demand_resources_removal` */
    method RequestOnDemandResourcesRemoval(db: Database)
      modifies db`resources
      ensures db.Value() == Logic.Trim(old(db.Value()), name, config)
    {
      if config.tagsOnDemand == [] {
        return;
      }
      var waitingOnUs := CountWaiting(db);
      var resources := ListAscending(Logic.Unused(db.Value(), name));
      hide Logic.Surplus, Logic.RequestDelete, Logic.Unused, Logic.WaitingOn;
      DeleteOldest(db, resources, waitingOnUs);
      Logic.SurplusIsPicked(old(db.Value()), name, config);
    }

    /** The loop that removes the resources that are too many. */
    method DeleteOldest(db: Database, resources: seq<ResourceId>, waitingOnUs: nat)
      requires resources == Ascending(Logic.Unused(db.Value(), name))
      modifies db`resources
      ensures db.Value() == Logic.RequestDelete(old(db.Value()),
                if |resources| <= waitingOnUs then {}
                else Picked(resources, |resources| - waitingOnUs, Logic.Unused(old(db.Value()), name)))
    {
      ghost var before, unused := db.Value(), Logic.Unused(db.Value(), name);
      var remove: int := |resources| - waitingOnUs;
      var removeItem := 0;
      Logic.RequestDeleteNone(before);
      assert unused <= before.resources.Keys;
      PickedEnds(resources, unused, unused);
      hide Logic.RequestDelete, Logic.Unused, Picked, Logic.SameRows, Logic.SameTickets, Logic.SameNumbers,
           Logic.SameStarts, Logic.OnlyRow, Ascending, Lists;
      while remove > 0
        invariant 0 <= removeItem <= |resources| && removeItem + remove == |resources| - waitingOnUs
        invariant removeItem == 0 || remove >= 0
        invariant db.Value() == Logic.RequestDelete(before, Picked(resources, removeItem, unused))
        decreases remove
      {
        var r := resources[removeItem];
        PickedNext(resources, removeItem, unused);
        Logic.RequestDeleteOneMore(before, Picked(resources, removeItem, unused), r);
        db.resources := db.resources[r := db.resources[r].(state := DELETE_REQUEST)];
        remove := remove - 1;
        removeItem := removeItem + 1;
      }
    }

    /** `_request_resource_removal` */
    method RequestResourceRemoval(db: Database, now: Time)
      modifies db
      ensures db.Value() == Logic.RequestRemoval(old(db.Value()), name, config, now)
    {
      KillFailing(db);
      RetireWorn(db, now);
      RequestOnDemandResourcesRemoval(db);
    }
  }
}
