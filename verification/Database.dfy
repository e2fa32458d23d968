/**
 The tables as the running server has them, and the functions of `resallocserver/logic.py` and
 `api.py` that update them in place.  A row that is changed in several steps is written back once,
 as a session does when it is flushed.  Each method is one transaction, or a part of one, and is
 proved to compute the transaction of module `Logic`.
 */
module Databases {
  import opened Collections
  import opened Tables
  import Logic

  /** `QResources.stats` */
  datatype Stats = Stats(on: nat, up: nat, ready: nat, taken: nat, start: nat, term: nat, released: nat, free: nat,
                         releasing: nat)

  function StatsOf(db: Db, p: PoolName): Stats {
    Stats(|Logic.On(db, p)|, |Logic.InState(db, p, UP)|, |Logic.Untaken(db, p)|, |Logic.Taken(db, p)|,
          |Logic.InState(db, p, STARTING)|, |Logic.InState(db, p, DELETING)|,
          |Logic.Untaken(db, p) - Logic.Free(db, p)|,
          |Logic.Free(db, p)|, |Logic.InState(db, p, RELEASING)|)
  }

  lemma StatsAddUp(db: Db, p: PoolName)
    ensures var s := StatsOf(db, p);
      && s.up == s.ready + s.taken && s.ready == s.released + s.free
      && s.on == s.up + s.start + s.releasing + s.term + |Logic.InState(db, p, DELETE_REQUEST)|
  {
    UpSplits(db, p);
    OnSplits(db, p);
    var untaken, free := Logic.Untaken(db, p), Logic.Free(db, p);
    assert untaken == (untaken - free) + free by { assert free <= untaken; }
  }

  lemma UpSplits(db: Db, p: PoolName)
    ensures |Logic.InState(db, p, UP)| == |Logic.Untaken(db, p)| + |Logic.Taken(db, p)|
  {
    assert Logic.InState(db, p, UP) == Logic.Untaken(db, p) + Logic.Taken(db, p);
    assert Logic.Untaken(db, p) !! Logic.Taken(db, p);
  }

  lemma OnSplits(db: Db, p: PoolName)
    ensures |Logic.On(db, p)| ==
            |Logic.InState(db, p, UP)| + |Logic.InState(db, p, STARTING)| + |Logic.InState(db, p, RELEASING)|
                                 + |Logic.InState(db, p, DELETING)| + |Logic.InState(db, p, DELETE_REQUEST)|
  {
    hide Logic.InState, Logic.On;
    OnParts(db, p);
    PartSizes(Logic.InState(db, p, UP), Logic.InState(db, p, STARTING), Logic.InState(db, p, RELEASING),
              Logic.InState(db, p, DELETING), Logic.InState(db, p, DELETE_REQUEST));
  }

  lemma OnParts(db: Db, p: PoolName)
    ensures Logic.On(db, p)
            == Logic.InState(db, p, UP) + Logic.InState(db, p, STARTING) + Logic.InState(db, p, RELEASING)
                               + Logic.InState(db, p, DELETING) + Logic.InState(db, p, DELETE_REQUEST)
    ensures Logic.InState(db, p, UP) !! Logic.InState(db, p, STARTING) !! Logic.InState(db, p, RELEASING)
            !! Logic.InState(db, p, DELETING) !! Logic.InState(db, p, DELETE_REQUEST)
  {
  }

  lemma PartSizes(a: set<nat>, b: set<nat>, c: set<nat>, d: set<nat>, e: set<nat>)
    requires a !! b !! c !! d !! e
    ensures |a + b + c + d + e| == |a| + |b| + |c| + |d| + |e|
  {
  }

  /** The first update query of `kill`. */
  function FailTickets(tickets: map<TicketId, Ticket>, r: ResourceId): map<TicketId, Ticket> {
    map t | t in tickets ::
      if tickets[t].resource == Some(r) && tickets[t].state == OPEN then tickets[t].(state := FAILED) else tickets[t]
  }

  lemma KilledTables(db: Db, r: ResourceId)
    ensures Logic.Kill(db, {r}).tickets == FailTickets(db.tickets, r)
    ensures Logic.Kill(db, {r}).resources ==
            if r in db.resources && db.resources[r].state == UP
            then db.resources[r := db.resources[r].(state := DELETE_REQUEST)] else db.resources
  {
  }

  class Database {
    var resources: map<ResourceId, Resource>
    var tickets: map<TicketId, Ticket>
    var ids: map<ResourceId, nat>
    var counters: map<ResourceId, map<Counter, nat>>
    var lastStart: map<PoolName, Time>

    function Value(): Db
      reads this
    {
      Db(resources, tickets, ids, counters, lastStart)
    }

    constructor ()
      ensures Value() == Db(map[], map[], map[], map[], map[])
    {
      resources, tickets, ids, counters, lastStart := map[], map[], map[], map[], map[];
    }

    /* ---- logic.py ---- */

    /** `assign_ticket`: the result says whether the resource is in the ticket's sandbox. */
    method AssignTicket(r: ResourceId, t: TicketId, now: Time, uuid: Sandbox) returns (same: bool)
      requires r in resources && t in tickets
      modifies this`resources, this`tickets
      ensures Value() == Logic.AssignTicket(old(Value()), r, t, now, uuid)
      ensures same <==> resources[r].sandbox == tickets[t].sandbox
      // it fails exactly for a resource that is in another sandbox already
      ensures !same <==> !old(resources[r].sandbox).NoSandbox? && old(resources[r].sandbox) != tickets[t].sandbox
    {
      var resource, ticket := resources[r], tickets[t];
      resource := resource.(ticket := Some(t));
      ticket := ticket.(resource := Some(r));
      if ticket.sandbox.NoSandbox? {
        ticket := ticket.(sandbox := uuid);
      }
      if resource.sandbox.NoSandbox? {
        resource := resource.(sandbox := ticket.sandbox);
        resource := resource.(sandboxedSince := Some(now));
      }
      resources, tickets := resources[r := resource], tickets[t := ticket];
      same := resource.sandbox == ticket.sandbox;
    }

    /** `release_resource` */
    method ReleaseResource(t: TicketId, now: Time)
      requires t in tickets && tickets[t].resource.Some? && tickets[t].resource.value in resources
      modifies this`resources
      ensures var r := tickets[t].resource.value;
              resources == old(resources)[r := Logic.Released(old(resources)[r], now, false)]
    {
      var r := tickets[t].resource.value;
      var resource := resources[r];
      resource := resource.(ticket := None);
      resource := resource.(releasedAt := Some(now));
      resource := resource.(releases := resource.releases + 1);
      resources := resources[r := resource];
    }

    /** `QResources.kill` */
    method Kill(r: ResourceId)
      modifies this`resources, this`tickets
      ensures Value() == Logic.Kill(old(Value()), {r})
    {
      tickets := FailTickets(tickets, r);
      if r in resources && resources[r].state == UP {
        resources := resources[r := resources[r].(state := DELETE_REQUEST)];
      }
      KilledTables(old(Value()), r);
    }

    /** `QResources.fix_broken_after_restart` */
    method FixBrokenAfterRestart()
      modifies this`resources
      ensures Value() == Logic.FixBroken(old(Value()))
    {
      ghost var db := Value();
      var query := ListAscending(Logic.Broken(Value()));
      ghost var broken := Logic.Broken(db);
      assert broken <= db.resources.Keys;
      PickedEnds(query, broken, broken);
      Logic.RequestDeleteNone(db);
      hide Logic.RequestDelete, Logic.Broken, Picked, Logic.SameRows, Logic.SameNumbers, Logic.SameStarts,
           Logic.SameTickets, Logic.OnlyRow;
      for i := 0 to |query|
        invariant Value() == Logic.RequestDelete(db, Picked(query, i, broken))
      {
        var r := query[i];
        PickedNext(query, i, broken);
        Logic.RequestDeleteOneMore(db, Picked(query, i, broken), r);
        resources := resources[r := resources[r].(state := DELETE_REQUEST)];
      }
    }

    /* ---- api.py ---- */

    /**
     `takeTicket`; `t` is the id of the new row.  The ticket joins those that wait, alone, and what
     other callers are told about their tickets stays the same.
     */
    method TakeTicket(t: TicketId, tags: set<Tag>, sandbox: Sandbox)
      requires t !in tickets
      modifies this`tickets
      ensures Value() == Logic.TakeTicket(old(Value()), t, tags, sandbox)
      ensures Logic.AllWaiting(Value()) == Logic.AllWaiting(old(Value())) + {t} && t !in Logic.AllWaiting(old(Value()))
      ensures forall others :: Logic.WaitingOn(Value(), others) ==
                if tags <= others then Logic.WaitingOn(old(Value()), others) + {t}
                else Logic.WaitingOn(old(Value()), others)
      ensures Logic.CollectTicket(Value(), t) == Logic.Answer(Some(false), None, Some(false), Some(false))
      ensures forall u :: u != t ==> Logic.CollectTicket(Value(), u) == Logic.CollectTicket(old(Value()), u)
    {
      tickets := tickets[t := Ticket(None, OPEN, sandbox, tags)];
    }

    /** `closeTicket`; false is the error "no such ticket". */
    method CloseTicket(t: TicketId) returns (ok: bool)
      modifies this`tickets
      ensures ok <==> t in old(tickets)
      ensures Value() == if t in old(tickets) then Logic.CloseTicket(old(Value()), t) else old(Value())
    {
      if t !in tickets {
        return false;
      }
      tickets := tickets[t := tickets[t].(state := CLOSED)];
      return true;
    }

    /** `collectTicket` fills its answer step by step. */
    method CollectTicket(t: TicketId) returns (output: Logic.Answer)
      ensures output == Logic.CollectTicket(Value(), t)
      ensures output.ready == None <==> t !in tickets
      ensures output.output.Some? ==> output.ready == Some(true)
    {
      output := Logic.Answer(Some(false), None, None, None);
      if t !in tickets {
        output := output.(ready := None);
        return;
      }
      var ticket := tickets[t];
      if ticket.resource.Some? && ticket.resource.value in resources {
        output := output.(output := resources[ticket.resource.value].data);
        output := output.(ready := Some(true));
      }
      output := output.(closed := Some(ticket.state == CLOSED));
      output := output.(failed := Some(ticket.state == FAILED));
    }
  }
}
