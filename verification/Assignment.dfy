/**
 `Manager._assign_tickets` of `resallocserver/manager.py`: which ticket is served next, and which
 resource it gets.
 */
module Assignment {
  import opened Collections
  import opened Tables

  const REUSED_RESOURCE_PRIORITY := 500

  /** The ids of `QResources.ready`. */
  function ReadyNow(db: Db): set<ResourceId> {
    set r | r in db.resources && Ready(db.resources[r])
  }

  /** The waiting tickets that ask for an on-demand tag, or the others. */
  function WaitingTickets(db: Db, onDemand: set<Tag>, asking: bool): set<TicketId> {
    set t | t in db.tickets && Waiting(db.tickets[t]) && (db.tickets[t].tags * onDemand != {}) == asking
  }

  /** The on-demand tickets first, then the others, each by age. */
  ghost function ServiceOrder(db: Db, onDemand: set<Tag>): seq<TicketId> {
    Ascending(WaitingTickets(db, onDemand, true)) + Ascending(WaitingTickets(db, onDemand, false))
  }

  /** The resource can serve the ticket, and was ready when the pass began. */
  predicate Suitable(db: Db, snapshot: set<ResourceId>, t: Ticket, r: ResourceId) {
    && r in snapshot && r in db.resources && Ready(db.resources[r])
    && (db.resources[r].sandbox.NoSandbox? || db.resources[r].sandbox == t.sandbox)
    && t.tags <= db.resources[r].tags.Keys
  }

  function TagPriority(row: Resource): Tag -> int { (tag: Tag) => if tag in row.tags then row.tags[tag] else 0 }

  /** The priorities of the asked tags, and a bonus for a resource that is in a sandbox already. */
  ghost function Rank(row: Resource, tags: set<Tag>): int {
    Sum(row.tags.Keys * tags, TagPriority(row))
    + if row.sandbox.NoSandbox? then 0 else REUSED_RESOURCE_PRIORITY
  }

  /** For these tags `a` is preferred to `b`: by rank, then the lower id. */
  ghost predicate Preferred(db: Db, tags: set<Tag>, a: ResourceId, b: ResourceId)
    requires a in db.resources && b in db.resources
  {
    var i, j := Rank(db.resources[a], tags), Rank(db.resources[b], tags);
    i > j || (i == j && a < b)
  }

  ghost predicate IsChoice(db: Db, snapshot: set<ResourceId>, t: Ticket, r: ResourceId) {
    && Suitable(db, snapshot, t, r)
    && (forall o :: o != r && Suitable(db, snapshot, t, o) ==> Preferred(db, t.tags, r, o))
  }

  ghost function Choice(db: Db, snapshot: set<ResourceId>, t: TicketId): (c: Option<ResourceId>)
    requires t in db.tickets
    ensures c.Some? ==> IsChoice(db, snapshot, db.tickets[t], c.value)
  {
    if exists r :: IsChoice(db, snapshot, db.tickets[t], r)
    then var r :| IsChoice(db, snapshot, db.tickets[t], r); Some(r) else None
  }

  /* ---- the choice ---- */

  lemma PreferredIsTotal(db: Db, tags: set<Tag>, a: ResourceId, b: ResourceId, c: ResourceId)
    requires a in db.resources && b in db.resources && c in db.resources
    ensures a != b ==> Preferred(db, tags, a, b) || Preferred(db, tags, b, a)
    ensures !(Preferred(db, tags, a, b) && Preferred(db, tags, b, a))
    ensures Preferred(db, tags, a, b) && Preferred(db, tags, b, c) ==> Preferred(db, tags, a, c)
  {
  }

  /** The snapshot of a pass: the resources that are up, untaken and fail no check. */
  lemma SnapshotIs(db: Db, r: ResourceId)
    ensures r in ReadyNow(db) <==>
      && r in db.resources && db.resources[r].state == UP && db.resources[r].ticket.None?
      && db.resources[r].failedChecks == 0
  {
  }

  /** Among finitely many resources one is preferred to all the others. */
  lemma {:induction false} BestExists(db: Db, tags: set<Tag>, among: set<ResourceId>) returns (best: ResourceId)
    requires among != {} && among <= db.resources.Keys
    ensures best in among && forall o :: o in among && o != best ==> Preferred(db, tags, best, o)
    decreases among
  {
    hide Rank, Preferred;
    var r :| r in among;
    var rest := among - {r};
    if rest == {} {
      assert among == {r} + rest;
      best := r;
    } else {
      var b := BestExists(db, tags, rest);
      PreferredIsTotal(db, tags, r, b, b);
      best := if Preferred(db, tags, r, b) then r else b;
      forall o | o in among && o != best ensures Preferred(db, tags, best, o) {
        assert o == r || o in rest;
        PreferredIsTotal(db, tags, r, b, o);
      }
    }
  }

  /** A ticket gets a resource if and only if the snapshot still has one that can serve it. */
  lemma ServedIffPossible(db: Db, snapshot: set<ResourceId>, t: TicketId)
    requires t in db.tickets
    ensures Choice(db, snapshot, t).Some? <==> exists r :: Suitable(db, snapshot, db.tickets[t], r)
  {
    hide Rank, Preferred;
    var suitable := set r | r in db.resources && Suitable(db, snapshot, db.tickets[t], r);
    if r :| Suitable(db, snapshot, db.tickets[t], r) {
      assert r in suitable;
      var best := BestExists(db, db.tickets[t].tags, suitable);
      assert IsChoice(db, snapshot, db.tickets[t], best);
    }
  }

  lemma ChoiceIsUnique(db: Db, snapshot: set<ResourceId>, t: Ticket, a: ResourceId, b: ResourceId)
    requires IsChoice(db, snapshot, t, a) && IsChoice(db, snapshot, t, b)
    ensures a == b
  {
    hide Rank;
  }

  /* ---- what the choice means ---- */

  /** The sum of the priorities that the resource has for the asked tags. */
  ghost function Asked(row: Resource, tags: set<Tag>): int {
    Sum(tags, (tag: Tag) => if tag in row.tags then row.tags[tag] else 0)
  }

  /** An untaken resource of the snapshot that is up, fails no check, is in no other sandbox and has the tags. */
  predicate Serviceable(db: Db, snapshot: set<ResourceId>, t: Ticket, r: ResourceId) {
    && r in snapshot && r in db.resources
    && db.resources[r].state == UP && db.resources[r].ticket.None? && db.resources[r].failedChecks == 0
    && (db.resources[r].sandbox == NoSandbox || db.resources[r].sandbox == t.sandbox)
    && (forall tag :: tag in t.tags ==> tag in db.resources[r].tags)
  }

  /** `a` goes before `b`: by the asked priorities and 500 more for being in the sandbox, then the lower id. */
  ghost predicate GoesBefore(db: Db, tags: set<Tag>, a: ResourceId, b: ResourceId)
    requires a in db.resources && b in db.resources
  {
    var i, j := Asked(db.resources[a], tags), Asked(db.resources[b], tags);
    match (db.resources[a].sandbox == NoSandbox, db.resources[b].sandbox == NoSandbox)
    case (false, true) => i + 500 > j || (i + 500 == j && a < b)
    case (true, false) => i > j + 500 || (i == j + 500 && a < b)
    case _ => i > j || (i == j && a < b)
  }

  lemma {:induction false} SumOutside(part: set<Tag>, all: set<Tag>, f: Tag -> int, g: Tag -> int)
    requires part <= all && (forall x :: x in part ==> f(x) == g(x)) && (forall x :: x in all - part ==> g(x) == 0)
    ensures Sum(part, f) == Sum(all, g)
    decreases all
  {
    if all != {} {
      var x :| x in all;
      SumRemove(all, g, x);
      if x in part {
        SumRemove(part, f, x);
        SumOutside(part - {x}, all - {x}, f, g);
      } else {
        SumOutside(part, all - {x}, f, g);
      }
    }
  }

  lemma RankIs(row: Resource, tags: set<Tag>)
    ensures Rank(row, tags) == Asked(row, tags) + if row.sandbox == NoSandbox then 0 else 500
  {
    var asked := (tag: Tag) => if tag in row.tags then row.tags[tag] else 0;
    SumOutside(row.tags.Keys * tags, tags, TagPriority(row), asked);
    SumOutside(tags, tags, asked, (tag: Tag) => if tag in row.tags then row.tags[tag] else 0);
  }

  /**
   A ticket is given a serviceable resource that goes before all the others, and none only if there is
   none.
   */
  lemma ChoiceIs(db: Db, snapshot: set<ResourceId>, t: TicketId)
    requires t in db.tickets
    ensures match Choice(db, snapshot, t)
            case None => forall r :: !Serviceable(db, snapshot, db.tickets[t], r)
            case Some(r) =>
              && Serviceable(db, snapshot, db.tickets[t], r)
              && forall o :: o != r && Serviceable(db, snapshot, db.tickets[t], o) ==>
                   GoesBefore(db, db.tickets[t].tags, r, o)
  {
    ServedIffPossible(db, snapshot, t);
    forall r ensures Suitable(db, snapshot, db.tickets[t], r) <==> Serviceable(db, snapshot, db.tickets[t], r) {}
    forall r | r in db.resources ensures Rank(db.resources[r], db.tickets[t].tags)
      == Asked(db.resources[r], db.tickets[t].tags) + if db.resources[r].sandbox == NoSandbox then 0 else 500
    {
      RankIs(db.resources[r], db.tickets[t].tags);
    }
    hide Suitable, Serviceable, Rank, Asked;
  }

  /* ---- the order ---- */

  predicate ComesFirst(db: Db, onDemand: set<Tag>, t: TicketId)
    requires t in db.tickets
  {
    db.tickets[t].tags * onDemand != {}
  }

  /**
   The order of service lists every waiting ticket exactly once: the on-demand tickets before the
   others, and of two alike the older first.
   */
  lemma OrderOfService(db: Db, onDemand: set<Tag>)
    ensures var q := ServiceOrder(db, onDemand);
      && (forall t :: t in q <==> t in db.tickets && db.tickets[t].resource.None? && db.tickets[t].state == OPEN)
      && (forall i, j :: 0 <= i < j < |q| && q[i] in db.tickets && q[j] in db.tickets ==>
            if ComesFirst(db, onDemand, q[i]) == ComesFirst(db, onDemand, q[j]) then q[i] < q[j]
            else ComesFirst(db, onDemand, q[i]))
  {
    var a, b := WaitingTickets(db, onDemand, true), WaitingTickets(db, onDemand, false);
    var x, y := Ascending(a), Ascending(b);
    var q := x + y;
    forall i | 0 <= i < |q| ensures q[i] in if i < |x| then a else b {
      assert q[i] in if i < |x| then x else y;
    }
    forall t ensures t in q <==> t in a || t in b {
      assert t in q <==> t in x || t in y;
    }
    hide Ascending;
  }
}
