/**
 The transactions of the background threads of `resallocserver/manager.py`: TerminateWorker,
 ReleaseWorker, AllocWorker, CleanUnknownWorker and Watcher.  Between two transactions of one
 worker runs a shell command, whose result is a parameter here.
 */
module Workers {
  import opened Collections
  import opened Tables
  import opened Databases
  import opened Lines
  import Assignment
  import Capture
  import Cleaner
  import Logic
  import Protocol

  /** The first transaction of `TerminateWorker.job`; false if an open ticket forbids it. */
  method BeginTermination(db: Database, r: ResourceId) returns (go: bool)
    requires r in db.resources
    modifies db`resources
    ensures go <==> !Logic.TicketOpen(old(db.Value()), r)
    ensures db.Value() == if go then Logic.SetState(old(db.Value()), r, DELETING) else old(db.Value())
  {
    var ticket := db.resources[r].ticket;
    if ticket.Some? && ticket.value in db.tickets {
      if db.tickets[ticket.value].state == OPEN {
        return false;
      }
    }
    db.resources := db.resources[r := db.resources[r].(state := DELETING)];
    return true;
  }

  /** `TerminateWorker.close` */
  method Close(db: Database, r: ResourceId)
    requires r in db.resources
    modifies db
    ensures db.Value() == Logic.End(old(db.Value()), r)
  {
    db.resources := db.resources[r := db.resources[r].(state := ENDED)];
    GiveNumbersBack(db, r);
  }

  /** The rows of the resource in `ids_within_pool` and `named_counters`, if it has any, are deleted. */
  method GiveNumbersBack(db: Database, r: ResourceId)
    modifies db`ids, db`counters
    ensures db.ids == old(db.ids) - {r} && db.counters == old(db.counters) - {r}
  {
    if r in db.ids {
      db.ids := db.ids - {r};
    }
    if r in db.counters {
      var names := db.counters[r].Keys;
      while names != {}
        invariant db.ids == old(db.ids) - {r}
        invariant r in db.counters && db.counters[r].Keys == names && db.counters - {r} == old(db.counters) - {r}
        decreases names
      {
        var c :| c in names;
        names := names - {c};
        db.counters := db.counters[r := db.counters[r] - {c}];
      }
      db.counters := db.counters - {r};
    }
  }

  /** The last transaction of `ReleaseWorker.job`. */
  method FinishRelease(db: Database, r: ResourceId, status: int, reuseMaxCount: nat)
    requires r in db.resources
    modifies db`resources
    ensures db.Value() == Logic.FinishRelease(old(db.Value()), r, status == 0, reuseMaxCount)
  {
    var resource := db.resources[r];
    if status != 0 {
      resource := resource.(releases := reuseMaxCount + 1);
    }
    resource := resource.(state := UP);
    db.resources := db.resources[r := resource];
  }

  /** The last transaction of `AllocWorker.job`. */
  method FinishAllocation(db: Database, r: ResourceId, status: int, stdout: Data, tagsAll: seq<PoolTag>)
    requires r in db.resources
    modifies db
    ensures db.Value() == Logic.FinishAlloc(old(db.Value()), r, status == 0, stdout, TagRows(tagsAll))
  {
    var tags := TagsOf(tagsAll);
    hide TagRows;
    var resource := db.resources[r];
    resource := resource.(state := if status != 0 then ENDED else UP);
    resource := resource.(data := Some(stdout));
    resource := resource.(tags := tags);
    db.resources := db.resources[r := resource];
    if resource.state == ENDED {
      GiveNumbersBack(db, r);
    }
  }

  method TagsOf(tagsAll: seq<PoolTag>) returns (tags: map<Tag, int>)
    ensures tags == TagRows(tagsAll)
    ensures tags.Keys == TagNames(tagsAll)
  {
    tags := map[];
    for i := 0 to |tagsAll|
      invariant tags == TagRows(tagsAll[..i])
      invariant forall x :: x in tags <==> exists j :: 0 <= j < i && tagsAll[j].name == x
    {
      assert tagsAll[..i + 1][..i] == tagsAll[..i];
      tags := tags[tagsAll[i].name := tagsAll[i].priority];
    }
    assert tagsAll[..|tagsAll|] == tagsAll;
  }

  const LIST_BYTES := 5120

  /**
   `CleanUnknownWorker._list_all_resources`, for a `cmd_list` that writes `stream`: no name is listed
   that the command did not write, and all are listed if it exits in time and writes little.
   */
  method ListAllResources(stream: Bytes, rounds: seq<seq<(Fd, nat)>>, exitStatus: int)
    returns (status: int, listed: set<Bytes>)
    ensures listed <= Capture.Words(stream)
    ensures status != Capture.TIMEOUT_STATUS && |stream| <= LIST_BYTES ==> listed == Capture.Words(stream)
  {
    var stdout, logged, items, fitting;
    status, stdout, logged, items, fitting := Capture.RunCommand(stream, rounds, LIST_BYTES, true, exitStatus);
    hide Capture.Words, Capture.WholeLines;
    assert items[..|items|] == items;
    if |Concat(items)| <= LIST_BYTES { Capture.NoLongerFit(items, LIST_BYTES, fitting, |items|); }
    listed := Capture.Words(stdout);
  }

  /**
   So if `cmd_list` writes only names that are known or foreign, the protocol admits the listing,
   wherever the command was stopped.  `nameOf` is the name that a word stands for.
   */
  lemma ListingIsAdmitted(cfg: Config, s: Protocol.Sys, p: PoolName, stream: Bytes, listed: set<Bytes>,
                          nameOf: Bytes -> Name)
    requires Protocol.Listing(p) in s.cleaners && listed <= Capture.Words(stream)
    requires forall w :: w in Capture.Words(stream) ==> Cleaner.Known(cfg, s.db, nameOf(w))
    ensures Protocol.CanWork(cfg, s, Protocol.CloudListed(p, set w | w in listed :: nameOf(w)))
  {
    hide Capture.Words;
    forall w | w in listed ensures nameOf(w) in cfg.foreign || nameOf(w) in Protocol.NamesOf(s.db) {
      if nameOf(w) !in cfg.foreign {
        var r :| Cleaner.Named(s.db, r, nameOf(w));
      }
    }
  }

  /**
   `CleanUnknownWorker._list_known_resources` and the difference to what the cloud listed: a listed
   name is left out exactly for a resource that is on.  So if the listing has only names that are
   known or foreign, then whatever is to be deleted is in use by nobody.
   */
  method UnknownResources(db: Database, listed: set<Name>) returns (unknown: set<Name>)
    ensures unknown == listed - Protocol.NamesOn(db.Value())
    ensures forall n :: n in unknown <==>
              n in listed && forall r :: Cleaner.Named(db.Value(), r, n) ==> db.resources[r].state == ENDED
    ensures forall cfg, n :: n in unknown && Cleaner.Known(cfg, db.Value(), n) ==> Cleaner.Gone(cfg, db.Value(), n)
  {
    var known := set r | r in db.resources && db.resources[r].state != ENDED :: db.resources[r].name;
    unknown := listed - known;
    forall n ensures n in known <==> exists r :: Cleaner.Named(db.Value(), r, n) && db.resources[r].state != ENDED {
      if r :| Cleaner.Named(db.Value(), r, n) && db.resources[r].state != ENDED { assert n in known; }
    }
  }

  /**
   The transaction of one check in `Watcher.loop`.  It alone decides whether an untaken resource that
   is up can be assigned, and whether the next removal pass kills the resource; nothing else changes.
   */
  method RecordCheck(db: Database, r: ResourceId, status: int)
    requires r in db.resources
    modifies db`resources
    ensures db.Value() == Logic.Watch(old(db.Value()), r, status == 0)
    ensures Assignment.ReadyNow(db.Value()) ==
              if status == 0 && old(db.resources)[r].state == UP && old(db.resources)[r].ticket.None?
              then Assignment.ReadyNow(old(db.Value())) + {r} else Assignment.ReadyNow(old(db.Value())) - {r}
    ensures forall p, attempts :: r in Logic.Failing(db.Value(), p, attempts) <==>
              && status != 0 && attempts <= old(db.resources)[r].failedChecks + 1
              && old(db.resources)[r].pool == p && old(db.resources)[r].state == UP
    ensures forall p, attempts, q :: q != r ==>
              (q in Logic.Failing(db.Value(), p, attempts) <==> q in Logic.Failing(old(db.Value()), p, attempts))
  {
    var res := db.resources[r];
    if status != 0 {
      db.resources := db.resources[r := res.(failedChecks := res.failedChecks + 1)];
    } else {
      db.resources := db.resources[r := res.(failedChecks := 0)];
    }
  }
}
