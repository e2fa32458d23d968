/**
 What becomes of a resource whose `cmd_release` failed: ReleaseWorker leaves a mark "for removal" on
 it, one release more than `reuse_max_count`, and writes UP.
 */
module FailedReleases {
  import opened Collections
  import opened Tables
  import opened Logic
  import opened Links
  import opened Protocol
  import opened Invariant
  import opened Edges
  import opened History
  import opened Reuse
  import Safety
  import Starts

  predicate Marked(x: Resource, c: PoolConfig) {
    Idle(x) && x.releasedAt.Some? && x.sandboxedSince.Some? && x.releases == c.reuseMaxCount + 1
  }

  lemma FailedReleaseMarks(cfg: Config, db: Db, uuids: nat, r: ResourceId)
    requires Linked(cfg, db, uuids) && InStateNow(db, r, RELEASING)
    ensures var c := cfg.pools[db.resources[r].pool];
            Marked(FinishRelease(db, r, false, c.reuseMaxCount).resources[r], c)
  {
    assert RowOk(cfg, db, r);
    hide Linked;
  }

  /* ---- the timestamps are never in the future ---- */

  predicate PastTime(t: Option<Time>, now: Time) { t.Some? ==> t.value <= now }

  predicate Past(x: Resource, now: Time) { PastTime(x.releasedAt, now) && PastTime(x.sandboxedSince, now) }

  /** In every state of every run the timestamps of all rows are in the past. */
  lemma StampsArePast(cfg: Config, run: Run, i: nat, r: ResourceId)
    requires ValidConfig(cfg) && Valid(cfg, run) && i < |run.states| && r in run.states[i].db.resources
    ensures Past(run.states[i].db.resources[r], run.states[i].clock)
  {
    hide Takes;
    ReleasedAt(cfg, run, i, r);
    SandboxedSince(cfg, run, i, r);
    forall j | 0 <= j <= i ensures run.states[j].clock <= run.states[i].clock { Starts.TimePasses(cfg, run, j, i); }
    hide Valid, Freed, Took;
  }

  /* ---- when the mark has its effect ---- */

  /** The pool uses no resource again, or at most a number of times, or has a limit that is always over. */
  predicate MarkCounts(c: PoolConfig) {
    c.reuseOpportunityTime <= 0.0 || c.reuseMaxCount > 0 || c.reuseMaxTime < 0.0
  }

  /** The removal pass at time `now` removes a marked resource of a database that the server can have. */
  ghost predicate RemovesMarked(cfg: Config, db: Db, uuids: nat, p: PoolName, r: ResourceId, now: Time)
    requires p in cfg.pools
  {
    Linked(cfg, db, uuids) && r in db.resources && db.resources[r].pool == p && Marked(db.resources[r], cfg.pools[p])
    && Past(db.resources[r], now) ==>
      InStateNow(RequestRemoval(db, p, cfg.pools[p], now), r, DELETE_REQUEST)
  }

  /** The mark makes the next removal pass remove the resource, at any time, if and only if `MarkCounts`. */
  lemma FailedReleaseIsRemovedIff(cfg: Config, p: PoolName)
    requires p in cfg.pools
    ensures (forall db, uuids, r, now :: RemovesMarked(cfg, db, uuids, p, r, now)) <==> MarkCounts(cfg.pools[p])
  {
    hide RemovesMarked;
    if MarkCounts(cfg.pools[p]) {
      forall db: Db, uuids: nat, r: ResourceId, now: Time ensures RemovesMarked(cfg, db, uuids, p, r, now) {
        MarkedIsRemoved(cfg, db, uuids, p, r, now);
      }
    } else {
      var db := MarkedButKept(cfg, p);
    }
  }

  lemma MarkedIsRemoved(cfg: Config, db: Db, uuids: nat, p: PoolName, r: ResourceId, now: Time)
    requires p in cfg.pools && MarkCounts(cfg.pools[p])
    ensures RemovesMarked(cfg, db, uuids, p, r, now)
  {
    hide Linked;
    var c := cfg.pools[p];
    RemovalStates(db, p, c, now);
    if r in db.resources && db.resources[r].pool == p && Marked(db.resources[r], c) && Past(db.resources[r], now) {
      var db1 := Kill(db, Failing(db, p, c.livecheckAttempts));
      var db2 := Retire(db1, p, c, now);
      KilledRow(db, Failing(db, p, c.livecheckAttempts), r);
      RetireRow(db1, p, c, now, r);
      TrimRow(db2, p, c, r);
      hide Kill, Retire, Trim, Failing;
      WornWhenMarked(db.resources[r], c, now);
    }
  }

  lemma WornWhenMarked(x: Resource, c: PoolConfig, now: Time)
    requires Marked(x, c) && MarkCounts(c) && Past(x, now)
    ensures Worn(x, c, now)
  {
  }

  /** Otherwise a marked resource that was released just now is kept. */
  lemma MarkedButKept(cfg: Config, p: PoolName) returns (db: Db)
    requires p in cfg.pools && !MarkCounts(cfg.pools[p])
    ensures !RemovesMarked(cfg, db, 0, p, 0, 0.0)
  {
    var c := cfg.pools[p];
    var row := NewRow(p, 0).(state := UP, data := Some([]), sandbox := Given(0), sandboxedSince := Some(0.0),
                             releasedAt := Some(0.0), releases := 1);
    db := Db(map[0 := row], map[], map[], map[], map[]);
    assert Linked(cfg, db, 0);
    KillNone(db);
    RequestDeleteNone(db);
    assert Failing(db, p, c.livecheckAttempts) == {} && WornOut(db, p, c, 0.0) == {} && Unused(db, p) == {};
    assert Surplus(db, p, c) == {};
  }

  /** So in a run of such a pool, no marked resource gets past the removal pass. */
  lemma MarkedNeverPasses(cfg: Config, run: Run, i: nat, r: ResourceId)
    requires ValidConfig(cfg) && Valid(cfg, run) && i < |run.actions| && run.actions[i] == Manage(Remove)
    requires r in run.states[i].db.resources
    requires run.states[i].pc.Removing? && run.states[i].pc.i < |cfg.order|
    requires var p := cfg.order[run.states[i].pc.i];
      p in cfg.pools && run.states[i].db.resources[r].pool == p && Marked(run.states[i].db.resources[r], cfg.pools[p])
      && MarkCounts(cfg.pools[p])
    ensures InStateNow(run.states[i + 1].db, r, DELETE_REQUEST)
  {
    hide Can, Takes, RequestRemoval, MarkCounts, Marked, Linked;
    var s := run.states[i];
    StepOf(cfg, run, i);
    Safety.RunLinked(cfg, run, i);
    StampsArePast(cfg, run, i, r);
    hide Valid, ValidConfig, Staffed;
    MarkedIsRemoved(cfg, s.db, s.uuids, cfg.order[s.pc.i], r, s.clock);
    RemoveStep(cfg, s);
  }
}
