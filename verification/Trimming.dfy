/**
 `Pool._request_on_demand_resources_removal`: how many unused on-demand resources are left, and
 which, and that no ticket the start decision counted on one is overlooked.
 */
module Trimming {
  import opened Collections
  import opened Tables
  import opened Logic
  import opened Protocol
  import OnDemand
  import Safety
  import Starts

  /** The surplus is the oldest part of the unused resources, and leaves as many as there are tickets. */
  lemma SurplusIsOldest(db: Db, p: PoolName, c: PoolConfig)
    ensures var unused, surplus := Unused(db, p), Surplus(db, p, c);
      && surplus <= unused
      && |unused - surplus| == Min(|unused|, |WaitingOn(db, TagNames(c.TagsAll()))|)
      && (forall a, b :: a in surplus && b in unused - surplus ==> a < b)
  {
    hide Unused, WaitingOn, AllBut;
    AllButSplits(Unused(db, p), |WaitingOn(db, TagNames(c.TagsAll()))|);
  }

  /** Trimming an on-demand pool leaves exactly as many unused resources as tickets wait, the newest. */
  lemma TrimLeaves(db: Db, p: PoolName, c: PoolConfig)
    requires c.tagsOnDemand != []
    ensures var db' := Trim(db, p, c);
      && Unused(db', p) <= Unused(db, p)
      && |Unused(db', p)| == Min(|Unused(db, p)|, |WaitingOn(db, TagNames(c.TagsAll()))|)
      && (forall a, b :: a in Unused(db, p) - Unused(db', p) && b in Unused(db', p) ==> a < b)
      && (forall r :: r in db.resources && r !in Unused(db, p) ==>
                r in db'.resources && db'.resources[r] == db.resources[r])
  {
    SurplusIsOldest(db, p, c);
    hide Surplus, WaitingOn;
    assert Unused(Trim(db, p, c), p) == Unused(db, p) - Surplus(db, p, c);
  }

  /** A ticket for which the decision reserved a resource of the pool is counted as long as it waits. */
  lemma ReservationCounts(cfg: Config, run: Run, i: nat, j: nat, t: TicketId, p: PoolName)
    requires ValidConfig(cfg) && Valid(cfg, run) && Starts.DecidesAt(run, i) && i <= j < |run.states|
    requires OnDemand.WaitingOrder(run.states[i].db, run.actions[i].m.order)
    requires var reserved := OnDemand.Reserve(cfg, run.states[i].db, run.actions[i].m.order).reserved;
             t in reserved && reserved[t] == p
    requires t in run.states[j].db.tickets && Waiting(run.states[j].db.tickets[t])
    ensures p in cfg.pools && t in WaitingOn(run.states[j].db, TagNames(cfg.pools[p].TagsAll()))
  {
    hide Takes;
    Safety.RunLater(cfg, run, i, j);
    hide Valid, ValidConfig, OnDemand.Decide, OnDemand.PlanOk, OnDemand.PlanFits, OnDemand.Reserve;
    var d := OnDemand.DecisionIsSound(cfg, run.states[i].db, run.actions[i].m.order);
  }
}
