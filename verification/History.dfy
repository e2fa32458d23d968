/**
 What the columns of a row remember: when the resource was released and first taken, and how many
 checks in a row have failed, in terms of the steps of the run and of its clock.
 */
module History {
  import opened Collections
  import opened Tables
  import opened Logic
  import opened Links
  import opened Protocol
  import opened Invariant
  import opened Edges
  import opened Reuse
  import Safety

  /* ---- one step ---- */

  /** What the step `a` at time `now` may do to what row `r` remembers. */
  predicate RowRecorded(x: Resource, y: Resource, now: Time, a: Action, r: ResourceId) {
    && (if x.ticket.Some? && y.ticket.None? then IsDetect(a) && y.releasedAt == Some(now)
        else y.releasedAt == x.releasedAt)
    && (if x.ticket.None? && y.ticket.Some?
        then IsAssign(a) && y.sandboxedSince == if x.sandboxedSince.None? then Some(now) else x.sandboxedSince
        else y.sandboxedSince == x.sandboxedSince)
    && y.failedChecks == (if a == Env(Check(r, true)) then 0
                          else if a == Env(Check(r, false)) then x.failedChecks + 1 else x.failedChecks)
    && (if IsAlloc(a, r) then y.data == Some(a.w.data) else y.data == x.data && y.tags == x.tags)
  }

  /** The end of the start of `r`. */
  predicate IsAlloc(a: Action, r: ResourceId) { a.Work? && a.w.AllocDone? && a.w.r == r }

  predicate Blank(x: Resource) {
    x.ticket.None? && x.releasedAt.None? && x.sandboxedSince.None? && x.failedChecks == 0 && x.data.None?
  }

  ghost predicate Recorded(db: Db, db': Db, now: Time, a: Action) {
    && (forall r :: r in db.resources ==> r in db'.resources)
    && (forall r :: r in db'.resources ==>
          if r in db.resources then RowRecorded(db.resources[r], db'.resources[r], now, a, r)
          else Blank(db'.resources[r]))
  }

  predicate SameMemory(x: Resource, y: Resource) {
    y.ticket == x.ticket && y.releasedAt == x.releasedAt && y.sandboxedSince == x.sandboxedSince
    && y.failedChecks == x.failedChecks && y.data == x.data && y.tags == x.tags
  }

  predicate IsCheck(a: Action) { a.Env? && a.e.Check? }

  predicate IsAnyAlloc(a: Action) { a.Work? && a.w.AllocDone? }

  lemma NothingRecorded(db: Db, db': Db, now: Time, a: Action)
    requires db'.resources.Keys == db.resources.Keys && !IsCheck(a) && !IsAnyAlloc(a)
    requires forall r :: r in db.resources ==> SameMemory(db.resources[r], db'.resources[r])
    ensures Recorded(db, db', now, a)
  {
  }

  lemma EnvRecorded(s: Sys, a: EnvStep)
    requires CanEnv(s, a)
    ensures Recorded(s.db, DoEnv(s, a).db, s.clock, Env(a))
  {
    if !a.Check? {
      hide Recorded;
      NothingRecorded(s.db, DoEnv(s, a).db, s.clock, Env(a));
    }
  }

  lemma OneRowRecorded(db: Db, db': Db, r: ResourceId, now: Time, a: Action)
    requires OnlyRow(db', db, r) && r in db.resources && RowRecorded(db.resources[r], db'.resources[r], now, a, r)
    requires !IsCheck(a) && (IsAnyAlloc(a) ==> IsAlloc(a, r))
    ensures Recorded(db, db', now, a)
  {
  }

  lemma WorkRecorded(cfg: Config, s: Sys, a: WorkerStep)
    requires CanWork(cfg, s, a)
    ensures Recorded(s.db, DoWork(cfg, s, a).db, s.clock, Work(a))
  {
    hide Recorded, OnlyRow, NamesOf, NamesOn, TagRows, TicketOpen;
    if !a.AllocDone? { NothingRecorded(s.db, s.db, s.clock, Work(a)); }
    match a
    case AllocDone(r, success, data) => OneRowRecorded(s.db, DoWork(cfg, s, a).db, r, s.clock, Work(a));
    case ReleaseDone(r, success) => OneRowRecorded(s.db, DoWork(cfg, s, a).db, r, s.clock, Work(a));
    case TerminateStart(r) => OneRowRecorded(s.db, SetState(s.db, r, DELETING), r, s.clock, Work(a));
    case TerminateEnd(r) => OneRowRecorded(s.db, DoWork(cfg, s, a).db, r, s.clock, Work(a));
    case _ =>
  }

  lemma DetectRecorded(db: Db, p: PoolName, hasRelease: bool, now: Time)
    ensures Recorded(db, DetectClosed(db, p, hasRelease, now), now, Manage(Detect))
  {
  }

  lemma RemovalRecorded(db: Db, p: PoolName, c: PoolConfig, now: Time)
    ensures Recorded(db, RequestRemoval(db, p, c, now), now, Manage(Remove))
  {
    RemovalStates(db, p, c, now);
    hide RequestRemoval;
  }

  lemma AssignRecorded(cfg: Config, db: Db, uuids: nat, r: ResourceId, t: TicketId, now: Time, uuid: Sandbox)
    requires Linked(cfg, db, uuids) && r in db.resources && t in db.tickets && Ready(db.resources[r])
    ensures Recorded(db, AssignTicket(db, r, t, now, uuid), now, Manage(Assign))
  {
    assert RowOk(cfg, db, r);
    hide Linked;
  }

  lemma AllocateRecorded(db: Db, p: PoolName, now: Time, a: ManagerStep)
    requires a.AllocateOne? && a.r !in db.resources
    ensures Recorded(db, Allocate(db, p, a.r, a.name, now, a.id, a.values), now, Manage(a))
  {
  }

  lemma ManageRecorded(cfg: Config, s: Sys, a: ManagerStep)
    requires Good(cfg, s) && Can(cfg, s, Manage(a))
    ensures Recorded(s.db, DoManage(cfg, s, a).db, s.clock, Manage(a))
  {
    hide Good, Recorded;
    GoodParts(cfg, s);
    NothingRecorded(s.db, s.db, s.clock, Manage(a));
    if Quiet(a) {
      QuietChangesNothing(cfg, s, a);
      hide DoManage;
    } else if a.Assign? {
      AssignStep(cfg, s);
      if Reuse.Given(s).Some? {
        AssignRecorded(cfg, s.db, s.uuids, Reuse.Given(s).value, s.pc.queue[0], s.clock, Generated(s.uuids));
      }
      hide Reuse.Given, Linked, AssignTicket, DoManage, CanManage;
    } else {
      hide Linked, DetectClosed, RequestRemoval, Allocate, InitPools, Zeros, SmallestNumbers, NamesOf;
      match a
      case Begin => NothingRecorded(s.db, InitPools(cfg, s.db), s.clock, Manage(a));
      case Detect => DetectRecorded(s.db, Pool(cfg, s.pc.i), cfg.pools[Pool(cfg, s.pc.i)].hasRelease, s.clock);
      case Remove => RemovalRecorded(s.db, Pool(cfg, s.pc.i), cfg.pools[Pool(cfg, s.pc.i)], s.clock);
      case AllocateOne(r, name, id, values) => AllocateRecorded(s.db, Pool(cfg, s.pc.i), s.clock, a);
      case _ =>
    }
  }

  lemma StepRecorded(cfg: Config, s: Sys, a: Action)
    requires Good(cfg, s) && Can(cfg, s, a)
    ensures Recorded(s.db, Do(cfg, s, a).db, s.clock, a)
  {
    hide Good, PcFits, Recorded, DoEnv, DoWork, DoManage, CanEnv, CanWork, CanManage;
    match a
    case Env(e) => EnvRecorded(s, e);
    case Work(w) => WorkRecorded(cfg, s, w);
    case Manage(m) => ManageRecorded(cfg, s, m);
  }

  lemma RunRecorded(cfg: Config, run: Run, i: nat)
    requires ValidConfig(cfg) && Valid(cfg, run) && i < |run.actions|
    ensures Recorded(run.states[i].db, run.states[i + 1].db, run.states[i].clock, run.actions[i])
  {
    hide Good, Can, Do, Takes, Recorded;
    GoodRun(cfg, run, i);
    StepOf(cfg, run, i);
    StepRecorded(cfg, run.states[i], run.actions[i]);
  }

  /* ---- what a row remembers of the run ---- */

  /** The `j`-th step takes `r` away from a ticket. */
  ghost predicate Freed(run: Run, j: nat, r: ResourceId) {
    && j + 1 < |run.states|
    && r in run.states[j].db.resources && run.states[j].db.resources[r].ticket.Some?
    && r in run.states[j + 1].db.resources && run.states[j + 1].db.resources[r].ticket.None?
  }

  /** The `j`-th step gives `r` to a ticket. */
  ghost predicate Took(run: Run, j: nat, r: ResourceId) {
    && j + 1 < |run.states|
    && r in run.states[j].db.resources && run.states[j].db.resources[r].ticket.None?
    && r in run.states[j + 1].db.resources && run.states[j + 1].db.resources[r].ticket.Some?
  }

  /** `j` is the last step before `i` that freed `r`. */
  ghost predicate LastFreed(run: Run, j: nat, i: nat, r: ResourceId) {
    j < i && Freed(run, j, r) && forall k :: j < k < i ==> !Freed(run, k, r)
  }

  /** `j` is the first step of the run that gave `r` to a ticket, and comes before `i`. */
  ghost predicate FirstTook(run: Run, j: nat, i: nat, r: ResourceId) {
    j < i && Took(run, j, r) && forall k :: 0 <= k < j ==> !Took(run, k, r)
  }

  /** Only detecting a closed ticket frees a resource, and only an assignment gives one away. */
  lemma WhoFrees(cfg: Config, run: Run, j: nat, r: ResourceId)
    requires ValidConfig(cfg) && Valid(cfg, run) && j < |run.actions|
    ensures Freed(run, j, r) ==> run.actions[j] == Manage(Detect)
    ensures Took(run, j, r) ==> run.actions[j] == Manage(Assign)
  {
    hide Takes;
    RunRecorded(cfg, run, j);
    hide Valid;
  }

  /** A row was never released, or remembers when it was released last. */
  lemma {:induction false} ReleasedAt(cfg: Config, run: Run, i: nat, r: ResourceId)
    requires ValidConfig(cfg) && Valid(cfg, run) && i < |run.states| && r in run.states[i].db.resources
    ensures match run.states[i].db.resources[r].releasedAt
            case Some(time) => exists j: nat :: LastFreed(run, j, i, r) && time == run.states[j].clock
            case None => forall j :: 0 <= j < i ==> !Freed(run, j, r)
    decreases i
  {
    hide Takes;
    if i > 0 {
      var b := i - 1;
      RunRecorded(cfg, run, b);
      if r in run.states[b].db.resources {
        ReleasedAt(cfg, run, b, r);
        if Freed(run, b, r) {
          assert LastFreed(run, b, i, r);
        } else if run.states[b].db.resources[r].releasedAt.Some? {
          var time := run.states[b].db.resources[r].releasedAt.value;
          var j: nat :| LastFreed(run, j, b, r) && time == run.states[j].clock;
          assert LastFreed(run, j, i, r);
        }
      } else {
        NeverBefore(cfg, run, b, r);
      }
    }
  }

  /** Nothing happens to a resource before it exists. */
  lemma NeverBefore(cfg: Config, run: Run, i: nat, r: ResourceId)
    requires ValidConfig(cfg) && Valid(cfg, run) && i < |run.states| && r !in run.states[i].db.resources
    ensures forall j :: 0 <= j <= i ==> !Freed(run, j, r) && !Took(run, j, r)
  {
    hide Takes;
    forall j | 0 <= j <= i ensures r !in run.states[j].db.resources { Safety.RunLater(cfg, run, j, i); }
  }

  /** A row was never taken, or remembers when it was taken first. */
  lemma {:induction false} SandboxedSince(cfg: Config, run: Run, i: nat, r: ResourceId)
    requires ValidConfig(cfg) && Valid(cfg, run) && i < |run.states| && r in run.states[i].db.resources
    ensures match run.states[i].db.resources[r].sandboxedSince
            case Some(time) => exists j: nat :: FirstTook(run, j, i, r) && time == run.states[j].clock
            case None => forall j :: 0 <= j < i ==> !Took(run, j, r)
    decreases i
  {
    hide Takes;
    if i > 0 {
      var b := i - 1;
      RunRecorded(cfg, run, b);
      if r in run.states[b].db.resources {
        SandboxedSince(cfg, run, b, r);
        if run.states[b].db.resources[r].sandboxedSince.None? {
          if Took(run, b, r) { assert FirstTook(run, b, i, r); }
        } else {
          var time := run.states[b].db.resources[r].sandboxedSince.value;
          var j: nat :| FirstTook(run, j, b, r) && time == run.states[j].clock;
          assert FirstTook(run, j, i, r);
        }
      } else {
        NeverBefore(cfg, run, b, r);
      }
    }
  }

  /** How many of the last checks of `r` before the `i`-th step failed. */
  ghost function FailedInARow(run: Run, i: nat, r: ResourceId): nat
    requires i <= |run.actions|
  {
    if i == 0 || run.actions[i - 1] == Env(Check(r, true)) then 0
    else FailedInARow(run, i - 1, r) + if run.actions[i - 1] == Env(Check(r, false)) then 1 else 0
  }

  lemma {:induction false} FailedChecks(cfg: Config, run: Run, i: nat, r: ResourceId)
    requires ValidConfig(cfg) && Valid(cfg, run) && i < |run.states|
    ensures FailedInARow(run, i, r)
            == if r in run.states[i].db.resources then run.states[i].db.resources[r].failedChecks else 0
    decreases i
  {
    hide Takes;
    if i > 0 {
      var b := i - 1;
      FailedChecks(cfg, run, b, r);
      RunRecorded(cfg, run, b);
      CheckedExists(cfg, run, b);
    }
  }

  /** A check is of a resource that exists. */
  lemma CheckedExists(cfg: Config, run: Run, i: nat)
    requires Valid(cfg, run) && i < |run.actions|
    ensures IsCheck(run.actions[i]) ==> run.actions[i].e.r in run.states[i].db.resources
  {
    StepOf(cfg, run, i);
    hide Takes, Valid, PcFits, CanWork, CanManage, Do;
  }

  /** The resource of the pool is up, and taken by a closed ticket. */
  predicate ClosedOn(db: Db, p: PoolName, r: ResourceId)
    requires r in db.resources
  {
    && db.resources[r].pool == p && db.resources[r].state == UP && db.resources[r].ticket.Some?
    && db.resources[r].ticket.value in db.tickets && db.tickets[db.resources[r].ticket.value].state == CLOSED
  }

  /**
   A detection frees exactly the resources of its pool that are up and taken by a closed ticket, and
   starts the release command for them if the pool has one.
   */
  lemma DetectDoes(cfg: Config, run: Run, i: nat)
    requires Valid(cfg, run) && i < |run.actions| && run.actions[i] == Manage(Detect)
    ensures run.states[i].pc.Detecting? && run.states[i].pc.i < |cfg.order|
    ensures cfg.order[run.states[i].pc.i] in cfg.pools
    ensures var s, s' := run.states[i], run.states[i + 1]; var p := cfg.order[s.pc.i];
      && s'.db.resources.Keys == s.db.resources.Keys && s'.db.tickets == s.db.tickets
      && (forall r :: r in s.db.resources ==>
            if ClosedOn(s.db, p, r)
            then Freed(run, i, r) && s'.db.resources[r].releases == s.db.resources[r].releases + 1
                 && s'.db.resources[r].state == if cfg.pools[p].hasRelease then RELEASING else UP
            else s'.db.resources[r] == s.db.resources[r])
      && (forall r :: s'.staff.releasers[r] == s.staff.releasers[r] +
            if cfg.pools[p].hasRelease && r in s.db.resources && ClosedOn(s.db, p, r) then 1 else 0)
  {
    StepOf(cfg, run, i);
    hide Takes, Valid;
    assert forall r :: r in run.states[i].db.resources ==>
      (ClosedOn(run.states[i].db, cfg.order[run.states[i].pc.i], r)
       <==> r in Closing(run.states[i].db, cfg.order[run.states[i].pc.i]));
    hide Closing;
  }
}
