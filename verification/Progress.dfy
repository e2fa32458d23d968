/**
 The model does not block the manager: wherever it is in its loop, whatever the other actors did, it
 can take its next step.
 */
module Progress {
  import opened Collections
  import opened Tables
  import opened Logic
  import opened Protocol
  import opened Invariant
  import opened Edges
  import Assignment
  import OnDemand

  lemma SomeOrder(db: Db) returns (order: seq<TicketId>)
    ensures OnDemand.WaitingOrder(db, order)
  {
    order := Ascending(AllWaiting(db));
    hide Ascending;
  }

  /** New numbers, a new row id and a new name can always be found. */
  lemma SomeAllocation(cfg: Config, db: Db, p: PoolName, counters: set<Counter>)
    returns (r: ResourceId, name: Name, id: nat, values: map<Counter, nat>)
    ensures r !in db.resources && name !in cfg.foreign && name !in NamesOf(db)
    ensures SmallestNumbers(db, p, counters, id, values)
  {
    r := Smallest(db.resources.Keys);
    name := Smallest(cfg.foreign + NamesOf(db));
    id := Smallest(IdsTaken(db, p));
    values := map c | c in counters :: Smallest(ValuesTaken(db, c));
  }

  lemma HeadExists(s: Sys)
    requires Queued(s)
    ensures s.pc.Assigning? && s.pc.queue != [] ==> s.pc.queue[0] in s.db.tickets
  {
  }

  lemma NextStep(cfg: Config, s: Sys) returns (a: ManagerStep)
    requires ValidConfig(cfg) && PcFits(cfg, s) && Queued(s) && s.pc != Down
    ensures CanManage(cfg, s, a)
  {
    hide NamesOf, SmallestNumbers, OnDemand.WaitingOrder, Queued, ValidConfig;
    HeadExists(s);
    match s.pc
    case Beginning => a := Begin;
    case Detecting(i) => a := Detect;
    case Deciding =>
      var order := SomeOrder(s.db);
      a := Decide(order);
    case Removing(i) => a := Remove;
    case Collecting(i) => a := Collect;
    case Sizing(i) => a := Size;
    case Timing(i) => a := MeasureDelay;
    case Allocating(i) =>
      var p := Pool(cfg, i);
      var r, name, id, values := SomeAllocation(cfg, s.db, p, cfg.pools[p].counters);
      a := AllocateOne(r, name, id, values);
    case Tidying(i) => a := Tidy(false);
    case Gathering => a := Gather;
    case Assigning(queue, snapshot) => a := if queue == [] then Finish else Assign;
    case Resting => a := WakeUp;
  }

  /** In every state of every run in which the server is up, the manager can take a step. */
  lemma ManagerNeverStuck(cfg: Config, run: Run, i: nat)
    requires ValidConfig(cfg) && Valid(cfg, run) && i < |run.states| && run.states[i].pc != Down
    ensures PcFits(cfg, run.states[i]) && exists a :: CanManage(cfg, run.states[i], a)
  {
    hide Valid, Good, CanManage, Queued, ValidConfig;
    GoodRun(cfg, run, i);
    GoodParts(cfg, run.states[i]);
    var a := NextStep(cfg, run.states[i]);
  }

  /** The place in the loop that follows a step; `Size` and `MeasureDelay` may also leave the allocation. */
  ghost predicate NextPlace(cfg: Config, a: ManagerStep, before: Pc, after: Pc) {
    var n := |cfg.order|;
    match a
    case Begin => before == Beginning && after == if n > 0 then Detecting(0) else Deciding
    case Detect => before.Detecting? && after == if before.i + 1 < n then Detecting(before.i + 1) else Deciding
    case Decide(_) => before == Deciding && after == if n > 0 then Removing(0) else Gathering
    case Remove => before.Removing? && after == Collecting(before.i)
    case Collect => before.Collecting? && after == Sizing(before.i)
    case Size => before.Sizing? && (after == Timing(before.i) || after == Tidying(before.i))
    case MeasureDelay => before.Timing? && (after == Allocating(before.i) || after == Tidying(before.i))
    case AllocateOne(_, _, _, _) => before.Allocating? && after == Sizing(before.i)
    case Tidy(_) => before.Tidying? && after == if before.i + 1 < n then Removing(before.i + 1) else Gathering
    case Gather => before == Gathering && after.Assigning?
    case Assign =>
      && before.Assigning? && before.queue != [] && after == Assigning(before.queue[1..], before.snapshot)
    case Finish => before.Assigning? && before.queue == [] && after == Resting
    case WakeUp => before == Resting && after == Beginning
  }

  /**
   The loop visits every pool, in the order of the configuration, first to release and then to remove,
   terminate and allocate, and only then serves the tickets; no other actor moves the manager, unless
   the server stops or starts.
   */
  lemma LoopInOrder(cfg: Config, run: Run, i: nat)
    requires Valid(cfg, run) && i < |run.actions|
    ensures var a, before, after := run.actions[i], run.states[i].pc, run.states[i + 1].pc;
      match a
      case Manage(m) => NextPlace(cfg, m, before, after)
      case Env(e) => after == if e.Crash? then Down else if e.Boot? then Beginning else before
      case Work(w) => after == before
  {
    hide Takes, Can, Do, NextPlace;
    StepOf(cfg, run, i);
    hide Valid;
    StepFollows(cfg, run.states[i], run.actions[i]);
  }

  lemma StepFollows(cfg: Config, s: Sys, a: Action)
    requires Can(cfg, s, a)
    ensures match a
            case Manage(m) => NextPlace(cfg, m, s.pc, Do(cfg, s, a).pc)
            case Env(e) => Do(cfg, s, a).pc == if e.Crash? then Down else if e.Boot? then Beginning else s.pc
            case Work(w) => Do(cfg, s, a).pc == s.pc
  {
    hide CanEnv, CanWork, DoEnv, DoWork, NextPlace;
    match a
    case Env(e) => EnvPlace(s, e);
    case Work(w) => WorkKeepsLoop(cfg, s, w);
    case Manage(m) => ManageFollows(cfg, s, m);
  }

  lemma EnvPlace(s: Sys, a: EnvStep)
    requires CanEnv(s, a)
    ensures DoEnv(s, a).pc == if a.Crash? then Down else if a.Boot? then Beginning else s.pc
  {
    hide Kill, FixBroken, Watch, TakeTicket, CloseTicket;
  }

  lemma ManageFollows(cfg: Config, s: Sys, a: ManagerStep)
    requires PcFits(cfg, s) && CanManage(cfg, s, a)
    ensures NextPlace(cfg, a, s.pc, DoManage(cfg, s, a).pc)
  {
    hide MayStart, OnDemand.Decide, OnDemand.WaitingOrder, Assignment.ServiceOrder, Assignment.ReadyNow, RequestRemoval,
         DetectClosed, AssignTicket, InitPools, Zeros, Budget, SmallestNumbers, Allocate, NamesOf, Closing, ToTerminate,
         SameRows, SameTickets, SameNumbers, SameStarts, OnlyRow;
  }
}
