/**
 `AtomicEvent` of `resallocserver/main.py` between the API threads that set it and the manager,
 the only thread that waits for it.

 Every statement inside the two critical sections is a step of its own; any thread may run
 between two steps.  An API thread commits its transaction before it calls `set`
 (`resallocserver/api.py`), and a manager's loop sees what was committed before it started.
 */
module Events {

  type Thread = nat

  /** Where an API or worker thread is; `c` numbers the commit it wants to be seen. */
  datatype Setter =
    | Idle
    | Committed(c: nat)  // about to enter `set`
    | Locked(c: nat)     // holds the condition's lock
    | Flagged(c: nat)    // the inner event is set, the manager not notified yet
    | Notified(c: nat)   // about to leave the critical section

  /** Where the manager is. */
  datatype Waiter =
    | Running            // inside `_loop`
    | Entering           // holds the lock, about to test the event
    | Sleeping           // inside `cond.wait`, the lock released
    | Woken              // notified or timed out, wants the lock back
    | Clearing           // holds the lock, about to clear the event
    | Leaving            // holds the lock, the event is clear

  datatype Holder = Nobody | TheManager | ASetter(thread: Thread)

  /** `signalled` is the newest commit whose thread has set the event, `seen` what the last loop saw. */
  datatype State = State(flag: bool, holder: Holder, setters: map<Thread, Setter>, manager: Waiter,
                         commits: nat, signalled: nat, seen: nat)

  datatype Action =
    | Commit(thread: Thread) | Acquire(thread: Thread) | SetFlag(thread: Thread)
    | Notify(thread: Thread) | Release(thread: Thread)
    | Enter | Test | TimeOut | Relock | Clear | Leave

  ghost predicate Start(s: State) {
    && !s.flag && s.holder == Nobody && s.manager == Running
    && (forall t :: t in s.setters ==> s.setters[t] == Idle)
    && s.commits == s.signalled == s.seen == 0
  }

  predicate Can(s: State, a: Action) {
    match a
    case Commit(t) => t in s.setters && s.setters[t].Idle?
    case Acquire(t) => t in s.setters && s.setters[t].Committed? && s.holder == Nobody
    case SetFlag(t) => t in s.setters && s.setters[t].Locked?
    case Notify(t) => t in s.setters && s.setters[t].Flagged?
    case Release(t) => t in s.setters && s.setters[t].Notified?
    case Enter => s.manager == Running && s.holder == Nobody
    case Test => s.manager == Entering
    case TimeOut => s.manager == Sleeping
    case Relock => s.manager == Woken && s.holder == Nobody
    case Clear => s.manager == Clearing
    case Leave => s.manager == Leaving
  }

  function Do(s: State, a: Action): State
    requires Can(s, a)
  {
    match a
    case Commit(t) => s.(commits := s.commits + 1, setters := s.setters[t := Committed(s.commits + 1)])
    case Acquire(t) => s.(holder := ASetter(t), setters := s.setters[t := Locked(s.setters[t].c)])
    case SetFlag(t) =>
      var c := s.setters[t].c;
      s.(flag := true, setters := s.setters[t := Flagged(c)],
         signalled := if c > s.signalled then c else s.signalled)
    case Notify(t) =>
      s.(manager := if s.manager == Sleeping then Woken else s.manager,
         setters := s.setters[t := Notified(s.setters[t].c)])
    case Release(t) => s.(holder := Nobody, setters := s.setters[t := Idle])
    case Enter => s.(manager := Entering, holder := TheManager)
    case Test => if s.flag then s.(manager := Clearing) else s.(manager := Sleeping, holder := Nobody)
    case TimeOut => s.(manager := Woken)
    case Relock => s.(manager := Clearing, holder := TheManager)
    case Clear => s.(manager := Leaving, flag := false)
    case Leave => s.(manager := Running, holder := Nobody, seen := s.commits)
  }

  predicate InSection(p: Setter) { p.Locked? || p.Flagged? || p.Notified? }

  ghost predicate Inv(s: State) {
    // the lock is held by exactly the thread that is inside a critical section
    && (forall t :: t in s.setters && InSection(s.setters[t]) ==> s.holder == ASetter(t))
    && (s.holder == TheManager <==> s.manager in {Entering, Clearing, Leaving})
    && (s.holder.ASetter? ==> s.holder.thread in s.setters && InSection(s.setters[s.holder.thread]))
    && (forall t :: t in s.setters && !s.setters[t].Idle? ==> s.setters[t].c <= s.commits)
    && s.signalled <= s.commits && s.seen <= s.commits
    // the event tells of every signalled commit that no loop has seen
    && (s.signalled > s.seen ==> s.flag || s.manager == Leaving)
    // a sleeping manager that was not notified finds the event clear, or is about to be notified
    && (s.manager == Sleeping && s.flag ==>
          s.holder.ASetter? && s.setters[s.holder.thread].Flagged?)
  }

  lemma StartInv(s: State)
    requires Start(s)
    ensures Inv(s)
  {
  }

  lemma StepInv(s: State, a: Action)
    requires Inv(s) && Can(s, a)
    ensures Inv(Do(s, a))
  {
  }

  datatype Run = Run(states: seq<State>, actions: seq<Action>)

  ghost predicate Valid(r: Run) {
    && |r.states| == |r.actions| + 1
    && Start(r.states[0])
    && (forall i :: 0 <= i < |r.actions| ==>
          Can(r.states[i], r.actions[i]) && r.states[i + 1] == Do(r.states[i], r.actions[i]))
  }

  lemma {:induction false} RunInv(r: Run, i: nat)
    requires Valid(r) && i < |r.states|
    ensures Inv(r.states[i])
    decreases i
  {
    if i == 0 {
      StartInv(r.states[0]);
    } else {
      RunInv(r, i - 1);
      StepInv(r.states[i - 1], r.actions[i - 1]);
    }
  }

  /** Between critical sections a sleeping manager that nobody notified finds the event clear. */
  lemma SleepingMeansClear(r: Run, i: nat)
    requires Valid(r) && i < |r.states|
    requires r.states[i].manager == Sleeping && r.states[i].holder == Nobody
    ensures !r.states[i].flag && r.states[i].signalled <= r.states[i].seen
  {
    RunInv(r, i);
  }

  /** Some thread set the event before the `i`-th step, and the manager has not cleared it since. */
  ghost predicate SetSinceClear(r: Run, i: nat) {
    exists j :: 0 <= j < i && j < |r.actions| && r.actions[j].SetFlag?
      && forall k :: j < k < i && k < |r.actions| ==> r.actions[k] != Clear
  }

  /** The event remembers exactly this. */
  lemma {:induction false} FlagIs(r: Run, i: nat)
    requires Valid(r) && i < |r.states|
    ensures r.states[i].flag <==> SetSinceClear(r, i)
    decreases i
  {
    if i > 0 {
      FlagIs(r, i - 1);
      assert Can(r.states[i - 1], r.actions[i - 1]) && r.states[i] == Do(r.states[i - 1], r.actions[i - 1]);
      hide Can, Start;
    }
  }

  /** The manager goes to sleep exactly if nobody set the event since it last woke up: no spin, no missed set. */
  lemma SleepsIffUnset(r: Run, i: nat)
    requires Valid(r) && i < |r.actions| && r.actions[i] == Test
    ensures r.states[i + 1].manager == if SetSinceClear(r, i) then Clearing else Sleeping
  {
    FlagIs(r, i);
    assert Can(r.states[i], r.actions[i]) && r.states[i + 1] == Do(r.states[i], r.actions[i]);
    hide SetSinceClear;
  }

  /** A step the manager takes by itself, other than giving up waiting. */
  predicate ManagerStep(a: Action) { a in {Enter, Test, Relock, Clear, Leave} }

  /** How many steps of its own the manager needs at most to start its next loop. */
  function Distance(m: Waiter): nat {
    match m
    case Running => 4
    case Sleeping => 4
    case Entering => 3
    case Woken => 3
    case Clearing => 2
    case Leaving => 1
  }

  /** The manager's own steps in a stretch of a run, timeouts not counted. */
  function ManagerSteps(actions: seq<Action>): nat {
    if actions == [] then 0
    else ManagerSteps(actions[..|actions| - 1]) + if ManagerStep(actions[|actions| - 1]) then 1 else 0
  }

  lemma OneMoreStep(actions: seq<Action>, i: nat, j: nat)
    requires i < j <= |actions|
    ensures ManagerSteps(actions[i..j]) ==
            ManagerSteps(actions[i..j - 1]) + if ManagerStep(actions[j - 1]) then 1 else 0
  {
    assert actions[i..j][..j - i - 1] == actions[i..j - 1];
  }

  /** With an unseen signal, every step of the manager brings the next loop closer. */
  lemma StepCloser(s: State, a: Action)
    requires Inv(s) && Can(s, a) && s.signalled > s.seen
    ensures a == Leave ==> Do(s, a).seen >= s.signalled
    ensures a != Leave ==> Do(s, a).seen == s.seen && Do(s, a).signalled >= s.signalled
    ensures a != Leave ==>
      Distance(Do(s, a).manager) + (if ManagerStep(a) then 1 else 0) <= Distance(s.manager)
  {
  }

  /**
   No wake-up is lost.  Once commit `c` has been signalled, the manager starts a loop that sees it
   before it has taken four more steps of its own, whatever the other threads do meanwhile.
   */
  lemma {:induction false} NoLostWakeUp(r: Run, i: nat, j: nat)
    requires Valid(r) && i <= j < |r.states|
    requires ManagerSteps(r.actions[i..j]) >= 4
    ensures exists k :: i <= k <= j && r.states[k].seen >= r.states[i].signalled
  {
    if forall k :: i <= k <= j ==> r.states[k].seen < r.states[i].signalled {
      StillWaiting(r, i, j);
    }
  }

  lemma {:induction false} StillWaiting(r: Run, i: nat, j: nat)
    requires Valid(r) && i <= j < |r.states|
    requires forall k :: i <= k <= j ==> r.states[k].seen < r.states[i].signalled
    ensures r.states[j].signalled >= r.states[i].signalled
    ensures Distance(r.states[j].manager) + ManagerSteps(r.actions[i..j]) <= Distance(r.states[i].manager)
    decreases j
  {
    hide Inv, Can, Do, Start, ManagerStep, Distance;
    if i < j {
      StillWaiting(r, i, j - 1);
      var p, a := r.states[j - 1], r.actions[j - 1];
      assert Can(p, a) && r.states[j] == Do(p, a);
      RunInv(r, j - 1);
      StepCloser(p, a);
      OneMoreStep(r.actions, i, j);
    }
  }

  /**
   Nor does the manager depend on the timeout for those steps: while a signal is unseen it can
   take one at once, or the lock is held by a thread that can take its own next step at once; and
   if the manager sleeps, that next step is its notification.
   */
  lemma NeverStuck(r: Run, i: nat)
    requires Valid(r) && i < |r.states| && r.states[i].signalled > r.states[i].seen
    ensures var s := r.states[i];
      || (exists a :: ManagerStep(a) && Can(s, a))
      || (s.holder.ASetter? && var t := s.holder.thread;
            if s.manager == Sleeping then Can(s, Notify(t)) && Do(s, Notify(t)).manager == Woken
            else Can(s, SetFlag(t)) || Can(s, Notify(t)) || Can(s, Release(t)))
  {
    RunInv(r, i);
    var s := r.states[i];
    assert ManagerStep(Enter) && ManagerStep(Test) && ManagerStep(Relock) && ManagerStep(Clear) && ManagerStep(Leave);
    match s.manager
    case Running => assert s.holder == Nobody ==> Can(s, Enter);
    case Entering => assert Can(s, Test);
    case Sleeping =>
    case Woken => assert s.holder == Nobody ==> Can(s, Relock);
    case Clearing => assert Can(s, Clear);
    case Leaving => assert Can(s, Leave);
  }

  /** A thread that holds the lock gives it back after at most three steps of its own. */
  function StepsToRelease(p: Setter): nat {
    match p
    case Locked(_) => 3
    case Flagged(_) => 2
    case Notified(_) => 1
    case _ => 0
  }

  lemma HolderAdvances(s: State, a: Action)
    requires Inv(s) && Can(s, a) && s.holder.ASetter?
    ensures var t := s.holder.thread;
            var now, next := StepsToRelease(s.setters[t]), StepsToRelease(Do(s, a).setters[t]);
            && now > 0 && (a in {SetFlag(t), Notify(t), Release(t)} ==> next == now - 1)
            && (a !in {SetFlag(t), Notify(t), Release(t)} ==> next == now && Do(s, a).holder == s.holder)
            && (next == 0 ==> Do(s, a).holder == Nobody)
  {
  }
}
