# The resalloc server, modelled and verified

The resalloc server hands out resources, usually virtual machines, to tickets. A manager thread
allocates, assigns, releases and removes resources in pools. API threads take and close tickets,
workers run the shell hooks, a watcher checks the resources that are up, and a maintainer may kill a
resource at any time. All of them share one database, and every `session_scope()` block is a
transaction. A restart loses all threads and keeps the database.

This project models the server's logic and proves what holds in every run of it.

## Structure

| file | what it models |
|---|---|
| `Collections.dfy` | finite sums, ascending listings, smallest free numbers |
| `Tables.dfy`, `Logic.dfy` | the database, and every transaction as a function on it |
| `Database.dfy`, `Pools.dfy`, `Workers.dfy` | the tables as mutable state, the loops of class `Pool` and the transactions of the workers; each method is proved to compute a function of `Logic` |
| `Assignment.dfy`, `OnDemand.dfy` | which ticket gets which resource; where to start on-demand resources |
| `Decisions.dfy` | that decision in terms of the waiting tickets and the quotas |
| `Managers.dfy` | the loops and priority queues of class `Manager`, proved to compute those decisions |
| `Serving.dfy`, `Heaps.dfy`, `PriorityQueue.dfy`, `Lines.dfy`, `Capture.dfy`, `Events.dfy` | the priority queue with lazy deletion, the line splitter, the captured standard output, the event that wakes the manager |
| `Protocol.dfy` | the server as a state machine: every transaction of every actor is a step, in any interleaving, with crash and restart |
| `Links.dfy`, `Invariant.dfy`, `Edges.dfy` | the inductive invariant, and what one step can change |
| `Safety.dfy`, `Quotas.dfy`, `Starts.dfy`, `Cleaner.dfy`, `Fairness.dfy`, `Trimming.dfy`, `Progress.dfy` | the results about all runs |
| `History.dfy`, `Answers.dfy`, `Removal.dfy`, `Allocation.dfy`, `Restart.dfy` | rows, answers and the manager's transactions in terms of what happened in the run |
| `Reuse.dfy`, `FailedReleases.dfy` | exactly when the reuse limits hold, and when the mark of a failed release counts |
| `Finality.dfy` | exactly when ENDED is final, and when `max` is kept |
| `Reach.dfy`, `Scenes.dfy` | building runs: the steps of a server with one pool |
| `TwoTerminators.dfy`, `Counterexamples.dfy` | runs from the empty database in which the exceptions occur |

A lemma about runs takes any `run` with `Protocol.Valid(cfg, run)`: a sequence of states that begins
with an empty database and in which each step is one transaction of some actor. `ValidConfig` is
what loading the configuration guarantees.

Assumptions: transactions are serialisable; the configuration stays the same and its pool names and
counter names are distinct; the clock does not go back; a generated name is new; generated uuids
differ from each other and from the sandboxes that users give; the cloud lists only machines that
some allocation was committed for, and foreign ones. Names, tags and counters are numbers, since the
server only compares them.

## Where the code and its documentation differ

- `PriorityQueue` says that a higher priority is taken later. The code takes it earlier, and so does
  the model.
- `_garbage_collector` starts a terminator for a resource that is still in DELETE_REQUEST in every
  loop, so two may work on one resource. The later one may find it ENDED and write DELETING.
  `Finality` proves that ENDED is final, and that the resources counted against `max` are those that
  hold an id, exactly when this never happens. A pool keeps within `max` exactly when it has room
  whenever a resource is allocated in it and whenever a terminator is late in it
  (`Finality.MaxKeptIff`); an allocation finds it full only if a terminator was late since the
  statistics were gathered, and each late terminator costs at most one resource beyond `max`.
  `TwoTerminators.MaxIsExceeded` is a run in which `max` is exceeded. All other results hold with
  any number of terminators.
- `reuse_max_count` and `reuse_opportunity_time: 0` are said to limit the uses of a resource. In a
  pool with `cmd_release` an assignment exceeds the limits exactly when a release of the resource,
  one too many, ended in the same loop after the removal pass (`Reuse.ExceedsIffReleasedLate`).
  `Counterexamples.LimitIsExceeded` is such a run. Without `cmd_release` the limits always hold.
- A failed `cmd_release` is said to mark the resource for removal.
  `FailedReleases.FailedReleaseIsRemovedIff` proves for which pools the mark has that effect: those
  whose reuse time is not positive, those with a positive `reuse_max_count`, and those with a
  negative `reuse_max_time`. `Counterexamples.MarkIsIgnored` is a run in which it has none.
- In a pass of `_assign_tickets` a later ticket may get a resource that an earlier one could have
  used, while that one gets nothing it prefers. `Fairness.NoEnvy` proves when: `check_failed_count`
  of the resource was not zero at the earlier ticket's turn, and the resource would have been its
  choice otherwise. A check has succeeded between the two turns then. With a count of zero there is
  no envy, whatever is checked during the pass.
  `Counterexamples.EnvyAfterCheck` is a run in which it happens.

## Model

| member | source | states |
|---|---|---|
| Safety.Pairing | resallocserver/logic.py:28-47 | in every state of every run an open ticket's resource is up and taken by that ticket, a taken resource's ticket knows the resource, no two resources share a ticket, and the ticket of a resource that is up is not FAILED |
| Safety.ReleasedIsTheOneFound | resallocserver/manager.py:854-858 | `release_resource(ticket)` always frees the resource that the loop is at |
| Safety.TerminatorNeverBlocked | resallocserver/manager.py:272-279 | the guard "can't delete, ticket opened" never fires, and the resource was already dying |
| Safety.DyingIsForever | resallocserver/logic.py:90-103 | DELETE_REQUEST, DELETING and ENDED are never left, over any number of steps and restarts, and the ticket stays as it was |
| Safety.OneWorkerEach | resallocserver/manager.py:847-873 | while the server is up each STARTING resource has exactly one AllocWorker and each RELEASING one exactly one ReleaseWorker, and no other resource has any |
| Safety.BlindWritesAreSafe | resallocserver/manager.py:254-397 | the states that the workers overwrite without reading them are always the expected ones |
| Safety.AnswersAreStable | resallocserver/api.py:61-80 | once `collectTicket` reports ready, every later call reports ready with the same output, and there is an output |
| Safety.AnswersAge | resallocserver/api.py:69-78 | a ticket reported closed stays closed and is not failed; a failed one is ready with an output, and later failed or closed |
| Answers.AnswersTell | resallocserver/api.py:61-80 | `collectTicket` on a known ticket, from the events of the run: closed exactly once it was closed, failed exactly from losing its resource to being closed, ready exactly once the manager gave it a resource, and then with the output that the successful start of that resource wrote |
| Answers.LostIff | resallocserver/logic.py:144-155 | an open ticket loses its resource exactly when the maintainer kills the resource, or the removal pass of its pool finds that it failed as many checks in a row as allowed |
| Answers.KillDoes | resallocserver/logic.py:144-155 | a kill fails exactly the open tickets of the resource, requests its removal exactly if it is up, and changes nothing else |
| Answers.TicketIs | resallocserver/logic.py:144-155 | a ticket is CLOSED once closed, else FAILED once it lost its resource, else OPEN; it has a resource exactly once its turn gave it one |
| Answers.DataIs | resallocserver/manager.py:370-394 | a row holds what the end of its start wrote; if the start failed the resource is dead and was never used |
| Answers.ServedHasTags | resallocserver/manager.py:1038-1046 | the resource of a ticket has all the tags that the ticket asked for |
| Answers.TagsAre | resallocserver/manager.py:376-388 | a started resource has the tags of its pool, each with the priority listed for it |
| Safety.TicketsAge | resallocserver/api.py:104-110 | a ticket only goes OPEN, FAILED, CLOSED or OPEN, CLOSED, and a FAILED one had a resource that is dying |
| Safety.SandboxIsolation | resallocserver/logic.py:32-38 | a resource's sandbox never changes once set and is that of every ticket it ever served |
| Safety.AssignReturnsTrue | resallocserver/manager.py:1068-1070 | `assign_ticket` returns true whenever the manager calls it |
| Safety.OwnSandboxMeansNoSharing | resallocserver/logic.py:32-40 | a resource given to a ticket that came without a sandbox serves no other ticket, ever |
| Links.AssignKeeps | resallocserver/logic.py:28-40 | assigning a ready resource in the right sandbox keeps rows and tickets linked and generated sandboxes unique |
| Links.KillKeeps | resallocserver/logic.py:144-155 | killing resources keeps rows and tickets linked: tickets fail together with their resources |
| Links.DetectKeeps | resallocserver/manager.py:847-865 | releasing the resources of closed tickets keeps rows and tickets linked |
| Links.RemovalKeeps | resallocserver/manager.py:933-977 | the removal pass keeps rows and tickets linked: it requests no removal of a taken resource without failing its ticket |
| Links.NoOpenTicket | resallocserver/manager.py:274-278 | a resource that is dying has no open ticket |
| Edges.GoodStep | resallocserver/manager.py:1206-1227 | every step of every actor keeps the invariant, and changes rows and tickets only along the edges of their life cycles |
| Edges.GoodRun | resallocserver/manager.py:1230-1244 | the invariant holds in every state of every run |
| Restart.BootRepairs | resallocserver/logic.py:90-103 | a boot turns every resource that is STARTING, RELEASING or DELETING into DELETE_REQUEST, and changes no other row, no ticket and no number |
| Restart.DeletingHasWorker | resallocserver/manager.py:270-301 | while the server is up every resource in DELETING has a worker that will end it |
| Restart.CollectSends | resallocserver/manager.py:980-985 | every resource of the pool in DELETE_REQUEST is sent one terminator, and no other is |
| History.ReleasedAt | resallocserver/logic.py:43-47 | in every run a row was never released, or holds the time of the last step that released it |
| History.SandboxedSince | resallocserver/logic.py:36-38 | in every run a row was never taken, or holds the time of the first step that gave it to a ticket |
| History.FailedChecks | resallocserver/manager.py:538-548 | in every run a row holds how many of its last checks failed in a row |
| History.DetectDoes | resallocserver/manager.py:847-873 | a detection frees exactly the resources of its pool that are up and taken by a closed ticket, and starts the release command for exactly those if the pool has one |
| Progress.ManagerNeverStuck | resallocserver/manager.py:1206-1227 | wherever the manager is in its loop, whatever others did, its next step is possible: a head of the queue exists, and free numbers and names can be found |
| Progress.LoopInOrder | resallocserver/manager.py:1206-1227 | the loop visits every pool in the order of the configuration, first to release and then to remove, terminate and allocate, and only then serves the tickets; no other actor moves the manager but by stopping or starting the server |
| Quotas.QuotasHold | resallocserver/manager.py:786-816 | no interleaving exceeds `max_starting`, nor `max_prealloc` free and starting resources, nor `max` resources that hold an id, although statistics and allocation are separate transactions |
| Quotas.NumbersAreUnique | resallocserver/manager.py:663-720 | in every run a resource in use holds an id below `max` unique in its pool and a value of each of the pool's counters unique over all pools, below the sum of `max` over the pools that use the counter; ended resources hold none |
| Quotas.NextId | resallocserver/manager.py:672-685 | the smallest free id is new in the pool and below `max` |
| Quotas.NextValue | resallocserver/manager.py:687-701 | the smallest free counter value is new and below the joint capacity of the pools that use the counter |
| Quotas.CountByPool | resallocserver/manager.py:687-701 | the holders of a counter are at most as many as its pools have numbered resources together |
| Collections.SmallestFreeBound | resallocserver/manager.py:663-670 | the smallest free number is at most the number of used ones |
| Finality.EndedIsFinalIffNeverLate | resallocserver/manager.py:254-285 | over a run, no resource leaves ENDED if and only if no terminator finds its resource ENDED |
| Finality.OnIsNumberedIffNeverLate | resallocserver/manager.py:980-985 | the resources that are not ENDED always hold an id, throughout a run, if and only if no terminator is late |
| Finality.MaxKeptIff | resallocserver/manager.py:786-816 | no state of a run has more than `max` resources of a pool that are not ENDED, if and only if there are fewer whenever a resource is allocated in the pool and whenever a terminator brings one of it back from ENDED |
| Finality.AddsOne | resallocserver/manager.py:703-730 | an allocation, and a terminator that is late, adds exactly one resource that is not ENDED |
| Finality.FullStartNeedsLate | resallocserver/manager.py:797-816 | an allocation in a pool that is full has a late terminator of that pool between the statistics and itself |
| Finality.OnWithinMaxAndLates | resallocserver/manager.py:797-816 | in every run a pool has at most `max` resources that are not ENDED and one more for each terminator that has been late in it |
| Finality.OneTerminatorNeverLate | resallocserver/manager.py:980-985 | with at most one terminator in flight per resource none is late |
| Finality.OneTerminatorKeepsMax | resallocserver/manager.py:786-816 | with at most one terminator in flight per resource, ENDED is final and `max` is kept in the whole run |
| TwoTerminators.MaxIsExceeded | resallocserver/manager.py:980-985 | a run from the empty database in which a late terminator brings a resource back from ENDED and a pool with `max: 1` has two resources |
| Starts.StartsAreApart | resallocserver/manager.py:703-710 | any two starts in a pool are at least `start_delay` apart, over the whole run and its restarts |
| Starts.StartsWithinPlan | resallocserver/manager.py:805-816 | between one decision and the next an on-demand pool starts at most what was decided |
| Starts.StepSpends | resallocserver/manager.py:815-816 | in an on-demand pool every start takes one from a positive budget, and no other step but the next decision adds to it, so the allocation loop ends |
| Starts.MadeAndLeft | resallocserver/manager.py:815-816 | starts made and budget left never exceed the decision |
| Allocation.SizeDecides | resallocserver/manager.py:786-810 | the allocation loop goes on exactly if fewer than `max` resources are not ENDED, fewer than `max_starting` are starting, and fewer than `max_prealloc` are starting or up and never used, or for an on-demand pool the plan is not used up |
| Allocation.DelayDecides | resallocserver/manager.py:703-710 | and exactly if the last start of the pool is at least `start_delay` ago |
| Allocation.BudgetIsRest | resallocserver/manager.py:805-816 | during a loop what is left for a pool is the decision without the starts made since |
| Reuse.ExceedsIffReleasedLate | resallocserver/manager.py:933-975 | an assignment gives out a resource that was released more often than the limits of its pool allow, if and only if a release of it that made it so ended in the same loop after the removal pass |
| Reuse.IdleIsUsableOrLate | resallocserver/manager.py:947-975 | from the removal pass of a pool to the end of the loop every idle resource of it is within the limits, or its release ended after the pass |
| Reuse.ReuseIsBounded | resallocserver/manager.py:947-975 | as long as no assignment exceeded the limits, which never happens without `cmd_release`, a resource served at most one ticket without reuse time, and at most `reuse_max_count + 1` if that is positive; without `cmd_release` the row counts the tickets it ever served |
| Counterexamples.LimitIsExceeded | resallocserver/manager.py:847-873 | a run from the empty database in which a pool with `cmd_release` and `reuse_max_count: 1` lets a resource serve three tickets |
| Reuse.RemovalRetires | resallocserver/manager.py:947-975 | what the removal pass leaves idle may be used at least once more under the reuse limits |
| Removal.PassDoes | resallocserver/manager.py:933-977 | a removal pass requests the removal of exactly the resources of its pool that are up and fail their checks, exceed a reuse limit or are needed by nobody; it fails exactly the open tickets of those that fail their checks, and changes nothing else |
| Removal.ReleasedGoes | resallocserver/manager.py:947-975 | an untaken resource that was released: the pass removes it if and only if it failed too many checks in a row, or there is no reuse, or its last release is longer ago than `reuse_opportunity_time`, or its first assignment than `reuse_max_time` if that is set, or it was released more often than `reuse_max_count` if that is set |
| Removal.TakenGoes | resallocserver/manager.py:938-945 | a taken resource: if and only if it failed too many checks in a row |
| Removal.NeverTakenGoes | resallocserver/manager.py:916-930 | one that was never released: if and only if it failed too many checks in a row, or its pool is on demand and has, among those never used, as many newer ones as tickets wait for the pool |
| FailedReleases.FailedReleaseMarks | resallocserver/manager.py:324-333 | a failed release command leaves the resource up, idle and marked with one release too many |
| FailedReleases.FailedReleaseIsRemovedIff | resallocserver/manager.py:947-975 | over all linked databases and all times not before the timestamps, the next removal pass removes a marked resource if and only if the pool has no positive reuse time, a positive `reuse_max_count` or a negative `reuse_max_time` |
| FailedReleases.MarkedNeverPasses | resallocserver/manager.py:933-975 | under that condition no marked resource gets past a removal pass of its pool, in any run |
| FailedReleases.StampsArePast | resallocserver/logic.py:36-47 | in every run the times at which a resource was released and sandboxed are not in the future |
| Counterexamples.MarkIsIgnored | resallocserver/manager.py:324-333 | a run from the empty database in which a release fails, and the removal pass leaves the resource ready for the next ticket |
| Cleaner.NeverCleansWhatIsUsed | resallocserver/manager.py:444-492 | a name that the cleaner ran `cmd_delete` on is at no later time the name of a resource that is STARTING, UP or RELEASING |
| Cleaner.UnlistedIsGone | resallocserver/manager.py:447-449 | a name that the cloud listed and the database does not know as on belongs to nothing in use |
| Cleaner.CleanerDoes | resallocserver/manager.py:444-492 | a cleaner is to delete exactly the listed names that no resource has which is not ENDED, and is done when it has deleted all of them |
| Cleaner.StepFits | resallocserver/manager.py:703-730 | every step keeps names distinct and what the cleaners are about to delete dead |
| Fairness.NoEnvy | resallocserver/manager.py:1012-1070 | when in a pass a later ticket gets a resource that could have served an earlier ticket, the earlier one got a resource it prefers, unless (exactly) the resource was failing its checks at its turn and would have been its choice otherwise; then a check of it succeeded in between |
| Fairness.WouldGetIff | resallocserver/manager.py:1048-1066 | a resource that only its failed checks keep from a ticket would be its choice if and only if the ticket gets no resource that it prefers |
| Counterexamples.EnvyAfterCheck | resallocserver/manager.py:538-548 | a run from the empty database in which the second of two tickets gets the only resource because a check succeeded between their turns |
| Fairness.NothingLeftBehind | resallocserver/manager.py:1061-1066 | after the pass every queued ticket without a resource has had its turn and found nothing; a snapshot resource that is ready could serve it if and only if that resource was failing its checks at that turn and suited otherwise, and then a check of it has succeeded since |
| Fairness.IdleSince | resallocserver/manager.py:1012-1016 | a snapshot resource that is up and untaken has been so since the snapshot, with the same row but for its failed checks; these become none only by a successful check |
| Fairness.PassBegins | resallocserver/manager.py:1002-1016 | the queue of a pass has exactly the open tickets without a resource, those that ask for an on-demand tag of some pool first, then by id; the snapshot has exactly the resources that are up, untaken and fail no check |
| Fairness.ServedAsChosen | resallocserver/manager.py:1026-1070 | the ticket at the head of the queue gets what `Choice` says, or nothing |
| Assignment.ServedIffPossible | resallocserver/manager.py:1038-1066 | a ticket gets a resource if and only if a suitable one is left |
| Assignment.ChoiceIs | resallocserver/manager.py:1038-1062 | a ticket gets a resource of the snapshot that is up, untaken, fails no check, is in no other sandbox and has the tags, if there is one; of those the one with the greatest sum of asked priorities, where being in the sandbox counts 500, and of equals the lower id |
| Assignment.SnapshotIs | resallocserver/manager.py:1012-1016 | the snapshot has exactly the resources that are up, untaken and fail no check |
| Assignment.ChoiceIsUnique | resallocserver/manager.py:1048-1062 | the choice, by tag priorities, the bonus for a sandbox and then the lower id, is unique |
| Assignment.OrderOfService | resallocserver/manager.py:1002-1010 | the queue has every waiting ticket once, on-demand tickets first, and the older first among equals |
| OnDemand.StartsMatchDemand | resallocserver/manager.py:1094-1191 | in a pool that is to start resources, those that exist and the starts are together at most the waiting on-demand tickets that the pool covers |
| OnDemand.OneStartPerTicket | resallocserver/manager.py:1155-1191 | each ticket starts at most one resource over all pools, none if it reserved an existing one, and the starts fit `max` and `max_starting` |
| OnDemand.StartsInAll | resallocserver/manager.py:1155-1191 | all pools together start at most one resource for each waiting ticket without a reservation |
| Decisions.DecisionIs | resallocserver/manager.py:1094-1195 | the whole decision, ticket by ticket: a ticket counts on an existing resource of the first pool by name that can serve it and has more than earlier tickets count on; otherwise a resource is started for it, in the best pool that can serve it and has both quotas left after the starts for earlier tickets; each pool starts one for each such ticket |
| Decisions.NobodyIsForgotten | resallocserver/manager.py:1145-1195 | a waiting ticket that asks for an on-demand tag and can be served counts on a resource or triggers a start, unless every pool that can serve it has reached `max` or `max_starting` |
| OnDemand.ReserveCounts | resallocserver/manager.py:1115-1152 | existing resources are reserved for at most one ticket each, and a ticket is to be solved only if all pools that cover it are spent |
| OnDemand.PickIsBest | resallocserver/manager.py:1159-1191 | the pool that is picked has room and the highest priority, the first of those by name; none is picked only if none has room |
| OnDemand.FoundAllIffCovers | resallocserver/manager.py:622-635 | a pool has a priority for a ticket exactly if its tags include the ticket's |
| Trimming.SurplusIsOldest | resallocserver/manager.py:916-930 | the surplus consists of the lowest ids and leaves the minimum of unused resources and waiting tickets |
| Trimming.TrimLeaves | resallocserver/manager.py:904-930 | trimming leaves exactly as many never used resources as tickets wait, the newest, and touches nothing else |
| Trimming.ReservationCounts | resallocserver/manager.py:912-914 | a ticket for which the decision reserved one of the pool's resources is counted as long as it waits |
| Databases.Database.AssignTicket | resallocserver/logic.py:28-40 | computes `Logic.AssignTicket`; false exactly for a resource in another sandbox |
| Databases.Database.ReleaseResource | resallocserver/logic.py:43-47 | frees the ticket's resource, and changes no other row |
| Databases.Database.Kill | resallocserver/logic.py:144-155 | computes `Logic.Kill` |
| Databases.Database.FixBrokenAfterRestart | resallocserver/logic.py:90-103 | the loop computes `Logic.FixBroken`, the repair that `Restart.BootRepairs` describes row by row |
| Databases.StatsAddUp | resallocserver/logic.py:105-121 | the numbers of `stats` add up |
| Databases.Database.TakeTicket | resallocserver/api.py:42-58 | exactly the new ticket joins those that wait, for every pool that covers its tags; `collectTicket` answers that it is not ready, not closed and not failed, and answers for every other ticket as before |
| Databases.Database.CloseTicket | resallocserver/api.py:104-110 | closes the ticket; for an unknown one nothing changes and the error is reported |
| Databases.Database.CollectTicket | resallocserver/api.py:61-80 | fills the answer as `Logic.CollectTicket`, whose meaning is `Answers.AnswersTell`; an output only if ready |
| Pools.FindSmallestNumber | resallocserver/manager.py:663-670 | finds the smallest number not used, at most the count of used ones |
| Pools.Pool.GetTagsPriority | resallocserver/manager.py:622-635 | the sum of the priorities of the tags asked for, if and only if the pool provides all of them |
| Pools.Pool.MayAllocate | resallocserver/manager.py:786-810 | the guards of the allocation loop are `Protocol.MayStart` |
| Pools.Pool.Allocate | resallocserver/manager.py:703-730 | finds the smallest free numbers and computes `Logic.Allocate` |
| Pools.Pool.DetectClosedTickets | resallocserver/manager.py:847-873 | the loop computes `Logic.DetectClosed` and returns the resources to release, in order |
| Pools.Pool.KillFailing | resallocserver/manager.py:938-945 | the loop kills exactly the resources that failed too many checks |
| Pools.Pool.RetireWorn | resallocserver/manager.py:947-975 | the loop computes `Logic.Retire`, whose meaning is `Removal.ReleasedGoes`: it retires the candidates that a reuse limit excludes |
| Pools.Pool.CountWaiting | resallocserver/manager.py:908-914 | counts the waiting tickets whose tags the pool provides |
| Pools.Pool.DeleteOldest | resallocserver/manager.py:921-930 | the loop stays within the list and deletes its first resources, as many as are too many |
| Pools.Pool.RequestOnDemandResourcesRemoval | resallocserver/manager.py:876-930 | computes `Logic.Trim` |
| Pools.Pool.RequestResourceRemoval | resallocserver/manager.py:933-977 | computes `Logic.RequestRemoval`, the pass that `Removal.PassDoes` describes row by row |
| Workers.BeginTermination | resallocserver/manager.py:270-284 | writes DELETING unless the resource's ticket is open |
| Workers.Close | resallocserver/manager.py:258-266 | the resource ends and gives its id and all its counter values back |
| Workers.FinishRelease | resallocserver/manager.py:324-333 | computes `Logic.FinishRelease` for a release that succeeded or failed |
| Workers.FinishAllocation | resallocserver/manager.py:370-394 | computes `Logic.FinishAlloc`: the resource is up, or ended and without numbers |
| Workers.UnknownResources | resallocserver/manager.py:447-449 | a listed name is left out exactly if a resource that is not ENDED has it; so what is left and known belongs to nothing in use |
| Workers.ListAllResources | resallocserver/manager.py:466-487 | only words of the command's output are listed, and all of them if it ends in time and is short |
| Workers.ListingIsAdmitted | resallocserver/manager.py:466-487 | if the command writes only known and foreign names, `Protocol` admits the listing, wherever the capture stopped |
| Workers.RecordCheck | resallocserver/manager.py:538-548 | after a check that succeeded an untaken resource that is up can be assigned, after one that failed it cannot; it is to be killed exactly if the failed checks reach the limit; no other resource is affected |
| Managers.GatherQueue | resallocserver/manager.py:1004-1016 | draining the queue gives the order of service, and the snapshot is what is ready |
| Managers.PriorityOf | resallocserver/manager.py:1048-1057 | the loop sums the priorities of the asked tags, and adds the bonus for a sandboxed resource, as `Assignment.ChoiceIs` describes |
| Managers.AssignNext | resallocserver/manager.py:1026-1070 | the loop and the queue serve the ticket with `Assignment.Choice`, the resource that `Assignment.ChoiceIs` describes, or not at all if there is none |
| Managers.FindSpare | resallocserver/manager.py:1124-1143 | finds the first covering pool with a resource to spare, and whether any pool covers the tags |
| Managers.TicketsToSolve | resallocserver/manager.py:1115-1152 | the nested loops compute the tickets to solve of `OnDemand.Reserve`, whose meaning is `Decisions.DecisionIs` |
| Managers.PopPool | resallocserver/manager.py:1172-1191 | popping pools until one has room picks `OnDemand.PickPool` |
| Managers.DecideWhereToStart | resallocserver/manager.py:1079-1195 | leaves `start_on_demand_this_cycle` of every pool as `OnDemand.Decide` says, the decision that `Decisions.DecisionIs` describes ticket by ticket |
| PriorityQueues.PriorityQueue.AddTask | resallocserver/priority_queue.py:27-41 | the task is live with its priority under a new number; adding it again replaces it |
| PriorityQueues.PriorityQueue.RemoveTask | resallocserver/priority_queue.py:43-52 | the task is no longer live; an unknown one is reported and nothing changes |
| PriorityQueues.PriorityQueue.PopTask | resallocserver/priority_queue.py:54-61 | returns the live task of the highest priority, first in first out, skipping removed entries; reports an empty queue |
| Heaps.TopIsLeast | resallocserver/priority_queue.py:54-57 | nothing in a heap is before its first entry |
| Heaps.HeapPush | resallocserver/priority_queue.py:41-41 | pushing keeps the heap order and adds exactly the new entry |
| Heaps.HeapPop | resallocserver/priority_queue.py:57-57 | popping keeps the heap order and takes exactly the first entry away |
| Serving.DrainedInOrder | resallocserver/priority_queue.py:32-41 | draining returns every live task once, by descending priority and then by age |
| Serving.OrderIsDrain | resallocserver/priority_queue.py:32-41 | that order is the only one |
| Lines.SplitBuffer | resallocserver/helpers.py:44-47 | the inner loop yields exactly the terminated lines and leaves the rest |
| Lines.YieldLines | resallocserver/helpers.py:14-54 | per descriptor the items are the lines read so far, and the rest at the end of the file; a stream that is read to its end overflows if and only if a line is longer than the cap or the tail fills it |
| Lines.ReadOn | resallocserver/helpers.py:43-47 | only the buffered tail takes part in what the next chunk completes |
| Lines.DivisionUnique | resallocserver/helpers.py:44-47 | a stream has one division into terminated lines and a tail |
| Lines.ItemsMakeUpTheStream | resallocserver/helpers.py:14-54 | items and residual buffer concatenate to the bytes read; each item has one newline, at its end, except a last one at the end of the file |
| Lines.ChunkingDoesNotMatter | resallocserver/helpers.py:27-54 | neither the chunks nor the other descriptors have an influence on the items |
| Lines.FullBufferExceeds | resallocserver/helpers.py:34-38 | a buffer that fills the cap dooms the stream, however it goes on |
| Capture.CaptureLoop | resallocserver/manager.py:108-138 | captures the longest run of whole items that fits, or the trimmed form of it, and logs every item |
| Capture.NoLongerFit | resallocserver/manager.py:124-135 | no longer run of whole items would have fitted |
| Capture.CapturedIs | resallocserver/manager.py:124-138 | the caller gets all of the output if it fits; otherwise the whole items that fit, or as much of the first as fits, and the remark that it was trimmed; a secure capture has neither parts nor the remark |
| Capture.RunCommand | resallocserver/manager.py:111-148 | what is logged is a prefix of the output, all of it unless the command timed out or overflowed; a secure capture ends at the end of a line and has only words of the output |
| Capture.WordsAreWhole | resallocserver/manager.py:475-487 | so every word of a secure capture is a whole word of the output |
| Events.StepInv | resallocserver/main.py:65-80 | every statement of every thread keeps the event telling of every signalled commit that no loop has seen |
| Events.SleepingMeansClear | resallocserver/main.py:70-80 | a sleeping manager that nobody is notifying finds the event clear |
| Events.SleepsIffUnset | resallocserver/main.py:70-80 | the manager goes to sleep exactly if no thread has set the event since it cleared it last |
| Events.NoLostWakeUp | resallocserver/main.py:50-80 | after a `set` the manager starts a loop that sees the commit before it takes four more steps of its own |
| Events.NeverStuck | resallocserver/main.py:65-80 | those steps never wait for the timeout |
| Events.HolderAdvances | resallocserver/main.py:65-68 | a thread that holds the lock returns it after at most three steps of its own |

## Left out

- Shell hooks, log files, `select` and `os.read`: what they return is a parameter, or any value that the step's guard allows.
- Interleaving inside a method: the methods of `Pools`, `Workers` and `Managers` are single transactions or parts of one; that other actors run between two transactions is what `Protocol` models.
- `_allocate_more_resources` as one method: its loop spans transactions, so it is the steps `Size`, `MeasureDelay` and `AllocateOne` of `Protocol`.
- Row objects: a row is a value in its table, so two references to one row, and a worker's detached copy, are not modelled.
- A second clock reading in one transaction: each transaction reads the clock once.
- A worker thread that dies of an exception: its resource would stay in its transitional state until the next restart.
- A changed configuration: reloading gives the same pools, so resources of a pool that was removed do not occur.
- Duplicate tag names in one pool: the later priority is kept, where the database would refuse the second row.
- A NULL tag priority: it counts as zero in `_assign_tickets`, and the model has only numbers.
- When the cleaner is launched: the thirty minutes between two launches are left open, any loop may launch one.
- When the watcher checks: the period and the order of checks are left open, and so is which check succeeds.
- Starts.StartsAreApart: the delay is measured between the committed starts, which is what `Pool.allocate` persists.
- Workers.ListAllResources: names are bytes split at the ASCII blanks; decoding, and blanks outside ASCII, are not modelled.
- Tasks of the priority queue: a task is identified with its `repr`.
- Which layout `heapq` leaves: a plain binary heap stands for it, since the order of entries is strict.
- `waitTicket` and `_notify_waiting`: a notification may be overwritten and the call then relies on its timeout.
- Statistics of start-up times and success rates.
- The agent spawner, the XML-RPC and TLS layers, the command line, the web pages, alembic and the configuration loader.
