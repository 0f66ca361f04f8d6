# A verified model of Hydra's execution plane, event bus, memory search and retrieval benchmark

The Dafny modules here model the concurrent and algorithmic core of the repository and prove
what it promises:

| module | models |
|---|---|
| `Graphs`, `JobDag` | the mutable job graph: colour-marking cycle detection, the edge insertion that rolls back, Kahn's sort; graph theory over unbounded multigraphs |
| `Jobs`, `Queues`, `Schedulers`, `Planes` | the job object, the bounded queue, the delaying scheduler and the plane's methods, as classes with the source's fields and loops |
| `PlaneSteps` | the same plane as a concurrent step system: any number of submitters, the worker goroutine, the scheduler goroutine, the clock and `Stop` interleave atomic steps |
| `PlaneRefinement`, `PlaneSubmission` | uninterrupted step sequences do what the class methods promise |
| `PlaneConservation`, `PlaneLifecycle`, `PlaneGuarantees`, `PlaneTiming`, `PlaneOrder`, `PlaneAcceptance`, `PlaneProgress` | theorems about every state of every run of the step system |
| `PlaneDependencies`, `PlaneCapacity`, `PlaneSpacing` | how far these guarantees reach: exact conditions, with the runs that show them necessary |
| `PlaneOutcomes` | failed attempts over whole runs: what a record tells of them, and when ancestors have completed |
| `EventBuses` | the event bus as classes, with slices over shared backing arrays edited in place |
| `BusSteps`, `BusDelivery`, `BusOrder`, `BusOffers` | the bus as a step system, in which a publish sends one event at a time; channel ownership, delivery, and its order with and without overlapping publishes |
| `MemoryStore` | the in-memory provider: filter, sort, truncate |
| `Scoring`, `Averages` | precision, recall, F1 and their averages, over `real` |
| `Locomo`, `Retrieval` | the basic benchmark strategy: ingest, search, extract, score |
| `Collections`, `Results` | sequences, sets and result types that the models share |
| `LlmIngest`, `LlmQueries` | the strategy that classifies turns in batches and plans one search per question |
| `Executors` | the agent executor's retry loop |

Every class method is proved against a function or predicate of the old state; the whole-run
theorems are lemmas about those functions. A run of a step system is a sequence of states from
the initial one in which each state follows from the one before by an enabled step.

## How the steps map to the code

Each step is a stretch of code that runs under one lock, or touches one shared variable once.

| step | code |
|---|---|
| `Register` | `internal/execution/plane.go:71-74` and `plane.go:86-92`, the table update under the lock |
| `Decide`, then `Put` or `Hold` | `internal/execution/scheduler.go:44-52`, reading the clock, then the queue or the waiting list |
| `CheckContext`, `TakeNext`, `Wake`, `Quit` | `internal/execution/plane.go:125-140` |
| `BeginAttempt`, `AttemptOk`, `AttemptError` | `internal/execution/plane.go:146-173`, the three locked updates around the handler |
| `WorkerDecide`, then `WorkerPut` or `WorkerHold` | `internal/execution/plane.go:162`, the rescheduling whose error is ignored |
| `Partition`, `FlushNext`, `FlushDone`, `TickerQuit` | `internal/execution/scheduler.go:54-89` |
| `Start`, `CancelContext`, `StopBegin`, `StopWorkerDone`, `StopTickerDone`, `StopClose` | `internal/execution/plane.go:43-60` |
| bus steps `Subscribe`, `Unsubscribe`, `Close` | `internal/body/eventbus.go:68-110`; the write lock excludes publishes in progress |
| bus steps `PublishBegin`, `PublishSend`, `PublishEnd` | `internal/body/eventbus.go:49-65`, one send at a time, several publishes at once |

## Where the code and its documentation disagree

- `internal/execution/plane.go:13` speaks of exponential backoff; the code (line 158) is quadratic
  in the attempt number. The model is quadratic, in int64 arithmetic.
- `internal/execution/plane.go:78-79` says dependencies are respected. A job waits for the first
  attempt of an ancestor in every run if and only if that ancestor is due when the graph is submitted
  (`PlaneDependencies.DependencyRespectedIff`), whatever else in the graph is delayed. That the
  ancestor has completed is assured by no submission (`PlaneDependencies.CompletionIsNeverAssured`):
  a retry, or a last failure, does not hold back its descendants. Failures apart, an ancestor has
  completed when its descendant runs, if and only if it is due (`PlaneOutcomes.CompletesFirstIff`).
- Two enqueue errors are ignored (`internal/execution/scheduler.go:87`, `plane.go:162`). The model
  records refused jobs as `dropped`. No run with at most N unfinished jobs at once loses one to an
  open queue if and only if N is at most 1024 (`PlaneCapacity.CapacityIsExact`); 1025 jobs that
  become due at once, each accepted without an error, lose one (`PlaneCapacity.LostAboveCapacity`).
- The quadratic spacing of attempts holds in every run exactly up to attempt 303701
  (`PlaneSpacing.SpacingHoldsIff`): the backoff product after that attempt is negative.
- `bench/locomo/strategy_basic.go:5-6` says all turns are retrieved for every question. Search is
  limited to 10000 memories, so with different dialog identifiers that holds if and only if there
  are at most 10000 turns (`Retrieval.BasicRetrievesEveryTurnIff`).
- `internal/agent/executor.go:48-89` returns nil with a failed agent when `MaxRetries` is negative
  (`Executors.NilIffDone`), and its doubling wait overflows from attempt 38 on.

## Assumptions

- A job is submitted once, fresh from `NewJob`, under an identifier not used before, and its handler
  changes only its result. `Start` is called once and `Stop`, by one caller, after it.
- `TopologicalSort` and `SubmitDAG` ask for a graph whose edge ends are nodes: the graph's fields are
  private and `JobDag.EveryRunIsValid` shows that its methods allow no other.
- The clock does not go back. The timing theorems, and the run in which a due ancestor has not
  completed, ask for a clock that starts after Go's zero time.
- Clocks, generated identifiers, date parsing, decimal formatting, JSON decoding, the language
  model's answers, contexts and the functions run by agents come in as parameters.

## Model

| member | source | states |
|---|---|---|
| Graphs.AddEdgeKeepsAcyclicIff | internal/execution/dag.go:41-46 | an edge u→v keeps an acyclic multigraph acyclic if and only if v does not already reach u |
| Graphs.ClosedReachesCycle | internal/execution/dag.go:52-89 | when all edge ends are nodes, "some node reaches a cycle", which the search decides, means "there is a cycle" |
| Graphs.RepeatIsCycle | internal/execution/dag.go:52-89 | a walk longer than the set it stays in closes a cycle: the pigeonhole step behind Kahn's completeness |
| Graphs.AcyclicHasSource | internal/execution/dag.go:108-113 | every nonempty set of nodes of an acyclic graph has a member without a predecessor in it, so Kahn's queue never dries up early |
| Graphs.AncestorsPrecede | internal/execution/dag.go:91-93 | in a parents-first order every strict ancestor, not only every parent, comes earlier |
| Graphs.TopologicalOrderImpliesAcyclic | internal/execution/dag.go:94-96 | a graph with a cycle has no execution order, so the error is the only right answer |
| Graphs.TopologicalOrderExistsIff | internal/execution/dag.go:91-130 | an execution order exists if and only if the graph is acyclic |
| JobDag.Dfs | internal/execution/dag.go:64-79 | the recursive search terminates; true means a cycle is reachable; false blackens only nodes that reach no cycle and leaves gray nodes gray |
| JobDag.AllBlackNoCycle | internal/execution/dag.go:81-88 | once every node is black there is no cycle |
| JobDag.DAG.HasCycle | internal/execution/dag.go:52-89 | true if and only if a node reaches a directed cycle (self-loops count), for any order of map iteration, with the graph unchanged |
| JobDag.DAG.AddJob | internal/execution/dag.go:23-29 | a duplicate identifier is rejected with nothing changed, any other job is added |
| JobDag.DAG.AddDependency | internal/execution/dag.go:33-49 | missing parent, missing child and cycle errors, in that order of precedence; the exact new graph, with the rollback leaving a key that maps to an empty list |
| JobDag.AddDependencySucceedsIff | internal/execution/dag.go:33-49 | between existing jobs the insertion succeeds exactly when the child does not reach the parent |
| JobDag.RejectionChangesNoEdge | internal/execution/dag.go:43-46 | a rejected insertion leaves every list of children, with its multiplicities, as it was |
| JobDag.AddJobEffect | internal/execution/dag.go:23-29 | adding a job adds its node and touches no list of children; a known identifier changes nothing |
| JobDag.AddDependencyEffect | internal/execution/dag.go:33-49 | a successful insertion appends the child to its parent's list; no other list and no node ever changes; which error is given exactly when |
| JobDag.PerformKeepsValid | internal/execution/dag.go:23-49 | each call keeps the graph acyclic and all edge ends among its nodes |
| JobDag.EveryRunIsValid | internal/execution/dag.go:15-49 | so does every sequence of calls from the empty graph |
| JobDag.GraphIsWhatWasInserted | internal/execution/dag.go:15-49 | after every sequence of calls the nodes are the jobs added, and an edge u→v occurs as often as it was inserted between existing jobs while v did not reach u |
| JobDag.DAG.constructor | internal/execution/dag.go:15-20 | the graph starts empty |
| JobDag.DAG.CountInDegrees | internal/execution/dag.go:98-106 | the counters are the multiplicities of each node among all edge targets, duplicate edges included |
| JobDag.DAG.FirstQueue | internal/execution/dag.go:108-113 | the queue starts with exactly the nodes of in-degree 0, each once |
| JobDag.ReadyNodeIsNext | internal/execution/dag.go:116-119 | the head of the queue is unordered so far and has all its parents ordered |
| JobDag.DAG.ReleaseChildren | internal/execution/dag.go:121-126 | releasing a node's children keeps counters equal to the edges left and the queue equal to the ready nodes |
| JobDag.KahnFinishes | internal/execution/dag.go:115-129 | when the queue is empty, every node of an acyclic graph has been ordered |
| JobDag.DAG.TopologicalSort | internal/execution/dag.go:93-130 | succeeds if and only if the graph is acyclic; the order holds every node exactly once with the parent of every edge before its child |
| Jobs.OptionsKeepFresh | internal/execution/job.go:48-62 | no list of options makes a new job anything but pending with zero attempts, and options touch only the limit, the delay and the result |
| Jobs.LastOptionWins | internal/execution/job.go:48-80 | of the options of one kind the last one given is in force |
| Jobs.DefaultsStay | internal/execution/job.go:66-80 | without an option of a kind the value from before stays |
| Jobs.Job.constructor | internal/execution/job.go:66-80 | a new job is pending with no attempt; 3 attempts, no delay and no result unless an option says otherwise, and then the last such option; identifier, type, payload and creation time as given |
| Jobs.WrapTwice | internal/execution/plane.go:158 | reducing an int64 product after each factor or once is the same |
| Jobs.BackoffExactIff | internal/execution/plane.go:158 | the backoff product is attempts²·100 ms exactly when the attempt number is at most 303700 |
| Jobs.BackoffOverflowExample | internal/execution/plane.go:158 | at 303701 attempts the product is negative |
| Queues.InMemoryQueue.constructor | internal/execution/queue.go:33-37 | the queue starts open and empty |
| Queues.InMemoryQueue.Enqueue | internal/execution/queue.go:41-53 | closed error, full error at 1024, or the job appended; nothing else changes |
| Queues.InMemoryQueue.Dequeue | internal/execution/queue.go:56-66 | the oldest job, "nothing yet" on an open empty queue, "closed" only once a closed queue is drained |
| Queues.InMemoryQueue.Size | internal/execution/queue.go:81-83 | the number of buffered jobs |
| Queues.InMemoryQueue.Close | internal/execution/queue.go:86-93 | the queue is closed, its contents stay |
| Queues.FirstInFirstOut | internal/execution/queue.go:41-66 | over every history, what was accepted is what was taken followed by what is buffered, never more than 1024 |
| Queues.NothingAcceptedAfterClose | internal/execution/queue.go:44-46 | over every history, a closed queue stays closed and accepts nothing |
| Schedulers.PartitionCounts | internal/execution/scheduler.go:76-83 | the flush partition keeps every occurrence, on the right side |
| Schedulers.PartitionKeepsOrder | internal/execution/scheduler.go:76-83 | both sides of the partition are subsequences of the waiting list |
| Schedulers.EnqueueAllTakesPrefix | internal/execution/scheduler.go:86-88 | of a flushed batch an open queue takes the longest prefix it has room for, a closed one nothing; the rest is lost |
| Schedulers.ScheduleAllTakesPrefix | internal/execution/plane.go:94-98 | scheduling in order handles a prefix, due jobs to the queue and others to the waiting list, and stops only at a due job that the queue refuses |
| Schedulers.Scheduler.constructor | internal/execution/scheduler.go:21-26 | nothing is waiting at first |
| Schedulers.Scheduler.Schedule | internal/execution/scheduler.go:44-52 | a due job is offered to the queue, with its error, any other joins the waiting list |
| Schedulers.DueAreSplitOff | internal/execution/scheduler.go:76-83 | splitting by who is due keeps each waiting job whose time has not come and offers each one whose time has, every occurrence, in order |
| Schedulers.Scheduler.Partition | internal/execution/scheduler.go:72-83 | the partition loop does that |
| Schedulers.Scheduler.EnqueueReady | internal/execution/scheduler.go:86-88 | the enqueueing loop offers the batch in order and ignores errors |
| Schedulers.Scheduler.Flush | internal/execution/scheduler.go:70-89 | afterwards every waiting job has `now` before its `RunAfter`, and every job that left has not; occurrences and order are kept on both sides; those that left were offered to the queue in order with errors ignored |
| PlaneRefinement.FlushRefines | internal/execution/scheduler.go:70-89 | where the step system holds the scheduler's lines, both flushes find the same jobs due, keep the same and leave the same queue |
| Planes.Plane.constructor | internal/execution/plane.go:26-35 | an empty plane whose scheduler feeds its own open queue |
| Planes.Plane.Submit | internal/execution/plane.go:71-76 | the job is registered even when scheduling fails; result and lines are those of scheduling it |
| Planes.Plane.SubmitDAG | internal/execution/plane.go:80-101 | a cyclic graph changes nothing; otherwise all jobs are registered and scheduled in a topological order up to the first refusal, which is reported |
| Planes.Plane.Register | internal/execution/plane.go:86-92 | the registration loop adds exactly the graph's jobs |
| Planes.Plane.ScheduleInOrder | internal/execution/plane.go:94-100 | the scheduling loop schedules a prefix and names the job it stopped at |
| Planes.StoppedAt | internal/execution/plane.go:95-97 | nothing after the first refused job is scheduled |
| Planes.SubmissionStops | internal/execution/plane.go:94-100 | what is left in the lines is a prefix of the jobs, the due ones queued and the others waiting, in order; the call fails if and only if it is a proper prefix, naming the next job, which was due and which a closed or full queue refused |
| Planes.Plane.ProcessNext | internal/execution/plane.go:132-173 | one turn of the worker: the oldest job is taken, attempted once and completed, failed or rescheduled; no other queued job changes |
| Planes.Plane.Attempt | internal/execution/plane.go:146-173 | the job's new record and both lines after one attempt, the ignored rescheduling error included |
| PlaneSteps.RegisteredTable | internal/execution/plane.go:86-92 | registering fresh jobs adds them and leaves earlier records alone |
| PlaneSteps.StepReachable | internal/execution/plane.go:43-175 | the reachable states are closed under enabled steps |
| PlaneRefinement.FlushIsSimulated | internal/execution/scheduler.go:70-89 | an uninterrupted flush of the step system reaches the state the flush method's contract describes, refused jobs recorded |
| PlaneRefinement.ScheduleIsSimulated | internal/execution/scheduler.go:44-52 | so does one call of `Schedule`, whose submitter goes on exactly when it succeeds |
| PlaneRefinement.TurnIsSimulated | internal/execution/plane.go:122-175 | so does a turn of the worker: record, queue and waiting list are those of `ProcessNext`, and clock, first start and dropped jobs are exactly those of the turn |
| PlaneSubmission.TurnOfNext | internal/execution/plane.go:94-98 | while nothing has been refused, the submitter's next call of `Schedule` does what the scheduling loop does for the next job |
| PlaneSubmission.SubmitIsSimulated | internal/execution/plane.go:71-101 | a whole `Submit` or `SubmitDAG`: registering and then scheduling leads to the lines of scheduling the jobs in order up to the first refusal, and the submitter has failed exactly when there was one, on that job |
| PlaneRefinement.LeadsReachable | internal/execution/plane.go:43-175 | so what the class methods do to a reachable state is reachable |
| PlaneRefinement.HeldIsRegistered | internal/execution/plane.go:71-92 | whatever waits or is held is in the job table |
| PlaneConservation.ConservedStep | internal/execution/plane.go:71-175 | every step keeps each accepted job at exactly one occurrence over all places together |
| PlaneConservation.ExactlyOnePlace | internal/execution/plane.go:71-175 | that is: each accepted job is in exactly one of: a submitter's hand, waiting list, flush batch, queue, worker's hand, finished, dropped; and nothing else is anywhere |
| PlaneConservation.DroppedIffRefused | internal/execution/scheduler.go:86-88 | a step drops a job exactly when it offers it to a queue that is closed or holds 1024 |
| PlaneConservation.QueuePlusOneIsLive | internal/execution/queue.go:33-53 | pigeonhole: the queue and a job outside it fit into the unfinished jobs |
| PlaneConservation.EnoughRoom | internal/execution/queue.go:41-53 | while at most 1024 accepted jobs are unfinished, no enqueue finds the queue full |
| PlaneLifecycle.InvStep | internal/execution/plane.go:50-175 | every step keeps conservation, the lifecycle of every record, untouched jobs in hand and the shutdown order |
| PlaneLifecycle.InvHolds | internal/execution/plane.go:50-175 | so every state of every run has them |
| PlaneLifecycle.AcceptedJobsHaveOnePlace | internal/execution/plane.go:71-175 | in every reachable state each accepted job is in exactly one of those places |
| PlaneGuarantees.StepsAreLegal | internal/execution/plane.go:146-173 | in every reachable state, states move only pending or retrying → running → completed, failed or retrying; only a start counts an attempt; a retry means attempts are left, a failure that none are |
| PlaneGuarantees.FinishedIsFinal | internal/execution/plane.go:163-173 | in every run, a finished job's record never changes again |
| PlaneGuarantees.OneJobRuns | internal/execution/plane.go:146-152 | in every reachable state at most one job runs, and the worker is handling it |
| PlaneGuarantees.HandlerCallsAreBounded | internal/execution/plane.go:146-165 | over every run the handler is called for a job exactly `Attempts` times, at most max(1, MaxAttempts), and a failed job has used them all |
| PlaneGuarantees.InternalEnqueueFindsQueueOpen | internal/execution/plane.go:52-60 | in every reachable state neither goroutine offers a job to a closed queue |
| PlaneGuarantees.AfterStop | internal/execution/plane.go:52-60 | once `Stop` has returned no job runs, and each accepted job is finished, dropped, with its submitter, queued or waiting |
| PlaneGuarantees.NothingLostBelowCapacity | internal/execution/plane.go:162 | if at most 1024 accepted jobs are ever unfinished at once, a job is only ever refused to its own submitter, whose call fails on it, by a closed queue, before its first attempt |
| PlaneCapacity.LostAboveCapacity | internal/execution/scheduler.go:86-88 | any more than 1024 jobs that become due together: a reachable state with an open queue in which each was accepted without an error and one is lost |
| PlaneCapacity.LastIsRefused | internal/execution/queue.go:47-52 | an empty queue refuses the last of more than 1024 jobs flushed at once |
| PlaneCapacity.CapacityIsExact | internal/execution/queue.go:33-53 | no run with at most N unfinished jobs at once loses a job to an open queue, if and only if N is at most 1024 |
| PlaneTiming.DelayClosedForm | internal/execution/plane.go:158 | the backoffs before attempt n sum to 100·(n−1)n(2n−1)/6 ms |
| PlaneTiming.TimingHolds | internal/execution/plane.go:146-162 | in every state of every run whatever is on its way to an attempt is due, and every record is spaced |
| PlaneTiming.NoEarlyStart | internal/execution/scheduler.go:44-52 | no attempt starts before the job's `RunAfter` |
| PlaneTiming.AttemptsAreSpaced | internal/execution/plane.go:146-162 | the n-th attempt starts at least 100·(n−1)n(2n−1)/6 ms after the first, for n up to 303701 |
| PlaneSpacing.NthAttemptAsEarly | internal/execution/plane.go:155-162 | for every n a run in which the n-th attempt starts exactly the sum of the backoffs after the first, or earlier if n exceeds 303701 |
| PlaneSpacing.SpacingHoldsIff | internal/execution/plane.go:146-162 | the n-th attempt starts at least 100·(n−1)n(2n−1)/6 ms after the first in every run, if and only if n is at most 303701 |
| PlaneOrder.OrderedHolds | internal/execution/plane.go:94-98 | in every state of every run, each job of a submission waits for the first attempts of the jobs before it that were due at submission, delayed or not itself |
| PlaneDependencies.DependenciesFirst | internal/execution/plane.go:78-101 | once a job of a submitted graph has started, the first attempt of each of its ancestors that was due at submission has ended |
| PlaneDependencies.RunsBeforeEarlierCompletes | internal/execution/plane.go:94-98 | for all submissions and every two of their jobs, a reachable state in which the later one runs while the earlier one is pending if it was delayed, and retrying or failed if it was due |
| PlaneDependencies.WaitsIffDue | internal/execution/plane.go:94-98 | in every run a job waits for an earlier one of its submission, if and only if that one is due when they are submitted |
| PlaneDependencies.DependencyRespectedIff | internal/execution/plane.go:78-101 | in every run a job of a graph waits for the first attempt of an ancestor, if and only if that ancestor is due when the graph is submitted |
| PlaneDependencies.CompletionIsNeverAssured | internal/execution/plane.go:78-101 | for every graph, every ancestor and every descendant, a reachable state in which the descendant runs and the ancestor is pending, retrying or failed |
| PlaneOutcomes.StepFailure | internal/execution/plane.go:146-173 | a step makes a record show a failure (retrying, failed, or a second attempt) exactly when it is a failed attempt of that job, and only then changes its error |
| PlaneOutcomes.RecordFailedIff | internal/execution/plane.go:152-165 | in every run, a record shows a failure exactly when an attempt of that job has failed so far |
| PlaneOutcomes.CompletedIffNoFailure | internal/execution/plane.go:146-173 | in every run, a job whose first attempt has ended is completed by it exactly when no attempt of it has failed so far |
| PlaneOutcomes.ErrorIsLastMessage | internal/execution/plane.go:152-173 | in every run, the error of a job that has failed is the message of its last failed attempt, also once a retry has completed it; the error of any other job is the one it was submitted with |
| PlaneOutcomes.StepTimes | internal/execution/plane.go:146-173 | a step sets a start time only by starting an attempt, a finish time and result only by ending one, and never what the job is |
| PlaneOutcomes.UntilNextAttempt | internal/execution/plane.go:146-173 | so in every run times and result stay until the next start or end, and identifier, type, payload, creation time and limit for good |
| PlaneOutcomes.StartedAtIsLastStart | internal/execution/plane.go:146-150 | in every run `StartedAt` is the time at which the last started attempt began |
| PlaneOutcomes.FinishedAtIsLastEnd | internal/execution/plane.go:152-173 | in every run `FinishedAt` and `Result` are the clock reading and the result of the last ended attempt, successful or not |
| PlaneOutcomes.AncestorCompletedIff | internal/execution/plane.go:78-101 | in every run, once a job of a graph has started, an ancestor that was due at submission has been completed by its first attempt exactly when no attempt of it has failed so far |
| PlaneOutcomes.AncestorsCompletedIff | internal/execution/plane.go:78-101 | if all its ancestors were due, they are then all completed exactly when no attempt of any of them has failed |
| PlaneOutcomes.CompletesFirstIffWaits | internal/execution/plane.go:78-101 | a job runs only after another has completed, in every run in which no attempt of that one fails, exactly when it waits for its first attempt in every run |
| PlaneOutcomes.CompletesFirstIff | internal/execution/plane.go:78-101 | a job of a graph runs only after an ancestor has completed, in every run in which no attempt of the ancestor fails, if and only if the ancestor is due when the graph is submitted |
| PlaneAcceptance.SettledHolds | internal/execution/plane.go:94-98 | in every state of every run, what a submitter has handed over is in nobody's hand, and a call that failed did so on its last job, which is dropped and never started |
| PlaneAcceptance.WhereJobsAre | internal/execution/plane.go:94-98 | in every reachable state: jobs not yet offered are with their submitter, a refused one is dropped and unstarted, all others are somewhere past the submitter |
| PlaneAcceptance.AcceptedIff | internal/execution/plane.go:94-98 | the accepted jobs are exactly those before the refused one, or before the next to be offered |
| PlaneAcceptance.AcceptedIsClosedUnderDependencies | internal/execution/plane.go:94-98 | in every reachable state, so also when scheduling has stopped midway, whatever the scheduler accepted of a graph, it accepted all its ancestors |
| PlaneProgress.MovingDecreasesWeight | internal/execution/plane.go:122-175 | every step that moves a job strictly decreases its measure (attempts left, then distance to the end of the attempt) and leaves the measures of all other jobs alone |
| PlaneProgress.WorkIsBounded | internal/execution/plane.go:122-175 | in every run a job is moved at most 9·max(1, MaxAttempts) + 8 times |
| EventBuses.Channel.TrySend | internal/body/eventbus.go:59-62 | a send in a select with default: buffered below 64, lost at 64; it needs an open channel |
| EventBuses.Channel.Close | internal/body/eventbus.go:86 | closing needs an open channel |
| EventBuses.AppendChannel | internal/body/eventbus.go:73 | `append` adds at the end, in place or in a new array |
| EventBuses.RemoveAt | internal/body/eventbus.go:85 | the in-place removal leaves the list without that position, in the same array |
| EventBuses.IndexOf | internal/body/eventbus.go:83-84 | the search loop finds the first position of the channel |
| EventBuses.SendAll | internal/body/eventbus.go:58-63 | each listed channel is sent the event once |
| EventBuses.CloseAll | internal/body/eventbus.go:104-106 | each listed channel is closed, none twice |
| EventBuses.RemoveFirstAt | internal/body/eventbus.go:83-89 | cutting at the found position removes the first occurrence |
| EventBuses.InMemoryEventBus.constructor | internal/body/eventbus.go:41-45 | an open bus without subscribers |
| EventBuses.InMemoryEventBus.Publish | internal/body/eventbus.go:49-65 | an error exactly when closed; otherwise each subscriber of the type is sent the event and no other channel changes |
| EventBuses.InMemoryEventBus.Subscribe | internal/body/eventbus.go:68-75 | a fresh empty channel at the end of its type's list, all other lists as before |
| EventBuses.InMemoryEventBus.Unsubscribe | internal/body/eventbus.go:78-95 | the first occurrence leaves its type's list and is closed, an emptied list is deleted, an unknown channel changes nothing; the other lists survive the in-place edit |
| EventBuses.InMemoryEventBus.ShiftOut | internal/body/eventbus.go:85 | the array edit of one list leaves all other lists alone |
| EventBuses.InMemoryEventBus.Close | internal/body/eventbus.go:99-110 | every listed channel is closed, every list deleted, the bus closed |
| BusSteps.OwnedStep | internal/body/eventbus.go:49-110 | every step keeps: listed channels are open, listed once and under their own type, open channels are listed, publishes in progress hold only listed channels |
| BusSteps.OwnedHolds | internal/body/eventbus.go:49-110 | so every state of every run has it |
| BusSteps.ChannelsAreSafe | internal/body/eventbus.go:49-110 | no run panics, and each channel ever made is open and in exactly one list position, or closed and in none |
| BusSteps.NothingAfterClose | internal/body/eventbus.go:53-55 | in every run a closed bus stays closed, publishes nothing more and has no publish in progress |
| BusDelivery.SubscribersAreOffered | internal/body/eventbus.go:57-75 | received then buffered events form a subsequence of the events offered, the difference is counted as lost, and with no publish in progress the offers are exactly the events of the channel's type published while it was subscribed |
| BusDelivery.LossIffBufferFull | internal/body/eventbus.go:59-62 | a step loses an event for a channel exactly when it offers one while 64 are buffered |
| BusDelivery.GetsEverythingIffKeptUp | internal/body/eventbus.go:57-64 | in every run, nothing is lost for a channel, and its consumer gets every offered event in order, if and only if no event was offered while 64 were buffered |
| BusDelivery.ServeAllOffersOnce | internal/body/eventbus.go:58-63 | a publish run to its end offers the event once to each of its subscribers and to no other channel |
| BusOrder.OfferedInOrder | internal/body/eventbus.go:57-75 | if publishes never overlap, a channel was offered exactly the events of its type published while it was subscribed, in the order of publication |
| BusOrder.GetsThemInOrderIffKeptUp | internal/body/eventbus.go:57-75 | and its consumer gets exactly those in that order, if and only if no event was offered while 64 were buffered |
| BusOffers.PlacedStep | internal/body/eventbus.go:49-110 | every step keeps: the events of a channel's type published while it was subscribed are exactly those offered to it, each once, and those a publish in progress has yet to offer it |
| BusOffers.OffersAreTheWindow | internal/body/eventbus.go:57-75 | so in every state of every run, counted by position among the published events |
| BusOffers.LaterExtends | internal/body/eventbus.go:49-110 | in every run, later states extend what was published and offered; a channel keeps its type and its start, and a closed one its end |
| BusOffers.OfferedFirst | internal/body/eventbus.go:49-65 | in every run, what is published from some state on is offered to a channel after everything published before that nobody had yet to offer it |
| BusOffers.EndedIsOfferedFirst | internal/body/eventbus.go:49-65 | real-time order: if one publish ended before another began, each channel both were meant for is offered the first event first, whatever other publishes overlap |
| BusOffers.ServeRun | internal/body/eventbus.go:58-63 | from every state a publish in progress can run to its end without interruption |
| BusOffers.Overtaken | internal/body/eventbus.go:49-65 | while an event is still to be offered to a channel, a publish that begins later can overtake it |
| BusOffers.KeepsOrderIff | internal/body/eventbus.go:49-65 | however a run goes on, an event is offered to a channel before the next one published, if and only if nobody has yet to offer it when that publish begins |
| MemoryStore.ContainsAllTags | internal/memory/inmemory/provider.go:115-126 | true exactly when every query tag is a tag of the memory |
| MemoryStore.MatchesQuery | internal/memory/inmemory/provider.go:93-113 | true exactly when all stated criteria hold, empty ones meaning any; false exactly when type, a tag, actor, tenant, age or confidence rules the memory out |
| MemoryStore.SortNewestFirst | internal/memory/inmemory/provider.go:78-80 | a permutation sorted newest first |
| MemoryStore.PermutationOfMatches | internal/memory/inmemory/provider.go:78-80 | reordering keeps a list of distinct matches one, with the same identifiers |
| MemoryStore.CutIsTopK | internal/memory/inmemory/provider.go:82-88 | all matches, sorted and cut to the limit, are the top matches |
| MemoryStore.TopKComplete | internal/memory/inmemory/provider.go:66-91 | a search returns every match if and only if the limit has room for them all |
| MemoryStore.Provider.constructor | internal/memory/inmemory/provider.go:21-25 | the store starts empty |
| MemoryStore.Provider.Write | internal/memory/inmemory/provider.go:28-37 | an existing identifier is rejected with nothing changed, any other memory is stored |
| MemoryStore.Provider.Read | internal/memory/inmemory/provider.go:40-50 | the stored memory with a new access time, which is also stored; an unknown identifier changes nothing |
| MemoryStore.Provider.Delete | internal/memory/inmemory/provider.go:53-62 | the memory is gone; an unknown identifier is an error |
| MemoryStore.Provider.Collect | internal/memory/inmemory/provider.go:70-76 | the filter loop finds each match once, in any map order |
| MemoryStore.Provider.Search | internal/memory/inmemory/provider.go:66-91 | exactly min(limit, matches) distinct matches, with a limit of 50 where none is given, newest first, none omitted newer than one returned; none of another type, tenant or actor, none older or less certain than asked |
| Scoring.ToSet | bench/locomo/score.go:115-121 | the set of the items |
| Scoring.IntersectionSize | bench/locomo/score.go:123-131 | the size of the intersection, for any map order |
| Scoring.ScoreQuestion | bench/locomo/score.go:5-49 | precision, recall, F1 and counts over distinct identifiers, with the rule for questions without evidence |
| Scoring.ScoreBounds | bench/locomo/score.go:5-49 | for all inputs the three measures lie in [0, 1] and F1 lies between precision and recall |
| Scoring.ScoreMeaning | bench/locomo/score.go:9-38 | precision times the number retrieved and recall times the number expected are the hits; the values where nothing was retrieved or nothing expected |
| Scoring.HarmonicBetween | bench/locomo/score.go:35-38 | the harmonic mean lies between its arguments |
| Scoring.HarmonicOfFractions | bench/locomo/score.go:28-38 | the harmonic mean of t/f and t/e is 2t/(f+e) |
| Scoring.F1Formula | bench/locomo/score.go:26-38 | with evidence, F1 is twice the hits over the sum of both set sizes |
| Scoring.PerfectScoreIff | bench/locomo/score.go:5-49 | F1 is 1 exactly when the retrieved set is the evidence |
| Averages.TotalIsSum | bench/locomo/score.go:100-104 | the running totals are, measure by measure, the sums of the scores |
| Averages.CategoryIsFiltered | bench/locomo/score.go:61-72 | a category's bucket holds the number and the totals of its own scores |
| Averages.EntriesAreAverages | bench/locomo/score.go:74-87 | exactly the known categories that occur have an entry, at their rank among those, with name, count and the mean of each measure |
| Averages.AggregateByCategory | bench/locomo/score.go:52-90 | so has its result |
| Averages.AggregateOverall | bench/locomo/score.go:93-113 | the mean of each measure over all questions, zero for none |
| Averages.CountsAddUpIff | bench/locomo/score.go:74-87 | the category counts add up to the number of questions exactly when all categories are known |
| Averages.OverallIsWeightedAverage | bench/locomo/score.go:52-113 | then the count-weighted category averages give the overall average |
| Locomo.TurnAtIndex | bench/locomo/ingest.go:35-38 | each turn of each session has its place in the order of ingestion |
| Locomo.TurnsAreFromSessions | bench/locomo/ingest.go:35-38 | and every place holds a turn of the sample |
| Locomo.IngestedSample.constructor | bench/locomo/ingest.go:26-33 | an ingested sample starts with an empty store and index |
| Locomo.IngestedSample.Add | bench/locomo/ingest.go:57-62 | a stored memory is indexed and counted; a rejected one changes nothing |
| Locomo.BasicIdsAreFresh | bench/locomo/ingest.go:48 | the stored memories have different identifiers if and only if the first identifiers handed out, one per turn, are different |
| Locomo.BasicTurnShape | bench/locomo/ingest.go:39-55 | the memory of a turn: its text, speaker and dialog identifier, episodic, full confidence, the sample as tenant, its session's tag and number, and a time one second per turn after the session's start |
| Locomo.Ingest | bench/locomo/ingest.go:25-67 | ingestion succeeds if and only if the identifiers handed out, one per turn, are different; store, index and count are then those of one memory per turn, in order |
| Retrieval.ExtractDiaIds | bench/locomo/query.go:44-66 | the identifiers read through the fallback chain metadata, index, content, skipping memories without one |
| Retrieval.WhichDiaIdWins | bench/locomo/query.go:48-63 | metadata wins over the index, the index over the content, and none is read exactly when all three have nothing |
| Retrieval.NoneSkipped | bench/locomo/query.go:44-66 | when every memory yields an identifier, the list has one per memory, in order |
| Retrieval.DiaIdIsReadBack | bench/locomo/query.go:48-56 | an ingested turn's dialog identifier is read back, even an empty one |
| Retrieval.ExecuteQueries | bench/locomo/query.go:19-42 | one search answers every question |
| Retrieval.BasicSearchStaysInSample | bench/locomo/query.go:20-24 | whatever the store holds, only episodic memories of the sample are found, at most 10000 |
| Retrieval.RetrievalIsExact | bench/locomo/query.go:26-42 | a search with room for all turns yields exactly the dialog identifiers of the turns whose memory matches, one entry per match |
| Retrieval.BasicRetrievesEveryTurn | bench/locomo/query.go:19-42 | with fresh identifiers and at most 10000 turns, basic ingestion and search retrieve exactly the sample's dialog identifiers |
| Retrieval.BasicRetrievesEveryTurnIff | bench/locomo/query.go:19-42 | when the turns have different dialog identifiers, exactly those are retrieved if and only if there are at most 10000 turns |
| Retrieval.SessionTurnsComeBackReversed | bench/locomo/ingest.go:54-55 | turns of one session come back in strictly decreasing index order |
| Retrieval.ScoreOfFullRetrieval | bench/locomo/score.go:26-48 | nonempty evidence of size e within a retrieved set of size d scores recall 1, precision e/d and F1 2e/(e+d) |
| Retrieval.RunBasic | bench/locomo/strategy_basic.go:13-20 | ingest, search, extract and score in a row: it succeeds if and only if the identifiers handed out are different, and then, with at most 10000 turns, every question is scored on retrieving exactly the sample's dialog identifiers |
| LlmIngest.NamedTypesAreKept | bench/locomo/strategy_llm.go:277-290 | each of the four type names is kept and any other string is episodic |
| LlmIngest.ClampConfidence | bench/locomo/strategy_llm.go:292-300 | a confidence in [0, 1] is kept, one below is 0 and one above is 1 |
| LlmIngest.FallbackClassify | bench/locomo/strategy_llm.go:302-314 | one default classification per turn |
| LlmIngest.BuildClassMap | bench/locomo/strategy_llm.go:114-118 | the loop computes the lookup by dialog identifier |
| LlmIngest.LastClassWins | bench/locomo/strategy_llm.go:114-118 | which holds, for each identifier, its last classification |
| LlmIngest.OnlyClassified | bench/locomo/strategy_llm.go:120-130 | and no identifier that was not classified |
| LlmIngest.NextBatch | bench/locomo/strategy_llm.go:98-104 | batches follow each other without gap or overlap and end with the session |
| LlmIngest.ClassInBatch | bench/locomo/strategy_llm.go:104-130 | each turn is classified with the answer for the batch of 15 that its index falls in |
| LlmIngest.StoreBatch | bench/locomo/strategy_llm.go:120-159 | the turns of one batch are stored, each once, in order |
| LlmIngest.ClassOfTurn | bench/locomo/strategy_llm.go:98-130 | the i-th turn of a session is classified by the answer for turns 15·⌊i/15⌋ on: by the last classification of its identifier there, by default if there is none, and by default with the text of the batch's last turn of that identifier if the answer failed |
| LlmIngest.LlmIdsAreFresh | bench/locomo/strategy_llm.go:142 | the stored memories have different identifiers if and only if the first identifiers handed out, one per turn, are different |
| LlmIngest.Ingest | bench/locomo/strategy_llm.go:83-164 | whatever is answered or fails, ingestion succeeds if and only if the identifiers handed out are different, and then every turn of the sample is stored exactly once, in order, classified with its own batch |
| LlmIngest.StoredTurnShape | bench/locomo/strategy_llm.go:132-151 | every field of each stored memory: type and confidence of its classification made valid, words, speaker, identifier and summary, its session's tag before the classification's, and a time one second per turn after the session's start |
| LlmIngest.FallbackIsDefaultIff | bench/locomo/strategy_llm.go:107-130 | within a batch, falling back classifies like an empty answer exactly when equal dialog identifiers have equal texts |
| LlmIngest.FailureStoresLikeEmptyIff | bench/locomo/strategy_llm.go:83-164 | for a whole sample, failed classifications store the same as empty ones exactly when every failed batch is consistent in that way |
| LlmQueries.LlmStrategy.Query | bench/locomo/strategy_llm.go:167-212 | each question is answered by its planned search, or by the broad one, and the counter grows by the number of failed plans |
| LlmQueries.KnownTypeIsNotEmpty | bench/locomo/strategy_llm.go:277-290 | a parsed type is one of the four, so a planned type always filters |
| LlmQueries.PlannedSearchStaysInSample | bench/locomo/strategy_llm.go:184-197 | whatever the store holds, only memories of the sample are found, of the type, tags and confidence the plan names, at most 10000 |
| LlmQueries.MatchesIffWanted | bench/locomo/strategy_llm.go:184-195 | a stored turn matches the planned search exactly when its classification is what the plan asks for |
| LlmQueries.PlanRetrievesWantedTurns | bench/locomo/strategy_llm.go:167-212 | with at most 10000 turns, a question retrieves exactly the dialog identifiers of the turns its plan asks for |
| LlmQueries.BroadIsConfident | bench/locomo/strategy_llm.go:176-182 | the search without a plan asks for exactly the turns of confidence at least 0.2 |
| LlmQueries.EachPlanIsAnswered | bench/locomo/strategy_llm.go:167-212 | with at most 10000 turns, question i retrieves exactly the dialog identifiers its own plan asks for, or without a plan those of the turns of confidence at least 0.2 |
| LlmQueries.RunLlm | cmd/bench-locomo/main.go:66-81 | ingest, query and score in a row: it succeeds if and only if the identifiers handed out are different, and then, with at most 10000 turns, every question is scored on exactly that |
| LlmQueries.TotalFailureRetrievesEverything | bench/locomo/strategy_llm.go:107-112 | if the model fails for every batch and for the question, the answer is that of the basic strategy: every dialog identifier |
| Executors.BackoffExactIff | internal/agent/executor.go:53 | the int64 wait before attempt k is 100·2^(k−1) ms exactly for k up to 37 |
| Executors.TotalWaitIsGeometricIff | internal/agent/executor.go:51-61 | the waits before attempt k sum to 100·(2^k − 1) ms exactly for k up to 37, and never to more |
| Executors.WaitOverflowExample | internal/agent/executor.go:53 | at attempt 38 the product is negative and there is no wait |
| Executors.NoWaitFrom57 | internal/agent/executor.go:53 | from attempt 57 on there is never a wait |
| Executors.ExitIsUnique | internal/agent/executor.go:48-89 | the surroundings decide which of the exits is taken, and at which attempt |
| Executors.CalledIff | internal/agent/executor.go:50-65 | attempt k is called if and only if it is within the limit, all attempts before it failed plainly and its wait was not cut off |
| Executors.HowItEnds | internal/agent/executor.go:55-89 | state, error and result of each exit; a failed execution returns and stores the error of its last attempt, number `MaxRetries`, and none with a negative limit |
| Executors.NilIffDone | internal/agent/executor.go:48-89 | "nil exactly when done" holds if and only if `MaxRetries` is not negative; at most MaxRetries + 1 calls |
| Executors.AttemptsAreSpaced | internal/agent/executor.go:51-61 | attempt k starts at least 100·(2^k − 1) ms after the first, for k up to 37 |
| Executors.SpacingHoldsIff | internal/agent/executor.go:51-61 | of an execution in which nothing else takes time, attempt k starts exactly the sum of the waits after the first, and so at least 100·(2^k − 1) ms after it if and only if k is at most 37 |
| Executors.Agent.Run | internal/agent/executor.go:63-67 | the function gets the running agent, and leaves of it what it makes of it |
| Executors.Executor.Execute | internal/agent/executor.go:48-89 | done exactly at the first success after plain failures, timed out exactly at the first missed deadline or interrupted wait, failed exactly when all attempts fail plainly; for each exit the state, result, error, number, times and end of the calls, whatever the function itself writes to the agent |

## Left out

- HTTP, command line, chat adapters, gateway, model client, sidecar and the remote memory provider: transport and services whose behaviour is not visible.
- Configuration, envelopes, health reports, head registry, policy engine, agent runtime, tool registry, reports and dataset download: they would only add easy members.
- `SetHandler`, `GetJob`, `Ack` and `Nack`: plain accessors and no-ops.
- Liveness: goroutine scheduling and lock fairness are not modelled; the decreasing measure of `PlaneProgress` takes their place.
- A repeated `Start`, a `Stop` without `Start`, and two callers of `Stop`.
- A handler that changes a job's lifecycle fields, and a job submitted twice.
- Floating-point rounding and NaN: scores and confidences are reals.
- Memory expiry: the code never reads `ExpiresAt`.
- MemoryStore.Provider.Write: a memory is a value, so a caller changing a stored memory through its own reference is not captured.
- MemoryStore.Provider.Read: likewise a caller changing the stored memory through the reference it gets is not captured.
- MemoryStore.SortNewestFirst: stands for any correct sort; nothing is said about ties, as in the source.
- Locomo.Ingest: date parsing, JSON encoding and number formatting are parameters, so their errors do not occur.
- LlmIngest.Ingest: prompts, the model call, `cleanJSON`, JSON decoding and token counts are not part of this model; an answer is a list of classifications or a failure.
- LlmIngest.ParseMemoryType: takes the trimmed lower-case form of the string as a parameter, since case folding is not modelled.
