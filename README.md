# Delay scheduler of a distributed build coordinator

This project models the job scheduler of a distributed build system. The
scheduler decides which workers are offered each build job, and it records
completions. State it keeps:

- a **placement cache**: job ID to the workers that reported completing it;
- an **artifact-location table**: job ID to the worker that picked it from a preference queue;
- per worker, a **cache-tier** queue and a **locality-tier** queue;
- a **global queue**, which `Stop` closes;
- the **active-assignment table**: worker to the handle (`PendingJob`) it was last given.

Submitting a job (`ScheduleJob`) works like this:

- If the job's ID is cached, the job is offered on the cache tier of every recorded holder.
- Otherwise, it is offered on the locality tier of every worker its spec names as host of a dependency's artifact.
- Two timers are armed. The cache timeout offers the job on the locality tier. The deps timeout puts it on the global queue.

A worker pulls with `PickJob`. This takes any ready case, as Go's `select` does. The worker reports back with `OnJobComplete`.

Modelling choices:

- The scheduler is a Dafny class whose fields are maps, sequences and sets. `PendingJob` is a class, because `OnJobComplete` writes the result through the pointer held in the assignment table.
- Each Go channel is a FIFO sequence. A send appends and a receive takes the head.
- A handle's completion channel is the number of signals sent on it.
- The two timer goroutines of a submission are explicit events, `FireCacheTimeout` and `FireDepsTimeout`. Each is allowed once per handle. Each is a no-op on the queues once the handle has been signalled. The invariant `Valid` states that no handle with an armed timer has been signalled, since only the handles in the assignment table are ever signalled and those never have timers.
- `PickJob`'s `select` is a nondeterministic `if` whose guards are the ready cases. Context cancellation is a boolean parameter.
- Some Go operations would block forever or panic. Those become preconditions:
  - sending to an unregistered worker (nil channel) blocks, so `ScheduleJob` and `FireCacheTimeout` require the worker to be registered;
  - a `PickJob` with no ready case blocks;
  - sending on the closed global queue panics;
  - closing the global queue twice panics.
- The pure parts are functions in module `Placement`:
  - `DepHosts` lists the locality targets;
  - `Offer` gives the effect of a run of sends;
  - `AppendPlacement` gives the cache update.

  The send loops, `SendToEach` and `SendToDepHosts`, are proved equal to them.

The code is modelled as written, except that its queues behave as buffered (see the first line of "## Left out"). Where the code departs from the behaviour its tests expect, module `Scenarios` proves what the code does under those buffered queues. Each scenario replays a test of `pkg/scheduler/scheduler_test.go`, or one of the properties below, on the model:

- `PickJob` returns a new handle, never the one `ScheduleJob` returned. The tests expect the same handle. A result reported after a pick reaches only the new handle (`SingleJob`, `CacheLocalScheduling`).
- Nothing signals the handle `ScheduleJob` returns, so a submission's timers are never cancelled. A job already picked from a preference queue is put on the global queue at its deps timeout and assigned again (`PickedJobReoffered`). So the second pull at `pkg/scheduler/scheduler_test.go:122-125`, which expects the uncached job, may get the cached job again. Intended: once a job is picked, its timers are cancelled and no other queue offers it.
- The active-assignment table is never cleared. A second report for the same worker returns true again, overwrites the delivered result and signals again (`DuplicateReport`). Intended: an assignment is signalled once, and the result delivered to it stays.
- Locality comes only from the artifact hints in the submitted spec, never from the placement cache. A dependency-local test therefore has nothing the worker can pull before any deps timeout fires (`DependencyLocalScheduling`). The deps timers run on the real clock (`pkg/scheduler/scheduler.go:119`), not the test's fake clock, so the pull at `pkg/scheduler/scheduler_test.go:144` goes ahead once one fires, with whichever job reaches the global queue first.
- The cache timeout offers the job on the locality tier whether or not the job was cached. An uncached job is therefore offered there twice. Intended: the cache timeout broadens a job waiting on the cache tier to the locality tier, and an uncached job, already on the locality tier, gains nothing.
- Registering a worker again gives it new, empty queues, and offers still waiting on its old ones are lost.
- Every queue is an unbuffered channel, so a send blocks its caller until a receiver takes it. `ScheduleJob` waits at `pkg/scheduler/scheduler.go:90` or `:94` until the target worker pulls, and only then starts its timer goroutines (`:98`, `:117`). The test at `pkg/scheduler/scheduler_test.go:115` calls `ScheduleJob(cachedJob)` before any pull, so it hangs there. `OnJobComplete` with an active assignment blocks at `:71` until whoever holds the handle `PickJob` returned (`:149`, `:160`, `:170`) receives on its `Finished`. No shown code does: the test's `select` at `pkg/scheduler/scheduler_test.go:84-85` reads the handle `ScheduleJob` returned, and only after the call returns, so in the tests the report never returns. The accepted reports of `SingleJob` and `DuplicateReport` therefore hold only with a receiver on the picked handle or with buffered queues; a second report, as in `DuplicateReport`, needs a second receive. The arming of both timers at submission holds only with buffered queues.

## Model

| member | source | states |
|---|---|---|
| `Placement.DepHosts` | pkg/scheduler/scheduler.go:85-91 | The locality targets are at most one per dependency, and each is a worker named in the spec's artifact hints. |
| `Placement.DepHostsMembers` | pkg/scheduler/scheduler.go:85-91 | A worker is a locality target exactly when some dependency has a known artifact host and that host is the worker; dependencies without a host are skipped. |
| `Placement.DepHostsCount` | pkg/scheduler/scheduler.go:85-91 | A worker is a locality target once per dependency whose artifact hint names it, so an uncached submission offers it the job that many times. |
| `Placement.Offer` | pkg/scheduler/scheduler.go:92-95 | A run of sends to registered queues creates and drops no queue. |
| `Placement.OfferedCopies` | pkg/scheduler/scheduler.go:92-95 | After the sends, each worker's queue is its old contents followed by one offer of the job per occurrence of the worker among the targets; untargeted workers keep their queues. |
| `Placement.AppendPlacement` | pkg/scheduler/scheduler.go:65 | A completion appends the worker at the end of the job's holder list (a missing entry reads as empty); every other entry is unchanged and every old entry is a prefix of its new value, so the cache only grows. |
| `Placement.SendToEach` | pkg/scheduler/scheduler.go:93-95 | The loop over the cached holders leaves the queues equal to `Offer` of the holder list. |
| `Placement.SendToDepHosts` | pkg/scheduler/scheduler.go:85-91 | The loop over the dependencies, skipping those without a known host, leaves the queues equal to `Offer` of `DepHosts`. |
| `Scheduling.PendingJob.constructor` | pkg/scheduler/scheduler.go:144-148 | A new handle holds the job, has no result and has not been signalled. |
| `Scheduling.Scheduler.constructor` | pkg/scheduler/scheduler.go:40-53 | A new scheduler has empty maps and queues, an open global queue, no armed timers, and satisfies the invariant. |
| `Scheduling.Scheduler.RegisterWorker` | pkg/scheduler/scheduler.go:55-58 | The worker gets an empty cache-tier and an empty locality-tier queue, replacing any it had; nothing else changes. |
| `Scheduling.Scheduler.LocateArtifact` | pkg/scheduler/scheduler.go:59-62 | Reports found exactly when the artifact-location table has the ID; then it returns the recorded worker, otherwise the empty worker ID. |
| `Scheduling.Scheduler.OnJobComplete` | pkg/scheduler/scheduler.go:64-78 | The cache gets the worker appended for the job in every case. The result is true exactly when the worker has an active assignment; then that handle holds the result and one more signal. Every other handle, the assignment table, the location table, the queues and the timers are unchanged. |
| `Scheduling.Scheduler.ScheduleJob` | pkg/scheduler/scheduler.go:80-134 | A cached ID is offered on the cache tier of each holder, and no locality-tier queue changes. An uncached ID is offered on the locality tier of each dependency host, and no cache-tier queue changes. The global queue, cache, location and assignment tables are unchanged. The returned handle is new, holds the job, has no result and has both timers armed. |
| `Scheduling.Scheduler.FireCacheTimeout` | pkg/scheduler/scheduler.go:98-115 | Spends the handle's cache timer. If the handle has not been signalled, the job is offered on the locality tier of each dependency host; otherwise nothing else changes. |
| `Scheduling.Scheduler.FireDepsTimeout` | pkg/scheduler/scheduler.go:117-127 | Spends the handle's deps timer. If the handle has not been signalled, the job is appended to the global queue; otherwise nothing else changes. |
| `Scheduling.Scheduler.PickJob` | pkg/scheduler/scheduler.go:136-174 | One ready case is taken. A preference-tier draw removes the head of that queue, records the worker as the job's artifact location and installs a new unsignalled handle as the worker's assignment. A global draw does the same but leaves the location table alone. A closed global queue or a done context returns nothing and changes nothing. |
| `Scheduling.Scheduler.Stop` | pkg/scheduler/scheduler.go:176-178 | Closes the global queue and changes nothing else. |
| `Scenarios.SingleJob` | pkg/scheduler/scheduler_test.go:66-91 | After its deps timeout a job with no candidates is picked from the global queue by a newly registered worker. The picked handle is not the submitted one; the report is accepted and lands only in the picked handle. |
| `Scenarios.PickJobCancelation` | pkg/scheduler/scheduler_test.go:93-102 | A pull with a done context and nothing queued returns nothing. |
| `Scenarios.CacheLocalScheduling` | pkg/scheduler/scheduler_test.go:104-126 | A report with no assignment returns false but caches the worker. The resubmitted cached job is pulled first from the cache tier; the uncached job is pulled after its deps timeout; neither pull returns the submitted handle. |
| `Scenarios.PickedJobReoffered` | pkg/scheduler/scheduler.go:117-127 | A job picked from the cache tier still reaches the global queue at its deps timeout and is assigned a second time. |
| `Scenarios.DependencyLocalScheduling` | pkg/scheduler/scheduler_test.go:128-151 | Without artifact hints, a job whose dependency the worker completed is on none of its queues, even after the cache timeout, so before any deps timeout fires the pull cannot proceed. |
| `Scenarios.LocalityScheduling` | pkg/scheduler/scheduler.go:150-160 | A job whose dependency's host is named in its spec is pulled by that host from its locality tier, and the host is then reported as the job's artifact location. |
| `Scenarios.DuplicateReport` | pkg/scheduler/scheduler.go:64-78 | A second report for the same worker is accepted again; it replaces the delivered result and leaves two signals on the handle. |

## Left out

- Blocking hand-off on unbuffered channels: sends are appends, so `ScheduleJob`, a timer or `OnJobComplete` never waits for a receiver in the model, and `ScheduleJob` arms both timers as soon as its sends are queued.
- Data races: every operation is one atomic step, although the code has no lock. The unsynchronised map accesses this erases are, per map:
  - `secondLocalWorkerQueue`: a cache-timeout goroutine's read (`pkg/scheduler/scheduler.go:108`) against `RegisterWorker`'s write (`:57`); this is the only race involving a timer goroutine;
  - `firstLocalWorkerQueue` and `secondLocalWorkerQueue`: `RegisterWorker`'s writes (`:56-57`) against the reads of `PickJob` (`:139`, `:150`) and `ScheduleJob` (`:90`, `:94`);
  - `workerPending`: `PickJob`'s writes (`:144`, `:155`, `:165`) against `OnJobComplete`'s reads (`:66`, `:70`), and two `PickJob` calls writing it at once;
  - `jobCache`: `OnJobComplete`'s write (`:65`) against `ScheduleJob`'s read (`:83`) and against another report;
  - `jobWorker`: `PickJob`'s writes (`:143`, `:154`) against `LocateArtifact`'s read (`:60`).

  Go aborts the program on such a concurrent map read and write (or two writes), which the model cannot reach.
- Waking one timer per signal: one send on a submission's completion channel (`pkg/scheduler/scheduler.go:111`, `:123`) wakes only one of its two timer goroutines, while the model's signal count cancels both; the handles that carry timers are never signalled, so the difference is not reachable here.
- Goroutine scheduling and the random choice of Go's `select`: any ready case may be taken, with no fairness. A timer whose expiry and finished signal are ready together is resolved in favour of the signal.
- The `!ok` branches of `PickJob`'s two preference-queue receives: those channels are never closed, so the branches cannot be taken.
- The blocking wait of `PickJob`: the model starts once some case is ready (its precondition).
- Clocks and durations: the injected `timeAfter` and `time.After` are replaced by timer events, so the configured timeouts are kept but never read, and nothing orders one timer before another.
- The panics of goroutines still blocked sending on the global queue when `Stop` closes it: their offers stay in the sequence and are never delivered.
- A nil result pointer passed to `OnJobComplete`: results are values.
- Identity of `*api.JobSpec` pointers: jobs are values, so two offers of the same spec are indistinguishable.
- The logger and console output, which have no effect on state.
- The `build` package: `build.Job` is reduced to its ID and ordered dependencies; the `build` package is not part of this model.
- The HTTP, JSON, file-cache and artifact-transfer layers, and the worker and coordinator, whose bodies are unimplemented stubs; so no heartbeat dispatch loop is modelled.
