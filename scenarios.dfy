/**
 The scheduler's test scenarios replayed on the model, each ending in what
 the scheduler as written actually delivers. Go's fake clock becomes a
 choice of which timer event fires when.
 */
module Scenarios {
  import opened Api
  import opened Placement
  import opened Scheduling

  const W0: WorkerId := WorkerId("w0")

  /** CacheTimeout of one second and DepsTimeout of five, in milliseconds. */
  const TestConfig: Config := Config(1000, 5000)

  /** A job with the given dependencies and no source files or artifact hints. */
  function Bare(id: Id, deps: seq<Id>): JobSpec
  {
    JobSpec(map[], map[], Job(id, deps))
  }

  /** A successful result with empty output. */
  function Success(id: Id): JobResult
  {
    JobResult(id, [], [], 0, None)
  }

  /**
   A job with no cache or locality candidate reaches the global queue at its
   deps timeout and is then picked by a newly registered worker; the result
   reported for it lands in the handle PickJob made, while the handle
   ScheduleJob returned is a different object and never receives it.
   */
  method SingleJob() returns (pickedJob: JobSpec, sameHandle: bool, reported: bool,
                              scheduledResult: Option<JobResult>, pickedResult: Option<JobResult>)
    ensures pickedJob == Bare(Id("job0"), [])
    ensures !sameHandle && reported
    ensures scheduledResult == None
    ensures pickedResult == Some(Success(Id("job0")))
  {
    var s := new Scheduler(TestConfig);
    var job0 := Bare(Id("job0"), []);
    var pending0 := s.ScheduleJob(job0);
    s.FireDepsTimeout(pending0);
    s.RegisterWorker(W0);
    var picked, drawn := s.PickJob(false, W0);
    pickedJob := picked.job;
    sameHandle := picked == pending0;
    reported := s.OnJobComplete(W0, job0.job.id, Success(job0.job.id));
    scheduledResult := pending0.result;
    pickedResult := picked.result;
  }

  /** A pull with a context that is already done and nothing queued returns nothing. */
  method PickJobCancelation() returns (picked: bool)
    ensures !picked
  {
    var s := new Scheduler(TestConfig);
    s.RegisterWorker(W0);
    var r, drawn := s.PickJob(true, W0);
    picked := r != null;
  }

  /**
   The first half of CacheLocalScheduling: W0 reports the cached job before
   any assignment, then the uncached and the cached job are submitted.
   */
  method SubmitCachedAndUncached(cachedJob: JobSpec, uncachedJob: JobSpec)
    returns (s: Scheduler, pendingUncached: PendingJob, pendingCached: PendingJob, reported: bool)
    requires cachedJob.job.id != uncachedJob.job.id
    requires cachedJob.job.deps == [] && uncachedJob.job.deps == []
    ensures fresh(s) && s.Valid() && !reported
    ensures s.firstTier == map[W0 := [cachedJob]] && s.secondTier == map[W0 := []]
    ensures s.global == [] && !s.closed && s.workerPending == map[]
    ensures pendingUncached in s.depsTimers && pendingUncached.finishedSignals == 0
    ensures pendingUncached.job == uncachedJob
  {
    s := new Scheduler(TestConfig);
    s.RegisterWorker(W0);
    reported := s.OnJobComplete(W0, cachedJob.job.id, Success(cachedJob.job.id));
    pendingUncached := s.ScheduleJob(uncachedJob);
    assert s.jobCache[cachedJob.job.id] == [W0];
    OfferSingle(map[W0 := []], W0, cachedJob);
    assert [] + [cachedJob] == [cachedJob];
    pendingCached := s.ScheduleJob(cachedJob);
  }

  /**
   A worker that completed a job is offered the job again on its cache tier
   as soon as it is resubmitted, ahead of an uncached job; the uncached job
   reaches the worker through the global queue after its deps timeout. The
   report made before any assignment returns false, and neither pull returns
   the handle its job was submitted under.
   */
  method CacheLocalScheduling() returns (reported: bool, first: JobSpec, second: JobSpec, sameHandles: bool)
    ensures !reported
    ensures first == Bare(Id("cached"), []) && second == Bare(Id("uncached"), [])
    ensures !sameHandles
  {
    var cachedJob := Bare(Id("cached"), []);
    var uncachedJob := Bare(Id("uncached"), []);
    var s, pendingUncached, pendingCached, r0 := SubmitCachedAndUncached(cachedJob, uncachedJob);
    reported := r0;
    var r1, d1 := s.PickJob(false, W0);
    first := r1.job;
    s.FireDepsTimeout(pendingUncached);
    var r2, d2 := s.PickJob(false, W0);
    second := r2.job;
    sameHandles := r1 == pendingCached || r2 == pendingUncached;
  }

  /**
   Nothing cancels the timers of a job already picked: after the cached job
   is picked from the cache tier, its deps timeout still puts it on the
   global queue, and the next pull assigns the same job a second time.
   */
  method PickedJobReoffered() returns (first: JobSpec, second: JobSpec)
    ensures first == second == Bare(Id("cached"), [])
  {
    var s := new Scheduler(TestConfig);
    var cachedJob := Bare(Id("cached"), []);
    s.RegisterWorker(W0);
    var _ := s.OnJobComplete(W0, cachedJob.job.id, Success(cachedJob.job.id));
    var pendingCached := s.ScheduleJob(cachedJob);
    var r1, d1 := s.PickJob(false, W0);
    first := r1.job;
    s.FireDepsTimeout(pendingCached);
    var r2, d2 := s.PickJob(false, W0);
    second := r2.job;
  }

  /**
   Locality comes only from the artifact hints in the submitted spec, never
   from the placement cache: a job depending on one the worker completed,
   submitted without hints, is on none of the worker's queues, even after
   its cache timeout, so a pull with a live context cannot proceed.
   */
  method DependencyLocalScheduling() returns (canPick: bool)
    ensures !canPick
  {
    var s := new Scheduler(TestConfig);
    var job0 := Bare(Id("job0"), []);
    s.RegisterWorker(W0);
    var _ := s.OnJobComplete(W0, job0.job.id, Success(job0.job.id));
    var job1 := Bare(Id("job1"), [job0.job.id]);
    var job2 := Bare(Id("job2"), []);
    var pending2 := s.ScheduleJob(job2);
    var pending1 := s.ScheduleJob(job1);
    s.FireCacheTimeout(pending1);
    canPick := s.CacheReady(W0) || s.LocalityReady(W0) || s.GlobalReady();
  }

  /**
   With the dependency's host given in the spec, the job is offered on that
   worker's locality tier at once and picked from it, and the worker is then
   recorded as the location of the job's artifact.
   */
  method LocalityScheduling() returns (picked: JobSpec, location: WorkerId, located: bool)
    ensures picked.job.id == Id("c")
    ensures located && location == WorkerId("x")
  {
    var s := new Scheduler(TestConfig);
    var x := WorkerId("x");
    s.RegisterWorker(x);
    var jobC := JobSpec(map[], map[Id("dep") := x], Job(Id("c"), [Id("dep")]));
    assert DepHosts(jobC.job.deps, jobC.artifacts) == [x];
    var pendingC := s.ScheduleJob(jobC);
    OfferedCopies(map[x := []], [x], jobC, x);
    var r, d := s.PickJob(false, x);
    picked := r.job;
    location, located := s.LocateArtifact(picked.job.id);
  }

  /**
   The active assignment is never cleared: a second report for the same
   worker is accepted again, overwrites the result already delivered and
   signals the handle a second time.
   */
  method DuplicateReport() returns (firstOk: bool, secondOk: bool, delivered: Option<JobResult>, signals: nat)
    ensures firstOk && secondOk
    ensures delivered == Some(JobResult(Id("job0"), [], [], 1, None))
    ensures signals == 2
  {
    var s := new Scheduler(TestConfig);
    var job0 := Bare(Id("job0"), []);
    var pending0 := s.ScheduleJob(job0);
    s.FireDepsTimeout(pending0);
    s.RegisterWorker(W0);
    var picked, drawn := s.PickJob(false, W0);
    firstOk := s.OnJobComplete(W0, job0.job.id, Success(job0.job.id));
    secondOk := s.OnJobComplete(W0, job0.job.id, JobResult(job0.job.id, [], [], 1, None));
    delivered := picked.result;
    signals := picked.finishedSignals;
  }
}
