/**
 The delay scheduler: per-worker cache-tier and locality-tier queues, a global
 queue, the placement cache, the artifact-location table and the table of
 active assignments. Channels are FIFO sequences (a send appends, a receive
 takes the head); the two timer goroutines started for each submitted job are
 explicit events, FireCacheTimeout and FireDepsTimeout.
 */
module Scheduling {
  import opened Api
  import opened Placement

  /** The two delays of delay scheduling; the model fires timers as events, so the values are only kept. */
  datatype Config = Config(cacheTimeout: nat, depsTimeout: nat)

  /** Which ready case of PickJob's select was taken. */
  datatype Draw = CacheTier | LocalityTier | GlobalQueue | GlobalClosed | ContextDone

  /**
   A handle on a job: the job, its completion channel (modelled by how many
   completion signals were sent on it) and its result slot.
   */
  class PendingJob {
    const job: JobSpec
    var finishedSignals: nat
    var result: Option<JobResult>

    constructor (job: JobSpec)
      ensures this.job == job && finishedSignals == 0 && result == None
    {
      this.job := job;
      finishedSignals := 0;
      result := None;
    }
  }

  class Scheduler {
    const config: Config
    /** The global queue and whether Stop has closed it. */
    var global: seq<JobSpec>
    var closed: bool
    /** Job ID to the workers that reported completing it, in report order. */
    var jobCache: Cache
    /** Job ID to the worker that last picked it from a preference queue. */
    var jobWorker: map<Id, WorkerId>
    /** Cache-tier and locality-tier queues; a worker is registered when it has both. */
    var firstTier: Queues
    var secondTier: Queues
    /** The handle each worker was last given by PickJob. */
    var workerPending: map<WorkerId, PendingJob>
    /** Handles whose cache-timeout, resp. deps-timeout, goroutine is still waiting. */
    var cacheTimers: set<PendingJob>
    var depsTimers: set<PendingJob>

    /**
     Every cached ID has at least one holder; both queues exist for the same
     workers; no two workers share a handle; no handle with a waiting timer
     is an active assignment, so OnJobComplete never signals a handle that a
     timer is waiting on; hence every such handle is still unsignalled and
     its timers always fire.
     */
    ghost predicate Valid()
      reads this, cacheTimers, depsTimers
    {
      && (forall id :: id in jobCache ==> jobCache[id] != [])
      && firstTier.Keys == secondTier.Keys
      && (forall w, v :: w in workerPending && v in workerPending && w != v ==> workerPending[w] != workerPending[v])
      && (forall w :: w in workerPending ==> workerPending[w] !in cacheTimers && workerPending[w] !in depsTimers)
      && (forall p :: p in cacheTimers ==> p.finishedSignals == 0)
      && (forall p :: p in depsTimers ==> p.finishedSignals == 0)
    }

    /** Every listed worker has its two queues (a send to a missing one blocks forever). */
    ghost predicate Registered(workers: seq<WorkerId>)
      reads this
    {
      forall w :: w in workers ==> w in firstTier && w in secondTier
    }

    /** The cases of PickJob's select that can proceed for `workerId`. */
    predicate CacheReady(workerId: WorkerId)
      reads this
    {
      workerId in firstTier && firstTier[workerId] != []
    }

    predicate LocalityReady(workerId: WorkerId)
      reads this
    {
      workerId in secondTier && secondTier[workerId] != []
    }

    /** A closed channel is always ready to receive (and yields nothing). */
    predicate GlobalReady()
      reads this
    {
      closed || global != []
    }

    constructor (config: Config)
      ensures Valid()
      ensures this.config == config
      ensures global == [] && !closed
      ensures jobCache == map[] && jobWorker == map[] && workerPending == map[]
      ensures firstTier == map[] && secondTier == map[]
      ensures cacheTimers == {} && depsTimers == {}
    {
      this.config := config;
      global, closed := [], false;
      jobCache, jobWorker, workerPending := map[], map[], map[];
      firstTier, secondTier := map[], map[];
      cacheTimers, depsTimers := {}, {};
    }

    /** Gives the worker two new, empty queues, dropping any it had. */
    method RegisterWorker(workerId: WorkerId)
      requires Valid()
      modifies this
      ensures Valid()
      ensures firstTier == old(firstTier)[workerId := []]
      ensures secondTier == old(secondTier)[workerId := []]
      ensures global == old(global) && closed == old(closed)
      ensures jobCache == old(jobCache) && jobWorker == old(jobWorker) && workerPending == old(workerPending)
      ensures cacheTimers == old(cacheTimers) && depsTimers == old(depsTimers)
    {
      firstTier := firstTier[workerId := []];
      secondTier := secondTier[workerId := []];
    }

    /** The worker recorded as holding the artifact of `id`, if any. */
    method LocateArtifact(id: Id) returns (w: WorkerId, ok: bool)
      ensures ok <==> id in jobWorker
      ensures ok ==> w == jobWorker[id]
      ensures !ok ==> w == NoWorker
    {
      ok := id in jobWorker;
      w := if ok then jobWorker[id] else NoWorker;
    }

    /**
     A worker reports `jobId` done: the worker is appended to the job's
     holders whatever else happens; if the worker has an active assignment,
     its handle receives the result and one more completion signal.
     */
    method OnJobComplete(workerId: WorkerId, jobId: Id, res: JobResult) returns (ok: bool)
      requires Valid()
      modifies this, workerPending.Values
      ensures Valid()
      ensures workerPending == old(workerPending) && jobWorker == old(jobWorker)
      ensures jobCache == AppendPlacement(old(jobCache), jobId, workerId)
      ensures ok <==> workerId in workerPending
      ensures ok ==> workerPending[workerId].result == Some(res)
      ensures ok ==> workerPending[workerId].finishedSignals == old(workerPending[workerId].finishedSignals) + 1
      ensures forall w :: w in workerPending && w != workerId ==>
        workerPending[w].result == old(workerPending[w].result) &&
        workerPending[w].finishedSignals == old(workerPending[w].finishedSignals)
      ensures firstTier == old(firstTier) && secondTier == old(secondTier)
      ensures global == old(global) && closed == old(closed)
      ensures cacheTimers == old(cacheTimers) && depsTimers == old(depsTimers)
    {
      jobCache := AppendPlacement(jobCache, jobId, workerId);
      if workerId !in workerPending {
        return false;
      }
      var p := workerPending[workerId];
      p.result := Some(res);
      p.finishedSignals := p.finishedSignals + 1;
      return true;
    }

    /**
     Submits a job. A job ID already in the placement cache is offered on the
     cache-tier queue of each recorded holder; otherwise the job is offered on
     the locality-tier queue of each known dependency host. Both timers are
     armed on the returned handle.
     */
    method ScheduleJob(job: JobSpec) returns (p: PendingJob)
      requires Valid()
      requires job.job.id in jobCache ==> Registered(jobCache[job.job.id])
      requires job.job.id !in jobCache ==> Registered(DepHosts(job.job.deps, job.artifacts))
      modifies this
      ensures Valid()
      ensures fresh(p) && p.job == job && p.result == None && p.finishedSignals == 0
      ensures old(job.job.id in jobCache) ==>
        firstTier == Offer(old(firstTier), old(jobCache[job.job.id]), job) && secondTier == old(secondTier)
      ensures old(job.job.id !in jobCache) ==>
        secondTier == Offer(old(secondTier), DepHosts(job.job.deps, job.artifacts), job) && firstTier == old(firstTier)
      ensures cacheTimers == old(cacheTimers) + {p} && depsTimers == old(depsTimers) + {p}
      ensures global == old(global) && closed == old(closed)
      ensures jobCache == old(jobCache) && jobWorker == old(jobWorker) && workerPending == old(workerPending)
    {
      if job.job.id in jobCache {
        firstTier := SendToEach(firstTier, jobCache[job.job.id], job);
      } else {
        secondTier := SendToDepHosts(secondTier, job.job.deps, job.artifacts, job);
      }
      p := Arm(job);
    }

    /**
     The end of a submission: a new, unsignalled handle on `job` with both
     its timers waiting; nothing else changes.
     */
    method Arm(job: JobSpec) returns (p: PendingJob)
      requires Valid()
      modifies this
      ensures Valid()
      ensures fresh(p) && p.job == job && p.result == None && p.finishedSignals == 0
      ensures cacheTimers == old(cacheTimers) + {p} && depsTimers == old(depsTimers) + {p}
      ensures firstTier == old(firstTier) && secondTier == old(secondTier)
      ensures global == old(global) && closed == old(closed)
      ensures jobCache == old(jobCache) && jobWorker == old(jobWorker) && workerPending == old(workerPending)
    {
      p := new PendingJob(job);
      cacheTimers := cacheTimers + {p};
      depsTimers := depsTimers + {p};
    }

    /**
     The cache timeout of `p` expires: unless `p` has been signalled finished,
     the job is offered on the locality-tier queue of each known dependency
     host. The timer is spent either way.
     */
    method FireCacheTimeout(p: PendingJob)
      requires Valid()
      requires p in cacheTimers
      requires p.finishedSignals == 0 ==> Registered(DepHosts(p.job.job.deps, p.job.artifacts))
      modifies this
      ensures Valid()
      ensures cacheTimers == old(cacheTimers) - {p} && depsTimers == old(depsTimers)
      ensures old(p.finishedSignals) == 0 ==>
        secondTier == Offer(old(secondTier), DepHosts(p.job.job.deps, p.job.artifacts), p.job)
      ensures old(p.finishedSignals) != 0 ==> secondTier == old(secondTier)
      ensures firstTier == old(firstTier) && global == old(global) && closed == old(closed)
      ensures jobCache == old(jobCache) && jobWorker == old(jobWorker) && workerPending == old(workerPending)
    {
      if p.finishedSignals == 0 {
        secondTier := SendToDepHosts(secondTier, p.job.job.deps, p.job.artifacts, p.job);
      }
      cacheTimers := cacheTimers - {p};
    }

    /**
     The deps timeout of `p` expires: unless `p` has been signalled finished,
     the job is appended to the global queue. Sending on the queue after Stop
     panics in the source, so that is excluded.
     */
    method FireDepsTimeout(p: PendingJob)
      requires Valid()
      requires p in depsTimers
      requires p.finishedSignals == 0 ==> !closed
      modifies this
      ensures Valid()
      ensures depsTimers == old(depsTimers) - {p} && cacheTimers == old(cacheTimers)
      ensures global == if old(p.finishedSignals) == 0 then old(global) + [p.job] else old(global)
      ensures firstTier == old(firstTier) && secondTier == old(secondTier) && closed == old(closed)
      ensures jobCache == old(jobCache) && jobWorker == old(jobWorker) && workerPending == old(workerPending)
    {
      if p.finishedSignals == 0 {
        global := global + [p.job];
      }
      depsTimers := depsTimers - {p};
    }

    /**
     A worker pulls a job. Like Go's select, any ready case may be taken:
     the head of the worker's cache-tier or locality-tier queue, the head of
     the global queue, nothing from a closed global queue, or nothing because
     the context is done. A job taken becomes the worker's active assignment
     under a new handle; a job from a preference queue also records the
     worker as the location of the job's artifact. When nothing is taken,
     nothing changes. The source blocks until a case is ready; the model
     starts there.
     */
    method PickJob(cancelled: bool, workerId: WorkerId) returns (r: PendingJob?, ghost drawn: Draw)
      requires Valid()
      requires cancelled || CacheReady(workerId) || LocalityReady(workerId) || GlobalReady()
      modifies this
      ensures Valid()
      ensures r == null <==> drawn == GlobalClosed || drawn == ContextDone
      ensures drawn == ContextDone ==> cancelled
      ensures drawn == GlobalClosed ==> old(closed)
      ensures r == null ==>
        firstTier == old(firstTier) && secondTier == old(secondTier) && global == old(global) &&
        jobWorker == old(jobWorker) && workerPending == old(workerPending)
      ensures r != null ==>
        fresh(r) && r.result == None && r.finishedSignals == 0 &&
        workerPending == old(workerPending)[workerId := r]
      ensures drawn == CacheTier ==>
        old(CacheReady(workerId)) && r != null && r.job == old(firstTier[workerId][0]) &&
        firstTier == old(firstTier)[workerId := old(firstTier[workerId][1..])] &&
        secondTier == old(secondTier) && global == old(global) &&
        jobWorker == old(jobWorker)[r.job.job.id := workerId]
      ensures drawn == LocalityTier ==>
        old(LocalityReady(workerId)) && r != null && r.job == old(secondTier[workerId][0]) &&
        secondTier == old(secondTier)[workerId := old(secondTier[workerId][1..])] &&
        firstTier == old(firstTier) && global == old(global) &&
        jobWorker == old(jobWorker)[r.job.job.id := workerId]
      ensures drawn == GlobalQueue ==>
        !old(closed) && old(global) != [] && r != null && r.job == old(global[0]) &&
        global == old(global[1..]) &&
        firstTier == old(firstTier) && secondTier == old(secondTier) && jobWorker == old(jobWorker)
      ensures jobCache == old(jobCache) && closed == old(closed)
      ensures cacheTimers == old(cacheTimers) && depsTimers == old(depsTimers)
    {
      if {
        case CacheReady(workerId) =>
          var job := firstTier[workerId][0];
          firstTier := firstTier[workerId := firstTier[workerId][1..]];
          jobWorker := jobWorker[job.job.id := workerId];
          r := Assign(workerId, job);
          drawn := CacheTier;
        case LocalityReady(workerId) =>
          var job := secondTier[workerId][0];
          secondTier := secondTier[workerId := secondTier[workerId][1..]];
          jobWorker := jobWorker[job.job.id := workerId];
          r := Assign(workerId, job);
          drawn := LocalityTier;
        case GlobalReady() =>
          if closed {
            r, drawn := null, GlobalClosed;
          } else {
            var job := global[0];
            global := global[1..];
            r := Assign(workerId, job);
            drawn := GlobalQueue;
          }
        case cancelled =>
          r, drawn := null, ContextDone;
      }
    }

    /**
     The hand-over shared by PickJob's three receiving cases: a new,
     unsignalled handle on `job` becomes the worker's active assignment,
     replacing any earlier one; nothing else changes.
     */
    method Assign(workerId: WorkerId, job: JobSpec) returns (r: PendingJob)
      requires Valid()
      modifies this
      ensures Valid()
      ensures fresh(r) && r.job == job && r.result == None && r.finishedSignals == 0
      ensures workerPending == old(workerPending)[workerId := r]
      ensures global == old(global) && closed == old(closed)
      ensures firstTier == old(firstTier) && secondTier == old(secondTier)
      ensures jobCache == old(jobCache) && jobWorker == old(jobWorker)
      ensures cacheTimers == old(cacheTimers) && depsTimers == old(depsTimers)
    {
      r := new PendingJob(job);
      workerPending := workerPending[workerId := r];
    }

    /** Closes the global queue; closing it twice panics in the source. */
    method Stop()
      requires Valid()
      requires !closed
      modifies this
      ensures Valid()
      ensures closed && global == old(global)
      ensures firstTier == old(firstTier) && secondTier == old(secondTier)
      ensures jobCache == old(jobCache) && jobWorker == old(jobWorker) && workerPending == old(workerPending)
      ensures cacheTimers == old(cacheTimers) && depsTimers == old(depsTimers)
    {
      closed := true;
    }
  }
}
