/**
 The value types the scheduler works on: job and worker identities, the
 specification of a job to run, and the result a worker reports for it.
 */
module Api {

  /** A content hash identifying a job or a blob; only equality matters. */
  datatype Id = Id(hash: string)

  /** A worker's persistent identity, which is also its dial-back address. */
  datatype WorkerId = WorkerId(addr: string)

  /** The value Go gives a missing map entry of type WorkerID: the empty string. */
  const NoWorker: WorkerId := WorkerId("")

  datatype Option<+T> = None | Some(value: T)

  /** A node of the build graph: its identity and its ordered dependencies. */
  datatype Job = Job(id: Id, deps: seq<Id>)

  /**
   A job plus what a worker needs to run it: the source files with the paths
   they must appear at, and, per dependency, the worker known to host its
   artifact.
   */
  datatype JobSpec = JobSpec(
    sourceFiles: map<Id, string>,
    artifacts: map<Id, WorkerId>,
    job: Job)

  /** A job's outcome; `error` present means the job could not be run at all. */
  datatype JobResult = JobResult(
    id: Id,
    stdout: seq<bv8>,
    stderr: seq<bv8>,
    exitCode: int,
    error: Option<string>)
}
