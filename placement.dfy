/**
 The pure bookkeeping behind delay scheduling: which workers a job is offered
 to, what an offer does to the per-worker queues, and how a completion report
 extends the placement cache.
 */
module Placement {
  import opened Api

  /** Per-worker FIFO queues of job offers (one Go channel per worker). */
  type Queues = map<WorkerId, seq<JobSpec>>

  /** The placement cache: job ID to the workers that reported completing it. */
  type Cache = map<Id, seq<WorkerId>>

  /** `n` offers of the same job. */
  function Copies(job: JobSpec, n: nat): (s: seq<JobSpec>)
    ensures |s| == n
    ensures forall i :: 0 <= i < n ==> s[i] == job
  {
    seq(n, _ => job)
  }

  /**
   The workers a job is offered to for locality: for each dependency, in
   dependency order, the worker its artifact is known to live on; a
   dependency with no known host is skipped.
   */
  function DepHosts(deps: seq<Id>, artifacts: map<Id, WorkerId>): (hosts: seq<WorkerId>)
    ensures |hosts| <= |deps|
    ensures forall i :: 0 <= i < |hosts| ==> hosts[i] in artifacts.Values
    decreases |deps|
  {
    if deps == [] then []
    else
      var n := |deps| - 1;
      DepHosts(deps[..n], artifacts) + (if deps[n] in artifacts then [artifacts[deps[n]]] else [])
  }

  /**
   A worker is among the hosts exactly when some dependency has a known
   artifact location and that location is the worker.
   */
  lemma {:induction false} DepHostsMembers(deps: seq<Id>, artifacts: map<Id, WorkerId>, w: WorkerId)
    ensures w in DepHosts(deps, artifacts) <==> exists d :: d in deps && d in artifacts && artifacts[d] == w
    decreases |deps|
  {
    if deps != [] {
      var n := |deps| - 1;
      assert deps == deps[..n] + [deps[n]];
      DepHostsMembers(deps[..n], artifacts, w);
    }
  }

  /** The positions of `deps` whose artifact hint names `w`. */
  function HintedAt(deps: seq<Id>, artifacts: map<Id, WorkerId>, w: WorkerId): set<nat>
  {
    set i: nat | i < |deps| && deps[i] in artifacts && artifacts[deps[i]] == w
  }

  /** The last position of `deps` adds itself to the hinted positions of the rest, or nothing. */
  lemma HintedAtLast(deps: seq<Id>, artifacts: map<Id, WorkerId>, w: WorkerId)
    requires deps != []
    ensures var n := |deps| - 1;
      HintedAt(deps, artifacts, w) ==
        HintedAt(deps[..n], artifacts, w) + (if deps[n] in artifacts && artifacts[deps[n]] == w then {n} else {})
    ensures |deps| - 1 !in HintedAt(deps[..|deps| - 1], artifacts, w)
  {
  }

  /**
   A worker occurs among the hosts once per dependency whose hint names it,
   so it receives that many locality offers.
   */
  lemma {:induction false} DepHostsCount(deps: seq<Id>, artifacts: map<Id, WorkerId>, w: WorkerId)
    ensures multiset(DepHosts(deps, artifacts))[w] == |HintedAt(deps, artifacts, w)|
    decreases |deps|
  {
    if deps == [] {
      assert HintedAt(deps, artifacts, w) == {};
    } else {
      var n := |deps| - 1;
      DepHostsCount(deps[..n], artifacts, w);
      HintedAtLast(deps, artifacts, w);
      var tail := if deps[n] in artifacts then [artifacts[deps[n]]] else [];
      assert multiset(DepHosts(deps, artifacts)) == multiset(DepHosts(deps[..n], artifacts)) + multiset(tail);
    }
  }

  /**
   Sending `job` to the queue of each worker of `targets`, one send per
   entry, in order. No queue is created or dropped; what each queue gains is
   stated by OfferedCopies.
   */
  function Offer(queues: Queues, targets: seq<WorkerId>, job: JobSpec): (r: Queues)
    requires forall w :: w in targets ==> w in queues
    ensures r.Keys == queues.Keys
    decreases |targets|
  {
    if targets == [] then queues
    else
      var n := |targets| - 1;
      var q := Offer(queues, targets[..n], job);
      q[targets[n] := q[targets[n]] + [job]]
  }

  /**
   After the sends, every worker's queue holds what it held before followed
   by exactly as many offers of the job as the worker occurs in `targets`; in
   particular a worker not targeted keeps its queue unchanged.
   */
  lemma {:induction false} OfferedCopies(queues: Queues, targets: seq<WorkerId>, job: JobSpec, w: WorkerId)
    requires forall v :: v in targets ==> v in queues
    requires w in queues
    ensures Offer(queues, targets, job)[w] == queues[w] + Copies(job, multiset(targets)[w])
    decreases |targets|
  {
    if targets != [] {
      var n := |targets| - 1;
      assert targets == targets[..n] + [targets[n]];
      OfferedCopies(queues, targets[..n], job, w);
      var k := multiset(targets[..n])[w];
      if targets[n] == w {
        assert multiset(targets)[w] == k + 1;
        assert Copies(job, k + 1) == Copies(job, k) + [job];
      } else {
        assert multiset(targets)[w] == k;
      }
    }
  }

  /** One more target sends the job once more, to that target's queue only. */
  lemma OfferOneMore(queues: Queues, targets: seq<WorkerId>, w: WorkerId, job: JobSpec)
    requires forall v :: v in targets ==> v in queues
    requires w in queues
    ensures Offer(queues, targets + [w], job) == Offer(queues, targets, job)[w := Offer(queues, targets, job)[w] + [job]]
  {
    assert (targets + [w])[..|targets|] == targets;
  }

  /** A single target receives exactly one offer. */
  lemma OfferSingle(queues: Queues, w: WorkerId, job: JobSpec)
    requires w in queues
    ensures Offer(queues, [w], job) == queues[w := queues[w] + [job]]
  {
    assert [w][..0] == [];
  }

  /** The workers recorded for `id`; a missing entry reads as the empty list. */
  function Holders(cache: Cache, id: Id): seq<WorkerId>
  {
    if id in cache then cache[id] else []
  }

  /**
   A completion report of `id` by `w`: `w` is appended to the holders of `id`,
   and every entry the cache had is kept as a prefix of its new value.
   */
  function AppendPlacement(cache: Cache, id: Id, w: WorkerId): (r: Cache)
    ensures r.Keys == cache.Keys + {id}
    ensures Holders(r, id) == Holders(cache, id) + [w]
    ensures forall k :: k in cache ==> cache[k] <= r[k]
    ensures forall k :: k in cache && k != id ==> r[k] == cache[k]
  {
    cache[id := Holders(cache, id) + [w]]
  }

  /**
   The send loop over a worker list: one send of `job` per entry, in list
   order, to that worker's queue.
   */
  method SendToEach(queues: Queues, workers: seq<WorkerId>, job: JobSpec) returns (r: Queues)
    requires forall w :: w in workers ==> w in queues
    ensures r == Offer(queues, workers, job)
  {
    r := queues;
    for i := 0 to |workers|
      invariant r == Offer(queues, workers[..i], job)
    {
      var w := workers[i];
      assert workers[..i + 1] == workers[..i] + [w];
      OfferOneMore(queues, workers[..i], w, job);
      r := r[w := r[w] + [job]];
    }
    assert workers[..|workers|] == workers;
  }

  /**
   The send loop over a job's dependencies: for each dependency, in order,
   one send of `job` to the queue of the worker its artifact is known to
   live on; dependencies with no known host are skipped.
   */
  method SendToDepHosts(queues: Queues, deps: seq<Id>, artifacts: map<Id, WorkerId>, job: JobSpec)
    returns (r: Queues)
    requires forall w :: w in DepHosts(deps, artifacts) ==> w in queues
    ensures r == Offer(queues, DepHosts(deps, artifacts), job)
  {
    r := queues;
    for i := 0 to |deps|
      invariant forall w :: w in DepHosts(deps[..i], artifacts) ==> w in queues
      invariant r == Offer(queues, DepHosts(deps[..i], artifacts), job)
    {
      var d := deps[i];
      assert deps[..i + 1] == deps[..i] + [d];
      assert deps[..i + 1][..i] == deps[..i];
      if d in artifacts {
        var w := artifacts[d];
        assert DepHosts(deps[..i + 1], artifacts) == DepHosts(deps[..i], artifacts) + [w];
        DepHostsMembers(deps, artifacts, w);
        OfferOneMore(queues, DepHosts(deps[..i], artifacts), w, job);
        r := r[w := r[w] + [job]];
      } else {
        assert DepHosts(deps[..i + 1], artifacts) == DepHosts(deps[..i], artifacts);
      }
    }
    assert deps[..|deps|] == deps;
  }
}
