/**
 The batch queue: jobs enqueued up front, drained by workers that contend for a
 ceiling of permits and pick the next job round-robin across tenants.
 */
module FairQueue {
  import opened Prelude

  type Tenant = nat
  type JobId = nat

  datatype Job = Job(tenant: Tenant, id: JobId)

  datatype Queues = Queues(fifos: map<Tenant, seq<JobId>>, ring: seq<Tenant>)

  datatype Entry = Dispatched(job: JobId) | Completed(job: JobId)

  function Enqueued(q: Queues, job: Job): Queues {
    if job.tenant in q.fifos then q.(fifos := q.fifos[job.tenant := q.fifos[job.tenant] + [job.id]])
    else Queues(q.fifos[job.tenant := [job.id]], q.ring + [job.tenant])
  }

  /** The next job and its tenant; a tenant that still has work goes to the back of the ring. */
  function Next(q: Queues): (Queues, Option<Job>)
    decreases |q.ring|
  {
    if q.ring == [] then (q, None)
    else
      var t, rest := q.ring[0], q.ring[1..];
      if t in q.fifos && q.fifos[t] != [] then
        var fifo := q.fifos[t][1..];
        (Queues(q.fifos[t := fifo], if fifo != [] then rest + [t] else rest), Some(Job(t, q.fifos[t][0])))
      else Next(q.(ring := rest))
  }

  /** Jobs in flight after a log, and the most there ever were. */
  function InFlight(log: seq<Entry>): int {
    if log == [] then 0
    else InFlight(log[..|log| - 1]) + (if log[|log| - 1].Dispatched? then 1 else -1)
  }

  function Peak(log: seq<Entry>): int {
    if log == [] then 0
    else
      var before := Peak(log[..|log| - 1]);
      if InFlight(log) > before then InFlight(log) else before
  }

  class FairQueue {
    var fifos: map<Tenant, seq<JobId>>
    var ring: seq<Tenant>
    var inflight: int
    var maxInflight: int
    var log: seq<Entry>

    ghost function Contents(): Queues
      reads this
    {
      Queues(fifos, ring)
    }

    constructor ()
      ensures Contents() == Queues(map[], []) && inflight == maxInflight == 0 && log == []
    {
      fifos, ring, inflight, maxInflight, log := map[], [], 0, 0, [];
    }

    method Enqueue(job: Job)
      modifies this`fifos, this`ring
      ensures Contents() == Enqueued(old(Contents()), job)
    {
      if job.tenant !in fifos {
        fifos := fifos[job.tenant := []];
        ring := ring + [job.tenant];
      }
      fifos := fifos[job.tenant := fifos[job.tenant] + [job.id]];
      assert job.tenant !in old(fifos) ==> fifos[job.tenant] == [job.id];
      assert fifos == Enqueued(old(Contents()), job).fifos;
    }

    method NextJob() returns (job: Option<Job>)
      modifies this`fifos, this`ring
      ensures (Contents(), job) == Next(old(Contents()))
    {
      var checked := 0;
      var n := |ring|;
      while ring != [] && checked <= n
        invariant checked + |ring| == n
        invariant Next(Contents()) == Next(old(Contents()))
        decreases |ring|
      {
        var t := ring[0];
        ring := ring[1..];
        if t in fifos && fifos[t] != [] {
          job := Some(Job(t, fifos[t][0]));
          fifos := fifos[t := fifos[t][1..]];
          if fifos[t] != [] {
            ring := ring + [t];
          }
          return;
        }
        checked := checked + 1;
      }
      return None;
    }

    /** What a worker does under the lock once it has a permit. */
    method Start() returns (job: Option<Job>)
      modifies this
      ensures (Contents(), job) == Next(old(Contents()))
      ensures job.None? ==> log == old(log) && inflight == old(inflight) && maxInflight == old(maxInflight)
      ensures job.Some? ==>
                && log == old(log) + [Dispatched(job.value.id)]
                && inflight == old(inflight) + 1
                && maxInflight == if inflight > old(maxInflight) then inflight else old(maxInflight)
    {
      job := NextJob();
      if job.Some? {
        inflight := inflight + 1;
        maxInflight := if inflight > maxInflight then inflight else maxInflight;
        log := log + [Dispatched(job.value.id)];
      }
    }

    method Finish(job: Job)
      modifies this`inflight, this`log
      ensures log == old(log) + [Completed(job.id)] && inflight == old(inflight) - 1
    {
      inflight := inflight - 1;
      log := log + [Completed(job.id)];
    }

    method PeakInFlight() returns (peak: int)
      ensures peak == Peak(log)
    {
      var cur := 0;
      peak := 0;
      for i := 0 to |log|
        invariant cur == InFlight(log[..i]) && peak == Peak(log[..i])
      {
        assert log[..i + 1][..i] == log[..i];
        if log[i].Dispatched? {
          cur := cur + 1;
          peak := if cur > peak then cur else peak;
        } else {
          cur := cur - 1;
          InFlightBelowPeak(log[..i]);
        }
      }
      assert log[..|log|] == log;
    }
  }

  lemma InFlightBelowPeak(log: seq<Entry>)
    ensures InFlight(log) <= Peak(log)
  {
  }
}
