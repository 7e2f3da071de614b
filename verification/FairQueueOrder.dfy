/** The closed form of the batch queue's dispatch order, and every worker interleaving. */
module FairQueueOrder {
  import opened Prelude
  import opened FairQueue

  // Keys and standings.

  function Count(done: seq<Tenant>, t: Tenant): nat {
    if done == [] then 0
    else Count(done[..|done| - 1], t) + (if done[|done| - 1] == t then 1 else 0)
  }

  /** Position in the tenant's queue first, then the order in which tenants first appeared. */
  datatype Key = Key(position: nat, rank: nat)

  predicate Less(a: Key, b: Key) {
    a.position < b.position || (a.position == b.position && a.rank < b.rank)
  }

  /** The batch, tenant by tenant. */
  datatype Batch = Batch(jobs: map<Tenant, seq<JobId>>, rank: map<Tenant, nat>)

  /** Where tenant t stands once the tenants in done have been served. */
  function Standing(b: Batch, done: seq<Tenant>, t: Tenant): Key
    requires t in b.rank
  {
    Key(Count(done, t), b.rank[t])
  }

  ghost predicate RingMembers(b: Batch, q: Queues, done: seq<Tenant>) {
    && b.rank.Keys == b.jobs.Keys
    && (forall t :: t in q.ring <==> t in b.jobs && Count(done, t) < |b.jobs[t]|)
    && (forall t | t in b.jobs ::
          t in q.fifos && Count(done, t) <= |b.jobs[t]| && q.fifos[t] == b.jobs[t][Count(done, t)..])
  }

  ghost predicate RingSorted(b: Batch, ring: seq<Tenant>, done: seq<Tenant>) {
    && (forall t | t in ring :: t in b.rank)
    && (forall i, j | 0 <= i < j < |ring| :: Less(Standing(b, done, ring[i]), Standing(b, done, ring[j])))
  }

  /** Nobody in the ring is a full round ahead of the front. */
  ghost predicate RingTight(b: Batch, ring: seq<Tenant>, done: seq<Tenant>) {
    && (forall t | t in ring :: t in b.rank)
    && (forall t | t in ring ::
          var front, here := Standing(b, done, ring[0]), Standing(b, done, t);
          here.position < front.position + 1 || (here.position == front.position + 1 && here.rank < front.rank))
  }

  ghost predicate QueueInv(b: Batch, q: Queues, done: seq<Tenant>) {
    RingMembers(b, q, done) && RingSorted(b, q.ring, done) && RingTight(b, q.ring, done)
  }

  lemma CountAppend(done: seq<Tenant>, t: Tenant, u: Tenant)
    ensures Count(done + [t], u) == Count(done, u) + (if t == u then 1 else 0)
  {
    assert (done + [t])[..|done|] == done;
  }

  // Loading a batch.

  function JobsOf(js: seq<Job>, t: Tenant): seq<JobId> {
    if js == [] then []
    else
      var last := js[|js| - 1];
      JobsOf(js[..|js| - 1], t) + (if last.tenant == t then [last.id] else [])
  }

  predicate Appears(js: seq<Job>, t: Tenant) {
    exists i | 0 <= i < |js| :: js[i].tenant == t
  }

  /** Where a tenant first appears in the batch. */
  function FirstIndex(js: seq<Job>, t: Tenant): (i: nat)
    requires Appears(js, t)
    ensures i < |js| && js[i].tenant == t && forall j | 0 <= j < i :: js[j].tenant != t
  {
    if js[0].tenant == t then 0 else 1 + FirstIndex(js[1..], t)
  }

  ghost function TenantsOf(js: seq<Job>): set<Tenant> {
    set i | 0 <= i < |js| :: js[i].tenant
  }

  ghost function BatchOf(js: seq<Job>): Batch {
    Batch(map t | t in TenantsOf(js) :: JobsOf(js, t), map t | t in TenantsOf(js) :: FirstIndex(js, t))
  }

  function Loaded(js: seq<Job>): Queues {
    if js == [] then Queues(map[], []) else Enqueued(Loaded(js[..|js| - 1]), js[|js| - 1])
  }

  lemma AppendedTenants(js: seq<Job>, job: Job)
    ensures TenantsOf(js + [job]) == TenantsOf(js) + {job.tenant}
  {
    var js' := js + [job];
    assert js'[|js|] == job;
    assert forall i | 0 <= i < |js| :: js'[i] == js[i];
  }

  lemma AppendedRank(js: seq<Job>, job: Job, t: Tenant)
    requires Appears(js + [job], t)
    ensures FirstIndex(js + [job], t) == if Appears(js, t) then FirstIndex(js, t) else |js|
  {
    var js' := js + [job];
    assert forall i | 0 <= i < |js| :: js'[i] == js[i];
    if Appears(js, t) {
      var i := FirstIndex(js, t);
      assert js'[i].tenant == t;
    }
  }

  lemma AppendedJobs(js: seq<Job>, job: Job, t: Tenant)
    ensures JobsOf(js + [job], t) == JobsOf(js, t) + (if job.tenant == t then [job.id] else [])
    ensures !Appears(js, t) ==> JobsOf(js, t) == []
  {
    assert (js + [job])[..|js|] == js;
    if !Appears(js, t) {
      NoJobsOf(js, t);
    }
  }

  lemma {:induction false} NoJobsOf(js: seq<Job>, t: Tenant)
    requires !Appears(js, t)
    ensures JobsOf(js, t) == []
  {
    if js != [] {
      NoJobsOf(js[..|js| - 1], t);
      assert js[|js| - 1].tenant != t;
    }
  }

  lemma {:induction false} LoadedFifos(js: seq<Job>)
    ensures Loaded(js).fifos.Keys == TenantsOf(js)
    ensures forall t | t in TenantsOf(js) :: Loaded(js).fifos[t] == JobsOf(js, t) != []
    ensures forall t :: t in Loaded(js).ring <==> t in TenantsOf(js)
  {
    if js != [] {
      var init, job := js[..|js| - 1], js[|js| - 1];
      assert js == init + [job];
      LoadedFifos(init);
      AppendedTenants(init, job);
      forall t | t in TenantsOf(js)
        ensures Loaded(js).fifos[t] == JobsOf(js, t) != []
      {
        AppendedJobs(init, job, t);
      }
    }
  }

  ghost predicate RankSorted(js: seq<Job>, ring: seq<Tenant>) {
    && (forall i | 0 <= i < |ring| :: Appears(js, ring[i]))
    && (forall i, j | 0 <= i < j < |ring| :: FirstIndex(js, ring[i]) < FirstIndex(js, ring[j]))
  }

  lemma {:induction false} LoadedSorted(js: seq<Job>)
    ensures RankSorted(js, Loaded(js).ring)
  {
    if js != [] {
      var init, job := js[..|js| - 1], js[|js| - 1];
      assert js == init + [job];
      LoadedSorted(init);
      LoadedFifos(init);
      LoadedFifos(js);
      var ring := Loaded(js).ring;
      forall i | 0 <= i < |ring|
        ensures Appears(js, ring[i])
        ensures FirstIndex(js, ring[i]) == if Appears(init, ring[i]) then FirstIndex(init, ring[i]) else |init|
      {
        assert ring[i] in ring;
        AppendedRank(init, job, ring[i]);
      }
    }
  }

  lemma LoadedMembers(js: seq<Job>)
    ensures RingMembers(BatchOf(js), Loaded(js), [])
  {
    LoadedFifos(js);
    var b := BatchOf(js);
    forall t | t in b.jobs
      ensures t in Loaded(js).fifos && Loaded(js).fifos[t] == b.jobs[t][0..]
    {
      assert JobsOf(js, t)[0..] == JobsOf(js, t);
    }
  }

  lemma FreshOrder(b: Batch, ring: seq<Tenant>)
    requires forall t | t in ring :: t in b.rank
    requires forall i, j | 0 <= i < j < |ring| :: b.rank[ring[i]] < b.rank[ring[j]]
    ensures RingSorted(b, ring, []) && RingTight(b, ring, [])
  {
  }

  lemma LoadedOrder(js: seq<Job>)
    ensures RingSorted(BatchOf(js), Loaded(js).ring, []) && RingTight(BatchOf(js), Loaded(js).ring, [])
  {
    LoadedFifos(js);
    LoadedSorted(js);
    var b, ring := BatchOf(js), Loaded(js).ring;
    forall i, j | 0 <= i < j < |ring|
      ensures b.rank[ring[i]] < b.rank[ring[j]]
    {
      assert ring[i] in ring && ring[j] in ring;
      assert FirstIndex(js, ring[i]) < FirstIndex(js, ring[j]);
    }
    FreshOrder(b, ring);
  }

  // One pick.

  lemma NextServesFront(b: Batch, q: Queues, done: seq<Tenant>)
    requires QueueInv(b, q, done) && q.ring != []
    ensures var t := q.ring[0];
            && t in b.jobs && Count(done, t) < |b.jobs[t]| && t in q.fifos && q.fifos[t] != []
            && var fifo := q.fifos[t][1..];
            && Next(q) == (Queues(q.fifos[t := fifo], if fifo != [] then q.ring[1..] + [t] else q.ring[1..]),
                           Some(Job(t, b.jobs[t][Count(done, t)])))
  {
    assert q.ring[0] in q.ring;
  }

  lemma FrontStandsAlone(b: Batch, ring: seq<Tenant>, done: seq<Tenant>)
    requires RingSorted(b, ring, done) && ring != []
    ensures forall u :: u in ring[1..] <==> u in ring && u != ring[0]
  {
    assert ring == [ring[0]] + ring[1..];
    assert forall i | 0 < i < |ring| :: Less(Standing(b, done, ring[0]), Standing(b, done, ring[i]));
  }

  lemma NextKeepsFifo(b: Batch, q: Queues, done: seq<Tenant>, u: Tenant)
    requires QueueInv(b, q, done) && q.ring != [] && u in b.jobs
    ensures var q', done' := Next(q).0, done + [q.ring[0]];
            && u in q'.fifos && Count(done', u) <= |b.jobs[u]| && q'.fifos[u] == b.jobs[u][Count(done', u)..]
            && (u in q'.ring <==> Count(done', u) < |b.jobs[u]|)
  {
    NextServesFront(b, q, done);
    CountAppend(done, q.ring[0], u);
    FrontStandsAlone(b, q.ring, done);
  }

  lemma NextKeepsMembers(b: Batch, q: Queues, done: seq<Tenant>)
    requires QueueInv(b, q, done) && q.ring != []
    ensures RingMembers(b, Next(q).0, done + [q.ring[0]])
  {
    NextServesFront(b, q, done);
    forall u | u in b.jobs
      ensures var q', done' := Next(q).0, done + [q.ring[0]];
              && u in q'.fifos && Count(done', u) <= |b.jobs[u]| && q'.fifos[u] == b.jobs[u][Count(done', u)..]
              && (u in q'.ring <==> Count(done', u) < |b.jobs[u]|)
    {
      NextKeepsFifo(b, q, done, u);
    }
    FrontStandsAlone(b, q.ring, done);
  }

  lemma StandingAfter(b: Batch, done: seq<Tenant>, t: Tenant, u: Tenant)
    requires t in b.rank && u in b.rank
    ensures Standing(b, done + [t], u)
         == (var was := Standing(b, done, u); if t == u then was.(position := was.position + 1) else was)
  {
    CountAppend(done, t, u);
  }

  function Rotated(ring: seq<Tenant>, again: bool): seq<Tenant>
    requires ring != []
  {
    if again then ring[1..] + [ring[0]] else ring[1..]
  }

  /** What one service does to the standings of the tenants still in the ring. */
  lemma RotatedStandings(b: Batch, ring: seq<Tenant>, done: seq<Tenant>, again: bool, i: nat)
    requires ring != [] && RingSorted(b, ring, done) && i < |Rotated(ring, again)|
    ensures Rotated(ring, again)[i] in ring && Rotated(ring, again)[i] in b.rank
    ensures i < |ring| - 1 ==>
              Rotated(ring, again)[i] == ring[i + 1]
              && Standing(b, done + [ring[0]], ring[i + 1]) == Standing(b, done, ring[i + 1])
    ensures i == |ring| - 1 ==>
              Rotated(ring, again)[i] == ring[0]
              && Standing(b, done + [ring[0]], ring[0])
                 == Standing(b, done, ring[0]).(position := Count(done, ring[0]) + 1)
  {
    assert ring[0] in ring;
    if i < |ring| - 1 {
      assert ring[i + 1] in ring;
      assert Less(Standing(b, done, ring[0]), Standing(b, done, ring[i + 1]));
      StandingAfter(b, done, ring[0], ring[i + 1]);
    } else {
      StandingAfter(b, done, ring[0], ring[0]);
    }
  }

  lemma RotateKeepsSorted(b: Batch, ring: seq<Tenant>, done: seq<Tenant>, again: bool)
    requires ring != [] && RingSorted(b, ring, done) && RingTight(b, ring, done)
    ensures RingSorted(b, Rotated(ring, again), done + [ring[0]])
  {
    var ring', done' := Rotated(ring, again), done + [ring[0]];
    forall t | t in ring'
      ensures t in b.rank
    {
      var i :| 0 <= i < |ring'| && ring'[i] == t;
      RotatedStandings(b, ring, done, again, i);
    }
    forall i, j | 0 <= i < j < |ring'|
      ensures Less(Standing(b, done', ring'[i]), Standing(b, done', ring'[j]))
    {
      RotatedStandings(b, ring, done, again, i);
      RotatedStandings(b, ring, done, again, j);
      assert ring[i + 1] in ring;
    }
  }

  lemma RotateKeepsTight(b: Batch, ring: seq<Tenant>, done: seq<Tenant>, again: bool)
    requires ring != [] && RingSorted(b, ring, done) && RingTight(b, ring, done)
    requires RingSorted(b, Rotated(ring, again), done + [ring[0]])
    ensures RingTight(b, Rotated(ring, again), done + [ring[0]])
    ensures Rotated(ring, again) != [] ==>
              Rotated(ring, again)[0] in b.rank && ring[0] in b.rank
              && Less(Standing(b, done, ring[0]), Standing(b, done + [ring[0]], Rotated(ring, again)[0]))
  {
    var ring', done' := Rotated(ring, again), done + [ring[0]];
    if ring' != [] {
      RotatedStandings(b, ring, done, again, 0);
      assert ring[0] in ring;
      forall t | t in ring'
        ensures var front, here := Standing(b, done', ring'[0]), Standing(b, done', t);
                here.position < front.position + 1 || (here.position == front.position + 1 && here.rank < front.rank)
      {
        var i :| 0 <= i < |ring'| && ring'[i] == t;
        RotatedStandings(b, ring, done, again, i);
        if i < |ring| - 1 {
          assert ring[i + 1] in ring;
        }
      }
    }
  }

  // Every worker interleaving.

  type Worker = nat

  datatype State = State(
    queues: Queues,
    free: nat,
    holding: set<Worker>,        // have a permit, have yet to pick
    running: map<Worker, JobId>,
    leaving: set<Worker>,        // logged their completion, have yet to return the permit
    inflight: int,
    maxInflight: int,
    log: seq<Entry>,
    done: seq<Tenant>)           // the tenants served so far, in order; no step reads it

  datatype Event =
    | TakePermit(w: Worker)
    | PickJob(w: Worker)
    | Complete(w: Worker)
    | ReturnPermit(w: Worker)

  function Initial(js: seq<Job>, ceiling: nat): State {
    State(Loaded(js), ceiling, {}, map[], {}, 0, 0, [], [])
  }

  predicate Busy(s: State, w: Worker) {
    w in s.holding || w in s.running || w in s.leaving
  }

  predicate Enabled(s: State, e: Event) {
    match e
    case TakePermit(w) => s.free > 0 && !Busy(s, w)
    case PickJob(w) => w in s.holding
    case Complete(w) => w in s.running
    case ReturnPermit(w) => w in s.leaving
  }

  function Step(s: State, e: Event): State
    requires Enabled(s, e)
  {
    match e
    case TakePermit(w) => s.(free := s.free - 1, holding := s.holding + {w})
    case PickJob(w) =>
      var (q, job) := Next(s.queues);
      if job.None? then s.(queues := q, free := s.free + 1, holding := s.holding - {w})
      else
        var n := s.inflight + 1;
        s.(queues := q, holding := s.holding - {w}, running := s.running[w := job.value.id],
           inflight := n, maxInflight := if n > s.maxInflight then n else s.maxInflight,
           log := s.log + [Dispatched(job.value.id)], done := s.done + [job.value.tenant])
    case Complete(w) =>
      s.(running := s.running - {w}, leaving := s.leaving + {w}, inflight := s.inflight - 1,
         log := s.log + [Completed(s.running[w])])
    case ReturnPermit(w) => s.(leaving := s.leaving - {w}, free := s.free + 1)
  }

  ghost predicate IsRun(ss: seq<State>, es: seq<Event>, js: seq<Job>, ceiling: nat) {
    && |ss| == |es| + 1
    && ss[0] == Initial(js, ceiling)
    && forall i | 0 <= i < |es| :: Enabled(ss[i], es[i]) && ss[i + 1] == Step(ss[i], es[i])
  }

  // Permits and the log.

  ghost predicate PermitInv(s: State, ceiling: nat) {
    && s.holding !! s.running.Keys && s.holding !! s.leaving && s.running.Keys !! s.leaving
    && s.free + |s.holding| + |s.running| + |s.leaving| == ceiling
    && s.inflight == |s.running| == InFlight(s.log)
    && s.maxInflight == Peak(s.log) <= ceiling
  }

  lemma LogAppend(log: seq<Entry>, e: Entry)
    ensures InFlight(log + [e]) == InFlight(log) + (if e.Dispatched? then 1 else -1)
    ensures Peak(log + [e]) == if InFlight(log + [e]) > Peak(log) then InFlight(log + [e]) else Peak(log)
  {
    assert (log + [e])[..|log|] == log;
  }

  lemma PickKeepsPermits(s: State, w: Worker, ceiling: nat)
    requires PermitInv(s, ceiling) && w in s.holding && Next(s.queues).1.Some?
    ensures PermitInv(Step(s, PickJob(w)), ceiling)
  {
    var s', id := Step(s, PickJob(w)), Next(s.queues).1.value.id;
    InFlightBelowPeak(s.log);
    LogAppend(s.log, Dispatched(id));
    assert s'.running.Keys == s.running.Keys + {w};
    assert |s'.running| == |s'.running.Keys| == |s.running| + 1;
    assert |s'.holding| == |s.holding| - 1;
  }

  lemma CompleteKeepsPermits(s: State, w: Worker, ceiling: nat)
    requires PermitInv(s, ceiling) && w in s.running
    ensures PermitInv(Step(s, Complete(w)), ceiling)
  {
    var s' := Step(s, Complete(w));
    InFlightBelowPeak(s.log);
    LogAppend(s.log, Completed(s.running[w]));
    assert s'.running.Keys == s.running.Keys - {w};
    assert |s'.running| == |s'.running.Keys| == |s.running| - 1;
    assert |s'.leaving| == |s.leaving| + 1;
  }

  lemma StepKeepsPermits(s: State, e: Event, ceiling: nat)
    requires PermitInv(s, ceiling) && Enabled(s, e)
    ensures PermitInv(Step(s, e), ceiling)
  {
    match e
    case TakePermit(_) =>
    case PickJob(w) =>
      if Next(s.queues).1.Some? {
        PickKeepsPermits(s, w, ceiling);
      }
    case Complete(w) => CompleteKeepsPermits(s, w, ceiling);
    case ReturnPermit(_) =>
  }

  // The order.

  function DispatchOrder(log: seq<Entry>): seq<JobId> {
    if log == [] then []
    else
      var last := log[|log| - 1];
      DispatchOrder(log[..|log| - 1]) + (if last.Dispatched? then [last.job] else [])
  }

  /** The standing under which the i-th dispatch was made. */
  function KeyAt(b: Batch, done: seq<Tenant>, i: nat): Key
    requires i < |done| && done[i] in b.rank
  {
    Standing(b, done[..i], done[i])
  }

  /** Dispatch i took the job its key says. */
  ghost predicate DispatchAt(b: Batch, s: State, i: nat)
    requires i < |s.done|
  {
    && s.done[i] in b.rank && s.done[i] in b.jobs
    && KeyAt(b, s.done, i).position < |b.jobs[s.done[i]]|
    && i < |DispatchOrder(s.log)| && DispatchOrder(s.log)[i] == b.jobs[s.done[i]][KeyAt(b, s.done, i).position]
  }

  ghost predicate Ranked(b: Batch, done: seq<Tenant>) {
    forall i | 0 <= i < |done| :: done[i] in b.rank
  }

  ghost predicate KeysSorted(b: Batch, done: seq<Tenant>)
    requires Ranked(b, done)
  {
    forall i, j | 0 <= i < j < |done| :: Less(KeyAt(b, done, i), KeyAt(b, done, j))
  }

  /** Everything dispatched stands before the front of the ring. */
  ghost predicate FrontLater(b: Batch, ring: seq<Tenant>, done: seq<Tenant>)
    requires Ranked(b, done)
  {
    ring != [] ==>
      ring[0] in b.rank && forall i | 0 <= i < |done| :: Less(KeyAt(b, done, i), Standing(b, done, ring[0]))
  }

  ghost predicate OrderInv(b: Batch, s: State) {
    && QueueInv(b, s.queues, s.done)
    && |DispatchOrder(s.log)| == |s.done|
    && (forall i: nat | i < |s.done| :: DispatchAt(b, s, i))
    && Ranked(b, s.done) && KeysSorted(b, s.done) && FrontLater(b, s.queues.ring, s.done)
  }

  lemma OrderAppend(log: seq<Entry>, e: Entry)
    ensures DispatchOrder(log + [e]) == DispatchOrder(log) + (if e.Dispatched? then [e.job] else [])
  {
    assert (log + [e])[..|log|] == log;
  }

  lemma KeyAppend(b: Batch, done: seq<Tenant>, t: Tenant, i: nat)
    requires Ranked(b, done) && t in b.rank && i <= |done|
    ensures Ranked(b, done + [t])
    ensures KeyAt(b, done + [t], i) == if i < |done| then KeyAt(b, done, i) else Standing(b, done, t)
  {
    assert (done + [t])[..i] == done[..i];
    assert done[..|done|] == done;
  }

  lemma NextKeepsQueueInv(b: Batch, q: Queues, done: seq<Tenant>)
    requires QueueInv(b, q, done) && q.ring != []
    ensures QueueInv(b, Next(q).0, done + [q.ring[0]])
    ensures var ring' := Next(q).0.ring;
            ring' != [] ==> ring'[0] in b.rank && q.ring[0] in b.rank
                            && Less(Standing(b, done, q.ring[0]), Standing(b, done + [q.ring[0]], ring'[0]))
  {
    NextServesFront(b, q, done);
    NextKeepsMembers(b, q, done);
    var again := q.fifos[q.ring[0]][1..] != [];
    RotateKeepsSorted(b, q.ring, done, again);
    RotateKeepsTight(b, q.ring, done, again);
  }

  lemma ServeKeepsKeys(b: Batch, ring: seq<Tenant>, done: seq<Tenant>, ring': seq<Tenant>)
    requires Ranked(b, done) && KeysSorted(b, done) && FrontLater(b, ring, done) && ring != []
    requires ring' != [] ==>
               ring'[0] in b.rank && Less(Standing(b, done, ring[0]), Standing(b, done + [ring[0]], ring'[0]))
    ensures Ranked(b, done + [ring[0]]) && KeysSorted(b, done + [ring[0]]) && FrontLater(b, ring', done + [ring[0]])
  {
    forall i: nat | i <= |done|
      ensures Ranked(b, done + [ring[0]])
      ensures KeyAt(b, done + [ring[0]], i) == if i < |done| then KeyAt(b, done, i) else Standing(b, done, ring[0])
    {
      KeyAppend(b, done, ring[0], i);
    }
    assert Ranked(b, done + [ring[0]]);
  }

  lemma PickKeepsOrder(b: Batch, s: State, w: Worker)
    requires OrderInv(b, s) && w in s.holding && s.queues.ring != []
    ensures OrderInv(b, Step(s, PickJob(w)))
  {
    var s', t := Step(s, PickJob(w)), s.queues.ring[0];
    NextServesFront(b, s.queues, s.done);
    NextKeepsQueueInv(b, s.queues, s.done);
    ServeKeepsKeys(b, s.queues.ring, s.done, s'.queues.ring);
    OrderAppend(s.log, s'.log[|s.log|]);
    forall i: nat | i < |s'.done|
      ensures DispatchAt(b, s', i)
    {
      KeyAppend(b, s.done, t, i);
      assert i < |s.done| ==> DispatchAt(b, s, i);
    }
  }

  lemma StepKeepsOrder(b: Batch, s: State, e: Event)
    requires OrderInv(b, s) && Enabled(s, e)
    ensures OrderInv(b, Step(s, e))
  {
    match e
    case PickJob(w) =>
      if s.queues.ring != [] {
        PickKeepsOrder(b, s, w);
      } else {
        assert Next(s.queues).1.None?;
        SameOrder(b, s, Step(s, e));
      }
    case Complete(w) =>
      OrderAppend(s.log, Completed(s.running[w]));
      SameOrder(b, s, Step(s, e));
    case _ => SameOrder(b, s, Step(s, e));
  }

  lemma SameOrder(b: Batch, s: State, s': State)
    requires OrderInv(b, s) && s'.queues == s.queues && s'.done == s.done
    requires DispatchOrder(s'.log) == DispatchOrder(s.log)
    ensures OrderInv(b, s')
  {
    forall i: nat | i < |s'.done|
      ensures DispatchAt(b, s', i)
    {
      assert DispatchAt(b, s, i);
    }
  }

  lemma {:induction false} RunKeepsInv(ss: seq<State>, es: seq<Event>, js: seq<Job>, ceiling: nat, k: nat)
    requires IsRun(ss, es, js, ceiling) && k < |ss|
    ensures PermitInv(ss[k], ceiling) && OrderInv(BatchOf(js), ss[k])
  {
    if k == 0 {
      LoadedMembers(js);
      LoadedOrder(js);
    } else {
      RunKeepsInv(ss, es, js, ceiling, k - 1);
      StepKeepsPermits(ss[k - 1], es[k - 1], ceiling);
      StepKeepsOrder(BatchOf(js), ss[k - 1], es[k - 1]);
    }
  }

  /** The peak recomputed from the log is the recorded one, and never exceeds the ceiling. */
  lemma PeakIsRecordedAndBounded(ss: seq<State>, es: seq<Event>, js: seq<Job>, ceiling: nat, k: nat)
    requires IsRun(ss, es, js, ceiling) && k < |ss|
    ensures Peak(ss[k].log) == ss[k].maxInflight <= ceiling
    ensures InFlight(ss[k].log) == |ss[k].running|
  {
    RunKeepsInv(ss, es, js, ceiling, k);
  }

  /** The k-th dispatch of the run was the p-th job of tenant t. */
  predicate Dispatches(s: State, k: nat, t: Tenant, p: nat) {
    k < |s.done| && s.done[k] == t && Count(s.done[..k], t) == p
  }

  /** The key a batch gives the p-th job of tenant t: its position in the tenant's queue, then
      the place of the tenant's first job in the batch. */
  function JobKey(js: seq<Job>, t: Tenant, p: nat): Key
    requires Appears(js, t)
  {
    Key(p, FirstIndex(js, t))
  }

  /** What is dispatched k-th is what the log says. */
  lemma LogNamesTheJob(ss: seq<State>, es: seq<Event>, js: seq<Job>, ceiling: nat, n: nat, k: nat)
    requires IsRun(ss, es, js, ceiling) && n < |ss| && k < |ss[n].done|
    ensures |DispatchOrder(ss[n].log)| == |ss[n].done|
    ensures var t := ss[n].done[k]; var p := Count(ss[n].done[..k], t);
            Appears(js, t) && p < |JobsOf(js, t)| && DispatchOrder(ss[n].log)[k] == JobsOf(js, t)[p]
  {
    RunKeepsInv(ss, es, js, ceiling, n);
    assert DispatchAt(BatchOf(js), ss[n], k);
  }

  /** Jobs are dispatched in strictly increasing key order, so none twice. */
  lemma DispatchOrderIsSorted(ss: seq<State>, es: seq<Event>, js: seq<Job>, ceiling: nat, n: nat,
                              i: nat, t: Tenant, p: nat, j: nat, u: Tenant, r: nat)
    requires IsRun(ss, es, js, ceiling) && n < |ss| && i < j
    requires Dispatches(ss[n], i, t, p) && Dispatches(ss[n], j, u, r)
    ensures Appears(js, t) && Appears(js, u) && Less(JobKey(js, t, p), JobKey(js, u, r))
  {
    RunKeepsInv(ss, es, js, ceiling, n);
    assert Less(KeyAt(BatchOf(js), ss[n].done, i), KeyAt(BatchOf(js), ss[n].done, j));
  }

  lemma {:induction false} NthService(done: seq<Tenant>, t: Tenant, p: nat) returns (k: nat)
    requires p < Count(done, t)
    ensures k < |done| && done[k] == t && Count(done[..k], t) == p
  {
    var init := done[..|done| - 1];
    if p < Count(init, t) {
      k := NthService(init, t, p);
      assert done[..k] == init[..k];
    } else {
      k := |done| - 1;
    }
  }

  /** A job of the batch has been dispatched, or it comes after everything dispatched so far;
      and when the ring is empty every job has been. */
  lemma DispatchOrderIsComplete(ss: seq<State>, es: seq<Event>, js: seq<Job>, ceiling: nat, n: nat, t: Tenant, p: nat)
    requires IsRun(ss, es, js, ceiling) && n < |ss| && Appears(js, t) && p < |JobsOf(js, t)|
    ensures (exists k: nat :: Dispatches(ss[n], k, t, p))
         || (ss[n].queues.ring != []
             && forall k: nat, u, r | Dispatches(ss[n], k, u, r) ::
                  Appears(js, u) && Less(JobKey(js, u, r), JobKey(js, t, p)))
  {
    RunKeepsInv(ss, es, js, ceiling, n);
    var s, b := ss[n], BatchOf(js);
    if p < Count(s.done, t) {
      var k := NthService(s.done, t, p);
      assert Dispatches(s, k, t, p);
    } else {
      assert t in s.queues.ring;
      var i :| 0 <= i < |s.queues.ring| && s.queues.ring[i] == t;
      assert s.queues.ring[0] in s.queues.ring;
      assert i > 0 ==> Less(Standing(b, s.done, s.queues.ring[0]), Standing(b, s.done, t));
      forall k: nat, u, r | Dispatches(s, k, u, r)
        ensures Appears(js, u) && Less(JobKey(js, u, r), JobKey(js, t, p))
      {
        assert DispatchAt(b, s, k);
        assert Less(KeyAt(b, s.done, k), Standing(b, s.done, s.queues.ring[0]));
      }
    }
  }
}
