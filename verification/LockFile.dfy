/**
 The lock-file protocol that guards one drawing's manifest.

 Processes open (and so create) the file a path names, take an exclusive advisory
 lock on the open descriptor, and only then compare the descriptor with the name.
 A process inside the section may retire the file by unlinking the name while
 others wait on its inode. Every step of every process interleaves with every
 other, and any process may crash at any point. An inode number may be reused as
 soon as neither the name nor any open descriptor refers to it.
 */
module LockFile {
  import opened Prelude

  type Process = nat
  type Inode = nat  // the (device, inode) pair of a file

  datatype Phase =
    | Opened      // has a descriptor, waits for its lock
    | Locked      // has the lock, has not compared the descriptor with the name
    | Inside      // compared, and runs the guarded section
    | Reclaiming  // found the name still to be its own, is about to unlink it
    | Retired     // has unlinked the name; nothing of the section is left to run

  datatype Handle = Handle(inode: Inode, phase: Phase)

  /** What the path names, which process has the lock of each inode, and the descriptor of each process. */
  datatype State = State(name: Option<Inode>, locks: map<Inode, Process>, handles: map<Process, Handle>)

  datatype Event =
    | Open(p: Process, inode: Inode)
    | TryLock(p: Process)
    | GiveUp(p: Process)
    | Validate(p: Process)
    | CheckReclaim(p: Process)
    | Unlink(p: Process)
    | UnlinkFails(p: Process)
    | Leave(p: Process)
    | Crash(p: Process)

  const INITIAL := State(None, map[], map[])

  predicate At(s: State, p: Process, phases: set<Phase>) {
    p in s.handles && s.handles[p].phase in phases
  }

  predicate InUse(s: State, inode: Inode) {
    s.name == Some(inode) || exists p | p in s.handles :: s.handles[p].inode == inode
  }

  predicate Enabled(s: State, e: Event) {
    match e
    case Open(p, inode) =>
      p !in s.handles && (if s.name.Some? then inode == s.name.value else !InUse(s, inode))
    case TryLock(p) => At(s, p, {Opened})
    case GiveUp(p) => At(s, p, {Opened})
    case Validate(p) => At(s, p, {Locked})
    case CheckReclaim(p) => At(s, p, {Inside, Retired})
    case Unlink(p) => At(s, p, {Reclaiming})
    case UnlinkFails(p) => At(s, p, {Reclaiming})
    case Leave(p) => At(s, p, {Inside, Retired})
    case Crash(p) => p in s.handles
  }

  function Enter(s: State, p: Process, phase: Phase): State
    requires p in s.handles
  {
    s.(handles := s.handles[p := s.handles[p].(phase := phase)])
  }

  /** Closing a descriptor drops the lock taken through it, and no other lock. */
  function Close(s: State, p: Process): State
    requires p in s.handles
  {
    var inode := s.handles[p].inode;
    s.(handles := s.handles - {p},
       locks := if inode in s.locks && s.locks[inode] == p then s.locks - {inode} else s.locks)
  }

  function Step(s: State, e: Event): State
    requires Enabled(s, e)
  {
    match e
    case Open(p, inode) =>
      s.(name := Some(inode), handles := s.handles[p := Handle(inode, Opened)])
    case TryLock(p) =>
      var inode := s.handles[p].inode;
      if inode in s.locks then s  // contended: poll again
      else Enter(s.(locks := s.locks[inode := p]), p, Locked)
    case GiveUp(p) => Close(s, p)
    case Validate(p) =>
      if s.name == Some(s.handles[p].inode) then Enter(s, p, Inside) else Close(s, p)
    case CheckReclaim(p) =>
      if s.name == Some(s.handles[p].inode) then Enter(s, p, Reclaiming) else s
    case Unlink(p) => Enter(s.(name := None), p, Retired)  // by name, whatever it names now
    case UnlinkFails(p) => Enter(s, p, Inside)
    case Leave(p) => Close(s, p)
    case Crash(p) => Close(s, p)
  }

  predicate InSection(s: State, p: Process) {
    At(s, p, {Inside, Reclaiming})
  }

  predicate HoldsLock(s: State, p: Process) {
    At(s, p, {Locked, Inside, Reclaiming, Retired})
  }

  ghost predicate Inv(s: State) {
    && (forall p | HoldsLock(s, p) ::
          s.handles[p].inode in s.locks && s.locks[s.handles[p].inode] == p)
    && (forall i | i in s.locks :: HoldsLock(s, s.locks[i]) && s.handles[s.locks[i]].inode == i)
    && (forall p | InSection(s, p) :: s.name == Some(s.handles[p].inode))
    && (forall p | At(s, p, {Retired}) :: s.name != Some(s.handles[p].inode))
  }

  lemma CloseKeepsInv(s: State, p: Process)
    requires Inv(s) && p in s.handles
    ensures Inv(Close(s, p))
  {
  }

  lemma OpenKeepsInv(s: State, p: Process, inode: Inode)
    requires Inv(s) && Enabled(s, Open(p, inode))
    ensures Inv(Step(s, Open(p, inode)))
  {
  }

  lemma TryLockKeepsInv(s: State, p: Process)
    requires Inv(s) && At(s, p, {Opened})
    ensures Inv(Step(s, TryLock(p)))
  {
  }

  /** The lock's owner moves on within the section, or into it, while the name is its own. */
  lemma EnterKeepsInv(s: State, p: Process, phase: Phase)
    requires Inv(s) && HoldsLock(s, p) && s.name == Some(s.handles[p].inode) && phase in {Inside, Reclaiming}
    ensures Inv(Enter(s, p, phase))
  {
  }

  lemma UnlinkKeepsInv(s: State, p: Process)
    requires Inv(s) && At(s, p, {Reclaiming})
    ensures Inv(Step(s, Unlink(p)))
  {
    forall q | InSection(s, q) ensures q == p {
      assert s.handles[q].inode == s.handles[p].inode;
    }
  }

  lemma StepKeepsInv(s: State, e: Event)
    requires Inv(s) && Enabled(s, e)
    ensures Inv(Step(s, e))
  {
    match e
    case Open(p, inode) => OpenKeepsInv(s, p, inode);
    case TryLock(p) => TryLockKeepsInv(s, p);
    case Validate(p) =>
      if s.name == Some(s.handles[p].inode) {
        EnterKeepsInv(s, p, Inside);
      } else {
        CloseKeepsInv(s, p);
      }
    case CheckReclaim(p) =>
      if s.name == Some(s.handles[p].inode) {
        EnterKeepsInv(s, p, Reclaiming);
      }
    case Unlink(p) => UnlinkKeepsInv(s, p);
    case UnlinkFails(p) => EnterKeepsInv(s, p, Inside);
    case GiveUp(p) => CloseKeepsInv(s, p);
    case Leave(p) => CloseKeepsInv(s, p);
    case Crash(p) => CloseKeepsInv(s, p);
  }

  ghost predicate IsRun(ss: seq<State>, es: seq<Event>) {
    && |ss| == |es| + 1
    && ss[0] == INITIAL
    && forall i | 0 <= i < |es| :: Enabled(ss[i], es[i]) && ss[i + 1] == Step(ss[i], es[i])
  }

  lemma {:induction false} RunKeepsInv(ss: seq<State>, es: seq<Event>, k: nat)
    requires IsRun(ss, es) && k < |ss|
    ensures Inv(ss[k])
  {
    if k > 0 {
      RunKeepsInv(ss, es, k - 1);
      StepKeepsInv(ss[k - 1], es[k - 1]);
    }
  }

  /** Mutual exclusion: two processes are never in the section together, and
      whoever is in it has the lock of the very file the path names. */
  lemma MutualExclusion(ss: seq<State>, es: seq<Event>)
    requires IsRun(ss, es)
    ensures forall k, p, q | 0 <= k < |ss| && InSection(ss[k], p) && InSection(ss[k], q) :: p == q
    ensures forall k, p | 0 <= k < |ss| && InSection(ss[k], p) ::
              var inode := ss[k].handles[p].inode;
              ss[k].name == Some(inode) && inode in ss[k].locks && ss[k].locks[inode] == p
  {
    forall k | 0 <= k < |ss|
      ensures Inv(ss[k])
    {
      RunKeepsInv(ss, es, k);
    }
  }

  /** The check before an unlink and the unlink itself are separate steps, and the
      unlink goes by name. It still only ever removes the caller's own file, and
      the section is then empty. */
  lemma UnlinkRemovesOwnFile(ss: seq<State>, es: seq<Event>, k: nat, p: Process)
    requires IsRun(ss, es) && k < |es| && es[k] == Unlink(p)
    ensures ss[k].name == Some(ss[k].handles[p].inode)
    ensures var after := ss[k + 1]; forall q :: !InSection(after, q)
  {
    RunKeepsInv(ss, es, k);
    RunKeepsInv(ss, es, k + 1);
  }

  /** A section that nobody holds lets the next caller in: where the path names a file whose lock is free, or names
      none, an idle process that opens it, or makes one, locks and validates is in at the first attempt. */
  lemma FreeSectionAdmits(ss: seq<State>, es: seq<Event>, k: nat, q: Process, inode: Inode)
    requires IsRun(ss, es) && k < |ss| && q !in ss[k].handles
    requires ss[k].name.Some? ==> inode == ss[k].name.value && inode !in ss[k].locks
    requires ss[k].name.None? ==> forall p | p in ss[k].handles :: ss[k].handles[p].inode != inode
    ensures Enabled(ss[k], Open(q, inode))
    ensures var s1 := Step(ss[k], Open(q, inode));
            && Enabled(s1, TryLock(q))
            && var s2 := Step(s1, TryLock(q));
            && Enabled(s2, Validate(q)) && InSection(Step(s2, Validate(q)), q)
  {
    RunKeepsInv(ss, es, k);
  }

  /** Nothing a crash leaves behind keeps the section closed: once the process that
      was in it dies at any point of any run, an idle process that opens, locks and
      validates on its own is let in at the first attempt. */
  lemma CrashLeavesSectionOpen(ss: seq<State>, es: seq<Event>, k: nat, p: Process, q: Process)
    requires IsRun(ss, es) && k < |ss| && InSection(ss[k], p) && q !in ss[k].handles
    ensures var s0 := Step(ss[k], Crash(p));
            && s0.name.Some? && Enabled(s0, Open(q, s0.name.value))
            && var s1 := Step(s0, Open(q, s0.name.value));
            && Enabled(s1, TryLock(q))
            && var s2 := Step(s1, TryLock(q));
            && Enabled(s2, Validate(q)) && InSection(Step(s2, Validate(q)), q)
  {
    RunKeepsInv(ss, es, k);
  }

  /** Holding a lock is not yet being in the section. Whenever a process retires its file
      while another is parked on the same inode, the parked one goes on to win that lock,
      and only the comparison with the name keeps it out. */
  lemma ParkedCallerIsTurnedAway(ss: seq<State>, es: seq<Event>, k: nat, p: Process, q: Process)
    requires IsRun(ss, es) && k < |ss|
    requires At(ss[k], p, {Reclaiming}) && At(ss[k], q, {Opened})
    requires ss[k].handles[q].inode == ss[k].handles[p].inode
    ensures var s1 := Step(ss[k], Unlink(p));
            var s2 := Step(s1, Leave(p));
            var s3 := Step(s2, TryLock(q));
            At(s3, q, {Locked}) && q !in Step(s3, Validate(q)).handles
  {
    RunKeepsInv(ss, es, k);
  }
}
