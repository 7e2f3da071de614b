/**
 Parent links between versions, and the walk by which redo finds its target.
 Nothing is assumed about the links: a parent may be missing, later than its child,
 or part of a cycle.
 */
module VersionChain {
  import opened Prelude

  type Parents = map<int, Option<int>>

  function Parent(ps: Parents, v: int): Option<int> {
    if v in ps then ps[v] else None
  }

  /** The version k links above v, if there is one. */
  function Up(ps: Parents, v: int, k: nat): Option<int> {
    if k == 0 then Some(v)
    else
      var below := Up(ps, v, k - 1);
      if below.None? then None else Parent(ps, below.value)
  }

  ghost predicate AncestorOrSelf(ps: Parents, a: int, v: int) {
    exists k: nat :: Up(ps, v, k) == Some(a)
  }

  ghost predicate ProperAncestor(ps: Parents, a: int, v: int) {
    exists k: nat :: k > 0 && Up(ps, v, k) == Some(a)
  }

  /** Going up j links from latest reaches a child of head. */
  predicate ChildAt(ps: Parents, latest: int, head: int, j: nat) {
    var at := Up(ps, latest, j);
    at.Some? && Parent(ps, at.value) == Some(head)
  }

  /** j is where the way up from latest first meets a child of head. */
  ghost predicate FirstChildAt(ps: Parents, latest: int, head: int, j: nat) {
    ChildAt(ps, latest, head, j) && forall i: nat | i < j :: !ChildAt(ps, latest, head, i)
  }

  /** The child of head that a walk up from latest meets first. */
  ghost function RedoTarget(ps: Parents, latest: int, head: int): Option<int> {
    if j: nat :| FirstChildAt(ps, latest, head, j) then Up(ps, latest, j) else None
  }

  lemma {:induction false} UpStaysNone(ps: Parents, v: int, i: nat, k: nat)
    requires i <= k && Up(ps, v, i).None?
    ensures Up(ps, v, k).None?
    decreases k
  {
    if i < k {
      UpStaysNone(ps, v, i, k - 1);
    }
  }

  lemma {:induction false} UpAdds(ps: Parents, v: int, i: nat, k: nat)
    requires Up(ps, v, i).Some?
    ensures Up(ps, v, i + k) == Up(ps, Up(ps, v, i).value, k)
  {
    if k > 0 {
      UpAdds(ps, v, i, k - 1);
    }
  }

  /** Once the way up repeats a version it repeats for ever. */
  lemma {:induction false} CycleCoversAll(ps: Parents, v: int, j: nat, i: nat, k: nat) returns (m: nat)
    requires j < i && Up(ps, v, j) == Up(ps, v, i)
    ensures m < i && Up(ps, v, k) == Up(ps, v, m)
  {
    if k < i {
      m := k;
    } else {
      m := CycleCoversAll(ps, v, j, i, k - 1);
      m := if m + 1 < i then m + 1 else j;
    }
  }

  lemma {:induction false} LeastChild(ps: Parents, latest: int, head: int, k: nat) returns (j: nat)
    requires ChildAt(ps, latest, head, k)
    ensures j <= k && FirstChildAt(ps, latest, head, j)
  {
    if i: nat :| i < k && ChildAt(ps, latest, head, i) {
      j := LeastChild(ps, latest, head, i);
    } else {
      j := k;
    }
  }

  /** Redo has a target exactly when head lies properly above latest. */
  lemma RedoTargetExists(ps: Parents, latest: int, head: int)
    ensures RedoTarget(ps, latest, head).Some? <==> ProperAncestor(ps, head, latest)
  {
    if ProperAncestor(ps, head, latest) {
      var k: nat :| k > 0 && Up(ps, latest, k) == Some(head);
      assert ChildAt(ps, latest, head, k - 1);
      var _ := LeastChild(ps, latest, head, k - 1);
    }
    if RedoTarget(ps, latest, head).Some? {
      var j: nat :| FirstChildAt(ps, latest, head, j);
      assert Up(ps, latest, j + 1) == Some(head);
    }
  }

  lemma RedoTargetIs(ps: Parents, latest: int, head: int, j: nat)
    requires FirstChildAt(ps, latest, head, j)
    ensures RedoTarget(ps, latest, head) == Up(ps, latest, j)
  {
    var i: nat :| FirstChildAt(ps, latest, head, i) && RedoTarget(ps, latest, head) == Up(ps, latest, i);
    assert i == j;
  }

  /** The walk itself: it stops at a child of head, at the root, or at a version already seen. */
  method FindRedoTarget(ps: Parents, latest: int, head: int) returns (target: Option<int>)
    ensures target == RedoTarget(ps, latest, head)
  {
    var cur: Option<int> := Some(latest);
    var seen: set<int> := {};
    ghost var i: nat := 0;
    target := None;
    while cur.Some? && cur.value !in seen
      invariant target.None? && cur == Up(ps, latest, i)
      invariant forall j: nat | j < i :: !ChildAt(ps, latest, head, j)
      invariant forall x | x in seen :: exists j: nat :: j < i && Up(ps, latest, j) == Some(x)
      decreases ps.Keys - seen, cur.Some?
    {
      seen := seen + {cur.value};
      if Parent(ps, cur.value) == Some(head) {
        target := cur;
        RedoTargetIs(ps, latest, head, i);
        return;
      }
      cur := Parent(ps, cur.value);
      i := i + 1;
      assert Up(ps, latest, i) == cur;
    }
    forall k: nat
      ensures !ChildAt(ps, latest, head, k)
    {
      WalkMissesNothing(ps, latest, head, i, seen, k);
    }
  }

  lemma WalkMissesNothing(ps: Parents, latest: int, head: int, i: nat, seen: set<int>, k: nat)
    requires Up(ps, latest, i).Some? ==> Up(ps, latest, i).value in seen
    requires forall j: nat | j < i :: !ChildAt(ps, latest, head, j)
    requires forall x | x in seen :: exists j: nat :: j < i && Up(ps, latest, j) == Some(x)
    ensures !ChildAt(ps, latest, head, k)
  {
    var cur := Up(ps, latest, i);
    if cur.None? {
      if i <= k {
        UpStaysNone(ps, latest, i, k);
      }
    } else {
      var x := cur.value;
      assert x in seen;
      var j: nat :| j < i && Up(ps, latest, j) == Some(x);
      var m := CycleCoversAll(ps, latest, j, i, k);
      assert !ChildAt(ps, latest, head, m);
    }
  }

  // Histories whose recorded parents are earlier recorded versions.

  ghost predicate ParentsEarlier(ps: Parents) {
    forall v | v in ps && ps[v].Some? :: ps[v].value in ps && ps[v].value < v
  }

  lemma {:induction false} UpDescends(ps: Parents, v: int, i: nat, k: nat)
    requires ParentsEarlier(ps) && v in ps && i < k && Up(ps, v, k).Some?
    ensures Up(ps, v, i).Some? && Up(ps, v, k).value < Up(ps, v, i).value
    decreases k
  {
    if i < k - 1 {
      UpDescends(ps, v, i, k - 1);
    }
  }

  /** Without cycles the redo target of the version n links above latest is the one n - 1 links above. */
  lemma RedoStepsBack(ps: Parents, latest: int, n: nat)
    requires ParentsEarlier(ps) && latest in ps && n > 0 && Up(ps, latest, n).Some?
    ensures RedoTarget(ps, latest, Up(ps, latest, n).value) == Up(ps, latest, n - 1)
  {
    var head := Up(ps, latest, n).value;
    forall i: nat | i < n - 1
      ensures !ChildAt(ps, latest, head, i)
    {
      UpDescends(ps, latest, i + 1, n);
    }
    RedoTargetIs(ps, latest, head, n - 1);
  }
}
