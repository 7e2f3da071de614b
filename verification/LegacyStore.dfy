/**
 One drawing under the legacy authority: a manifest document that every writer
 loads, edits and saves whole inside the drawing's lock, beside immutable version
 blobs. A publication may stop between its blob write and its manifest save.
 */
module LegacyStore {
  import opened Prelude
  import opened Blobs
  import opened Checkout
  import opened VersionChain

  const MAX_ABANDONED_VERSION_SLOTS := 1000

  datatype Row = Row(v: int, parent: Option<int>, bytes: nat, sha256: Digest)

  datatype Manifest = Manifest(
    head: int,
    latest: int,
    versions: seq<Row>,
    checkout: Option<Lease>,
    checkoutFence: Option<int>)

  datatype Store = Store(blobs: map<int, Bytes>, manifest: Option<Manifest>)

  const EMPTY := Store(map[], None)

  datatype Error =
    | NoDrawing
    | AlreadyExists
    | BlobExists
    | CheckoutDenied
    | ReservedHolder
    | StaleParent
    | VersionOverflow
    | TooManyAbandoned
    | NothingToUndo
    | UnknownVersion
    | NothingToRedo
    | Interrupted

  datatype Outcome =
    | Version(v: int)
    | Granted(fence: int)
    | NotGranted
    | Released
    | NotReleased
    | Failed(error: Error)

  function FindRow(rows: seq<Row>, v: int): Option<Row> {
    if rows == [] then None
    else if rows[0].v == v then Some(rows[0])
    else FindRow(rows[1..], v)
  }

  /** The dictionary from version to parent; a later row would replace an earlier one. */
  function ParentsOf(rows: seq<Row>): Parents {
    if rows == [] then map[]
    else
      var last := rows[|rows| - 1];
      ParentsOf(rows[..|rows| - 1])[last.v := last.parent]
  }

  predicate Usable(blobs: map<int, Bytes>, v: int, data: Bytes) {
    v !in blobs || blobs[v] == data
  }

  /** The first slot from v on that is free or already holds exactly these bytes. */
  function FindSlot(blobs: map<int, Bytes>, v: int, tries: nat, data: Bytes): Result<int, Error>
    decreases tries
  {
    if v > MAX_VERSION then Err(VersionOverflow)
    else if tries == 0 then Err(TooManyAbandoned)
    else if Usable(blobs, v, data) then Ok(v)
    else FindSlot(blobs, v + 1, tries - 1, data)
  }

  function NextFence(m: Manifest): int {
    if m.checkoutFence.Some? then m.checkoutFence.value + 1
    else if m.checkout.Some? && m.checkout.value.fence.Some? then m.checkout.value.fence.value + 1
    else 1
  }

  // What each operation does to the store, and what it answers.

  function Ingest(s: Store, data: Bytes, stops: bool): (Store, Outcome) {
    if s.manifest.Some? then (s, Failed(AlreadyExists))
    else if 1 in s.blobs then (s, Failed(BlobExists))
    else
      var written := s.(blobs := s.blobs[1 := data]);
      if stops then (written, Failed(Interrupted))
      else
        var first := Manifest(1, 1, [Row(1, None, |data|, Sha256(data))], None, None);
        (written.(manifest := Some(first)), Version(1))
  }

  function Put(s: Store, data: Bytes, parent: Option<int>, requireParentIsHead: bool,
               claim: Claim, now: int, stops: bool): (Store, Outcome) {
    if s.manifest.None? then (s, Failed(NoDrawing))
    else
      var m := s.manifest.value;
      if !Authorized(m.checkout, claim, now) then (s, Failed(CheckoutDenied))
      else if requireParentIsHead && parent != Some(m.head) then (s, Failed(StaleParent))
      else
        var slot := FindSlot(s.blobs, m.latest + 1, MAX_ABANDONED_VERSION_SLOTS, data);
        if slot.Err? then (s, Failed(slot.error))
        else
          var v := slot.value;
          var written := s.(blobs := s.blobs[v := data]);
          if stops then (written, Failed(Interrupted))
          else
            var rows := m.versions + [Row(v, parent, |data|, Sha256(data))];
            (written.(manifest := Some(m.(head := v, latest := v, versions := rows))), Version(v))
  }

  function MoveHead(s: Store, v: int): (Store, Outcome)
    requires s.manifest.Some?
  {
    (s.(manifest := Some(s.manifest.value.(head := v))), Version(v))
  }

  function Undo(s: Store, claim: Claim, now: int): (Store, Outcome) {
    if s.manifest.None? then (s, Failed(NoDrawing))
    else
      var m := s.manifest.value;
      if !Authorized(m.checkout, claim, now) then (s, Failed(CheckoutDenied))
      else
        var row := FindRow(m.versions, m.head);
        if row.None? then (s, Failed(UnknownVersion))
        else if row.value.parent.None? then (s, Failed(NothingToUndo))
        else if FindRow(m.versions, row.value.parent.value).None? then (s, Failed(UnknownVersion))
        else MoveHead(s, row.value.parent.value)
  }

  ghost function Redo(s: Store, claim: Claim, now: int): (Store, Outcome) {
    if s.manifest.None? then (s, Failed(NoDrawing))
    else
      var m := s.manifest.value;
      if !Authorized(m.checkout, claim, now) then (s, Failed(CheckoutDenied))
      else if m.head == m.latest then (s, Failed(NothingToRedo))
      else
        var target := RedoTarget(ParentsOf(m.versions), m.latest, m.head);
        if target.None? then (s, Failed(NothingToRedo)) else MoveHead(s, target.value)
  }

  function Acquire(s: Store, holder: string, ttl: int, expected: Option<int>, strict: bool, now: int)
    : (Store, Outcome)
  {
    if holder == ANONYMOUS_HOLDER then (s, Failed(ReservedHolder))
    else if s.manifest.None? then (s, Failed(NoDrawing))
    else
      var m := s.manifest.value;
      if !MayAcquire(m.checkout, holder, expected, strict, now) then (s, NotGranted)
      else
        var fence := NextFence(m);
        var lease := Lease(holder, now + ttl, Some(fence));
        (s.(manifest := Some(m.(checkout := Some(lease), checkoutFence := Some(fence)))), Granted(fence))
  }

  function Release(s: Store, holder: Option<string>, expected: Option<int>, now: int): (Store, Outcome) {
    if s.manifest.None? then (s, Failed(NoDrawing))
    else
      var m := s.manifest.value;
      if !MayRelease(m.checkout, holder, expected, now) then (s, NotReleased)
      else (s.(manifest := Some(m.(checkout := None))), Released)
  }

  /** The drawing as the writers see it: the blobs and the saved manifest document. */
  class Drawing {
    var blobs: map<int, Bytes>
    var manifest: Option<Manifest>

    ghost function Contents(): Store
      reads this
    {
      Store(blobs, manifest)
    }

    constructor ()
      ensures Contents() == EMPTY
    {
      blobs, manifest := map[], None;
    }

    method IngestDrawing(data: Bytes, stops: bool) returns (r: Outcome)
      modifies this
      ensures (Contents(), r) == Ingest(old(Contents()), data, stops)
    {
      if manifest.Some? {
        return Failed(AlreadyExists);
      }
      if 1 in blobs {
        return Failed(BlobExists);
      }
      blobs := blobs[1 := data];
      if stops {
        return Failed(Interrupted);
      }
      var m := Manifest(1, 1, [], None, None);
      m := m.(versions := m.versions + [Row(1, None, |data|, Sha256(data))]);
      assert m.versions == [Row(1, None, |data|, Sha256(data))];
      manifest := Some(m);
      return Version(1);
    }

    method PutDrawing(data: Bytes, parent: Option<int>, requireParentIsHead: bool,
                      claim: Claim, now: int, stops: bool) returns (r: Outcome)
      modifies this
      ensures (Contents(), r) == Put(old(Contents()), data, parent, requireParentIsHead, claim, now, stops)
    {
      if manifest.None? {
        return Failed(NoDrawing);
      }
      var m := manifest.value;
      if !Authorized(m.checkout, claim, now) {
        return Failed(CheckoutDenied);
      }
      if requireParentIsHead && parent != Some(m.head) {
        return Failed(StaleParent);
      }
      var slot := WalkPastAbandoned(m.latest + 1, data);
      if slot.Err? {
        return Failed(slot.error);
      }
      var v := slot.value;
      if v !in blobs {
        blobs := blobs[v := data];
      }
      assert blobs == old(blobs)[v := data];
      if stops {
        return Failed(Interrupted);
      }
      m := m.(versions := m.versions + [Row(v, parent, |data|, Sha256(data))]);
      m := m.(head := v, latest := v);
      manifest := Some(m);
      return Version(v);
    }

    method WalkPastAbandoned(start: int, data: Bytes) returns (r: Result<int, Error>)
      ensures r == FindSlot(blobs, start, MAX_ABANDONED_VERSION_SLOTS, data)
      ensures r.Ok? && r.value in blobs ==> blobs[r.value] == data
    {
      var v := start;
      if v > MAX_VERSION {
        return Err(VersionOverflow);
      }
      for tried := 0 to MAX_ABANDONED_VERSION_SLOTS
        invariant v <= MAX_VERSION
        invariant FindSlot(blobs, start, MAX_ABANDONED_VERSION_SLOTS, data)
               == FindSlot(blobs, v, MAX_ABANDONED_VERSION_SLOTS - tried, data)
      {
        if v !in blobs {
          return Ok(v);
        }
        var existing := blobs[v];
        if |existing| == |data| && Sha256(existing) == Sha256(data) {
          return Ok(v);
        }
        v := v + 1;
        if v > MAX_VERSION {
          return Err(VersionOverflow);
        }
      }
      return Err(TooManyAbandoned);
    }

    method UndoHead(claim: Claim, now: int) returns (r: Outcome)
      modifies this`manifest
      ensures (Contents(), r) == Undo(old(Contents()), claim, now)
    {
      if manifest.None? {
        return Failed(NoDrawing);
      }
      var m := manifest.value;
      if !Authorized(m.checkout, claim, now) {
        return Failed(CheckoutDenied);
      }
      var entry := FindRow(m.versions, m.head);
      if entry.None? {
        return Failed(UnknownVersion);
      }
      var parent := entry.value.parent;
      if parent.None? {
        return Failed(NothingToUndo);
      }
      if FindRow(m.versions, parent.value).None? {
        return Failed(UnknownVersion);
      }
      m := m.(head := parent.value);
      manifest := Some(m);
      return Version(parent.value);
    }

    method RedoHead(claim: Claim, now: int) returns (r: Outcome)
      modifies this`manifest
      ensures (Contents(), r) == Redo(old(Contents()), claim, now)
    {
      if manifest.None? {
        return Failed(NoDrawing);
      }
      var m := manifest.value;
      if !Authorized(m.checkout, claim, now) {
        return Failed(CheckoutDenied);
      }
      if m.head == m.latest {
        return Failed(NothingToRedo);
      }
      var target := FindRedoTarget(ParentsOf(m.versions), m.latest, m.head);
      if target.None? {
        return Failed(NothingToRedo);
      }
      m := m.(head := target.value);
      manifest := Some(m);
      return Version(target.value);
    }

    method AcquireCheckout(holder: string, ttl: int, expected: Option<int>, strict: bool, now: int) returns (r: Outcome)
      modifies this`manifest
      ensures (Contents(), r) == Acquire(old(Contents()), holder, ttl, expected, strict, now)
    {
      if holder == ANONYMOUS_HOLDER {
        return Failed(ReservedHolder);
      }
      if manifest.None? {
        return Failed(NoDrawing);
      }
      var m := manifest.value;
      if IsActive(m.checkout, now) {
        if strict {
          if expected.None? || FenceOrZero(m.checkout.value) != expected.value {
            return NotGranted;
          }
        } else if m.checkout.value.holder != holder {
          return NotGranted;
        }
      }
      var fence := NextFence(m);
      m := m.(checkoutFence := Some(fence));
      m := m.(checkout := Some(Lease(holder, now + ttl, Some(fence))));
      manifest := Some(m);
      return Granted(fence);
    }

    method ReleaseCheckout(holder: Option<string>, expected: Option<int>, now: int) returns (r: Outcome)
      modifies this`manifest
      ensures (Contents(), r) == Release(old(Contents()), holder, expected, now)
    {
      if manifest.None? {
        return Failed(NoDrawing);
      }
      var m := manifest.value;
      if m.checkout.None? {
        return NotReleased;
      }
      if IsActive(m.checkout, now) {
        if expected.Some? {
          if FenceOrZero(m.checkout.value) != expected.value {
            return NotReleased;
          }
        } else if holder.Some? && m.checkout.value.holder != holder.value {
          return NotReleased;
        }
      }
      m := m.(checkout := None);
      manifest := Some(m);
      return Released;
    }
  }
}
