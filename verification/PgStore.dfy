/**
 One drawing under the PostgreSQL authority. A publication is a reserving
 transaction, a blob write outside any transaction, and a finalizing transaction
 that publishes or orphans the reservation. Each transaction is atomic; between
 two of them anything may happen, a crash of the writer included.
 */
module PgStore {
  import opened Prelude
  import opened Blobs
  import opened Checkout
  import opened VersionChain

  datatype VersionState = Reserved | Ready | Orphaned

  datatype Reservation = Reservation(token: nat, expires: int)

  datatype VersionRow = VersionRow(
    parent: Option<int>,
    bytes: nat,
    sha256: Digest,
    state: VersionState,
    reservation: Option<Reservation>)

  datatype Holding = Holding(holder: string, expires: int)

  datatype ManifestRow = ManifestRow(head: Option<int>, latest: int, checkout: Option<Holding>, fence: int)

  datatype Tables = Tables(manifest: Option<ManifestRow>, versions: map<int, VersionRow>)

  /** What a reservation hands on to its finalization. */
  datatype Ticket = Ticket(version: int, expected: int, holder: string, fence: int)

  datatype Error =
    | NoDrawing
    | AlreadyExists
    | ReservationMismatch
    | ReservationActive
    | ReservationReclaimed
    | NoActiveCheckout
    | CheckoutDenied
    | BadCheckoutRequest
    | StaleHead
    | VersionOverflow
    | NothingToUndo
    | UnknownVersion
    | NothingToRedo

  const INGEST_RESERVATION := 60_000_000  // one minute, in microseconds

  function LeaseOf(row: ManifestRow): Option<Lease> {
    if row.checkout.None? then None
    else Some(Lease(row.checkout.value.holder, row.checkout.value.expires, Some(row.fence)))
  }

  predicate IsReady(vs: map<int, VersionRow>, v: int) {
    v in vs && vs[v].state == Ready
  }

  function ReadyParents(vs: map<int, VersionRow>): Parents {
    map v | v in vs && vs[v].state == Ready :: vs[v].parent
  }

  /** The largest ready version up to n, or 0. */
  function MaxReady(vs: map<int, VersionRow>, n: int): int
    decreases n
  {
    if n <= 0 then 0 else if IsReady(vs, n) then n else MaxReady(vs, n - 1)
  }

  function NewRow(parent: Option<int>, data: Bytes, reservation: Option<Reservation>): VersionRow {
    VersionRow(parent, |data|, Sha256(data), Reserved, reservation)
  }

  // The transactions.

  function IngestReserve(t: Tables, data: Bytes, token: nat, now: int): (Tables, Result<(), Error>) {
    var reservation := Some(Reservation(token, now + INGEST_RESERVATION));
    if t.manifest.None? then
      (Tables(Some(ManifestRow(None, 1, None, 0)), t.versions[1 := NewRow(None, data, reservation)]), Ok(()))
    else if t.manifest.value.head.Some? then (t, Err(AlreadyExists))
    else if 1 !in t.versions || t.versions[1].state != Reserved || t.versions[1].reservation.None?
            || t.versions[1].bytes != |data| || t.versions[1].sha256 != Sha256(data) then
      (t, Err(ReservationMismatch))
    else if t.versions[1].reservation.value.expires > now then (t, Err(ReservationActive))
    else (t.(versions := t.versions[1 := t.versions[1].(reservation := reservation)]), Ok(()))
  }

  function IngestFinalize(t: Tables, token: nat, now: int): (Tables, Result<(), Error>) {
    if t.manifest.None? || t.manifest.value.head.Some? || 1 !in t.versions || t.versions[1].state != Reserved
       || t.versions[1].reservation.None? || t.versions[1].reservation.value.token != token
       || t.versions[1].reservation.value.expires <= now then
      (t, Err(ReservationReclaimed))
    else
      (Tables(Some(t.manifest.value.(head := Some(1))),
              t.versions[1 := t.versions[1].(state := Ready, reservation := None)]), Ok(()))
  }

  function Reserve(t: Tables, data: Bytes, parent: Option<int>, claim: Claim, now: int)
    : (Tables, Result<Ticket, Error>)
  {
    if t.manifest.None? || t.manifest.value.head.None? then (t, Err(NoDrawing))
    else
      var m := t.manifest.value;
      if !IsActive(LeaseOf(m), now) then (t, Err(NoActiveCheckout))
      else if !Authorized(LeaseOf(m), claim, now) then (t, Err(CheckoutDenied))
      else if m.head != parent then (t, Err(StaleHead))
      else if m.latest + 1 > MAX_VERSION then (t, Err(VersionOverflow))
      else
        var v := m.latest + 1;
        (Tables(Some(m.(latest := v)), t.versions[v := NewRow(parent, data, None)]),
         Ok(Ticket(v, m.head.value, m.checkout.value.holder, m.fence)))
  }

  function MarkOrphaned(t: Tables, v: int): Tables {
    if v in t.versions && t.versions[v].state == Reserved then
      t.(versions := t.versions[v := t.versions[v].(state := Orphaned)])
    else t
  }

  predicate StillOwns(t: Tables, k: Ticket, now: int) {
    && t.manifest.Some?
    && t.manifest.value.head == Some(k.expected)
    && t.manifest.value.checkout.Some?
    && t.manifest.value.checkout.value.holder == k.holder
    && t.manifest.value.fence == k.fence
    && t.manifest.value.checkout.value.expires > now
  }

  function Finalize(t: Tables, k: Ticket, now: int): (Tables, bool) {
    if !StillOwns(t, k, now) then (MarkOrphaned(t, k.version), false)
    else
      var versions :=
        if k.version in t.versions && t.versions[k.version].state == Reserved
        then t.versions[k.version := t.versions[k.version].(state := Ready)]
        else t.versions;
      (Tables(Some(t.manifest.value.(head := Some(k.version))), versions), true)
  }

  function Undo(t: Tables, claim: Claim, now: int): (Tables, Result<int, Error>) {
    if t.manifest.None? || t.manifest.value.head.None? || !IsReady(t.versions, t.manifest.value.head.value) then
      (t, Err(NoDrawing))
    else
      var m := t.manifest.value;
      if !Authorized(LeaseOf(m), claim, now) then (t, Err(CheckoutDenied))
      else
        var parent := t.versions[m.head.value].parent;
        if parent.None? then (t, Err(NothingToUndo))
        else if !IsReady(t.versions, parent.value) then (t, Err(UnknownVersion))
        else (t.(manifest := Some(m.(head := parent))), Ok(parent.value))
  }

  ghost function Redo(t: Tables, claim: Claim, now: int): (Tables, Result<int, Error>) {
    if t.manifest.None? || t.manifest.value.head.None? then (t, Err(NoDrawing))
    else
      var m := t.manifest.value;
      if !Authorized(LeaseOf(m), claim, now) then (t, Err(CheckoutDenied))
      else
        var latest := MaxReady(t.versions, m.latest);
        if m.head.value == latest then (t, Err(NothingToRedo))
        else
          var target := RedoTarget(ReadyParents(t.versions), latest, m.head.value);
          if target.None? then (t, Err(NothingToRedo))
          else (t.(manifest := Some(m.(head := target))), Ok(target.value))
  }

  function Acquire(t: Tables, holder: string, ttl: int, expected: Option<int>, strict: bool, now: int)
    : (Tables, Result<Option<int>, Error>)
  {
    if holder == ANONYMOUS_HOLDER || ttl <= 0 then (t, Err(BadCheckoutRequest))
    else if t.manifest.None? then (t, Err(NoDrawing))
    else
      var m := t.manifest.value;
      if !MayAcquire(LeaseOf(m), holder, expected, strict, now) then (t, Ok(None))
      else
        var granted := m.(checkout := Some(Holding(holder, now + ttl)), fence := m.fence + 1);
        (t.(manifest := Some(granted)), Ok(Some(granted.fence)))
  }

  function Release(t: Tables, holder: Option<string>, expected: Option<int>, now: int): (Tables, Result<bool, Error>) {
    if t.manifest.None? then (t, Err(NoDrawing))
    else
      var m := t.manifest.value;
      if !MayRelease(LeaseOf(m), holder, expected, now) then (t, Ok(false))
      else (t.(manifest := Some(m.(checkout := None))), Ok(true))
  }

  /** The two tables, updated in place by one transaction at a time. */
  class Database {
    var manifest: Option<ManifestRow>
    var versions: map<int, VersionRow>

    ghost function Contents(): Tables
      reads this
    {
      Tables(manifest, versions)
    }

    constructor ()
      ensures Contents() == Tables(None, map[])
    {
      manifest, versions := None, map[];
    }

    method ReserveFirst(data: Bytes, token: nat, now: int) returns (r: Result<(), Error>)
      modifies this
      ensures (Contents(), r) == IngestReserve(old(Contents()), data, token, now)
    {
      var reservation := Some(Reservation(token, now + INGEST_RESERVATION));
      if manifest.None? {
        manifest := Some(ManifestRow(None, 1, None, 0));
        versions := versions[1 := NewRow(None, data, reservation)];
        return Ok(());
      }
      if manifest.value.head.Some? {
        return Err(AlreadyExists);
      }
      if 1 !in versions || versions[1].state != Reserved || versions[1].reservation.None?
         || versions[1].bytes != |data| || versions[1].sha256 != Sha256(data)
      {
        return Err(ReservationMismatch);
      }
      if versions[1].reservation.value.expires > now {
        return Err(ReservationActive);
      }
      versions := versions[1 := versions[1].(reservation := reservation)];
      return Ok(());
    }

    method FinalizeFirst(token: nat, now: int) returns (r: Result<(), Error>)
      modifies this
      ensures (Contents(), r) == IngestFinalize(old(Contents()), token, now)
    {
      if manifest.None? || manifest.value.head.Some? || 1 !in versions || versions[1].state != Reserved
         || versions[1].reservation.None? || versions[1].reservation.value.token != token
         || versions[1].reservation.value.expires <= now
      {
        return Err(ReservationReclaimed);
      }
      versions := versions[1 := versions[1].(state := Ready, reservation := None)];
      manifest := Some(manifest.value.(head := Some(1)));
      return Ok(());
    }

    method AcquireCheckout(holder: string, ttl: int, expected: Option<int>, strict: bool, now: int)
        returns (r: Result<Option<int>, Error>)
      modifies this`manifest
      ensures (Contents(), r) == Acquire(old(Contents()), holder, ttl, expected, strict, now)
    {
      if holder == ANONYMOUS_HOLDER || ttl <= 0 {
        return Err(BadCheckoutRequest);
      }
      if manifest.None? {
        return Err(NoDrawing);
      }
      var row := manifest.value;
      if !MayAcquire(LeaseOf(row), holder, expected, strict, now) {
        return Ok(None);
      }
      manifest := Some(row.(checkout := Some(Holding(holder, now + ttl)), fence := row.fence + 1));
      return Ok(Some(row.fence + 1));
    }

    method ReleaseCheckout(holder: Option<string>, expected: Option<int>, now: int) returns (r: Result<bool, Error>)
      modifies this`manifest
      ensures (Contents(), r) == Release(old(Contents()), holder, expected, now)
    {
      if manifest.None? {
        return Err(NoDrawing);
      }
      if !MayRelease(LeaseOf(manifest.value), holder, expected, now) {
        return Ok(false);
      }
      manifest := Some(manifest.value.(checkout := None));
      return Ok(true);
    }

    method ReserveVersion(data: Bytes, parent: Option<int>, claim: Claim, now: int) returns (r: Result<Ticket, Error>)
      modifies this
      ensures (Contents(), r) == Reserve(old(Contents()), data, parent, claim, now)
    {
      if manifest.None? || manifest.value.head.None? {
        return Err(NoDrawing);
      }
      var row := manifest.value;
      if row.checkout.None? || row.checkout.value.expires <= now {
        return Err(NoActiveCheckout);
      }
      if !OwnsLease(LeaseOf(row).value, claim) {
        return Err(CheckoutDenied);
      }
      if row.head != parent {
        return Err(StaleHead);
      }
      var v := row.latest + 1;
      if v > MAX_VERSION {
        return Err(VersionOverflow);
      }
      manifest := Some(row.(latest := v));
      versions := versions[v := NewRow(parent, data, None)];
      return Ok(Ticket(v, row.head.value, row.checkout.value.holder, row.fence));
    }

    method FinalizeVersion(k: Ticket, now: int) returns (published: bool)
      modifies this
      ensures (Contents(), published) == Finalize(old(Contents()), k, now)
    {
      if StillOwns(Tables(manifest, versions), k, now) {
        manifest := Some(manifest.value.(head := Some(k.version)));
        if k.version in versions && versions[k.version].state == Reserved {
          versions := versions[k.version := versions[k.version].(state := Ready)];
        }
        return true;
      }
      MarkVersionOrphaned(k.version);
      return false;
    }

    method MarkVersionOrphaned(v: int)
      modifies this`versions
      ensures Contents() == MarkOrphaned(old(Contents()), v)
    {
      if v in versions && versions[v].state == Reserved {
        versions := versions[v := versions[v].(state := Orphaned)];
      }
    }

    method UndoHead(claim: Claim, now: int) returns (r: Result<int, Error>)
      modifies this`manifest
      ensures (Contents(), r) == Undo(old(Contents()), claim, now)
    {
      if manifest.None? || manifest.value.head.None? || !IsReady(versions, manifest.value.head.value) {
        return Err(NoDrawing);
      }
      if !Authorized(LeaseOf(manifest.value), claim, now) {
        return Err(CheckoutDenied);
      }
      var parent := versions[manifest.value.head.value].parent;
      if parent.None? {
        return Err(NothingToUndo);
      }
      if !IsReady(versions, parent.value) {
        return Err(UnknownVersion);
      }
      manifest := Some(manifest.value.(head := parent));
      return Ok(parent.value);
    }

    method RedoHead(claim: Claim, now: int) returns (r: Result<int, Error>)
      modifies this`manifest
      ensures (Contents(), r) == Redo(old(Contents()), claim, now)
    {
      if manifest.None? || manifest.value.head.None? {
        return Err(NoDrawing);
      }
      if !Authorized(LeaseOf(manifest.value), claim, now) {
        return Err(CheckoutDenied);
      }
      var head := manifest.value.head.value;
      var latest := MaxReady(versions, manifest.value.latest);
      if head == latest {
        return Err(NothingToRedo);
      }
      var target := FindRedoTarget(ReadyParents(versions), latest, head);
      if target.None? {
        return Err(NothingToRedo);
      }
      manifest := Some(manifest.value.(head := target));
      return Ok(target.value);
    }
  }
}
