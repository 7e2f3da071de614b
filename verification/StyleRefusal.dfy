/** What a refused file is told: every refusal names a fault that the file has. */
module StyleRefusal {
  import opened Prelude
  import opened DeclaredStyles
  import opened StyleScan
  import opened StyleValues
  import opened StyleAccept

  ghost predicate StartsFaulty(lines: seq<string>, p: nat, property: Property) {
    && p < Pairs(lines) && StartsAt(lines, p) && !WellStyled(GroupsAt(lines, p), KindAt(lines, p))
    && FaultIn(GroupsAt(lines, p), KindAt(lines, p)) == property
  }

  ghost predicate StartsWith(lines: seq<string>, p: nat, handle: string) {
    p < Pairs(lines) && StartsAt(lines, p) && HandleOf(GroupsAt(lines, p)) == Some(handle)
  }

  /** Lines that do not pair up, a group code that is no number, a record whose first fault is in that property, or
      two records of that handle. */
  ghost predicate HasFault(lines: seq<string>, e: Error) {
    match e
    case OddLines => |lines| % 2 == 1
    case BadCode => exists p: nat :: p < Pairs(lines) && Code(lines, p) == None
    case Malformed(property) => exists p: nat :: StartsFaulty(lines, p, property)
    case DuplicateHandle(handle) =>
      exists p: nat, q: nat :: p < q && StartsWith(lines, p, handle) && StartsWith(lines, q, handle)
  }

  lemma DuplicateIsReal(lines: seq<string>, s: Scan, handle: string)
    requires Inv(lines, s) && s.record.Some? && IsRead(lines, s.record.value)
    requires HandleOf(s.record.value.groups) == Some(handle) && handle in s.keyed
    ensures HasFault(lines, DuplicateHandle(handle))
  {
    var j :| 0 <= j < |s.ordered| && s.ordered[j].handle == Some(handle);
    CurrentStarts(lines, s);
    KeptStarts(lines, s, j);
    assert IsStyled(lines, s.ordered, j);
    KeptRecord(lines, s.ordered, j);
    ReadGroups(lines, s.record.value);
    assert StartsWith(lines, s.ordered[j].raw.at, handle) && StartsWith(lines, s.record.value.at, handle);
  }

  lemma KeepRefusal(lines: seq<string>, s: Scan)
    requires Inv(lines, s) && (s.seen == Pairs(lines) || Code(lines, s.seen) == Some(0)) && Keep(s).Err?
    ensures HasFault(lines, Keep(s).error) && Keep(s).error != OddLines
  {
    var raw := s.record.value;
    CurrentIsRead(lines, s);
    CurrentStarts(lines, s);
    ReadGroups(lines, raw);
    DeclaredOkIff(raw.groups, raw.kind);
    if !WellStyled(raw.groups, raw.kind) {
      RefusedFor(raw.groups, raw.kind);
      assert StartsFaulty(lines, raw.at, FaultIn(raw.groups, raw.kind));
    } else {
      DuplicateIsReal(lines, s, HandleOf(raw.groups).value);
    }
  }

  lemma StepRefusal(lines: seq<string>, k: nat)
    requires k < Pairs(lines) && ScanTo(lines, k).Ok? && ScanTo(lines, k + 1).Err?
    ensures HasFault(lines, ScanTo(lines, k + 1).error) && ScanTo(lines, k + 1).error != OddLines
  {
    var s := ScanTo(lines, k).value;
    ScanKeepsInv(lines, k);
    ScanMoves(lines, k);
    ScanNext(lines, k, s);
    if Code(lines, k).Some? {
      KeepRefusal(lines, s);
    }
  }

  /** The pair at which a scan failed. */
  lemma {:induction false} FirstError(lines: seq<string>, k: nat) returns (j: nat)
    requires 2 * k <= |lines| && ScanTo(lines, k).Err?
    ensures j < k && ScanTo(lines, j).Ok? && ScanTo(lines, j + 1) == ScanTo(lines, k)
  {
    if ScanTo(lines, k - 1).Err? {
      ErrorsStay(lines, k - 1, k);
      j := FirstError(lines, k - 1);
    } else {
      j := k - 1;
    }
  }

  /** A refused file has the fault it is told of, and lines that do not pair up are told before anything else. */
  lemma RefusalIsTrue(lines: seq<string>)
    requires Scanned(lines).Err?
    ensures HasFault(lines, Scanned(lines).error)
    ensures Scanned(lines).error == OddLines <==> |lines| % 2 == 1
  {
    if |lines| % 2 == 0 {
      if ScanTo(lines, Pairs(lines)).Err? {
        var j := FirstError(lines, Pairs(lines));
        StepRefusal(lines, j);
      } else {
        ScanKeepsInv(lines, Pairs(lines));
        ScanMoves(lines, Pairs(lines));
        KeepRefusal(lines, ScanTo(lines, Pairs(lines)).value);
      }
    }
  }
}
