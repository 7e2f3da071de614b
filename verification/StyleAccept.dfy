/** Which files the declared-style scan accepts, said of the file alone. */
module StyleAccept {
  import opened Prelude
  import opened DeclaredStyles
  import opened StyleScan
  import opened StyleValues

  /** The style groups of the record that a pair starts: the first value of each code up to the next group 0. */
  function GroupsAt(lines: seq<string>, p: nat): map<int, string>
    requires p < Pairs(lines)
  {
    var end := NextZero(lines, p + 1);
    map c | c in READ_CODES && FirstValue(lines, c, p + 1, end).Some? ::
      FirstValue(lines, c, p + 1, end).value
  }

  ghost predicate HandlesDiffer(lines: seq<string>, p: nat, q: nat)
    requires p < Pairs(lines) && q < Pairs(lines)
  {
    HandleOf(GroupsAt(lines, p)).Some? ==> HandleOf(GroupsAt(lines, p)) != HandleOf(GroupsAt(lines, q))
  }

  /** Pairs are whole and numbered, every record of the two sections declares values in their ranges,
      and no two of them share a handle. */
  ghost predicate Acceptable(lines: seq<string>) {
    && |lines| % 2 == 0
    && (forall p :: 0 <= p < Pairs(lines) ==> Code(lines, p).Some?)
    && (forall p :: 0 <= p < Pairs(lines) && StartsAt(lines, p) ==> WellStyled(GroupsAt(lines, p), KindAt(lines, p)))
    && (forall p, q :: 0 <= p < q < Pairs(lines) && StartsAt(lines, p) && StartsAt(lines, q) ==>
          HandlesDiffer(lines, p, q))
  }

  lemma ReadGroups(lines: seq<string>, raw: Raw)
    requires IsRead(lines, raw)
    ensures raw.groups == GroupsAt(lines, raw.at)
  {
    var end := NextZero(lines, raw.at + 1);
    forall c ensures c in raw.groups <==> c in GroupsAt(lines, raw.at) {
      assert IsStyleCode(c) ==> GroupOf(raw.groups, c) == FirstValue(lines, c, raw.at + 1, end);
    }
    forall c | c in raw.groups ensures raw.groups[c] == GroupsAt(lines, raw.at)[c] {
      assert GroupOf(raw.groups, c) == FirstValue(lines, c, raw.at + 1, end);
    }
  }

  lemma {:induction false} StartListHolds(lines: seq<string>, k: nat, p: nat)
    requires k <= Pairs(lines)
    ensures p in StartList(lines, k) <==> p < k && StartsAt(lines, p)
  {
    if k > 0 {
      StartListHolds(lines, k - 1, p);
    }
  }

  lemma {:induction false} StartListAscends(lines: seq<string>, k: nat, i: nat, j: nat)
    requires k <= Pairs(lines) && i < j < |StartList(lines, k)|
    ensures StartList(lines, k)[i] < StartList(lines, k)[j]
  {
    var before := StartList(lines, k - 1);
    if j < |before| {
      StartListAscends(lines, k - 1, i, j);
    } else {
      StartsBefore(lines, k - 1, i);
    }
  }

  /** A kept record is well styled and carries the handle its pair declares. */
  lemma KeptRecord(lines: seq<string>, recs: seq<Record>, j: nat)
    requires j < |recs| && IsStyled(lines, recs, j) && IsRead(lines, recs[j].raw)
    ensures WellStyled(GroupsAt(lines, recs[j].raw.at), KindAt(lines, recs[j].raw.at))
    ensures recs[j].handle == HandleOf(GroupsAt(lines, recs[j].raw.at))
  {
    ReadGroups(lines, recs[j].raw);
    DeclaredOkIff(recs[j].raw.groups, recs[j].raw.kind);
  }

  // Accepted files are acceptable.

  lemma AcceptedCodes(lines: seq<string>, p: nat)
    requires p < Pairs(lines) && ScanTo(lines, Pairs(lines)).Ok?
    ensures Code(lines, p).Some?
  {
    PrefixIsAccepted(lines, p + 1, Pairs(lines));
    LastCode(lines, p + 1);
  }

  lemma LastCode(lines: seq<string>, k: nat)
    requires 0 < k <= Pairs(lines) && ScanTo(lines, k).Ok?
    ensures Code(lines, k - 1).Some?
  {
  }

  lemma PrefixIsAccepted(lines: seq<string>, k: nat, n: nat)
    requires k <= n <= Pairs(lines) && ScanTo(lines, n).Ok?
    ensures ScanTo(lines, k).Ok?
  {
    if ScanTo(lines, k).Err? {
      ErrorsStay(lines, k, n);
    }
  }

  lemma AcceptedRecords(lines: seq<string>, p: nat) returns (j: nat)
    requires Scanned(lines).Ok? && p < Pairs(lines) && StartsAt(lines, p)
    ensures var recs := Scanned(lines).value.ordered;
            && j < |recs| && recs[j].raw.at == p
            && recs[j].handle == HandleOf(GroupsAt(lines, p)) && WellStyled(GroupsAt(lines, p), KindAt(lines, p))
  {
    ScanIsDeclared(lines);
    var recs := Scanned(lines).value.ordered;
    StartListHolds(lines, Pairs(lines), p);
    j :| 0 <= j < |recs| && Ats(recs)[j] == p;
    assert IsStyled(lines, recs, j);
    KeptRecord(lines, recs, j);
  }

  lemma AcceptedIsAcceptable(lines: seq<string>)
    requires Scanned(lines).Ok?
    ensures Acceptable(lines)
  {
    var n := Pairs(lines);
    forall p | 0 <= p < n ensures Code(lines, p).Some? {
      AcceptedCodes(lines, p);
    }
    forall p | 0 <= p < n && StartsAt(lines, p) ensures WellStyled(GroupsAt(lines, p), KindAt(lines, p)) {
      var _ := AcceptedRecords(lines, p);
    }
    ScanIsDeclared(lines);
    forall p, q | 0 <= p < q < n && StartsAt(lines, p) && StartsAt(lines, q) ensures HandlesDiffer(lines, p, q) {
      var i := AcceptedRecords(lines, p);
      var j := AcceptedRecords(lines, q);
    }
  }

  // Acceptable files are accepted.

  lemma CurrentStarts(lines: seq<string>, s: Scan)
    requires InPlace(lines, s) && s.record.Some?
    ensures s.record.value.at < Pairs(lines) && StartsAt(lines, s.record.value.at)
  {
    var starts := StartList(lines, s.seen);
    assert starts == Ats(s.ordered) + [s.record.value.at] && starts[|s.ordered|] == s.record.value.at;
    StartListHolds(lines, s.seen, s.record.value.at);
  }

  lemma KeptStarts(lines: seq<string>, s: Scan, j: nat)
    requires InPlace(lines, s) && s.record.Some? && j < |s.ordered|
    ensures s.ordered[j].raw.at < s.record.value.at && s.ordered[j].raw.at < Pairs(lines)
    ensures StartsAt(lines, s.ordered[j].raw.at)
  {
    var starts := StartList(lines, s.seen);
    assert starts == Ats(s.ordered) + [s.record.value.at] && starts[|s.ordered|] == s.record.value.at;
    assert starts[j] == s.ordered[j].raw.at;
    StartListAscends(lines, s.seen, j, |s.ordered|);
    StartListHolds(lines, s.seen, starts[j]);
  }

  lemma HandleIsNew(lines: seq<string>, s: Scan, j: nat)
    requires Acceptable(lines) && InPlace(lines, s) && AllRead(lines, s) && AllStyled(lines, s.ordered)
    requires s.record.Some? && IsRead(lines, s.record.value) && j < |s.ordered|
    ensures s.ordered[j].handle.Some? ==> s.ordered[j].handle != HandleOf(s.record.value.groups)
  {
    var p, q := s.ordered[j].raw.at, s.record.value.at;
    CurrentStarts(lines, s);
    KeptStarts(lines, s, j);
    assert IsStyled(lines, s.ordered, j);
    KeptRecord(lines, s.ordered, j);
    ReadGroups(lines, s.record.value);
    assert HandlesDiffer(lines, p, q);
  }

  lemma NewHandle(lines: seq<string>, s: Scan)
    requires Acceptable(lines) && Inv(lines, s) && s.record.Some? && IsRead(lines, s.record.value)
    ensures var h := HandleOf(s.record.value.groups); h.Some? ==> h.value !in s.keyed
  {
    forall j | 0 <= j < |s.ordered|
      ensures s.ordered[j].handle.Some? ==> s.ordered[j].handle != HandleOf(s.record.value.groups)
    {
      HandleIsNew(lines, s, j);
    }
  }

  lemma CurrentIsRead(lines: seq<string>, s: Scan)
    requires AllRead(lines, s) && s.record.Some? && (s.seen == Pairs(lines) || Code(lines, s.seen) == Some(0))
    ensures IsRead(lines, s.record.value)
  {
    NextZeroIs(lines, s.record.value.at + 1, s.seen);
  }

  lemma KeepsWellStyled(s: Scan)
    requires s.record.Some? && WellStyled(s.record.value.groups, s.record.value.kind)
    requires var h := HandleOf(s.record.value.groups); h.Some? ==> h.value !in s.keyed
    ensures Keep(s).Ok?
  {
    DeclaredOkIff(s.record.value.groups, s.record.value.kind);
  }

  lemma KeepSucceeds(lines: seq<string>, s: Scan)
    requires Acceptable(lines) && Inv(lines, s) && (s.seen == Pairs(lines) || Code(lines, s.seen) == Some(0))
    ensures Keep(s).Ok?
  {
    if s.record.Some? {
      var raw := s.record.value;
      CurrentIsRead(lines, s);
      CurrentStarts(lines, s);
      NewHandle(lines, s);
      ReadGroups(lines, raw);
      assert WellStyled(GroupsAt(lines, raw.at), KindAt(lines, raw.at));
      KeepsWellStyled(s);
    }
  }

  lemma {:induction false} ScanSucceeds(lines: seq<string>, k: nat)
    requires Acceptable(lines) && k <= Pairs(lines)
    ensures ScanTo(lines, k).Ok?
  {
    if k > 0 {
      ScanSucceeds(lines, k - 1);
      NextSucceeds(lines, k - 1);
    }
  }

  lemma NextSucceeds(lines: seq<string>, k: nat)
    requires Acceptable(lines) && k < Pairs(lines) && ScanTo(lines, k).Ok?
    ensures ScanTo(lines, k + 1).Ok?
  {
    var s := ScanTo(lines, k).value;
    ScanKeepsInv(lines, k);
    ScanMoves(lines, k);
    StepSucceeds(lines, s);
    ScanNext(lines, k, s);
  }

  lemma StepSucceeds(lines: seq<string>, s: Scan)
    requires Acceptable(lines) && Inv(lines, s) && s.seen < Pairs(lines)
    ensures Step(s, lines[2 * s.seen], lines[2 * s.seen + 1]).Ok?
  {
    assert Code(lines, s.seen).Some?;
    if Code(lines, s.seen) == Some(0) {
      KeepSucceeds(lines, s);
    }
  }

  /** The scan accepts a file exactly when its lines pair up, every group code is a number, every record
      of the two sections declares values in their ranges, and no two of those records share a handle. */
  lemma AcceptedIff(lines: seq<string>)
    ensures Scanned(lines).Ok? <==> Acceptable(lines)
  {
    if Scanned(lines).Ok? {
      AcceptedIsAcceptable(lines);
    } else if Acceptable(lines) {
      ScanSucceeds(lines, Pairs(lines));
      ScanMoves(lines, Pairs(lines));
      ScanKeepsInv(lines, Pairs(lines));
      KeepSucceeds(lines, ScanTo(lines, Pairs(lines)).value);
    }
  }
}
