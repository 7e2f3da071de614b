/**
 What the declared-style scan keeps of an accepted file, said without its state: which pairs
 start a record, which values it carries, whose layer it sits on, and how handles index it.
 */
module StyleScan {
  import opened Prelude
  import opened DeclaredStyles

  // The pairs of a file.

  function Pairs(lines: seq<string>): nat {
    |lines| / 2
  }

  function Code(lines: seq<string>, p: nat): Option<int>
    requires p < Pairs(lines)
  {
    ParseInt(lines[2 * p])
  }

  function Value(lines: seq<string>, p: nat): string
    requires p < Pairs(lines)
  {
    lines[2 * p + 1]
  }

  function KindAt(lines: seq<string>, p: nat): string
    requires p < Pairs(lines)
  {
    Upper(Value(lines, p))
  }

  predicate NoZero(lines: seq<string>, from: nat, end: nat)
    requires end <= Pairs(lines)
  {
    forall p :: from <= p < end ==> Code(lines, p) != Some(0)
  }

  /** The first pair from `from` on that begins something new. */
  function NextZero(lines: seq<string>, from: nat): (end: nat)
    requires from <= Pairs(lines)
    ensures from <= end <= Pairs(lines)
    decreases Pairs(lines) - from
  {
    if from == Pairs(lines) || Code(lines, from) == Some(0) then from else NextZero(lines, from + 1)
  }

  lemma {:induction false} NextZeroIs(lines: seq<string>, from: nat, end: nat)
    requires from <= end <= Pairs(lines) && NoZero(lines, from, end)
    requires end == Pairs(lines) || Code(lines, end) == Some(0)
    ensures NextZero(lines, from) == end
    decreases end - from
  {
    if from < end {
      assert Code(lines, from) != Some(0);
      NextZeroIs(lines, from + 1, end);
    }
  }

  /** The first value with a code between two pairs. */
  function FirstValue(lines: seq<string>, code: int, from: nat, end: nat): Option<string>
    requires from <= end <= Pairs(lines)
    decreases end - from
  {
    if from == end then None
    else if Code(lines, from) == Some(code) then Some(Value(lines, from))
    else FirstValue(lines, code, from + 1, end)
  }

  lemma {:induction false} FirstValueGrows(lines: seq<string>, code: int, from: nat, end: nat)
    requires from <= end < Pairs(lines)
    ensures FirstValue(lines, code, from, end + 1)
         == if FirstValue(lines, code, from, end).Some? then FirstValue(lines, code, from, end)
            else if Code(lines, end) == Some(code) then Some(Value(lines, end)) else None
    decreases end - from
  {
    if from < end {
      FirstValueGrows(lines, code, from + 1, end);
    }
  }

  /** The scan takes one pair. */
  ghost predicate Moves(lines: seq<string>, s: Scan, after: Scan) {
    s.seen < Pairs(lines) && after.seen == s.seen + 1 && Code(lines, s.seen).Some?
    && if Code(lines, s.seen) == Some(0)
       then Keep(s).Ok? && after == Begin(Keep(s).value, KindAt(lines, s.seen)).(seen := s.seen + 1)
       else after == Attach(s, Code(lines, s.seen).value, Value(lines, s.seen)).(seen := s.seen + 1)
  }

  lemma StepMoves(lines: seq<string>, s: Scan)
    requires s.seen < Pairs(lines) && Step(s, lines[2 * s.seen], lines[2 * s.seen + 1]).Ok?
    ensures Moves(lines, s, Step(s, lines[2 * s.seen], lines[2 * s.seen + 1]).value)
  {
  }

  lemma {:induction false} ScanMoves(lines: seq<string>, k: nat)
    requires k <= Pairs(lines) && ScanTo(lines, k).Ok?
    ensures ScanTo(lines, k).value.seen == k
    ensures k > 0 ==> ScanTo(lines, k - 1).Ok? && Moves(lines, ScanTo(lines, k - 1).value, ScanTo(lines, k).value)
  {
    if k > 0 {
      ScanMoves(lines, k - 1);
      var s := ScanTo(lines, k - 1).value;
      assert ScanTo(lines, k) == Step(s, lines[2 * s.seen], lines[2 * s.seen + 1]);
      StepMoves(lines, s);
    }
  }

  // Handles.

  ghost predicate IsIndex(keyed: map<string, Record>, ordered: seq<Record>) {
    (forall j :: 0 <= j < |ordered| && ordered[j].handle.Some? ==>
       ordered[j].handle.value in keyed && keyed[ordered[j].handle.value] == ordered[j])
    && (forall h :: h in keyed ==> exists j :: 0 <= j < |ordered| && ordered[j].handle == Some(h))
    && (forall i, j :: 0 <= i < j < |ordered| && ordered[i].handle.Some? ==> ordered[i].handle != ordered[j].handle)
  }

  lemma AddKeepsIndex(keyed: map<string, Record>, ordered: seq<Record>, rec: Record)
    requires IsIndex(keyed, ordered)
    requires rec.handle.Some? ==> rec.handle.value !in keyed
    ensures IsIndex(if rec.handle.Some? then keyed[rec.handle.value := rec] else keyed, ordered + [rec])
  {
    var after := if rec.handle.Some? then keyed[rec.handle.value := rec] else keyed;
    var all := ordered + [rec];
    forall h | h in after ensures exists j :: 0 <= j < |all| && all[j].handle == Some(h) {
      if rec.handle == Some(h) {
        assert all[|ordered|].handle == Some(h);
      } else {
        var j :| 0 <= j < |ordered| && ordered[j].handle == Some(h);
        assert all[j].handle == Some(h);
      }
    }
  }

  lemma KeepKeepsIndex(s: Scan)
    requires IsIndex(s.keyed, s.ordered) && Keep(s).Ok?
    ensures IsIndex(Keep(s).value.keyed, Keep(s).value.ordered)
  {
    if s.record.Some? {
      var style := Declared(s.record.value.groups, s.record.value.kind).value;
      AddKeepsIndex(s.keyed, s.ordered, Finished(s.record.value, style, s.owner));
    }
  }

  lemma MoveKeepsIndex(lines: seq<string>, s: Scan, after: Scan)
    requires IsIndex(s.keyed, s.ordered) && Moves(lines, s, after)
    ensures IsIndex(after.keyed, after.ordered)
  {
    if Code(lines, s.seen) == Some(0) {
      KeepKeepsIndex(s);
    }
  }

  // The values of a record.

  function GroupOf(groups: map<int, string>, code: int): Option<string> {
    if code in groups then Some(groups[code]) else None
  }

  /** Handle, linetype, text style, layer, indexed colour, lineweight and true colour. */
  const READ_CODES := {5, 6, 7, 8, 62, 370, 420}

  predicate IsStyleCode(c: int) {
    c in READ_CODES
  }

  ghost predicate HoldsFirstValues(lines: seq<string>, groups: map<int, string>, from: nat, end: nat)
    requires from <= end <= Pairs(lines)
  {
    (forall c :: c in groups ==> IsStyleCode(c))
    && forall c :: IsStyleCode(c) ==> GroupOf(groups, c) == FirstValue(lines, c, from, end)
  }

  /** A record as read up to a pair. */
  ghost predicate Reads(lines: seq<string>, raw: Raw, end: nat) {
    raw.at < end <= Pairs(lines)
    && Code(lines, raw.at) == Some(0) && raw.kind == KindAt(lines, raw.at)
    && NoZero(lines, raw.at + 1, end) && HoldsFirstValues(lines, raw.groups, raw.at + 1, end)
  }

  /** A record as a file declares it: up to the next pair that begins something. */
  ghost predicate IsRead(lines: seq<string>, raw: Raw) {
    raw.at < Pairs(lines) && Reads(lines, raw, NextZero(lines, raw.at + 1))
  }

  ghost predicate AllRead(lines: seq<string>, s: Scan) {
    s.seen <= Pairs(lines)
    && (s.record.Some? ==> Reads(lines, s.record.value, s.seen))
    && forall j :: 0 <= j < |s.ordered| ==> IsRead(lines, s.ordered[j].raw)
  }

  lemma AttachReads(lines: seq<string>, s: Scan, code: int)
    requires AllRead(lines, s) && s.seen < Pairs(lines) && Code(lines, s.seen) == Some(code) && code != 0
    ensures AllRead(lines, Attach(s, code, Value(lines, s.seen)).(seen := s.seen + 1))
  {
    if s.record.Some? {
      GrownReads(lines, s.record.value, s.seen, code);
    }
  }

  /** One more pair, for one code. */
  lemma GrownGroup(lines: seq<string>, raw: Raw, k: nat, code: int, c: int)
    requires Reads(lines, raw, k) && k < Pairs(lines) && Code(lines, k) == Some(code) && IsStyleCode(c)
    ensures GroupOf(Grown(Some(raw), code, Value(lines, k)).value.groups, c) == FirstValue(lines, c, raw.at + 1, k + 1)
  {
    FirstValueGrows(lines, c, raw.at + 1, k);
    assert GroupOf(raw.groups, c) == FirstValue(lines, c, raw.at + 1, k);
  }

  lemma GrownReads(lines: seq<string>, raw: Raw, k: nat, code: int)
    requires Reads(lines, raw, k) && k < Pairs(lines) && Code(lines, k) == Some(code) && code != 0
    ensures Reads(lines, Grown(Some(raw), code, Value(lines, k)).value, k + 1)
  {
    var groups := Grown(Some(raw), code, Value(lines, k)).value.groups;
    forall c | IsStyleCode(c) ensures GroupOf(groups, c) == FirstValue(lines, c, raw.at + 1, k + 1) {
      GrownGroup(lines, raw, k, code, c);
    }
  }

  lemma KeepReads(lines: seq<string>, s: Scan)
    requires AllRead(lines, s) && Keep(s).Ok?
    requires s.seen == Pairs(lines) || Code(lines, s.seen) == Some(0)
    ensures forall j :: 0 <= j < |Keep(s).value.ordered| ==> IsRead(lines, Keep(s).value.ordered[j].raw)
  {
    if s.record.Some? {
      NextZeroIs(lines, s.record.value.at + 1, s.seen);
    }
  }

  lemma BeginReads(lines: seq<string>, s: Scan)
    requires AllRead(lines, s) && Keep(s).Ok? && s.seen < Pairs(lines) && Code(lines, s.seen) == Some(0)
    ensures AllRead(lines, Begin(Keep(s).value, KindAt(lines, s.seen)).(seen := s.seen + 1))
  {
    KeepReads(lines, s);
  }

  lemma MoveReads(lines: seq<string>, s: Scan, after: Scan)
    requires AllRead(lines, s) && Moves(lines, s, after)
    ensures AllRead(lines, after)
  {
    if Code(lines, s.seen) == Some(0) {
      BeginReads(lines, s);
    } else {
      AttachReads(lines, s, Code(lines, s.seen).value);
    }
  }

  // Which pairs start a record.

  /** The section a pair stands in, and whether its name is still to come. */
  datatype Place = Place(section: Option<string>, pending: bool)

  function PlaceAt(lines: seq<string>, k: nat): Place
    requires k <= Pairs(lines)
  {
    if k == 0 then Place(None, false)
    else
      var before := PlaceAt(lines, k - 1);
      if Code(lines, k - 1) == Some(0) && KindAt(lines, k - 1) in {"SECTION", "ENDSEC"} then
        Place(None, KindAt(lines, k - 1) == "SECTION")
      else if before.pending && Code(lines, k - 1) == Some(2) then Place(Some(KindAt(lines, k - 1)), false)
      else before
  }

  /** The block a pair stands in, and whether its name is still to come. */
  datatype Naming = Naming(name: string, pending: bool)

  function BlockAt(lines: seq<string>, k: nat): Naming
    requires k <= Pairs(lines)
  {
    if k == 0 then Naming("", false)
    else
      var before, kind := BlockAt(lines, k - 1), KindAt(lines, k - 1);
      if Code(lines, k - 1) == Some(0) then
        var inBlocks := PlaceAt(lines, k - 1).section == Some("BLOCKS");
        if kind in {"SECTION", "ENDSEC"} || (inBlocks && kind in {"BLOCK", "ENDBLK"})
        then Naming("", inBlocks && kind == "BLOCK")
        else Naming(before.name, false)
      else if before.pending && Code(lines, k - 1) == Some(2) then Naming(kind, false)
      else before
  }

  predicate StartsAt(lines: seq<string>, p: nat)
    requires p < Pairs(lines)
  {
    var section, kind := PlaceAt(lines, p).section, KindAt(lines, p);
    && Code(lines, p) == Some(0)
    && (|| (section == Some("ENTITIES") && kind !in {"SECTION", "ENDSEC"})
        || (section == Some("BLOCKS") && kind !in {"SECTION", "ENDSEC", "BLOCK", "ENDBLK"}))
  }

  /** The pairs that start a record, in file order. */
  function StartList(lines: seq<string>, k: nat): seq<nat>
    requires k <= Pairs(lines)
  {
    if k == 0 then []
    else StartList(lines, k - 1) + if StartsAt(lines, k - 1) then [k - 1] else []
  }

  function Ats(recs: seq<Record>): (r: seq<nat>)
    ensures |r| == |recs| && forall j :: 0 <= j < |r| ==> r[j] == recs[j].raw.at
  {
    seq(|recs|, j requires 0 <= j < |recs| => recs[j].raw.at)
  }

  function Current(record: Option<Raw>): seq<nat> {
    if record.Some? then [record.value.at] else []
  }

  ghost predicate IsPlaced(lines: seq<string>, raw: Raw) {
    raw.at < Pairs(lines) && PlaceAt(lines, raw.at).section == Some(raw.section)
    && raw.block == BlockAt(lines, raw.at).name && (raw.section != "BLOCKS" ==> raw.block == "")
  }

  ghost predicate InPlace(lines: seq<string>, s: Scan) {
    s.seen <= Pairs(lines) && PlaceAt(lines, s.seen) == Place(s.section, s.pending)
    && BlockAt(lines, s.seen) == Naming(s.block, s.header)
    && (s.pending ==> s.section == None)
    && (s.section != Some("BLOCKS") ==> s.block == "" && !s.header)
    && Ats(s.ordered) + Current(s.record) == StartList(lines, s.seen)
    && (s.record.Some? ==> IsPlaced(lines, s.record.value))
    && forall j :: 0 <= j < |s.ordered| ==> IsPlaced(lines, s.ordered[j].raw)
  }

  lemma KeepPlaces(lines: seq<string>, s: Scan)
    requires InPlace(lines, s) && Keep(s).Ok?
    ensures Ats(Keep(s).value.ordered) == StartList(lines, s.seen)
    ensures forall j :: 0 <= j < |Keep(s).value.ordered| ==> IsPlaced(lines, Keep(s).value.ordered[j].raw)
  {
    assert Ats(Keep(s).value.ordered) == Ats(s.ordered) + Current(s.record);
  }

  lemma BeginKeepsPlace(lines: seq<string>, s: Scan)
    requires InPlace(lines, s) && Keep(s).Ok? && s.seen < Pairs(lines) && Code(lines, s.seen) == Some(0)
    ensures InPlace(lines, Begin(Keep(s).value, KindAt(lines, s.seen)).(seen := s.seen + 1))
  {
    KeepPlaces(lines, s);
  }

  lemma AttachKeepsPlace(lines: seq<string>, s: Scan, code: int)
    requires InPlace(lines, s) && s.seen < Pairs(lines) && Code(lines, s.seen) == Some(code) && code != 0
    ensures InPlace(lines, Attach(s, code, Value(lines, s.seen)).(seen := s.seen + 1))
  {
  }

  lemma MoveKeepsPlace(lines: seq<string>, s: Scan, after: Scan)
    requires InPlace(lines, s) && Moves(lines, s, after)
    ensures InPlace(lines, after)
  {
    if Code(lines, s.seen) == Some(0) {
      BeginKeepsPlace(lines, s);
    } else {
      AttachKeepsPlace(lines, s, Code(lines, s.seen).value);
    }
  }

  // Whose layer a record sits on.

  /** The POLYLINE or INSERT that the last record follows, with only its own parts between. */
  function Head(recs: seq<Record>): (h: Option<nat>)
    ensures h.Some? ==> h.value < |recs|
  {
    if recs == [] then None
    else if recs[|recs| - 1].raw.kind in {"POLYLINE", "INSERT"} then Some(|recs| - 1)
    else
      var h := Head(recs[..|recs| - 1]);
      if h.Some? && Continues(recs[|recs| - 1].raw.kind, Some(recs[h.value])) then h else None
  }

  lemma {:induction false} HeadIs(recs: seq<Record>, i: nat)
    requires i < |recs|
    ensures Head(recs) == Some(i)
       <==> recs[i].raw.kind in {"POLYLINE", "INSERT"}
            && forall j :: i < j < |recs| ==> Continues(recs[j].raw.kind, Some(recs[i]))
  {
    var front := recs[..|recs| - 1];
    if i < |front| {
      HeadIs(front, i);
      assert forall j :: 0 <= j < |front| ==> front[j] == recs[j];
    }
  }

  predicate NoBoundary(lines: seq<string>, from: nat, end: nat)
    requires end <= Pairs(lines)
  {
    forall p :: from <= p < end ==>
      !(Code(lines, p) == Some(0) && KindAt(lines, p) in {"SECTION", "ENDSEC", "BLOCK", "ENDBLK"})
  }

  /** The open sequence after some records and pairs: none across a section or block boundary. */
  function OwnerIn(lines: seq<string>, recs: seq<Record>, end: nat): Option<Record>
    requires end <= Pairs(lines)
  {
    var h := Head(recs);
    if h.Some? && NoBoundary(lines, recs[h.value].raw.at + 1, end) then Some(recs[h.value]) else None
  }

  /** A record's style: what it declares, on the layer of its owner if it names none and has one. */
  ghost predicate IsStyled(lines: seq<string>, recs: seq<Record>, j: nat)
    requires j < |recs|
  {
    var raw := recs[j].raw;
    var declared := Declared(raw.groups, raw.kind);
    raw.at < Pairs(lines) && declared.Ok?
    && recs[j] == Finished(raw, declared.value, OwnerIn(lines, recs[..j], raw.at + 1))
  }

  ghost predicate AllStyled(lines: seq<string>, recs: seq<Record>) {
    forall j :: 0 <= j < |recs| ==> IsStyled(lines, recs, j)
  }

  ghost predicate Owned(lines: seq<string>, s: Scan) {
    s.seen <= Pairs(lines) && s.owner == OwnerIn(lines, s.ordered, s.seen) && AllStyled(lines, s.ordered)
  }

  lemma OwnerWhileReading(lines: seq<string>, recs: seq<Record>, from: nat, end: nat)
    requires from <= end <= Pairs(lines) && NoZero(lines, from, end)
    ensures OwnerIn(lines, recs, from) == OwnerIn(lines, recs, end)
  {
    assert forall p :: from <= p < end ==> Code(lines, p) != Some(0);
  }

  lemma StyledExtends(lines: seq<string>, recs: seq<Record>, rec: Record)
    requires AllStyled(lines, recs)
    requires rec.raw.at < Pairs(lines) && Declared(rec.raw.groups, rec.raw.kind).Ok?
    requires rec == Finished(rec.raw, Declared(rec.raw.groups, rec.raw.kind).value,
                             OwnerIn(lines, recs, rec.raw.at + 1))
    ensures AllStyled(lines, recs + [rec])
  {
    var all := recs + [rec];
    forall j | 0 <= j < |all| ensures IsStyled(lines, all, j) {
      if j < |recs| {
        assert all[..j] == recs[..j];
        assert IsStyled(lines, recs, j);
      } else {
        assert all[..j] == recs;
      }
    }
  }

  lemma OwnerExtends(lines: seq<string>, recs: seq<Record>, rec: Record, end: nat)
    requires rec.raw.at < end <= Pairs(lines) && NoZero(lines, rec.raw.at + 1, end)
    ensures OwnerIn(lines, recs + [rec], end) == NextOwner(rec, OwnerIn(lines, recs, end))
  {
    var all := recs + [rec];
    assert all[..|recs|] == recs;
  }

  lemma KeepOwns(lines: seq<string>, s: Scan)
    requires Owned(lines, s) && Keep(s).Ok? && (s.record.Some? ==> Reads(lines, s.record.value, s.seen))
    ensures Owned(lines, Keep(s).value)
  {
    if s.record.Some? {
      var raw := s.record.value;
      var rec := Finished(raw, Declared(raw.groups, raw.kind).value, s.owner);
      OwnerWhileReading(lines, s.ordered, raw.at + 1, s.seen);
      StyledExtends(lines, s.ordered, rec);
      OwnerExtends(lines, s.ordered, rec, s.seen);
    }
  }

  lemma OwnerNext(lines: seq<string>, recs: seq<Record>, end: nat)
    requires end < Pairs(lines)
    requires Head(recs).Some? ==> recs[Head(recs).value].raw.at < end
    ensures OwnerIn(lines, recs, end + 1)
         == if Code(lines, end) == Some(0) && KindAt(lines, end) in BOUNDARIES then None
            else OwnerIn(lines, recs, end)
  {
  }

  lemma MoveOwns(lines: seq<string>, s: Scan, after: Scan)
    requires Owned(lines, s) && AllRead(lines, s) && Moves(lines, s, after)
    requires forall j :: 0 <= j < |after.ordered| ==> after.ordered[j].raw.at < s.seen
    ensures Owned(lines, after)
  {
    if Code(lines, s.seen) == Some(0) {
      KeepOwns(lines, s);
    }
    OwnerNext(lines, after.ordered, s.seen);
  }

  // The whole scan.

  ghost predicate Inv(lines: seq<string>, s: Scan) {
    IsIndex(s.keyed, s.ordered) && AllRead(lines, s) && InPlace(lines, s) && Owned(lines, s)
  }

  lemma {:induction false} StartsBefore(lines: seq<string>, k: nat, j: nat)
    requires k <= Pairs(lines) && j < |StartList(lines, k)|
    ensures StartList(lines, k)[j] < k
  {
    if k > 0 && j < |StartList(lines, k - 1)| {
      StartsBefore(lines, k - 1, j);
    }
  }

  lemma KeptBefore(lines: seq<string>, s: Scan, after: Scan)
    requires InPlace(lines, s) && Moves(lines, s, after)
    ensures forall j :: 0 <= j < |after.ordered| ==> after.ordered[j].raw.at < s.seen
  {
    var starts := Ats(s.ordered) + Current(s.record);
    forall j | 0 <= j < |after.ordered| ensures after.ordered[j].raw.at < s.seen {
      assert after.ordered[j].raw.at == starts[j];
      StartsBefore(lines, s.seen, j);
    }
  }

  lemma MoveKeepsInv(lines: seq<string>, s: Scan, after: Scan)
    requires Inv(lines, s) && Moves(lines, s, after)
    ensures Inv(lines, after)
  {
    MoveKeepsIndex(lines, s, after);
    MoveReads(lines, s, after);
    MoveKeepsPlace(lines, s, after);
    KeptBefore(lines, s, after);
    MoveOwns(lines, s, after);
  }

  lemma StartHolds(lines: seq<string>)
    ensures Inv(lines, START)
  {
  }

  lemma NextKeepsInv(lines: seq<string>, k: nat)
    requires 0 < k <= Pairs(lines) && ScanTo(lines, k).Ok? && ScanTo(lines, k - 1).Ok?
    requires Inv(lines, ScanTo(lines, k - 1).value)
    ensures Inv(lines, ScanTo(lines, k).value)
  {
    ScanMoves(lines, k);
    MoveKeepsInv(lines, ScanTo(lines, k - 1).value, ScanTo(lines, k).value);
  }

  lemma {:induction false} ScanKeepsInv(lines: seq<string>, k: nat)
    requires k <= Pairs(lines) && ScanTo(lines, k).Ok?
    ensures Inv(lines, ScanTo(lines, k).value)
  {
    if k == 0 {
      StartHolds(lines);
    } else {
      assert ScanTo(lines, k - 1).Ok?;
      ScanKeepsInv(lines, k - 1);
      NextKeepsInv(lines, k);
    }
  }

  /**
   An accepted drawing holds exactly the records that the two sections start, in file order, each
   with the first value of every style group and with its style; and its handles are distinct.
   */
  lemma ScanIsDeclared(lines: seq<string>)
    requires Scanned(lines).Ok?
    ensures var drawing := Scanned(lines).value;
            IsIndex(drawing.keyed, drawing.ordered)
            && Ats(drawing.ordered) == StartList(lines, Pairs(lines))
            && AllStyled(lines, drawing.ordered)
            && forall j :: 0 <= j < |drawing.ordered| ==>
                 IsRead(lines, drawing.ordered[j].raw) && IsPlaced(lines, drawing.ordered[j].raw)
  {
    var s := ScanTo(lines, Pairs(lines)).value;
    ScanMoves(lines, Pairs(lines));
    ScanKeepsInv(lines, Pairs(lines));
    KeepKeepsIndex(s);
    KeepReads(lines, s);
    KeepPlaces(lines, s);
    KeepOwns(lines, s);
  }
}
