/**
 The declared-style comparison of a source drawing with its output: which output record answers
 for which source record, and the receipt that says where their declared styles differ.
 */
module StyleMatch {
  import opened Prelude
  import opened DeclaredStyles
  import opened StyleScan

  const MAX_LISTED := 20

  datatype Group = Group(section: string, block: string, kind: string)

  function GroupFor(r: Record): Group {
    Group(r.raw.section, r.raw.block, r.raw.kind)
  }

  // Which record answers for which.

  predicate IsFree(r: Record, keys: set<string>) {
    r.handle == None || r.handle.value !in keys
  }

  /** Where the records of a group stand that carry none of the given handles. */
  function Pool(recs: seq<Record>, keys: set<string>, g: Group): (r: seq<nat>)
    ensures forall k :: 0 <= k < |r| ==> r[k] < |recs| && IsFree(recs[r[k]], keys) && GroupFor(recs[r[k]]) == g
    ensures forall i, k :: 0 <= i < k < |r| ==> r[i] < r[k]
  {
    if recs == [] then []
    else
      var front, last := recs[..|recs| - 1], recs[|recs| - 1];
      Pool(front, keys, g) + if IsFree(last, keys) && GroupFor(last) == g then [|recs| - 1] else []
  }

  /** How many records without a handle a group has. */
  function Bare(recs: seq<Record>, g: Group): nat {
    if recs == [] then 0
    else
      var last := recs[|recs| - 1];
      Bare(recs[..|recs| - 1], g) + if last.handle == None && GroupFor(last) == g then 1 else 0
  }

  function Find(recs: seq<Record>, handle: string): (r: Option<nat>)
    ensures r.Some? ==> r.value < |recs| && recs[r.value].handle == Some(handle)
    ensures r == None ==> forall j :: 0 <= j < |recs| ==> recs[j].handle != Some(handle)
  {
    if recs == [] then None
    else if recs[|recs| - 1].handle == Some(handle) then Some(|recs| - 1)
    else Find(recs[..|recs| - 1], handle)
  }

  /** The output record for a source record: by handle, or by place in its group. */
  function Counterpart(left: Drawing, right: Drawing, j: nat): (r: Option<nat>)
    requires j < |left.ordered|
    ensures r.Some? ==> r.value < |right.ordered|
  {
    var rec := left.ordered[j];
    if rec.handle.Some? then Find(right.ordered, rec.handle.value)
    else
      var pool := Pool(right.ordered, left.keyed.Keys, GroupFor(rec));
      var rank := Bare(left.ordered[..j], GroupFor(rec));
      if rank < |pool| then Some(pool[rank]) else None
  }

  lemma {:induction false} BareGrows(recs: seq<Record>, i: nat, j: nat)
    requires i < j <= |recs| && recs[i].handle == None
    ensures Bare(recs[..i], GroupFor(recs[i])) < Bare(recs[..j], GroupFor(recs[i]))
    decreases j
  {
    var g := GroupFor(recs[i]);
    assert recs[..j][..j - 1] == recs[..j - 1];
    if i < j - 1 {
      BareGrows(recs, i, j - 1);
    }
  }

  /** Records without a handle are answered for in their own order. */
  lemma PairingKeepsOrder(left: Drawing, right: Drawing, i: nat, j: nat)
    requires i < j < |left.ordered| && left.ordered[i].handle == None && left.ordered[j].handle == None
    requires GroupFor(left.ordered[i]) == GroupFor(left.ordered[j]) && Counterpart(left, right, j).Some?
    ensures Counterpart(left, right, i).Some?
    ensures Counterpart(left, right, i).value < Counterpart(left, right, j).value
  {
    BareGrows(left.ordered, i, j);
  }

  /** No output record answers for two source records. */
  lemma PairingIsInjective(left: Drawing, right: Drawing, i: nat, j: nat)
    requires IsIndex(left.keyed, left.ordered) && i < j < |left.ordered|
    requires Counterpart(left, right, i).Some? && Counterpart(left, right, j).Some?
    ensures Counterpart(left, right, i) != Counterpart(left, right, j)
  {
    var a, b := left.ordered[i], left.ordered[j];
    if a.handle == None && b.handle == None && GroupFor(a) == GroupFor(b) {
      PairingKeepsOrder(left, right, i, j);
    }
  }

  // What differs.

  datatype Shown = Text(text: string) | Tint(hue: Hue) | Weight(weight: int)

  const PROPERTIES := [Layer, Color, Linetype, Lineweight, TextStyle]

  function Show(style: Style, property: Property): Option<Shown> {
    match property
    case Layer => Some(Text(style.layer))
    case Color => Some(Tint(style.color))
    case Linetype => Some(Text(style.linetype))
    case Lineweight => Some(Weight(style.lineweight))
    case TextStyle => if style.textStyle == None then None else Some(Text(style.textStyle.value))
  }

  datatype Message = Missing | Mismatch(property: Property)

  datatype Label = ByHandle(handle: string) | ByPlace(group: Group, index: nat)

  datatype Note = Note(entity: Label, was: Option<Shown>, now: Option<Shown>, message: Message)

  function LabelFor(recs: seq<Record>, j: nat): Label
    requires j < |recs|
  {
    var rec := recs[j];
    if rec.handle.Some? then ByHandle(rec.handle.value)
    else ByPlace(GroupFor(rec), Bare(recs[..j], GroupFor(rec)))
  }

  function Difference(entity: Label, was: Style, now: Style, property: Property): seq<Note> {
    if Show(was, property).Some? && Show(was, property) != Show(now, property)
    then [Note(entity, Show(was, property), Show(now, property), Mismatch(property))] else []
  }

  function Differences(entity: Label, was: Style, now: Style, n: nat): seq<Note>
    requires n <= |PROPERTIES|
  {
    if n == 0 then []
    else Differences(entity, was, now, n - 1) + Difference(entity, was, now, PROPERTIES[n - 1])
  }

  lemma DifferencesNext(entity: Label, was: Style, now: Style, p: nat, notes: seq<Note>)
    requires p < |PROPERTIES|
    ensures notes + Differences(entity, was, now, p + 1)
         == notes + Differences(entity, was, now, p) + Difference(entity, was, now, PROPERTIES[p])
    ensures Differences(entity, was, now, p + 1) == []
       <==> Differences(entity, was, now, p) == [] && Difference(entity, was, now, PROPERTIES[p]) == []
  {
  }

  /** A source record and the declared style that answers for it. */
  datatype Item = Item(entity: Label, was: Style, now: Option<Style>)

  function ItemWith(entity: Label, was: Style, output: Option<Record>): Item {
    Item(entity, was, if output == None then None else Some(output.value.style))
  }

  function ItemFor(left: Drawing, right: Drawing, j: nat): Item
    requires j < |left.ordered|
  {
    var c := Counterpart(left, right, j);
    ItemWith(LabelFor(left.ordered, j), left.ordered[j].style,
             if c == None then None else Some(right.ordered[c.value]))
  }

  /** The first `n` source records, with what answers for them. */
  function Items(left: Drawing, right: Drawing, n: nat): (r: seq<Item>)
    requires n <= |left.ordered|
    ensures |r| == n
  {
    if n == 0 then [] else Items(left, right, n - 1) + [ItemFor(left, right, n - 1)]
  }

  lemma {:induction false} ItemAt(left: Drawing, right: Drawing, n: nat, j: nat)
    requires j < n <= |left.ordered|
    ensures Items(left, right, n)[j] == ItemFor(left, right, j)
  {
    if j < n - 1 {
      ItemAt(left, right, n - 1, j);
    }
  }

  function AllItems(left: Drawing, right: Drawing): seq<Item> {
    Items(left, right, |left.ordered|)
  }

  function NotesOn(item: Item): seq<Note> {
    if item.now == None then [Note(item.entity, None, None, Missing)]
    else Differences(item.entity, item.was, item.now.value, |PROPERTIES|)
  }

  function Notes(items: seq<Item>): seq<Note> {
    if items == [] then [] else Notes(items[..|items| - 1]) + NotesOn(items[|items| - 1])
  }

  function Matched(items: seq<Item>): nat {
    if items == [] then 0
    else Matched(items[..|items| - 1]) + if NotesOn(items[|items| - 1]) == [] then 1 else 0
  }

  // The receipt.

  function Count(failures: map<Message, nat>, m: Message): nat {
    if m in failures then failures[m] else 0
  }

  function Tally(notes: seq<Note>): map<Message, nat> {
    if notes == [] then map[]
    else
      var before, m := Tally(notes[..|notes| - 1]), notes[|notes| - 1].message;
      before[m := Count(before, m) + 1]
  }

  function FirstNotes(notes: seq<Note>): seq<Note> {
    if |notes| <= MAX_LISTED then notes else notes[..MAX_LISTED]
  }

  function Total(failures: map<Message, nat>): nat {
    Count(failures, Missing) + Count(failures, Mismatch(Layer)) + Count(failures, Mismatch(Color))
    + Count(failures, Mismatch(Linetype)) + Count(failures, Mismatch(Lineweight))
    + Count(failures, Mismatch(TextStyle))
  }

  lemma OneMore(failures: map<Message, nat>, m: Message)
    ensures Total(failures[m := Count(failures, m) + 1]) == Total(failures) + 1
  {
    var after := failures[m := Count(failures, m) + 1];
    assert forall x :: x != m ==> Count(after, x) == Count(failures, x);
    if m.Mismatch? {
      match m.property
      case Layer =>
      case Color =>
      case Linetype =>
      case Lineweight =>
      case TextStyle =>
    }
  }

  lemma {:induction false} TallyTotals(notes: seq<Note>)
    ensures Total(Tally(notes)) == |notes|
    ensures Tally(notes) == map[] <==> notes == []
  {
    if notes != [] {
      var front, m := notes[..|notes| - 1], notes[|notes| - 1].message;
      TallyTotals(front);
      OneMore(Tally(front), m);
      assert m in Tally(notes);
    }
  }

  datatype Receipt = Refused(error: Error)
                   | Receipt(ok: bool, records: nat, matched: nat, mismatches: nat,
                             failures: map<Message, nat>, diagnostics: seq<Note>)

  function ReceiptFor(items: seq<Item>): Receipt {
    var notes := Notes(items);
    Receipt(notes == [], |items|, Matched(items), |notes|, Tally(notes), FirstNotes(notes))
  }

  // The program.

  class Report {
    var failures: map<Message, nat>
    var diagnostics: seq<Note>
    var matched: nat

    constructor ()
      ensures Covers([])
    {
      failures, diagnostics, matched := map[], [], 0;
    }

    ghost predicate Holds(notes: seq<Note>)
      reads this
    {
      failures == Tally(notes) && diagnostics == FirstNotes(notes)
    }

    /** The report after some of the source records. */
    ghost predicate Covers(items: seq<Item>)
      reads this
    {
      Holds(Notes(items)) && matched == Matched(items)
    }

    method Add(note: Note, ghost notes: seq<Note>)
      requires Holds(notes)
      modifies this`failures, this`diagnostics
      ensures Holds(notes + [note])
    {
      assert (notes + [note])[..|notes|] == notes;
      failures := failures[note.message := Count(failures, note.message) + 1];
      if |diagnostics| < MAX_LISTED {
        diagnostics := diagnostics + [note];
      }
    }

    method CompareProperty(entity: Label, was: Style, now: Style, property: Property, ghost notes: seq<Note>)
        returns (same: bool)
      requires Holds(notes)
      modifies this`failures, this`diagnostics
      ensures Holds(notes + Difference(entity, was, now, property))
      ensures same <==> Difference(entity, was, now, property) == []
    {
      var before, after := Show(was, property), Show(now, property);
      if before == None || before == after {
        assert notes + [] == notes;
        return true;
      }
      Add(Note(entity, before, after, Mismatch(property)), notes);
      return false;
    }

    method CompareStyles(entity: Label, was: Style, now: Style, ghost notes: seq<Note>) returns (same: bool)
      requires Holds(notes)
      modifies this`failures, this`diagnostics
      ensures Holds(notes + Differences(entity, was, now, |PROPERTIES|))
      ensures same <==> Differences(entity, was, now, |PROPERTIES|) == []
    {
      same := true;
      assert notes + [] == notes;
      for p := 0 to |PROPERTIES|
        invariant Holds(notes + Differences(entity, was, now, p))
        invariant same <==> Differences(entity, was, now, p) == []
      {
        DifferencesNext(entity, was, now, p, notes);
        var one := CompareProperty(entity, was, now, PROPERTIES[p], notes + Differences(entity, was, now, p));
        same := same && one;
      }
    }

    /** Compares one record with the one that answers for it, if any. */
    method CompareItem(entity: Label, was: Style, output: Option<Record>, ghost items: seq<Item>)
      requires Covers(items)
      modifies this
      ensures Covers(items + [ItemWith(entity, was, output)])
    {
      ghost var item := ItemWith(entity, was, output);
      assert (items + [item])[..|items|] == items;
      if output == None {
        Add(Note(entity, None, None, Missing), Notes(items));
      } else {
        var same := CompareStyles(entity, was, output.value.style, Notes(items));
        matched := matched + if same then 1 else 0;
      }
    }

    method Finish(records: nat, ghost items: seq<Item>) returns (receipt: Receipt)
      requires Covers(items) && records == |items|
      ensures receipt == ReceiptFor(items)
    {
      TallyTotals(Notes(items));
      return Receipt(failures == map[], records, matched, Total(failures), failures, diagnostics);
    }
  }

  function PoolOf(candidates: map<Group, seq<Record>>, g: Group): seq<Record> {
    if g in candidates then candidates[g] else []
  }

  function PositionOf(positions: map<Group, nat>, g: Group): nat {
    if g in positions then positions[g] else 0
  }

  function Picked(recs: seq<Record>, where: seq<nat>): (r: seq<Record>)
    requires forall k :: 0 <= k < |where| ==> where[k] < |recs|
    ensures |r| == |where| && forall k :: 0 <= k < |r| ==> r[k] == recs[where[k]]
  {
    seq(|where|, k requires 0 <= k < |where| => recs[where[k]])
  }

  /** The free output records of every group, in order. */
  /** The free records of a group among the first k. */
  ghost function FreeAmong(right: seq<Record>, keys: set<string>, g: Group, k: nat): seq<Record>
    requires k <= |right|
  {
    Picked(right[..k], Pool(right[..k], keys, g))
  }

  ghost predicate IsGrouping(candidates: map<Group, seq<Record>>, right: seq<Record>, keys: set<string>, k: nat)
    requires k <= |right|
  {
    forall g :: PoolOf(candidates, g) == FreeAmong(right, keys, g, k)
  }

  method Candidates(right: seq<Record>, keys: set<string>) returns (candidates: map<Group, seq<Record>>)
    ensures forall g :: PoolOf(candidates, g) == Picked(right, Pool(right, keys, g))
  {
    candidates := map[];
    assert IsGrouping(candidates, right, keys, 0);
    for k := 0 to |right|
      invariant IsGrouping(candidates, right, keys, k)
    {
      var rec := right[k];
      GroupingNext(candidates, right, keys, k);
      if IsFree(rec, keys) {
        candidates := candidates[GroupFor(rec) := PoolOf(candidates, GroupFor(rec)) + [rec]];
      }
    }
    assert right[..|right|] == right;
    forall g ensures PoolOf(candidates, g) == Picked(right, Pool(right, keys, g)) {
      assert PoolOf(candidates, g) == FreeAmong(right, keys, g, |right|);
    }
  }

  lemma PoolNext(right: seq<Record>, keys: set<string>, g: Group, k: nat)
    requires k < |right|
    ensures FreeAmong(right, keys, g, k + 1)
         == FreeAmong(right, keys, g, k) + if IsFree(right[k], keys) && GroupFor(right[k]) == g then [right[k]] else []
  {
    assert right[..k + 1][..k] == right[..k];
  }

  lemma GroupingNext(candidates: map<Group, seq<Record>>, right: seq<Record>, keys: set<string>, k: nat)
    requires k < |right| && IsGrouping(candidates, right, keys, k)
    ensures var g := GroupFor(right[k]);
            var after := if IsFree(right[k], keys) then candidates[g := PoolOf(candidates, g) + [right[k]]]
                         else candidates;
            IsGrouping(after, right, keys, k + 1)
  {
    var rec := right[k];
    var after := if IsFree(rec, keys) then candidates[GroupFor(rec) := PoolOf(candidates, GroupFor(rec)) + [rec]]
                 else candidates;
    forall g ensures PoolOf(after, g) == FreeAmong(right, keys, g, k + 1) {
      assert PoolOf(candidates, g) == FreeAmong(right, keys, g, k);
      PoolNext(right, keys, g, k);
    }
  }

  /** The next record in turn: its name in the receipt, and the record that answers for it. */
  method Answer(left: Drawing, right: Drawing, j: nat, candidates: map<Group, seq<Record>>, positions: map<Group, nat>)
      returns (entity: Label, output: Option<Record>, next: map<Group, nat>)
    requires IsIndex(right.keyed, right.ordered) && j < |left.ordered|
    requires forall g :: PoolOf(candidates, g) == Picked(right.ordered, Pool(right.ordered, left.keyed.Keys, g))
    requires forall g :: PositionOf(positions, g) == Bare(left.ordered[..j], g)
    ensures ItemWith(entity, left.ordered[j].style, output) == ItemFor(left, right, j)
    ensures forall g :: PositionOf(next, g) == Bare(left.ordered[..j + 1], g)
  {
    var rec := left.ordered[j];
    next := positions;
    if rec.handle != None {
      entity := ByHandle(rec.handle.value);
      output := if rec.handle.value in right.keyed then Some(right.keyed[rec.handle.value]) else None;
    } else {
      var g := GroupFor(rec);
      var index := PositionOf(positions, g);
      next := positions[g := index + 1];
      entity := ByPlace(g, index);
      var pool := PoolOf(candidates, g);
      output := if index < |pool| then Some(pool[index]) else None;
    }
    PositionsNext(left.ordered, j, positions, next);
    OutputIsCounterpart(left, right, j, output, candidates);
  }

  method Compare(left: Drawing, right: Drawing) returns (receipt: Receipt)
    requires IsIndex(right.keyed, right.ordered)
    ensures receipt == ReceiptFor(AllItems(left, right))
  {
    var candidates := Candidates(right.ordered, left.keyed.Keys);
    var positions: map<Group, nat> := map[];
    var report := new Report();
    for j := 0 to |left.ordered|
      invariant forall g :: PositionOf(positions, g) == Bare(left.ordered[..j], g)
      invariant report.Covers(Items(left, right, j)) && fresh(report)
    {
      var entity, output;
      entity, output, positions := Answer(left, right, j, candidates, positions);
      report.CompareItem(entity, left.ordered[j].style, output, Items(left, right, j));
    }
    receipt := report.Finish(|left.ordered|, AllItems(left, right));
  }

  lemma PositionsNext(recs: seq<Record>, j: nat, was: map<Group, nat>, now: map<Group, nat>)
    requires j < |recs| && forall g :: PositionOf(was, g) == Bare(recs[..j], g)
    requires now == if recs[j].handle == None
                    then was[GroupFor(recs[j]) := PositionOf(was, GroupFor(recs[j])) + 1] else was
    ensures forall g :: PositionOf(now, g) == Bare(recs[..j + 1], g)
  {
    assert recs[..j + 1][..j] == recs[..j];
  }

  lemma OutputIsCounterpart(left: Drawing, right: Drawing, j: nat, output: Option<Record>,
                            candidates: map<Group, seq<Record>>)
    requires IsIndex(right.keyed, right.ordered) && j < |left.ordered|
    requires forall g :: PoolOf(candidates, g) == Picked(right.ordered, Pool(right.ordered, left.keyed.Keys, g))
    requires var rec := left.ordered[j];
             output == if rec.handle != None
                       then (if rec.handle.value in right.keyed then Some(right.keyed[rec.handle.value]) else None)
                       else var pool := PoolOf(candidates, GroupFor(rec));
                            var index := Bare(left.ordered[..j], GroupFor(rec));
                            if index < |pool| then Some(pool[index]) else None
    ensures var c := Counterpart(left, right, j);
            output == if c == None then None else Some(right.ordered[c.value])
  {
  }

  method CompareDeclaredStyles(before: seq<string>, after: seq<string>) returns (receipt: Receipt)
    ensures receipt == Compared(before, after)
  {
    var left := DeclaredRecords(before);
    if left.Err? {
      return Refused(left.error);
    }
    var right := DeclaredRecords(after);
    if right.Err? {
      return Refused(right.error);
    }
    ScanIsDeclared(after);
    receipt := Compare(left.value, right.value);
  }

  function Compared(before: seq<string>, after: seq<string>): Receipt {
    if Scanned(before).Err? then Refused(Scanned(before).error)
    else if Scanned(after).Err? then Refused(Scanned(after).error)
    else ReceiptFor(AllItems(Scanned(before).value, Scanned(after).value))
  }

  // What the receipt means.

  /** The output declares all that the source declares. */
  predicate Agrees(was: Style, now: Style) {
    was.layer == now.layer && was.color == now.color && was.linetype == now.linetype
    && was.lineweight == now.lineweight && (was.textStyle.Some? ==> now.textStyle == was.textStyle)
  }

  lemma {:induction false} NoDifferenceIff(entity: Label, was: Style, now: Style, n: nat)
    requires n <= |PROPERTIES|
    ensures Differences(entity, was, now, n) == []
       <==> forall p :: 0 <= p < n ==> Difference(entity, was, now, PROPERTIES[p]) == []
  {
    if n > 0 {
      NoDifferenceIff(entity, was, now, n - 1);
    }
  }

  lemma DifferencesIff(entity: Label, was: Style, now: Style)
    ensures Differences(entity, was, now, |PROPERTIES|) == [] <==> Agrees(was, now)
  {
    NoDifferenceIff(entity, was, now, |PROPERTIES|);
    assert PROPERTIES[0] == Layer && PROPERTIES[1] == Color && PROPERTIES[2] == Linetype
        && PROPERTIES[3] == Lineweight && PROPERTIES[4] == TextStyle;
  }

  predicate IsPreserved(item: Item) {
    item.now.Some? && Agrees(item.was, item.now.value)
  }

  lemma MatchedIff(item: Item)
    ensures NotesOn(item) == [] <==> IsPreserved(item)
  {
    if item.now.Some? {
      DifferencesIff(item.entity, item.was, item.now.value);
    }
  }

  lemma {:induction false} NoNotesIff(items: seq<Item>)
    ensures Notes(items) == [] <==> forall j :: 0 <= j < |items| ==> IsPreserved(items[j])
  {
    if items != [] {
      NoNotesIff(items[..|items| - 1]);
      MatchedIff(items[|items| - 1]);
    }
  }

  /**
   The verdict is good exactly when every source record has a counterpart that declares the same
   layer, colour, linetype and lineweight and, for text, the same text style.
   */
  lemma OkIff(left: Drawing, right: Drawing)
    ensures ReceiptFor(AllItems(left, right)).ok
       <==> forall j :: 0 <= j < |left.ordered| ==>
              var c := Counterpart(left, right, j);
              c.Some? && Agrees(left.ordered[j].style, right.ordered[c.value].style)
  {
    var items := AllItems(left, right);
    NoNotesIff(items);
    forall j | 0 <= j < |left.ordered|
      ensures IsPreserved(items[j])
         <==> var c := Counterpart(left, right, j);
              c.Some? && Agrees(left.ordered[j].style, right.ordered[c.value].style)
    {
      ItemAt(left, right, |left.ordered|, j);
    }
  }

  function MissingOnes(items: seq<Item>): nat {
    if items == [] then 0
    else MissingOnes(items[..|items| - 1]) + if items[|items| - 1].now == None then 1 else 0
  }

  /** Records answered for by one of another declared style. */
  function ChangedOnes(items: seq<Item>): nat {
    if items == [] then 0
    else
      var last := items[|items| - 1];
      ChangedOnes(items[..|items| - 1]) + if last.now.Some? && !Agrees(last.was, last.now.value) then 1 else 0
  }

  /** Every source record is counted once: preserved, missing or changed. */
  lemma {:induction false} RecordsAreConserved(items: seq<Item>)
    ensures Matched(items) + MissingOnes(items) + ChangedOnes(items) == |items|
  {
    if items != [] {
      RecordsAreConserved(items[..|items| - 1]);
      MatchedIff(items[|items| - 1]);
    }
  }

  lemma {:induction false} TallyAppends(a: seq<Note>, b: seq<Note>, m: Message)
    ensures Count(Tally(a + b), m) == Count(Tally(a), m) + Count(Tally(b), m)
    decreases |b|
  {
    if b == [] {
      assert a + b == a;
    } else {
      var front, last := b[..|b| - 1], b[|b| - 1];
      assert (a + b)[..|a + b| - 1] == a + front && (a + b)[|a + b| - 1] == last;
      TallyAppends(a, front, m);
    }
  }

  lemma {:induction false} OnlyMismatches(entity: Label, was: Style, now: Style, n: nat)
    requires n <= |PROPERTIES|
    ensures Count(Tally(Differences(entity, was, now, n)), Missing) == 0
  {
    if n > 0 {
      OnlyMismatches(entity, was, now, n - 1);
      TallyAppends(Differences(entity, was, now, n - 1), Difference(entity, was, now, PROPERTIES[n - 1]), Missing);
    }
  }

  lemma MissingOn(item: Item)
    ensures Count(Tally(NotesOn(item)), Missing) == if item.now == None then 1 else 0
  {
    if item.now.Some? {
      OnlyMismatches(item.entity, item.was, item.now.value, |PROPERTIES|);
    }
  }

  /** The count under "missing" is the number of records nothing answers for. */
  lemma {:induction false} MissingIsCounted(items: seq<Item>)
    ensures Count(Tally(Notes(items)), Missing) == MissingOnes(items)
  {
    if items != [] {
      var front, last := items[..|items| - 1], items[|items| - 1];
      MissingIsCounted(front);
      MissingOn(last);
      TallyAppends(Notes(front), NotesOn(last), Missing);
    }
  }

  // A drawing against itself.

  lemma {:induction false} PoolAgainstItself(recs: seq<Record>, keys: set<string>, j: nat, n: nat)
    requires j < n <= |recs| && recs[j].handle == None
    requires forall k :: 0 <= k < |recs| ==> (IsFree(recs[k], keys) <==> recs[k].handle == None)
    ensures var g := GroupFor(recs[j]);
            |Pool(recs[..n], keys, g)| == Bare(recs[..n], g) && Bare(recs[..j], g) < Bare(recs[..n], g)
            && Pool(recs[..n], keys, g)[Bare(recs[..j], g)] == j
    decreases n
  {
    var g := GroupFor(recs[j]);
    assert recs[..n][..n - 1] == recs[..n - 1];
    if j < n - 1 {
      PoolAgainstItself(recs, keys, j, n - 1);
    } else {
      PoolIsBare(recs[..j], keys, g);
    }
  }

  lemma {:induction false} PoolIsBare(recs: seq<Record>, keys: set<string>, g: Group)
    requires forall k :: 0 <= k < |recs| ==> (IsFree(recs[k], keys) <==> recs[k].handle == None)
    ensures |Pool(recs, keys, g)| == Bare(recs, g)
  {
    if recs != [] {
      PoolIsBare(recs[..|recs| - 1], keys, g);
    }
  }

  /** In an accepted drawing every record answers for itself. */
  lemma SelfCounterpart(d: Drawing, j: nat)
    requires IsIndex(d.keyed, d.ordered) && j < |d.ordered|
    ensures Counterpart(d, d, j) == Some(j)
  {
    if d.ordered[j].handle == None {
      PoolAgainstItself(d.ordered, d.keyed.Keys, j, |d.ordered|);
      assert d.ordered[..|d.ordered|] == d.ordered;
    }
  }

  /** Any file the scanner accepts, compared with itself, is preserved in full. */
  lemma DrawingMatchesItself(lines: seq<string>)
    requires Scanned(lines).Ok?
    ensures var receipt := Compared(lines, lines);
            receipt.Receipt? && receipt.ok && receipt.matched == receipt.records
  {
    var d := Scanned(lines).value;
    ScanIsDeclared(lines);
    SelfReceipt(d);
  }

  lemma SelfReceipt(d: Drawing)
    requires IsIndex(d.keyed, d.ordered)
    ensures var receipt := ReceiptFor(AllItems(d, d));
            receipt.ok && receipt.matched == receipt.records
  {
    var items := AllItems(d, d);
    forall j | 0 <= j < |items| ensures IsPreserved(items[j]) {
      SelfCounterpart(d, j);
      ItemAt(d, d, |d.ordered|, j);
    }
    NoNotesIff(items);
    AllMatched(items);
  }

  lemma {:induction false} AllMatched(items: seq<Item>)
    requires forall j :: 0 <= j < |items| ==> IsPreserved(items[j])
    ensures Matched(items) == |items|
  {
    if items != [] {
      AllMatched(items[..|items| - 1]);
      MatchedIff(items[|items| - 1]);
    }
  }
}
