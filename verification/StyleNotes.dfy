/**
 What the receipt of a declared-style comparison lists and counts: every note is true, nothing
 that differs goes without one, and each names its record.
 */
module StyleNotes {
  import opened Prelude
  import opened DeclaredStyles
  import opened StyleScan
  import opened StyleMatch
  import opened StyleFacts

  predicate Differs(was: Style, now: Style, p: Property) {
    match p
    case Layer => was.layer != now.layer
    case Color => was.color != now.color
    case Linetype => was.linetype != now.linetype
    case Lineweight => was.lineweight != now.lineweight
    case TextStyle => was.textStyle.Some? && now.textStyle != was.textStyle
  }

  /** The note says that nothing answers for the record, or one value that differs as it was and as it is now. */
  predicate IsTrueOf(note: Note, item: Item) {
    && note.entity == item.entity
    && (if item.now == None then note.message == Missing && note.was == None && note.now == None
        else
          && note.message.Mismatch? && Differs(item.was, item.now.value, note.message.property)
          && note.was == Show(item.was, note.message.property)
          && note.now == Show(item.now.value, note.message.property))
  }

  lemma DifferenceIff(entity: Label, was: Style, now: Style, p: Property, note: Note)
    ensures note in Difference(entity, was, now, p)
       <==> note.message == Mismatch(p) && IsTrueOf(note, Item(entity, was, Some(now)))
    ensures Difference(entity, was, now, p) != [] <==> Differs(was, now, p)
  {
  }

  /** Where a property comes in the comparison. */
  function Rank(p: Property): nat {
    match p
    case Layer => 0
    case Color => 1
    case Linetype => 2
    case Lineweight => 3
    case TextStyle => 4
  }

  lemma RankIs(n: nat, p: Property)
    requires n < |PROPERTIES|
    ensures PROPERTIES[n] == p <==> Rank(p) == n
    ensures Rank(p) < |PROPERTIES|
  {
    assert PROPERTIES[0] == Layer && PROPERTIES[1] == Color && PROPERTIES[2] == Linetype
        && PROPERTIES[3] == Lineweight && PROPERTIES[4] == TextStyle;
  }

  lemma {:induction false} DifferencesAre(entity: Label, was: Style, now: Style, n: nat, note: Note)
    requires n <= |PROPERTIES|
    ensures note in Differences(entity, was, now, n)
       <==> IsTrueOf(note, Item(entity, was, Some(now))) && Rank(note.message.property) < n
  {
    if n > 0 {
      DifferencesAre(entity, was, now, n - 1, note);
      DifferenceIff(entity, was, now, PROPERTIES[n - 1], note);
      if note.message.Mismatch? {
        RankIs(n - 1, note.message.property);
      }
    }
  }

  lemma NotesOnAre(item: Item, note: Note)
    ensures note in NotesOn(item) <==> IsTrueOf(note, item)
  {
    if item.now.Some? {
      DifferencesAre(item.entity, item.was, item.now.value, |PROPERTIES|, note);
    }
  }

  ghost predicate IsTrueOfOne(note: Note, items: seq<Item>) {
    exists j :: 0 <= j < |items| && IsTrueOf(note, items[j])
  }

  lemma TrueOfOneMore(note: Note, items: seq<Item>)
    requires items != []
    ensures IsTrueOfOne(note, items)
       <==> IsTrueOfOne(note, items[..|items| - 1]) || IsTrueOf(note, items[|items| - 1])
  {
    var front := items[..|items| - 1];
    if IsTrueOfOne(note, front) {
      var j :| 0 <= j < |front| && IsTrueOf(note, front[j]);
      assert items[j] == front[j];
    }
    if IsTrueOfOne(note, items) {
      var j :| 0 <= j < |items| && IsTrueOf(note, items[j]);
      assert j < |front| ==> front[j] == items[j];
    }
  }

  /** A note is made exactly when it is true of some record. */
  lemma {:induction false} NoteIff(items: seq<Item>, note: Note)
    ensures note in Notes(items) <==> IsTrueOfOne(note, items)
  {
    if items != [] {
      NoteIff(items[..|items| - 1], note);
      NotesOnAre(items[|items| - 1], note);
      TrueOfOneMore(note, items);
    }
  }

  /** The notes come record by record. */
  lemma {:induction false} NotesInOrder(items: seq<Item>, n: nat)
    requires n <= |items|
    ensures Notes(items[..n]) <= Notes(items)
    decreases |items|
  {
    if n == |items| {
      assert items[..n] == items;
    } else {
      var front := items[..|items| - 1];
      NotesInOrder(front, n);
      assert front[..n] == items[..n];
    }
  }

  // How many differ on a property.

  lemma CountOne(entity: Label, was: Style, now: Style, q: Property, p: Property)
    ensures Count(Tally(Difference(entity, was, now, q)), Mismatch(p))
         == if q == p && Differs(was, now, p) then 1 else 0
  {
    var notes := Difference(entity, was, now, q);
    if notes != [] {
      assert notes[..|notes| - 1] == [];
    }
  }

  lemma {:induction false} CountUpTo(entity: Label, was: Style, now: Style, n: nat, p: Property)
    requires n <= |PROPERTIES|
    ensures Count(Tally(Differences(entity, was, now, n)), Mismatch(p))
         == if Rank(p) < n && Differs(was, now, p) then 1 else 0
  {
    if n > 0 {
      CountUpTo(entity, was, now, n - 1, p);
      CountOne(entity, was, now, PROPERTIES[n - 1], p);
      TallyAppends(Differences(entity, was, now, n - 1), Difference(entity, was, now, PROPERTIES[n - 1]), Mismatch(p));
      RankIs(n - 1, p);
    }
  }

  predicate IsChangedOn(item: Item, p: Property) {
    item.now.Some? && Differs(item.was, item.now.value, p)
  }

  lemma CountOn(item: Item, p: Property)
    ensures Count(Tally(NotesOn(item)), Mismatch(p)) == if IsChangedOn(item, p) then 1 else 0
  {
    if item.now.Some? {
      CountUpTo(item.entity, item.was, item.now.value, |PROPERTIES|, p);
      RankIs(0, p);
    } else {
      assert NotesOn(item)[..0] == [];
    }
  }

  /** How many records are answered for by one that differs on p. */
  function ChangedOn(items: seq<Item>, p: Property): nat {
    if items == [] then 0
    else ChangedOn(items[..|items| - 1], p) + if IsChangedOn(items[|items| - 1], p) then 1 else 0
  }

  /** The count under a property is the number of records answered for by one that differs on it. */
  lemma {:induction false} MismatchIsCounted(items: seq<Item>, p: Property)
    ensures Count(Tally(Notes(items)), Mismatch(p)) == ChangedOn(items, p)
  {
    if items != [] {
      MismatchIsCounted(items[..|items| - 1], p);
      CountOn(items[|items| - 1], p);
      TallyAppends(Notes(items[..|items| - 1]), NotesOn(items[|items| - 1]), Mismatch(p));
    }
  }

  // What the receipt holds.

  /** The receipt counts the source records and all notes, and lists the first twenty in record order. */
  lemma ReceiptIs(left: Drawing, right: Drawing)
    ensures var receipt, notes := ReceiptFor(AllItems(left, right)), Notes(AllItems(left, right));
            && receipt.records == |left.ordered| && receipt.mismatches == |notes| == Total(receipt.failures)
            && receipt.diagnostics <= notes && |receipt.diagnostics| == if |notes| < 20 then |notes| else 20
  {
    TallyTotals(Notes(AllItems(left, right)));
  }

  /** Every listed note names a source record and is true of it and of what answers for it. */
  lemma ListedNoteIsTrue(left: Drawing, right: Drawing, note: Note)
    requires note in ReceiptFor(AllItems(left, right)).diagnostics
    ensures exists j: nat :: j < |left.ordered| && note.entity == LabelFor(left.ordered, j)
                             && IsTrueOf(note, ItemFor(left, right, j))
  {
    var items := AllItems(left, right);
    NoteIff(items, note);
    var j: int :| 0 <= j < |items| && IsTrueOf(note, items[j]);
    ItemAt(left, right, |left.ordered|, j);
  }

  // Which record a label names.

  /** No two records of an accepted drawing share a label. */
  lemma LabelsAreDistinct(d: Drawing, i: nat, j: nat)
    requires IsIndex(d.keyed, d.ordered) && i < j < |d.ordered|
    ensures LabelFor(d.ordered, i) != LabelFor(d.ordered, j)
  {
    if d.ordered[i].handle == None && d.ordered[j].handle == None && GroupFor(d.ordered[i]) == GroupFor(d.ordered[j]) {
      BareGrows(d.ordered, i, j);
    }
  }

  /** A label is the handle, or the record's section, block and type and how many such without a handle precede it. */
  lemma LabelIs(recs: seq<Record>, j: nat)
    requires j < |recs|
    ensures var name, rec := LabelFor(recs, j), recs[j];
            if rec.handle.Some? then name == ByHandle(rec.handle.value)
            else name == ByPlace(Group(rec.raw.section, rec.raw.block, rec.raw.kind), |BareBefore(recs, rec, j)|)
  {
    BareCounts(recs, recs[j], j);
  }
}
