/**
 The verdict of the declared-style comparison in terms of the two files: which records answer for
 which, whose layer a record sits on, and which values have to agree.
 */
module StyleFacts {
  import opened Prelude
  import opened DeclaredStyles
  import opened StyleScan
  import opened StyleValues
  import opened StyleMatch

  // Layers.

  /** Record i is the open sequence that record j belongs to: a POLYLINE with only VERTEX records up to a
      VERTEX or SEQEND, or an INSERT with only ATTRIB records up to a SEQEND, in one section and block. */
  ghost predicate Owns(lines: seq<string>, recs: seq<Record>, i: nat, j: nat) {
    && i < j < |recs| && recs[j].raw.at < Pairs(lines)
    && (|| (recs[i].raw.kind == "POLYLINE" && recs[j].raw.kind in {"VERTEX", "SEQEND"})
        || (recs[i].raw.kind == "INSERT" && recs[j].raw.kind == "SEQEND"))
    && (forall m :: i < m < j ==> recs[m].raw.kind == if recs[i].raw.kind == "POLYLINE" then "VERTEX" else "ATTRIB")
    && NoBoundary(lines, recs[i].raw.at + 1, recs[j].raw.at + 1)
  }

  lemma HeadOwns(recs: seq<Record>, i: nat, j: nat)
    requires i < j < |recs|
    ensures Head(recs[..j]) == Some(i) <==>
            || (recs[i].raw.kind == "POLYLINE" && forall m :: i < m < j ==> recs[m].raw.kind == "VERTEX")
            || (recs[i].raw.kind == "INSERT" && forall m :: i < m < j ==> recs[m].raw.kind == "ATTRIB")
  {
    HeadIs(recs[..j], i);
    assert forall m :: 0 <= m < j ==> recs[..j][m] == recs[m];
  }

  lemma InheritsFrom(lines: seq<string>, recs: seq<Record>, i: nat, j: nat)
    requires i < j < |recs| && recs[j].raw.at < Pairs(lines) && 8 !in recs[j].raw.groups
    ensures var owner := OwnerIn(lines, recs[..j], recs[j].raw.at + 1);
            Owns(lines, recs, i, j) <==>
            Head(recs[..j]) == Some(i) && owner == Some(recs[i]) && Inherits(recs[j].raw, owner)
  {
    HeadOwns(recs, i, j);
    assert recs[..j][i] == recs[i];
  }

  /** A record sits on the layer it names, else on its owner's, else on layer 0. */
  lemma LayerIs(lines: seq<string>, recs: seq<Record>, j: nat)
    requires j < |recs| && IsStyled(lines, recs, j)
    ensures 8 in recs[j].raw.groups ==> recs[j].style.layer == Upper(recs[j].raw.groups[8])
    ensures 8 !in recs[j].raw.groups ==>
              forall i: nat :: Owns(lines, recs, i, j) ==> recs[j].style.layer == recs[i].style.layer
    ensures 8 !in recs[j].raw.groups && (forall i: nat :: !Owns(lines, recs, i, j)) ==> recs[j].style.layer == "0"
  {
    var raw := recs[j].raw;
    StyleMeans(raw.groups, raw.kind);
    if 8 !in raw.groups {
      var h := Head(recs[..j]);
      forall i: nat | Owns(lines, recs, i, j) ensures recs[j].style.layer == recs[i].style.layer {
        InheritsFrom(lines, recs, i, j);
      }
      if h.Some? {
        InheritsFrom(lines, recs, h.value, j);
      }
    }
  }

  /** The other values of a record, by its own groups. */
  lemma ValuesAre(lines: seq<string>, recs: seq<Record>, j: nat)
    requires j < |recs| && IsStyled(lines, recs, j)
    ensures var raw, style := recs[j].raw, recs[j].style;
            && WellStyled(raw.groups, raw.kind) && recs[j].handle == HandleOf(raw.groups)
            && style.linetype == LinetypeIn(raw.groups) && style.lineweight == WeightIn(raw.groups)
            && style.textStyle == TextStyleIn(raw.groups, raw.kind)
            && style.color == Declared(raw.groups, raw.kind).value.color
  {
    StyleMeans(recs[j].raw.groups, recs[j].raw.kind);
  }

  // Which record answers for which.

  predicate SamePlace(a: Record, b: Record) {
    a.raw.section == b.raw.section && a.raw.block == b.raw.block && a.raw.kind == b.raw.kind
  }

  /** The records of a place, before position n, that carry none of the given handles. */
  ghost function FreeBefore(recs: seq<Record>, keys: set<string>, like: Record, n: nat): set<nat>
    requires n <= |recs|
  {
    set i: nat | i < n && SamePlace(recs[i], like) && (recs[i].handle == None || recs[i].handle.value !in keys)
  }

  ghost function BareBefore(recs: seq<Record>, like: Record, n: nat): set<nat>
    requires n <= |recs|
  {
    set i: nat | i < n && SamePlace(recs[i], like) && recs[i].handle == None
  }

  lemma {:induction false} BareCounts(recs: seq<Record>, like: Record, n: nat)
    requires n <= |recs|
    ensures Bare(recs[..n], GroupFor(like)) == |BareBefore(recs, like, n)|
  {
    if n == 0 {
      assert BareBefore(recs, like, 0) == {};
    } else {
      BareCounts(recs, like, n - 1);
      assert recs[..n][..n - 1] == recs[..n - 1];
      var before := BareBefore(recs, like, n - 1);
      if SamePlace(recs[n - 1], like) && recs[n - 1].handle == None {
        assert BareBefore(recs, like, n) == before + {n - 1};
      } else {
        assert BareBefore(recs, like, n) == before;
      }
    }
  }

  lemma {:induction false} PoolCounts(recs: seq<Record>, keys: set<string>, like: Record, n: nat)
    requires n <= |recs|
    ensures |Pool(recs[..n], keys, GroupFor(like))| == |FreeBefore(recs, keys, like, n)|
  {
    if n == 0 {
      assert FreeBefore(recs, keys, like, 0) == {};
    } else {
      PoolCounts(recs, keys, like, n - 1);
      PoolNextSize(recs, keys, GroupFor(like), n - 1);
      FreeNextSize(recs, keys, like, n - 1);
    }
  }

  lemma PoolNextSize(recs: seq<Record>, keys: set<string>, g: Group, n: nat)
    requires n < |recs|
    ensures |Pool(recs[..n + 1], keys, g)|
         == |Pool(recs[..n], keys, g)| + if IsFree(recs[n], keys) && GroupFor(recs[n]) == g then 1 else 0
  {
    assert recs[..n + 1][..n] == recs[..n];
  }

  lemma FreeNextSize(recs: seq<Record>, keys: set<string>, like: Record, n: nat)
    requires n < |recs|
    ensures |FreeBefore(recs, keys, like, n + 1)|
         == |FreeBefore(recs, keys, like, n)| + if SamePlace(recs[n], like) && IsFree(recs[n], keys) then 1 else 0
  {
    var before := FreeBefore(recs, keys, like, n);
    if SamePlace(recs[n], like) && IsFree(recs[n], keys) {
      assert FreeBefore(recs, keys, like, n + 1) == before + {n};
    } else {
      assert FreeBefore(recs, keys, like, n + 1) == before;
    }
  }

  /** Where a free record stands in the pool: after as many as come before it. */
  lemma {:induction false} PoolPlace(recs: seq<Record>, keys: set<string>, g: Group, c: nat, n: nat)
    requires c < n <= |recs| && IsFree(recs[c], keys) && GroupFor(recs[c]) == g
    ensures var rank := |Pool(recs[..c], keys, g)|;
            rank < |Pool(recs[..n], keys, g)| && Pool(recs[..n], keys, g)[rank] == c
    decreases n
  {
    assert recs[..n][..n - 1] == recs[..n - 1];
    if c < n - 1 {
      PoolPlace(recs, keys, g, c, n - 1);
    }
  }

  /** Without a handle: the free output record of the same section, block and type that as many free ones
      precede as records without a handle of that place precede the source record. */
  lemma BareCounterpartIff(left: Drawing, right: Drawing, j: nat, c: nat)
    requires j < |left.ordered| && c < |right.ordered| && left.ordered[j].handle == None
    ensures var rec := left.ordered[j];
            Counterpart(left, right, j) == Some(c) <==>
            && SamePlace(right.ordered[c], rec)
            && (right.ordered[c].handle == None || right.ordered[c].handle.value !in left.keyed)
            && |FreeBefore(right.ordered, left.keyed.Keys, rec, c)| == |BareBefore(left.ordered, rec, j)|
  {
    var rec, recs, keys := left.ordered[j], right.ordered, left.keyed.Keys;
    var g := GroupFor(rec);
    var pool, rank := Pool(recs, keys, g), Bare(left.ordered[..j], g);
    assert recs[..|recs|] == recs;
    BareCounts(left.ordered, rec, j);
    PoolCounts(recs, keys, rec, c);
    if SamePlace(recs[c], rec) && IsFree(recs[c], keys) {
      PoolPlace(recs, keys, g, c, |recs|);
    }
  }

  /** With a handle: the output record of that handle, wherever it stands. */
  lemma KeyedCounterpartIff(left: Drawing, right: Drawing, j: nat, c: nat)
    requires IsIndex(right.keyed, right.ordered)
    requires j < |left.ordered| && c < |right.ordered| && left.ordered[j].handle.Some?
    ensures Counterpart(left, right, j) == Some(c) <==> right.ordered[c].handle == left.ordered[j].handle
  {
  }

  // The verdict.

  /** The output record declares what the source record declares. */
  ghost predicate SameDeclared(a: Record, b: Record)
    requires WellStyled(a.raw.groups, a.raw.kind) && WellStyled(b.raw.groups, b.raw.kind)
  {
    var g, h := a.raw.groups, b.raw.groups;
    && a.style.layer == b.style.layer
    && (if 420 in g && 420 in h then (ParseInt(g[420]).value - ParseInt(h[420]).value) % 0x100_0000 == 0
        else 420 !in g && 420 !in h && IndexOf(g) == IndexOf(h))
    && LinetypeIn(g) == LinetypeIn(h) && WeightIn(g) == WeightIn(h)
    && (a.raw.kind in TEXT_KINDS ==> TextStyleIn(h, b.raw.kind) == TextStyleIn(g, a.raw.kind))
  }

  lemma AgreesIff(lines: seq<string>, recs: seq<Record>, j: nat, others: seq<string>, out: seq<Record>, c: nat)
    requires j < |recs| && IsStyled(lines, recs, j) && c < |out| && IsStyled(others, out, c)
    ensures WellStyled(recs[j].raw.groups, recs[j].raw.kind) && WellStyled(out[c].raw.groups, out[c].raw.kind)
    ensures Agrees(recs[j].style, out[c].style) <==> SameDeclared(recs[j], out[c])
  {
    ValuesAre(lines, recs, j);
    ValuesAre(others, out, c);
    ColorsAgreeIff(recs[j].raw.groups, out[c].raw.groups, recs[j].raw.kind, out[c].raw.kind);
  }

  ghost predicate IsKept(left: Drawing, right: Drawing, j: nat)
    requires j < |left.ordered|
  {
    exists c: nat :: c < |right.ordered| && Counterpart(left, right, j) == Some(c)
      && WellStyled(left.ordered[j].raw.groups, left.ordered[j].raw.kind)
      && WellStyled(right.ordered[c].raw.groups, right.ordered[c].raw.kind)
      && SameDeclared(left.ordered[j], right.ordered[c])
  }

  lemma KeptIff(before: seq<string>, after: seq<string>, j: nat)
    requires Scanned(before).Ok? && Scanned(after).Ok? && j < |Scanned(before).value.ordered|
    ensures var left, right := Scanned(before).value, Scanned(after).value;
            var c := Counterpart(left, right, j);
            (c.Some? && Agrees(left.ordered[j].style, right.ordered[c.value].style)) <==> IsKept(left, right, j)
  {
    var left, right := Scanned(before).value, Scanned(after).value;
    ScanIsDeclared(before);
    ScanIsDeclared(after);
    var c := Counterpart(left, right, j);
    if c.Some? {
      assert IsStyled(before, left.ordered, j) && IsStyled(after, right.ordered, c.value);
      AgreesIff(before, left.ordered, j, after, right.ordered, c.value);
    }
  }

  /** The comparison of two files finds the declared styles preserved exactly when both can be scanned and
      every source record has a counterpart on the same layer, with the same colour, linetype and lineweight
      and, for text, the same text style, each compared by its declared value or its default. */
  lemma PreservedIff(before: seq<string>, after: seq<string>)
    ensures var receipt := Compared(before, after);
            (receipt.Receipt? && receipt.ok) <==>
            && Scanned(before).Ok? && Scanned(after).Ok?
            && forall j :: 0 <= j < |Scanned(before).value.ordered| ==>
                 IsKept(Scanned(before).value, Scanned(after).value, j)
  {
    if Scanned(before).Ok? && Scanned(after).Ok? {
      OkIff(Scanned(before).value, Scanned(after).value);
      forall j | 0 <= j < |Scanned(before).value.ordered|
        ensures var left, right := Scanned(before).value, Scanned(after).value;
                var c := Counterpart(left, right, j);
                (c.Some? && Agrees(left.ordered[j].style, right.ordered[c.value].style)) <==> IsKept(left, right, j)
      {
        KeptIff(before, after, j);
      }
    }
  }
}
