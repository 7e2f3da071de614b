/** What the normalized style of a record says about the values it declares. */
module StyleValues {
  import opened Prelude
  import opened DeclaredStyles

  // Numbers.

  function DigitChar(d: nat): char
    requires d < 10
  {
    ('0' as int + d) as char
  }

  function Decimal(n: nat): (s: string)
    ensures |s| > 0
  {
    if n < 10 then [DigitChar(n)] else Decimal(n / 10) + [DigitChar(n % 10)]
  }

  lemma {:induction false} DigitsAppend(s: string, d: nat, value: nat, afterDigit: bool)
    requires d < 10 && Digits(s, value, afterDigit).Some?
    ensures Digits(s + [DigitChar(d)], value, afterDigit) == Some(10 * Digits(s, value, afterDigit).value + d)
    decreases |s|
  {
    var all := s + [DigitChar(d)];
    if s == "" {
      assert all == [DigitChar(d)] && all[1..] == "";
    } else {
      assert all[0] == s[0] && all[1..] == s[1..] + [DigitChar(d)];
      if '0' <= s[0] <= '9' {
        DigitsAppend(s[1..], d, 10 * value + (s[0] as int - '0' as int), true);
      } else {
        DigitsAppend(s[1..], d, value, false);
      }
    }
  }

  lemma {:induction false} DecimalReadsBack(n: nat)
    ensures Digits(Decimal(n), 0, false) == Some(n)
    ensures '0' <= Decimal(n)[0] <= '9'
  {
    if n >= 10 {
      DecimalReadsBack(n / 10);
      DigitsAppend(Decimal(n / 10), n % 10, 0, false);
      assert Decimal(n)[0] == Decimal(n / 10)[0];
    } else {
      assert Decimal(n)[1..] == "";
    }
  }

  function Written(v: int): string {
    if v < 0 then "-" + Decimal(-v) else Decimal(v)
  }

  /** Every integer is read back from its decimal form. */
  lemma IntReadsBack(v: int)
    ensures ParseInt(Written(v)) == Some(v)
  {
    if v < 0 {
      DecimalReadsBack(-v);
      assert Written(v)[1..] == Decimal(-v);
    } else {
      DecimalReadsBack(v);
    }
  }

  // Names.

  /** At most 255 characters, at least one, and no control characters. */
  predicate IsName(v: string) {
    0 < |v| <= 255 && forall c :: c in v ==> ' ' <= c && c != '\U{7F}'
  }

  lemma NameIff(v: string, property: Property)
    ensures StyleName(v, property) == if IsName(v) then Ok(Upper(v)) else Err(Malformed(property))
  {
    assert forall c :: IsControl(c) <==> !(' ' <= c && c != '\U{7F}');
  }

  const SMALL := "abcdefghijklmnopqrstuvwxyz"
  const CAPITAL := "ABCDEFGHIJKLMNOPQRSTUVWXYZ"

  /** Upper case puts the capital for every small letter and leaves all else alone. */
  lemma UpperIs(v: string, k: nat)
    requires k < |v|
    ensures forall i: nat :: i < 26 && v[k] == SMALL[i] ==> Upper(v)[k] == CAPITAL[i]
    ensures v[k] !in SMALL ==> Upper(v)[k] == v[k]
  {
    forall i: nat | i < 26 && v[k] == SMALL[i] ensures Upper(v)[k] == CAPITAL[i] {
      LetterIs(i);
    }
    if 'a' <= v[k] <= 'z' {
      var i: nat := v[k] as int - 'a' as int;
      LetterIs(i);
      assert SMALL[i] == v[k];
    }
  }

  lemma LetterIs(i: nat)
    requires i < 26
    ensures SMALL[i] as int == 'a' as int + i && CAPITAL[i] as int == 'A' as int + i
  {
  }

  lemma CaseKeepsControls(v: string, w: string)
    requires Upper(v) == Upper(w) && IsName(v)
    ensures IsName(w)
  {
    assert |w| == |Upper(w)| == |v|;
    forall k | 0 <= k < |w| ensures ' ' <= w[k] && w[k] != '\U{7F}' {
      assert UpperChar(w[k]) == Upper(w)[k] == Upper(v)[k] == UpperChar(v[k]);
      assert v[k] in v;
    }
  }

  lemma NameIgnoresCase(v: string, w: string, property: Property)
    requires Upper(v) == Upper(w)
    ensures StyleName(v, property) == StyleName(w, property)
  {
    NameIff(v, property);
    NameIff(w, property);
    if IsName(v) {
      CaseKeepsControls(v, w);
    } else if IsName(w) {
      CaseKeepsControls(w, v);
    }
  }

  const NAME_CODES := {6, 7, 8}

  ghost predicate SameButForCase(g: map<int, string>, h: map<int, string>) {
    g.Keys == h.Keys
    && forall c :: c in g ==> if c in NAME_CODES then Upper(g[c]) == Upper(h[c]) else g[c] == h[c]
  }

  /** Names compare without regard to case: it changes neither a style nor a refusal. */
  lemma StyleIgnoresCase(g: map<int, string>, h: map<int, string>, kind: string)
    requires SameButForCase(g, h)
    ensures Declared(g, kind) == Declared(h, kind)
  {
    forall c | c in NAME_CODES && c in g ensures c in h && Upper(g[c]) == Upper(h[c]) {
    }
    if 8 in g {
      NameIgnoresCase(g[8], h[8], Layer);
    }
    if 6 in g {
      NameIgnoresCase(g[6], h[6], Linetype);
    }
    if 7 in g {
      NameIgnoresCase(g[7], h[7], TextStyle);
    }
    assert ColorOf(g) == ColorOf(h) && LineweightOf(g) == LineweightOf(h);
  }

  // Which records are refused.

  predicate InRange(groups: map<int, string>, code: int, low: int, high: int) {
    code in groups ==> ParseInt(groups[code]).Some? && low <= ParseInt(groups[code]).value <= high
  }

  predicate NamedIn(groups: map<int, string>, code: int) {
    code in groups ==> IsName(groups[code])
  }

  predicate IsWeight(groups: map<int, string>) {
    370 in groups ==> ParseInt(groups[370]).Some? && ParseInt(groups[370]).value in LINEWEIGHTS
  }

  lemma ColorOkIff(groups: map<int, string>)
    ensures ColorOf(groups).Ok? <==> InRange(groups, 62, -256, 256) && InRange(groups, 420, -0x8000_0000, 0xFFFF_FFFF)
  {
  }

  lemma NameOkIff(groups: map<int, string>, code: int, property: Property, absent: string)
    ensures NameOf(groups, code, property, absent).Ok? <==> NamedIn(groups, code)
  {
    if code in groups {
      NameIff(groups[code], property);
    }
  }

  /** Every style value the groups declare is in its range. */
  predicate WellStyled(groups: map<int, string>, kind: string) {
    && InRange(groups, 62, -256, 256) && InRange(groups, 420, -0x8000_0000, 0xFFFF_FFFF)
    && IsWeight(groups)
    && NamedIn(groups, 8) && NamedIn(groups, 6) && (kind in TEXT_KINDS ==> NamedIn(groups, 7))
  }

  lemma DeclaredOkIff(groups: map<int, string>, kind: string)
    ensures Declared(groups, kind).Ok? <==> WellStyled(groups, kind)
  {
    ColorOkIff(groups);
    NameOkIff(groups, 8, Layer, "0");
    NameOkIff(groups, 6, Linetype, "BYLAYER");
    NameOkIff(groups, 7, TextStyle, "STANDARD");
  }

  /** The first value out of its range, colour and lineweight before the names. */
  function FaultIn(groups: map<int, string>, kind: string): Property
    requires !WellStyled(groups, kind)
  {
    if !InRange(groups, 62, -256, 256) || !InRange(groups, 420, -0x8000_0000, 0xFFFF_FFFF) then Color
    else if !IsWeight(groups) then Lineweight
    else if !NamedIn(groups, 8) then Layer
    else if !NamedIn(groups, 6) then Linetype
    else TextStyle
  }

  /** A record that is refused is refused for its first value out of range. */
  lemma RefusedFor(groups: map<int, string>, kind: string)
    requires !WellStyled(groups, kind)
    ensures Declared(groups, kind) == Err(Malformed(FaultIn(groups, kind)))
  {
    DeclaredOkIff(groups, kind);
    ColorOkIff(groups);
    NameOkIff(groups, 8, Layer, "0");
    NameOkIff(groups, 6, Linetype, "BYLAYER");
    NameOkIff(groups, 7, TextStyle, "STANDARD");
    if 8 in groups {
      NameIff(groups[8], Layer);
    }
    if 6 in groups {
      NameIff(groups[6], Linetype);
    }
    if 7 in groups {
      NameIff(groups[7], TextStyle);
    }
  }

  function IndexOf(groups: map<int, string>): int
    requires InRange(groups, 62, -256, 256)
  {
    if 62 !in groups then 256
    else if ParseInt(groups[62]).value < 0 then -ParseInt(groups[62]).value
    else ParseInt(groups[62]).value
  }

  lemma SameLowBits(v: int, w: int)
    ensures v % 0x100_0000 == w % 0x100_0000 <==> (v - w) % 0x100_0000 == 0
  {
  }

  /** Two records have the same colour exactly when both declare true colours of equal low 24 bits, or
      neither declares one and their indexed colours have equal magnitude, an absent one being 256. */
  lemma ColorsAgreeIff(g: map<int, string>, h: map<int, string>, kind: string, other: string)
    requires Declared(g, kind).Ok? && Declared(h, other).Ok?
    ensures InRange(g, 62, -256, 256) && InRange(h, 62, -256, 256)
    ensures Declared(g, kind).value.color == Declared(h, other).value.color <==>
            if 420 in g && 420 in h then (ParseInt(g[420]).value - ParseInt(h[420]).value) % 0x100_0000 == 0
            else 420 !in g && 420 !in h && IndexOf(g) == IndexOf(h)
  {
    DeclaredOkIff(g, kind);
    DeclaredOkIff(h, other);
    assert ColorOf(g) == Ok(Declared(g, kind).value.color) && ColorOf(h) == Ok(Declared(h, other).value.color);
    if 420 in g && 420 in h {
      SameLowBits(ParseInt(g[420]).value, ParseInt(h[420]).value);
    }
  }

  // What the values are.

  function LayerIn(groups: map<int, string>): string {
    if 8 in groups then Upper(groups[8]) else "0"
  }

  function LinetypeIn(groups: map<int, string>): string {
    if 6 in groups then Upper(groups[6]) else "BYLAYER"
  }

  function TextStyleIn(groups: map<int, string>, kind: string): Option<string> {
    if kind !in TEXT_KINDS then None else Some(if 7 in groups then Upper(groups[7]) else "STANDARD")
  }

  function WeightIn(groups: map<int, string>): int
    requires IsWeight(groups)
  {
    if 370 in groups then ParseInt(groups[370]).value else -1
  }

  /** The style of an accepted record, value by value. */
  lemma StyleMeans(groups: map<int, string>, kind: string)
    requires Declared(groups, kind).Ok?
    ensures WellStyled(groups, kind)
    ensures var style := Declared(groups, kind).value;
            && style.layer == LayerIn(groups) && style.linetype == LinetypeIn(groups)
            && style.lineweight == WeightIn(groups) && style.textStyle == TextStyleIn(groups, kind)
            && style.color ==
               if 420 in groups then Rgb(ParseInt(groups[420]).value % 0x100_0000) else Aci(IndexOf(groups))
  {
    DeclaredOkIff(groups, kind);
    if 8 in groups {
      NameIff(groups[8], Layer);
    }
    if 6 in groups {
      NameIff(groups[6], Linetype);
    }
    if 7 in groups {
      NameIff(groups[7], TextStyle);
    }
  }

  // Numbers and handles.

  predicate IsDigit(c: char) {
    '0' <= c <= '9'
  }

  /** Digits, with underscores only between digits. */
  predicate IsNumeral(s: string) {
    && s != "" && IsDigit(s[0]) && IsDigit(s[|s| - 1])
    && (forall k :: 0 <= k < |s| ==> IsDigit(s[k]) || s[k] == '_')
    && (forall k :: 0 < k < |s| ==> IsDigit(s[k - 1]) || IsDigit(s[k]))
  }

  /** The rest of a numeral, after a digit or after an underscore. */
  predicate IsRest(s: string, afterDigit: bool) {
    if afterDigit then s == "" || IsNumeral(s) || (s[0] == '_' && IsNumeral(s[1..])) else IsNumeral(s)
  }

  lemma NumeralStep(s: string)
    requires s != ""
    ensures IsDigit(s[0]) ==> (IsNumeral(s) <==> IsRest(s[1..], true))
  {
    var t := s[1..];
    if IsDigit(s[0]) && IsNumeral(s) && t != "" {
      if IsDigit(t[0]) {
        forall k | 0 < k < |t| ensures IsDigit(t[k - 1]) || IsDigit(t[k]) {
          assert IsDigit(s[k]) || IsDigit(s[k + 1]);
        }
      } else {
        assert |t| > 1;
        var u := t[1..];
        assert IsDigit(s[1]) || IsDigit(s[2]);
        assert u == s[2..];
        forall k | 0 < k < |u| ensures IsDigit(u[k - 1]) || IsDigit(u[k]) {
          assert IsDigit(s[k + 1]) || IsDigit(s[k + 2]);
        }
      }
    }
    if IsDigit(s[0]) && IsRest(t, true) && t != "" {
      if IsNumeral(t) {
        NumeralPrefix(s, 1);
      } else {
        NumeralPrefix(s, 2);
      }
    }
  }

  lemma NumeralPrefix(s: string, n: nat)
    requires 1 <= n <= 2 && n < |s| && IsDigit(s[0]) && IsNumeral(s[n..]) && (n == 2 ==> s[1] == '_')
    ensures IsNumeral(s)
  {
    var t := s[n..];
    assert forall k :: n <= k < |s| ==> s[k] == t[k - n];
    assert IsDigit(s[n]);
    forall k | 0 < k < |s| ensures IsDigit(s[k - 1]) || IsDigit(s[k]) {
      if k > n {
        assert IsDigit(t[k - n - 1]) || IsDigit(t[k - n]);
      }
    }
  }

  lemma {:induction false} DigitsIff(s: string, value: nat, afterDigit: bool)
    ensures Digits(s, value, afterDigit).Some? <==> IsRest(s, afterDigit)
    decreases |s|
  {
    if s != "" {
      NumeralStep(s);
      if IsDigit(s[0]) {
        DigitsIff(s[1..], 10 * value + (s[0] as int - '0' as int), true);
      } else if s[0] == '_' && afterDigit {
        DigitsIff(s[1..], value, false);
      }
    }
  }

  /** A text is read as a number exactly when it is a numeral, with or without a sign before it. */
  lemma NumberIff(s: string)
    ensures ParseInt(s).Some? <==> IsNumeral(s) || (s != "" && s[0] in "+-" && IsNumeral(s[1..]))
  {
    if s != "" && s[0] in "+-" {
      DigitsIff(s[1..], 0, false);
    } else {
      DigitsIff(s, 0, false);
    }
  }

  /** The handle of a record is its group 5 in upper case, if that is a hexadecimal number. */
  lemma HandleIff(groups: map<int, string>, h: string)
    ensures HandleOf(groups) == Some(h) <==>
            5 in groups && h == Upper(groups[5]) && h != "" && forall k :: 0 <= k < |h| ==> h[k] in "0123456789ABCDEF"
  {
    assert forall c: char :: IsHex(c) <==> c in "0123456789ABCDEF";
    assert 5 !in groups ==> Upper("") == "";
  }

  // Absent values.

  function Filled(groups: map<int, string>, code: int, value: string): map<int, string> {
    if code in groups then groups else groups[code := value]
  }

  lemma FilledName(groups: map<int, string>, code: int, value: string, property: Property, absent: string)
    requires IsName(value) && Upper(value) == absent
    ensures NameOf(Filled(groups, code, value), code, property, absent) == NameOf(groups, code, property, absent)
  {
    NameIff(value, property);
  }

  lemma DefaultNames()
    ensures IsName("0") && Upper("0") == "0"
    ensures IsName("ByLayer") && Upper("ByLayer") == "BYLAYER"
    ensures IsName("Standard") && Upper("Standard") == "STANDARD"
  {
  }

  lemma FilledLayer(groups: map<int, string>, kind: string)
    ensures Declared(Filled(groups, 8, "0"), kind) == Declared(groups, kind)
  {
    DefaultNames();
    FilledName(groups, 8, "0", Layer, "0");
  }

  lemma FilledLinetype(groups: map<int, string>, kind: string)
    ensures Declared(Filled(groups, 6, "ByLayer"), kind) == Declared(groups, kind)
  {
    DefaultNames();
    FilledName(groups, 6, "ByLayer", Linetype, "BYLAYER");
  }

  lemma FilledTextStyle(groups: map<int, string>, kind: string)
    ensures Declared(Filled(groups, 7, "Standard"), kind) == Declared(groups, kind)
  {
    DefaultNames();
    FilledName(groups, 7, "Standard", TextStyle, "STANDARD");
  }

  lemma FilledColor(groups: map<int, string>, kind: string)
    ensures Declared(Filled(groups, 62, Written(256)), kind) == Declared(groups, kind)
  {
    IntReadsBack(256);
    assert AciOf(Filled(groups, 62, Written(256))) == AciOf(groups);
  }

  lemma FilledLineweight(groups: map<int, string>, kind: string)
    ensures Declared(Filled(groups, 370, Written(-1)), kind) == Declared(groups, kind)
  {
    IntReadsBack(-1);
    assert LineweightOf(Filled(groups, 370, Written(-1))) == LineweightOf(groups);
  }

  /** The groups with the documented default written out wherever one is absent. */
  function WithDefaults(groups: map<int, string>): map<int, string> {
    var named := Filled(Filled(groups, 8, "0"), 6, "ByLayer");
    Filled(Filled(Filled(named, 62, Written(256)), 370, Written(-1)), 7, "Standard")
  }

  /** An absent value means its default: writing the defaults out changes neither style nor refusal. */
  lemma AbsentMeansDefault(groups: map<int, string>, kind: string)
    ensures Declared(WithDefaults(groups), kind) == Declared(groups, kind)
  {
    var g1 := Filled(groups, 8, "0");
    var g2 := Filled(g1, 6, "ByLayer");
    var g3 := Filled(g2, 62, Written(256));
    var g4 := Filled(g3, 370, Written(-1));
    FilledLayer(groups, kind);
    FilledLinetype(g1, kind);
    FilledColor(g2, kind);
    FilledLineweight(g3, kind);
    FilledTextStyle(g4, kind);
  }
}
