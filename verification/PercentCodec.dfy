/**
 The percent code that carries drawing names from the AutoLISP catalogue writer to the
 Python intake parser: an encoder that works character by character, a decoder that is
 four whole-text replacements, and the rows and lines the encoded names travel in.
 */
module PercentCodec {
  import opened Prelude

  const SPECIALS := {'%', '|', '\r', '\n'}

  /** What the encoder writes for one character. */
  function Token(c: char): string {
    if c == '%' then "%25"
    else if c == '|' then "%7C"
    else if c == '\r' then "%0D"
    else if c == '\n' then "%0A"
    else [c]
  }

  /** The encoding of a text in which the characters of `plain` are left as they are. */
  function Partial(s: string, plain: set<char>): string {
    if s == "" then "" else (if s[0] in plain then [s[0]] else Token(s[0])) + Partial(s[1..], plain)
  }

  function Encoded(s: string): string {
    Partial(s, {})
  }

  method Encode(value: string) returns (result: string)
    ensures result == Encoded(value)
  {
    result := "";
    var k := 0;
    while k < |value|
      invariant 0 <= k <= |value|
      invariant result + Encoded(value[k..]) == Encoded(value)
    {
      var ch := value[k];
      assert value[k..][1..] == value[k + 1..];
      result := result + Token(ch);
      k := k + 1;
    }
    assert value[k..] == "";
  }

  /** Leftmost, non-overlapping replacement over the whole text. */
  function Replace(s: string, pattern: string, with: string): string
    requires |pattern| > 0
  {
    if |s| < |pattern| then s
    else if s[..|pattern|] == pattern then with + Replace(s[|pattern|..], pattern, with)
    else [s[0]] + Replace(s[1..], pattern, with)
  }

  function Decode(s: string): string {
    Replace(Replace(Replace(Replace(s, "%7C", "|"), "%0D", "\r"), "%0A", "\n"), "%25", "%")
  }

  // One replacement decodes one special character and disturbs nothing else.

  lemma SkipOne(c: char, rest: string, pattern: string, with: string)
    requires |pattern| == 3 && c != pattern[0]
    ensures Replace([c] + rest, pattern, with) == [c] + Replace(rest, pattern, with)
  {
    var s := [c] + rest;
    assert s[1..] == rest;
    if |s| >= 3 {
      assert s[..3][0] == c;
    }
  }

  lemma SkipToken(c: char, rest: string, target: char)
    requires c in SPECIALS && target in SPECIALS && c != target
    ensures Replace(Token(c) + rest, Token(target), [target]) == Token(c) + Replace(rest, Token(target), [target])
  {
    var pattern, token := Token(target), Token(c);
    var s := token + rest;
    assert s[..3] == token;
    assert s[1..] == [token[1]] + ([token[2]] + rest);
    SkipOne(token[1], [token[2]] + rest, pattern, [target]);
    SkipOne(token[2], rest, pattern, [target]);
  }

  lemma TakeToken(rest: string, target: char)
    requires target in SPECIALS
    ensures Replace(Token(target) + rest, Token(target), [target]) == [target] + Replace(rest, Token(target), [target])
  {
    var s := Token(target) + rest;
    assert s[..3] == Token(target) && s[3..] == rest;
  }

  /**
   The scan never leaves the token boundaries of the encoded text, so replacing the token of
   one special character decodes that character and no other, as long as '%' is still encoded.
   */
  lemma {:induction false} ReplaceDecodesOne(s: string, plain: set<char>, target: char)
    requires target in SPECIALS && '%' !in plain && target !in plain
    ensures Replace(Partial(s, plain), Token(target), [target]) == Partial(s, plain + {target})
  {
    if s != "" {
      var c, rest := s[0], Partial(s[1..], plain);
      ReplaceDecodesOne(s[1..], plain, target);
      if c == target {
        TakeToken(rest, target);
      } else if c in plain || c !in SPECIALS {
        SkipOne(c, rest, Token(target), [target]);
      } else {
        SkipToken(c, rest, target);
      }
    }
  }

  lemma {:induction false} AllPlain(s: string)
    ensures Partial(s, SPECIALS) == s
  {
    if s != "" {
      AllPlain(s[1..]);
      assert s == [s[0]] + s[1..];
    }
  }

  /** Decoding undoes encoding on every text, also where it already spells an escape. */
  lemma RoundTrip(s: string)
    ensures Decode(Encoded(s)) == s
  {
    ReplaceDecodesOne(s, {}, '|');
    ReplaceDecodesOne(s, {'|'}, '\r');
    ReplaceDecodesOne(s, {'|', '\r'}, '\n');
    ReplaceDecodesOne(s, {'|', '\r', '\n'}, '%');
    assert {} + {'|'} == {'|'};
    assert {'|'} + {'\r'} == {'|', '\r'};
    assert {'|', '\r'} + {'\n'} == {'|', '\r', '\n'};
    assert {'|', '\r', '\n'} + {'%'} == SPECIALS;
    AllPlain(s);
  }

  /** Which characters an encoding holds: its own '%' escapes, and the text's ordinary ones. */
  lemma {:induction false} EncodedCharacters(s: string, c: char)
    ensures c in {'|', '\r', '\n'} ==> c !in Encoded(s)
    ensures c !in SPECIALS && c !in "%257C0DA" ==> (c in Encoded(s) <==> c in s)
  {
    if s != "" {
      EncodedCharacters(s[1..], c);
      assert s == [s[0]] + s[1..];
      TokenCharacters(s[0], c);
    }
  }

  lemma TokenCharacters(d: char, c: char)
    ensures c in {'|', '\r', '\n'} ==> c !in Token(d)
    ensures c !in SPECIALS && c !in "%257C0DA" ==> (c in Token(d) <==> c == d)
  {
    if d in SPECIALS {
      assert c in Token(d) ==> c in "%257C0DA";
    }
  }

  // Rows: a tag and fields between bars.

  function Join(fields: seq<string>): string
    requires |fields| > 0
  {
    if |fields| == 1 then fields[0] else fields[0] + "|" + Join(fields[1..])
  }

  function Split(s: string): (fields: seq<string>)
    ensures |fields| > 0
  {
    if s == "" then [""]
    else if s[0] == '|' then [""] + Split(s[1..])
    else var rest := Split(s[1..]); [[s[0]] + rest[0]] + rest[1..]
  }

  predicate BarFree(fields: seq<string>) {
    forall f :: f in fields ==> '|' !in f
  }

  lemma {:induction false} SplitOne(s: string)
    requires '|' !in s
    ensures Split(s) == [s]
  {
    if s != "" {
      SplitOne(s[1..]);
      assert s == [s[0]] + s[1..];
    }
  }

  lemma {:induction false} SplitAtBar(s: string, rest: string)
    requires '|' !in s
    ensures Split(s + "|" + rest) == [s] + Split(rest)
  {
    var whole := s + "|" + rest;
    if s == "" {
      assert whole[1..] == rest;
    } else {
      assert whole[1..] == s[1..] + "|" + rest;
      SplitAtBar(s[1..], rest);
      assert s == [s[0]] + s[1..];
    }
  }

  lemma {:induction false} SplitUndoesJoin(fields: seq<string>)
    requires |fields| > 0 && BarFree(fields)
    ensures Split(Join(fields)) == fields
  {
    if |fields| == 1 {
      SplitOne(fields[0]);
    } else {
      SplitUndoesJoin(fields[1..]);
      SplitAtBar(fields[0], Join(fields[1..]));
    }
  }

  /** A field of a row: a drawing name, which is encoded, or text that needs no encoding, such as a
      number, a point, or a label whose bars and line ends were blanked out. */
  datatype Field = Name(text: string) | Plain(text: string)

  predicate IsField(f: Field) {
    f.Plain? ==> '|' !in f.text && '\r' !in f.text && '\n' !in f.text
  }

  predicate AllFields(fields: seq<Field>) {
    forall k :: 0 <= k < |fields| ==> IsField(fields[k])
  }

  function Written(f: Field): string {
    if f.Name? then Encoded(f.text) else f.text
  }

  function WriteAll(fields: seq<Field>): (r: seq<string>)
    ensures |r| == |fields| && forall k :: 0 <= k < |r| ==> r[k] == Written(fields[k])
  {
    seq(|fields|, k requires 0 <= k < |fields| => Written(fields[k]))
  }

  /** Which fields of a row are names; the reader knows it from the tag and the place. */
  function NamesIn(fields: seq<Field>): (r: seq<bool>)
    ensures |r| == |fields| && forall k :: 0 <= k < |r| ==> r[k] == fields[k].Name?
  {
    seq(|fields|, k requires 0 <= k < |fields| => fields[k].Name?)
  }

  function ReadAll(parts: seq<string>, names: seq<bool>): (r: seq<Field>)
    requires |parts| == |names|
    ensures |r| == |parts|
    ensures forall k :: 0 <= k < |r| ==> r[k] == if names[k] then Name(Decode(parts[k])) else Plain(parts[k])
  {
    seq(|parts|, k requires 0 <= k < |parts| => if names[k] then Name(Decode(parts[k])) else Plain(parts[k]))
  }

  /** One written row: its tag, then its fields. */
  function Row(tag: string, fields: seq<Field>): string
    requires |fields| > 0
  {
    tag + "|" + Join(WriteAll(fields))
  }

  function FirstBar(line: string): (k: nat)
    ensures k <= |line| && '|' !in line[..k] && (k < |line| ==> line[k] == '|')
  {
    if line == "" || line[0] == '|' then 0 else 1 + FirstBar(line[1..])
  }

  /** One read row: cut at the first bar, then at every further one; a wrong number of fields is refused. */
  function ParseRow(line: string, names: seq<bool>): Option<(string, seq<Field>)> {
    var k := FirstBar(line);
    if k == |line| then None
    else
      var parts := Split(line[k + 1..]);
      if |parts| != |names| then None else Some((line[..k], ReadAll(parts, names)))
  }

  lemma WrittenIsBarFree(fields: seq<Field>)
    requires AllFields(fields)
    ensures BarFree(WriteAll(fields))
  {
    forall k | 0 <= k < |fields| ensures '|' !in WriteAll(fields)[k] {
      EncodedCharacters(fields[k].text, '|');
    }
  }

  lemma FieldsReadBack(fields: seq<Field>)
    ensures ReadAll(WriteAll(fields), NamesIn(fields)) == fields
  {
    var back := ReadAll(WriteAll(fields), NamesIn(fields));
    forall k | 0 <= k < |fields| ensures back[k] == fields[k] {
      RoundTrip(fields[k].text);
    }
  }

  lemma TagReadsBack(tag: string, rest: string)
    requires '|' !in tag
    ensures FirstBar(tag + "|" + rest) == |tag|
  {
    var line := tag + "|" + rest;
    assert line[|tag|] == '|' && line[..|tag|] == tag;
  }

  /** A row reads back as its tag and its fields, whatever its names hold. */
  lemma RowRoundTrip(tag: string, fields: seq<Field>)
    requires '|' !in tag && |fields| > 0 && AllFields(fields)
    ensures ParseRow(Row(tag, fields), NamesIn(fields)) == Some((tag, fields))
  {
    var line, joined := Row(tag, fields), Join(WriteAll(fields));
    TagReadsBack(tag, joined);
    assert line[..|tag|] == tag && line[|tag| + 1..] == joined;
    WrittenIsBarFree(fields);
    SplitUndoesJoin(WriteAll(fields));
    FieldsReadBack(fields);
  }

  // Lines: the two readers of the catalogue cut the text at different characters.

  datatype Reader = FromFile | FromText

  /** The line ends that the text reader knows and the file reader does not. */
  const OTHER_BREAKS :=
    {'\U{0B}', '\U{0C}', '\U{1C}', '\U{1D}', '\U{1E}', '\U{85}', '\U{2028}', '\U{2029}'}

  predicate IsBreak(reader: Reader, c: char) {
    c == '\r' || c == '\n' || (reader == FromText && c in OTHER_BREAKS)
  }

  predicate BreakFree(reader: Reader, line: string) {
    forall c :: c in line ==> !IsBreak(reader, c)
  }

  /** The lines of a text, without their ends; a carriage return and line feed are one end. */
  function Lines(reader: Reader, text: string): seq<string> {
    if text == "" then []
    else if IsBreak(reader, text[0]) then
      [""] + Lines(reader, text[(if |text| > 1 && text[..2] == "\r\n" then 2 else 1)..])
    else
      var rest := Lines(reader, text[1..]);
      if rest == [] then [[text[0]]] else [[text[0]] + rest[0]] + rest[1..]
  }

  predicate IsLineEnd(eol: string) {
    eol == "\n" || eol == "\r\n"
  }

  function FileText(lines: seq<string>, eol: string): string {
    if lines == [] then "" else lines[0] + eol + FileText(lines[1..], eol)
  }

  lemma {:induction false} LinesAtEnd(reader: Reader, line: string, eol: string, rest: string)
    requires BreakFree(reader, line) && IsLineEnd(eol)
    ensures Lines(reader, line + eol + rest) == [line] + Lines(reader, rest)
  {
    var text := line + eol + rest;
    if line == "" {
      assert text[|eol|..] == rest;
      assert eol == "\r\n" ==> text[..2] == eol;
    } else {
      assert text[1..] == line[1..] + eol + rest;
      assert text[0] in line;
      LinesAtEnd(reader, line[1..], eol, rest);
      assert line == [line[0]] + line[1..];
    }
  }

  lemma {:induction false} LinesOfFile(reader: Reader, lines: seq<string>, eol: string)
    requires IsLineEnd(eol) && forall l :: l in lines ==> BreakFree(reader, l)
    ensures Lines(reader, FileText(lines, eol)) == lines
  {
    if lines != [] {
      LinesOfFile(reader, lines[1..], eol);
      LinesAtEnd(reader, lines[0], eol, FileText(lines[1..], eol));
    }
  }

  lemma {:induction false} LinesHoldNoBreak(reader: Reader, text: string)
    ensures forall l :: l in Lines(reader, text) ==> BreakFree(reader, l)
    decreases |text|
  {
    if text == "" {
    } else if IsBreak(reader, text[0]) {
      var k := if |text| > 1 && text[..2] == "\r\n" then 2 else 1;
      LinesHoldNoBreak(reader, text[k..]);
    } else {
      LinesHoldNoBreak(reader, text[1..]);
      var rest := Lines(reader, text[1..]);
      assert rest != [] ==> BreakFree(reader, rest[0]);
    }
  }

  /** Text is read back line by line exactly when no line holds a line end of the reader. */
  lemma LinesRoundTripIff(reader: Reader, lines: seq<string>, eol: string)
    requires IsLineEnd(eol)
    ensures Lines(reader, FileText(lines, eol)) == lines <==> forall l :: l in lines ==> BreakFree(reader, l)
  {
    if forall l :: l in lines ==> BreakFree(reader, l) {
      LinesOfFile(reader, lines, eol);
    } else {
      LinesHoldNoBreak(reader, FileText(lines, eol));
    }
  }

  // The whole catalogue.

  datatype Entry = Entry(tag: string, fields: seq<Field>)

  predicate IsEntry(e: Entry) {
    |e.fields| > 0 && AllFields(e.fields) && '|' !in e.tag && BreakFree(FromText, e.tag)
  }

  predicate AllEntries(entries: seq<Entry>) {
    forall k :: 0 <= k < |entries| ==> IsEntry(entries[k])
  }

  function Rows(entries: seq<Entry>): (rows: seq<string>)
    requires AllEntries(entries)
    ensures |rows| == |entries|
    ensures forall k :: 0 <= k < |rows| ==> rows[k] == Row(entries[k].tag, entries[k].fields)
  {
    seq(|entries|, k requires 0 <= k < |entries| => Row(entries[k].tag, entries[k].fields))
  }

  predicate Holds(texts: seq<string>, c: char) {
    exists k :: 0 <= k < |texts| && c in texts[k]
  }

  predicate FieldsHold(fields: seq<Field>, c: char) {
    exists k :: 0 <= k < |fields| && c in fields[k].text
  }

  predicate OneLineEach(entries: seq<Entry>) {
    forall k, c :: 0 <= k < |entries| && c in OTHER_BREAKS ==> !FieldsHold(entries[k].fields, c)
  }

  lemma {:induction false} JoinCharacters(fields: seq<string>, c: char)
    requires |fields| > 0 && c != '|'
    ensures c in Join(fields) <==> Holds(fields, c)
  {
    if |fields| > 1 {
      var rest := fields[1..];
      JoinCharacters(rest, c);
      if Holds(rest, c) {
        var k :| 0 <= k < |rest| && c in rest[k];
        assert rest[k] == fields[k + 1];
      }
      if Holds(fields, c) && c !in fields[0] {
        var k :| 0 <= k < |fields| && c in fields[k];
        assert rest[k - 1] == fields[k];
      }
    }
  }

  lemma OtherBreaksAreOrdinary(c: char)
    requires c in OTHER_BREAKS
    ensures c !in SPECIALS && c !in "%257C0DA"
  {
  }

  lemma WrittenHolds(f: Field, c: char)
    requires IsField(f) && IsBreak(FromText, c)
    ensures c in Written(f) <==> c in OTHER_BREAKS && c in f.text
  {
    EncodedCharacters(f.text, c);
    if c in OTHER_BREAKS {
      OtherBreaksAreOrdinary(c);
    } else {
      assert c in {'|', '\r', '\n'};
    }
  }

  lemma WrittenFieldsHold(fields: seq<Field>, c: char)
    requires AllFields(fields) && IsBreak(FromText, c)
    ensures Holds(WriteAll(fields), c) <==> c in OTHER_BREAKS && FieldsHold(fields, c)
  {
    var texts := WriteAll(fields);
    forall k | 0 <= k < |fields| ensures c in texts[k] <==> c in OTHER_BREAKS && c in fields[k].text {
      WrittenHolds(fields[k], c);
    }
  }

  lemma RowCharacters(e: Entry, c: char)
    requires IsEntry(e) && IsBreak(FromText, c)
    ensures c in Row(e.tag, e.fields) <==> c in OTHER_BREAKS && FieldsHold(e.fields, c)
  {
    JoinCharacters(WriteAll(e.fields), c);
    WrittenFieldsHold(e.fields, c);
  }

  lemma RowIsOneLineIff(reader: Reader, e: Entry)
    requires IsEntry(e)
    ensures BreakFree(reader, Row(e.tag, e.fields))
       <==> reader == FromFile || forall c :: c in OTHER_BREAKS ==> !FieldsHold(e.fields, c)
  {
    forall c | IsBreak(FromText, c)
      ensures c in Row(e.tag, e.fields) <==> c in OTHER_BREAKS && FieldsHold(e.fields, c)
    {
      RowCharacters(e, c);
    }
  }

  /**
   The catalogue read from a file comes back as written, whatever it holds. Read from downloaded
   text it does so exactly when no field holds one of the line ends the writer leaves alone.
   */
  lemma CatalogueLinesIff(reader: Reader, entries: seq<Entry>, eol: string)
    requires IsLineEnd(eol) && AllEntries(entries)
    ensures Lines(reader, FileText(Rows(entries), eol)) == Rows(entries)
       <==> reader == FromFile || OneLineEach(entries)
  {
    var rows := Rows(entries);
    LinesRoundTripIff(reader, rows, eol);
    forall k | 0 <= k < |entries|
      ensures BreakFree(reader, rows[k])
         <==> reader == FromFile || forall c :: c in OTHER_BREAKS ==> !FieldsHold(entries[k].fields, c)
    {
      RowIsOneLineIff(reader, entries[k]);
    }
  }

  /** A block named by one form feed is lost on the text reader. */
  lemma FormFeedSplitsItsRow()
    ensures var entries := [Entry("BK", [Name("\U{0C}")])];
            AllEntries(entries) && Lines(FromText, FileText(Rows(entries), "\n")) != Rows(entries)
  {
    var entries := [Entry("BK", [Name("\U{0C}")])];
    assert FieldsHold(entries[0].fields, '\U{0C}') by {
      assert '\U{0C}' in entries[0].fields[0].text;
    }
    CatalogueLinesIff(FromText, entries, "\n");
  }

  /** Where the lines come back, each is its entry again. */
  lemma CatalogueRoundTrip(reader: Reader, entries: seq<Entry>, eol: string, k: nat)
    requires IsLineEnd(eol) && AllEntries(entries) && k < |entries|
    requires reader == FromFile || OneLineEach(entries)
    ensures var lines := Lines(reader, FileText(Rows(entries), eol));
            && |lines| == |entries|
            && ParseRow(lines[k], NamesIn(entries[k].fields)) == Some((entries[k].tag, entries[k].fields))
  {
    CatalogueLinesIff(reader, entries, eol);
    RowRoundTrip(entries[k].tag, entries[k].fields);
  }
}
