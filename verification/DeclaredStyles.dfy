/**
 The declared-style scan of a DXF file: one pass over its (group code, value) pairs that keeps
 every ENTITIES record and BLOCKS child with its normalized style. The file is given as its
 decoded and stripped lines.
 */
module DeclaredStyles {
  import opened Prelude

  const STYLE_CODES := {5, 6, 7, 8, 62, 370, 420}
  const TEXT_KINDS := {"TEXT", "MTEXT", "ATTRIB", "ATTDEF"}
  const BOUNDARIES := {"SECTION", "ENDSEC", "BLOCK", "ENDBLK"}
  const LINEWEIGHTS := {-3, -2, -1, 0, 5, 9, 13, 15, 18, 20, 25, 30, 35,
                        40, 50, 53, 60, 70, 80, 90, 100, 106, 120, 140, 158, 200, 211}
  const MAX_STYLE_NAME := 255

  datatype Property = Layer | Color | Linetype | Lineweight | TextStyle

  datatype Hue = Aci(index: nat) | Rgb(packed: nat)

  datatype Style = Style(layer: string, color: Hue, linetype: string, lineweight: int, textStyle: Option<string>)

  datatype Error = OddLines | BadCode | Malformed(property: Property) | DuplicateHandle(handle: string)

  /** A record as it is read, and the pair that started it. */
  datatype Raw = Raw(section: string, block: string, kind: string, groups: map<int, string>, at: nat)

  datatype Record = Record(raw: Raw, style: Style, handle: Option<string>)

  datatype Drawing = Drawing(keyed: map<string, Record>, ordered: seq<Record>)

  // Values.

  function UpperChar(c: char): char {
    if 'a' <= c <= 'z' then (c as int - 32) as char else c
  }

  function Upper(s: string): (r: string)
    ensures |r| == |s|
  {
    seq(|s|, k requires 0 <= k < |s| => UpperChar(s[k]))
  }

  /** Digits, with single underscores allowed between them. */
  function Digits(s: string, value: nat, afterDigit: bool): Option<nat> {
    if s == "" then (if afterDigit then Some(value) else None)
    else if '0' <= s[0] <= '9' then Digits(s[1..], 10 * value + (s[0] as int - '0' as int), true)
    else if s[0] == '_' && afterDigit then Digits(s[1..], value, false)
    else None
  }

  function ParseInt(s: string): Option<int> {
    if s != "" && s[0] in "+-" then
      match Digits(s[1..], 0, false)
      case None => None
      case Some(n) => var v: int := n; Some(if s[0] == '-' then -v else v)
    else
      Digits(s, 0, false)
  }

  predicate IsControl(c: char) {
    c < ' ' || c == '\U{7F}'
  }

  function StyleName(value: string, property: Property): Result<string, Error> {
    if value == "" || |value| > MAX_STYLE_NAME || exists c :: c in value && IsControl(c)
    then Err(Malformed(property))
    else Ok(Upper(value))
  }

  function NameOf(groups: map<int, string>, code: int, property: Property, absent: string): Result<string, Error> {
    if code in groups then StyleName(groups[code], property) else Ok(absent)
  }

  function AciOf(groups: map<int, string>): Result<Hue, Error> {
    if 62 !in groups then Ok(Aci(256))
    else
      match ParseInt(groups[62])
      case None => Err(Malformed(Color))
      case Some(v) => if -256 <= v <= 256 then Ok(Aci(if v < 0 then -v else v)) else Err(Malformed(Color))
  }

  /** A true colour replaces the indexed one, which is still checked. */
  function ColorOf(groups: map<int, string>): Result<Hue, Error> {
    var aci := AciOf(groups);
    if aci.Err? || 420 !in groups then aci
    else
      match ParseInt(groups[420])
      case None => Err(Malformed(Color))
      case Some(v) =>
        if -0x8000_0000 <= v <= 0xFFFF_FFFF then Ok(Rgb(v % 0x100_0000)) else Err(Malformed(Color))
  }

  function LineweightOf(groups: map<int, string>): Result<int, Error> {
    if 370 !in groups then Ok(-1)
    else
      match ParseInt(groups[370])
      case None => Err(Malformed(Lineweight))
      case Some(v) => if v in LINEWEIGHTS then Ok(v) else Err(Malformed(Lineweight))
  }

  function TextStyleOf(groups: map<int, string>, kind: string): Result<Option<string>, Error> {
    if kind !in TEXT_KINDS then Ok(None)
    else
      match NameOf(groups, 7, TextStyle, "STANDARD")
      case Err(e) => Err(e)
      case Ok(name) => Ok(Some(name))
  }

  /** The style a record declares by itself. */
  function Declared(groups: map<int, string>, kind: string): Result<Style, Error> {
    match ColorOf(groups)
    case Err(e) => Err(e)
    case Ok(color) =>
      match LineweightOf(groups)
      case Err(e) => Err(e)
      case Ok(lineweight) =>
        match NameOf(groups, 8, Layer, "0")
        case Err(e) => Err(e)
        case Ok(layer) =>
          match NameOf(groups, 6, Linetype, "BYLAYER")
          case Err(e) => Err(e)
          case Ok(linetype) =>
            match TextStyleOf(groups, kind)
            case Err(e) => Err(e)
            case Ok(textStyle) => Ok(Style(layer, color, linetype, lineweight, textStyle))
  }

  predicate IsHex(c: char) {
    '0' <= c <= '9' || 'A' <= c <= 'F'
  }

  function HandleOf(groups: map<int, string>): Option<string> {
    var h := Upper(if 5 in groups then groups[5] else "");
    if h != "" && forall c :: c in h ==> IsHex(c) then Some(h) else None
  }

  // The scan.

  datatype Scan = Scan(keyed: map<string, Record>, ordered: seq<Record>, record: Option<Raw>,
                       owner: Option<Record>, section: Option<string>, pending: bool,
                       block: string, header: bool, seen: nat)

  const START := Scan(map[], [], None, None, None, false, "", false, 0)

  /** A record without a layer of its own that sits on the layer of the open sequence. */
  predicate Inherits(raw: Raw, owner: Option<Record>) {
    raw.kind in {"VERTEX", "SEQEND"} && 8 !in raw.groups && owner.Some?
    && (raw.kind == "SEQEND" || owner.value.raw.kind == "POLYLINE")
  }

  predicate Continues(kind: string, owner: Option<Record>) {
    owner.Some? && (kind, owner.value.raw.kind) in {("VERTEX", "POLYLINE"), ("ATTRIB", "INSERT")}
  }

  function NextOwner(rec: Record, owner: Option<Record>): Option<Record> {
    if rec.raw.kind in {"POLYLINE", "INSERT"} then Some(rec)
    else if Continues(rec.raw.kind, owner) then owner else None
  }

  function Finished(raw: Raw, style: Style, owner: Option<Record>): Record {
    Record(raw, if Inherits(raw, owner) then style.(layer := owner.value.style.layer) else style, HandleOf(raw.groups))
  }

  /** The record being read, if any, is complete. */
  function Keep(s: Scan): Result<Scan, Error> {
    if s.record == None then Ok(s)
    else
      match Declared(s.record.value.groups, s.record.value.kind)
      case Err(e) => Err(e)
      case Ok(style) =>
        var rec := Finished(s.record.value, style, s.owner);
        if rec.handle.Some? && rec.handle.value in s.keyed then Err(DuplicateHandle(rec.handle.value))
        else Ok(s.(keyed := if rec.handle.Some? then s.keyed[rec.handle.value := rec] else s.keyed,
                   ordered := s.ordered + [rec], owner := NextOwner(rec, s.owner)))
  }

  /** A pair with code 0 starts a record inside the two sections, unless it frames a block there. */
  predicate Starts(section: Option<string>, kind: string) {
    section in {Some("ENTITIES"), Some("BLOCKS")} && kind !in {"SECTION", "ENDSEC"}
    && !(section == Some("BLOCKS") && kind in {"BLOCK", "ENDBLK"})
  }

  /** A pair with code 0 begins something new. */
  function Begin(s: Scan, kind: string): Scan {
    var frame := kind in {"SECTION", "ENDSEC"};
    var inBlocks := s.section == Some("BLOCKS");
    s.(record := if Starts(s.section, kind) then Some(Raw(s.section.value, s.block, kind, map[], s.seen)) else None,
       owner := if kind in BOUNDARIES then None else s.owner,
       section := if frame then None else s.section,
       pending := kind == "SECTION" || (s.pending && !frame),
       block := if frame || (inBlocks && kind in {"BLOCK", "ENDBLK"}) then "" else s.block,
       header := inBlocks && kind == "BLOCK")
  }

  /** The first value of a group wins. */
  function Grown(record: Option<Raw>, code: int, value: string): Option<Raw> {
    if record.Some? && code in STYLE_CODES && code !in record.value.groups
    then Some(record.value.(groups := record.value.groups[code := value]))
    else record
  }

  /** Any other pair names the section or block just begun, or belongs to the record being read. */
  function Attach(s: Scan, code: int, value: string): Scan {
    s.(section := if s.pending && code == 2 then Some(Upper(value)) else s.section,
       pending := s.pending && code != 2,
       block := if !s.pending && s.header && code == 2 then Upper(value) else s.block,
       header := s.header && (s.pending || code != 2),
       record := Grown(s.record, code, value))
  }

  function Step(s: Scan, codeLine: string, value: string): Result<Scan, Error> {
    match ParseInt(codeLine)
    case None => Err(BadCode)
    case Some(code) =>
      if code == 0 then
        match Keep(s)
        case Err(e) => Err(e)
        case Ok(kept) => Ok(Begin(kept, Upper(value)).(seen := s.seen + 1))
      else Ok(Attach(s, code, value).(seen := s.seen + 1))
  }

  /** The scan after the first `k` pairs. */
  function ScanTo(lines: seq<string>, k: nat): Result<Scan, Error>
    requires 2 * k <= |lines|
  {
    if k == 0 then Ok(START)
    else
      match ScanTo(lines, k - 1)
      case Err(e) => Err(e)
      case Ok(s) => Step(s, lines[2 * k - 2], lines[2 * k - 1])
  }

  function Scanned(lines: seq<string>): Result<Drawing, Error> {
    if |lines| % 2 != 0 then Err(OddLines)
    else
      match ScanTo(lines, |lines| / 2)
      case Err(e) => Err(e)
      case Ok(s) =>
        match Keep(s)
        case Err(e) => Err(e)
        case Ok(kept) => Ok(Drawing(kept.keyed, kept.ordered))
  }

  lemma ScanNext(lines: seq<string>, k: nat, s: Scan)
    requires 2 * k + 1 < |lines| && ScanTo(lines, k) == Ok(s)
    ensures ScanTo(lines, k + 1) == Step(s, lines[2 * k], lines[2 * k + 1])
  {
  }

  lemma {:induction false} ErrorsStay(lines: seq<string>, k: nat, n: nat)
    requires k <= n && 2 * n <= |lines| && ScanTo(lines, k).Err?
    ensures ScanTo(lines, n) == ScanTo(lines, k)
  {
    if k < n {
      ErrorsStay(lines, k, n - 1);
    }
  }

  class Scanner {
    var keyed: map<string, Record>
    var ordered: seq<Record>
    var record: Option<Raw>
    var owner: Option<Record>
    var section: Option<string>
    var sectionPending: bool
    var blockName: string
    var blockHeader: bool
    var seen: nat

    constructor ()
      ensures State() == START
    {
      keyed, ordered, record, owner := map[], [], None, None;
      section, sectionPending, blockName, blockHeader, seen := None, false, "", false, 0;
    }

    function State(): Scan
      reads this
    {
      Scan(keyed, ordered, record, owner, section, sectionPending, blockName, blockHeader, seen)
    }

    method KeepRecord() returns (failure: Option<Error>)
      modifies this`keyed, this`ordered, this`owner
      ensures Keep(old(State())) == if failure.Some? then Err(failure.value) else Ok(State())
    {
      if record == None {
        return None;
      }
      var raw := record.value;
      var declared := Declared(raw.groups, raw.kind);
      if declared.Err? {
        return Some(declared.error);
      }
      var style := declared.value;
      if raw.kind in {"VERTEX", "SEQEND"} && 8 !in raw.groups && owner != None
         && (raw.kind == "SEQEND" || owner.value.raw.kind == "POLYLINE")
      {
        style := style.(layer := owner.value.style.layer);
      }
      var kept := Record(raw, style, HandleOf(raw.groups));
      if raw.kind in {"POLYLINE", "INSERT"} {
        owner := Some(kept);
      } else if !Continues(raw.kind, owner) {
        owner := None;
      }
      if kept.handle != None {
        if kept.handle.value in keyed {
          return Some(DuplicateHandle(kept.handle.value));
        }
        keyed := keyed[kept.handle.value := kept];
      }
      ordered := ordered + [kept];
      return None;
    }

    method BeginKind(kind: string)
      modifies this
      ensures State() == Begin(old(State()), kind)
    {
      record := None;
      blockHeader := false;
      if kind in BOUNDARIES {
        owner := None;
      }
      if kind == "SECTION" {
        sectionPending, section, blockName := true, None, "";
      } else if kind == "ENDSEC" {
        section, sectionPending, blockName := None, false, "";
      } else if section == Some("BLOCKS") && kind == "BLOCK" {
        blockHeader, blockName := true, "";
      } else if section == Some("BLOCKS") && kind == "ENDBLK" {
        blockName := "";
      } else if section in {Some("ENTITIES"), Some("BLOCKS")} {
        record := Some(Raw(section.value, blockName, kind, map[], seen));
      }
    }

    method AttachValue(code: int, value: string)
      modifies this
      ensures State() == Attach(old(State()), code, value)
    {
      if sectionPending && code == 2 {
        section, sectionPending := Some(Upper(value)), false;
      } else if blockHeader && code == 2 {
        blockName, blockHeader := Upper(value), false;
      } else if record != None && code in STYLE_CODES && code !in record.value.groups {
        record := Some(record.value.(groups := record.value.groups[code := value]));
      }
    }

    method ReadPair(codeLine: string, value: string) returns (failure: Option<Error>)
      modifies this
      ensures Step(old(State()), codeLine, value) == if failure.Some? then Err(failure.value) else Ok(State())
    {
      var code := ParseInt(codeLine);
      if code == None {
        return Some(BadCode);
      }
      if code.value == 0 {
        failure := KeepRecord();
        if failure != None {
          return;
        }
        BeginKind(Upper(value));
      } else {
        AttachValue(code.value, value);
      }
      seen := seen + 1;
      return None;
    }

    method ReadAll(lines: seq<string>) returns (failure: Option<Error>)
      requires State() == START
      modifies this
      ensures ScanTo(lines, |lines| / 2) == if failure.Some? then Err(failure.value) else Ok(State())
    {
      for k := 0 to |lines| / 2
        invariant ScanTo(lines, k) == Ok(State())
      {
        ScanNext(lines, k, State());
        failure := ReadPair(lines[2 * k], lines[2 * k + 1]);
        if failure != None {
          ErrorsStay(lines, k + 1, |lines| / 2);
          return;
        }
      }
      return None;
    }
  }

  method DeclaredRecords(lines: seq<string>) returns (drawing: Result<Drawing, Error>)
    ensures drawing == Scanned(lines)
  {
    if |lines| % 2 != 0 {
      return Err(OddLines);
    }
    var scanner := new Scanner();
    var failure := scanner.ReadAll(lines);
    if failure == None {
      failure := scanner.KeepRecord();
    }
    return if failure != None then Err(failure.value) else Ok(Drawing(scanner.keyed, scanner.ordered));
  }
}
