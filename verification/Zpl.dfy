/**
 Labels as ZPL II (protocols/src/label/zpl.rs), a reader for the commands and field data of a
 ZPL stream, and the format inspection of protocols/src/zpl.rs with its search helpers
 (protocols/src/bytes.rs). Every byte the argument depends on is ASCII, so a stream is a
 string. RAW elements and custom fonts are not part of the model.
 */
module Zpl {
  import opened Wrappers
  import opened EscPos

  // ------------------------------------------------------------------ reader

  predicate Lead(c: char) { c == '^' || c == '~' }

  /** One command: its prefix, its two-character name and its parameters up to the next prefix. */
  datatype Command = Command(lead: char, a: char, b: char, params: string) | Fragment(text: string)

  function AsCommand(lead: char, body: string): Command {
    if |body| < 2 then Fragment(body) else Command(lead, body[0], body[1], body[2..])
  }

  function FirstLead(s: string): (k: nat)
    ensures k <= |s| && (k < |s| ==> Lead(s[k])) && forall i :: 0 <= i < k ==> !Lead(s[i])
  {
    if s == [] || Lead(s[0]) then 0 else 1 + FirstLead(s[1..])
  }

  /** Line breaks between commands mean nothing. */
  function NoBreaks(s: string): string {
    if s == [] then [] else (if s[0] == '\n' then [] else [s[0]]) + NoBreaks(s[1..])
  }

  function ReadCommands(s: string): seq<Command>
    decreases |s|
  {
    var k := FirstLead(s);
    if k == |s| then []
    else
      var t := s[k + 1..];
      var m := FirstLead(t);
      [AsCommand(s[k], NoBreaks(t[..m]))] + ReadCommands(t[m..])
  }

  function HexDigit(c: char): Option<nat> {
    if '0' <= c <= '9' then Some(c as int - '0' as int)
    else if 'A' <= c <= 'F' then Some(c as int - 'A' as int + 10)
    else None
  }

  /** Field data under `^FH`: `_` and two hex digits stand for one character. */
  function Unhex(s: string): string {
    if s == [] then []
    else if |s| >= 3 && s[0] == '_' && HexDigit(s[1]).Some? && HexDigit(s[2]).Some? then
      [(16 * HexDigit(s[1]).value + HexDigit(s[2]).value) as char] + Unhex(s[3..])
    else [s[0]] + Unhex(s[1..])
  }

  predicate Named(c: Command, a: char, b: char) {
    c.Command? && c.lead == '^' && c.a == a && c.b == b
  }

  /** The data of every `^FD`, decoded if a `^FH` came before it in the same field. */
  function Fields(cs: seq<Command>, hex: bool): seq<string> {
    if cs == [] then []
    else if Named(cs[0], 'F', 'H') then Fields(cs[1..], true)
    else if Named(cs[0], 'F', 'S') then Fields(cs[1..], false)
    else if Named(cs[0], 'F', 'D') then
      [if hex then Unhex(cs[0].params) else cs[0].params] + Fields(cs[1..], hex)
    else Fields(cs[1..], hex)
  }

  // ------------------------------------------------------------------ inspection

  /** `count`: the windows of the stream that equal the needle. */
  function Count(s: string, needle: string): nat {
    if needle == [] || |s| < |needle| then 0
    else (if s[..|needle|] == needle then 1 else 0) + Count(s[1..], needle)
  }

  /** `contains`. */
  predicate Contains(s: string, needle: string) {
    needle != [] && exists i :: 0 <= i <= |s| - |needle| && Window(s, needle, i)
  }

  predicate Window(s: string, needle: string, i: int) {
    0 <= i <= |s| - |needle| && s[i..i + |needle|] == needle
  }

  lemma WindowMoves(s: string, needle: string, i: nat)
    requires s != []
    ensures Window(s[1..], needle, i) <==> Window(s, needle, i + 1)
  {
    if i + 1 + |needle| <= |s| { assert s[1..][i..i + |needle|] == s[i + 1..i + 1 + |needle|]; }
  }

  lemma {:induction false} ContainsIff(s: string, needle: string)
    ensures Contains(s, needle) <==> Count(s, needle) > 0
  {
    if needle != [] && |s| >= |needle| {
      ContainsIff(s[1..], needle);
      if Contains(s, needle) {
        var i :| 0 <= i <= |s| - |needle| && Window(s, needle, i);
        if i > 0 { WindowMoves(s, needle, i - 1); }
      }
      if Contains(s[1..], needle) {
        var i :| 0 <= i <= |s| - 1 - |needle| && Window(s[1..], needle, i);
        WindowMoves(s, needle, i);
      }
      if s[..|needle|] == needle { assert Window(s, needle, 0); }
    }
  }

  predicate Space(c: char) { c == ' ' || c == '\t' || c == '\n' || c == '\r' || c == 0x0C as char }

  /** `trim_start`. */
  function TrimStart(s: string): string {
    if s != [] && Space(s[0]) then TrimStart(s[1..]) else s
  }

  /** The positions at which the needle stands. */
  ghost function Windows(s: string, needle: string): set<int> {
    set i | 0 <= i < |s| && Window(s, needle, i)
  }

  lemma WindowsMove(s: string, needle: string)
    requires s != [] && needle != []
    ensures |Windows(s, needle)| == |Windows(s[1..], needle)| + if Window(s, needle, 0) then 1 else 0
  {
    var rest := Windows(s, needle) - {0};
    var moved := set i | i in rest :: i - 1;
    forall i ensures i in moved <==> i in Windows(s[1..], needle) {
      if i >= 0 { WindowMoves(s, needle, i); }
      if i in Windows(s[1..], needle) { assert i + 1 in rest && (i + 1) - 1 in moved; }
    }
    assert moved == Windows(s[1..], needle);
    SameSize(rest, moved);
  }

  lemma AnyOf<T>(a: set<T>) returns (i: T)
    requires a != {}
    ensures i in a
  {
    i :| i in a;
  }

  lemma {:induction false} SameSize(a: set<int>, b: set<int>)
    requires b == set i | i in a :: i - 1
    ensures |a| == |b|
    decreases a
  {
    if a == {} {
      assert b == {};
    } else {
      var i := AnyOf(a);
      assert i - 1 in b;
      var a', b' := a - {i}, b - {i - 1};
      forall k ensures k in b' <==> k + 1 in a' {
        if k + 1 in a' { assert (k + 1) - 1 in b; }
      }
      assert b' == set k | k in a' :: k - 1;
      SameSize(a', b');
    }
  }

  /** `count` is the number of positions at which the needle stands, overlapping ones included. */
  lemma {:induction false} CountIsWindows(s: string, needle: string)
    requires needle != []
    ensures Count(s, needle) == |Windows(s, needle)|
  {
    if |s| < |needle| {
      assert Windows(s, needle) == {};
    } else {
      CountIsWindows(s[1..], needle);
      WindowsMove(s, needle);
      assert Window(s, needle, 0) <==> s[..|needle|] == needle;
    }
  }

  /** Only blanks stand before position `k`. */
  predicate FirstInk(s: string, k: nat) {
    k < |s| && !Space(s[k]) && forall i :: 0 <= i < k ==> Space(s[i])
  }

  lemma {:induction false} TrimStartsAtInk(s: string) returns (k: nat)
    ensures k <= |s| && TrimStart(s) == s[k..] && (forall i :: 0 <= i < k ==> Space(s[i])) && (k < |s| ==> FirstInk(s, k))
  {
    if s != [] && Space(s[0]) {
      var m := TrimStartsAtInk(s[1..]);
      k := m + 1;
      assert forall i :: 1 <= i < k ==> s[i] == s[1..][i - 1];
    } else {
      k := 0;
    }
  }

  datatype Warning = NoFormat | Unbalanced(starts: nat, ends: nat) | PrefixChanged

  /** `Zpl::inspect`. */
  function Inspect(s: string): seq<Warning> {
    var starts, ends := Count(s, "^XA"), Count(s, "^XZ");
    var trimmed := TrimStart(s);
    var hostOnly := starts == 0 && trimmed != [] && trimmed[0] == '~';
    (if starts == 0 && !hostOnly then [NoFormat] else [])
    + (if starts != ends then [Unbalanced(starts, ends)] else [])
    + (if Contains(s, "^CC") || Contains(s, "~CC") then [PrefixChanged] else [])
  }

  /**
   When the inspection warns: no format starts and the first character that is not blank is no `~`;
   formats start and end unequally often; or the prefix is changed. Each warning is given at most once.
   */
  lemma InspectWarnsIff(s: string)
    ensures
      var starts, ends := |Windows(s, "^XA")|, |Windows(s, "^XZ")|;
      && (NoFormat in Inspect(s) <==> starts == 0 && !exists k: nat :: FirstInk(s, k) && s[k] == '~')
      && (forall a: nat, b: nat :: Unbalanced(a, b) in Inspect(s) <==> a == starts && b == ends && starts != ends)
      && (PrefixChanged in Inspect(s) <==> exists i :: Window(s, "^CC", i) || Window(s, "~CC", i))
      && |Inspect(s)| <= 3
  {
    hide Count, TrimStart, Contains;
    CountIsWindows(s, "^XA");
    CountIsWindows(s, "^XZ");
    var k := TrimStartsAtInk(s);
    assert k < |s| ==> TrimStart(s)[0] == s[k];
    assert forall m: nat :: FirstInk(s, m) ==> m == k;
    ContainsWindow(s, "^CC");
    ContainsWindow(s, "~CC");
  }

  lemma ContainsWindow(s: string, needle: string)
    requires needle != []
    ensures Contains(s, needle) <==> exists i :: Window(s, needle, i)
  {
  }

  // ------------------------------------------------------------------ labels

  function Decimal(n: nat): (s: string)
    ensures |s| >= 1 && forall i :: 0 <= i < |s| ==> '0' <= s[i] <= '9'
  {
    if n < 10 then [('0' as int + n) as char] else Decimal(n / 10) + [('0' as int + n % 10) as char]
  }

  datatype Element =
    | Text(x: real, y: real, text: string, height: real, rotation: nat)
    | BarcodeElement(x: real, y: real, symbology: Symbology, data: string, height: real, unit: nat, readable: bool, rotation: nat)
    | QrElement(x: real, y: real, data: string, magnification: nat, level: QrLevel)
    | DataMatrix(x: real, y: real, data: string, size: nat)
    | Box(x: real, y: real, width: real, height: real, thickness: real)

  datatype Label = Label(width: real, height: real, dpi: nat, darkness: Option<nat>, speed: Option<nat>, elements: seq<Element>)

  /** `LabelDocument::dots`. */
  function Dots(dpi: nat, mm: real): nat {
    var positive := if mm < 0.0 then 0.0 else mm;
    var dots := positive / 25.4 * dpi as real;
    assert dots >= 0.0;
    (dots + 0.5).Floor
  }

  function AtLeastOne(dpi: nat, mm: real): nat { Max(Dots(dpi, mm), 1) }

  function Max(a: nat, b: nat): nat { if a < b then b else a }

  function Orientation(rotation: nat): char {
    var q := rotation / 90 % 4;
    if q == 0 then 'N' else if q == 1 then 'R' else if q == 2 then 'I' else 'B'
  }

  function FieldChar(c: char): string {
    if c == '_' then "_5F"
    else if c == '^' then "_5E"
    else if c == '~' then "_7E"
    else if c == '\r' || c == '\n' then " "
    else [c]
  }

  /** `field`. */
  function Field(text: string): string {
    if text == [] then [] else Field(text[..|text| - 1]) + FieldChar(text[|text| - 1])
  }

  /** What a field says: the text on one line. */
  function OneLine(text: string): (r: string)
    ensures |r| == |text|
  {
    seq(|text|, i requires 0 <= i < |text| => if text[i] == '\r' || text[i] == '\n' then ' ' else text[i])
  }

  /** `barcode_payload`: EAN and UPC go without their check digit. */
  function Payload(s: Symbology, data: string): string {
    var keep := match s case Ean13 => 12 case Ean8 => 7 case UpcA => 11 case _ => |data|;
    data[..if keep < |data| then keep else |data|]
  }

  /** In `^BC`, `>0` is a literal `>`. */
  function Invoked(s: string): string {
    if s == [] then [] else (if s[0] == '>' then ">0" else [s[0]]) + Invoked(s[1..])
  }

  function Uninvoked(s: string): string {
    if s == [] then []
    else if |s| >= 2 && s[0] == '>' && s[1] == '0' then ['>'] + Uninvoked(s[2..])
    else [s[0]] + Uninvoked(s[1..])
  }

  function BarField(s: Symbology, data: string): string {
    if s.Code128? then Invoked(Payload(s, data)) else Payload(s, data)
  }

  function LevelLetter(l: QrLevel): char {
    match l case QrL => 'L' case QrM => 'M' case QrQ => 'Q' case QrH => 'H'
  }

  // ------------------------------------------------------------------ encoding

  /** A command as it is written, with or without a line break after it. */
  datatype Piece = Piece(lead: char, a: char, b: char, params: string, breaks: bool)

  /** Parameters with commas between them. */
  function Joined(parts: seq<string>): string {
    if parts == [] then [] else if |parts| == 1 then parts[0] else parts[0] + [','] + Joined(parts[1..])
  }

  function At(dpi: nat, x: real, y: real): Piece {
    Piece('^', 'F', 'O', Joined([Decimal(Dots(dpi, x)), Decimal(Dots(dpi, y))]), false)
  }

  function FieldPieces(data: string): seq<Piece> {
    [Piece('^', 'F', 'H', [], false), Piece('^', 'F', 'D', data, false), Piece('^', 'F', 'S', [], true)]
  }

  function YesNo(on: bool): string { if on then "Y" else "N" }

  function BarCommand(s: Symbology, o: string, h: string, readable: string): Piece {
    match s
    case Code128 => Piece('^', 'B', 'C', Joined([o, h, readable, "N", "N"]), false)
    case Code39 => Piece('^', 'B', '3', Joined([o, "N", h, readable, "N"]), false)
    case Ean13 => Piece('^', 'B', 'E', Joined([o, h, readable, "N"]), false)
    case Ean8 => Piece('^', 'B', '8', Joined([o, h, readable, "N"]), false)
    case UpcA => Piece('^', 'B', 'U', Joined([o, h, readable, "N", "Y"]), false)
    case Itf => Piece('^', 'B', '2', Joined([o, h, readable, "N", "N"]), false)
  }

  /** The commands before an element's field. */
  function Shape(dpi: nat, e: Element): seq<Piece> {
    match e
    case Text(x, y, _, height, rotation) =>
      var h := Decimal(AtLeastOne(dpi, height));
      [At(dpi, x, y), Piece('^', 'A', '0', Joined([[Orientation(rotation)], h, h]), false)]
    case BarcodeElement(x, y, s, _, height, unit, readable, rotation) =>
      var h := Decimal(AtLeastOne(dpi, height));
      [At(dpi, x, y), Piece('^', 'B', 'Y', Joined([Decimal(unit), "3", h]), false),
       BarCommand(s, [Orientation(rotation)], h, YesNo(readable))]
    case QrElement(x, y, _, magnification, _) =>
      [At(dpi, x, y), Piece('^', 'B', 'Q', Joined(["N", "2", Decimal(magnification)]), false)]
    case DataMatrix(x, y, _, size) =>
      [At(dpi, x, y), Piece('^', 'B', 'X', Joined(["N", Decimal(size), "200"]), false)]
    case Box(x, y, width, height, thickness) =>
      var t := AtLeastOne(dpi, thickness);
      var w, h := Max(AtLeastOne(dpi, width), t), Max(AtLeastOne(dpi, height), t);
      [At(dpi, x, y), Piece('^', 'G', 'B', Joined([Decimal(w), Decimal(h), Decimal(t)]), false), Piece('^', 'F', 'S', [], true)]
  }

  /** The text an element puts into `^FD`, before escaping. */
  function RawField(e: Element): string {
    match e
    case Text(_, _, text, _, _) => text
    case BarcodeElement(_, _, s, data, _, _, _, _) => BarField(s, data)
    case QrElement(_, _, data, _, level) => data
    case DataMatrix(_, _, data, _) => data
    case Box(_, _, _, _, _) => ""
  }

  /** The QR switches stand in front of the data and need no escaping. */
  function Switches(e: Element): string {
    if e.QrElement? then [LevelLetter(e.level), 'A', ','] else []
  }

  function ElementPieces(dpi: nat, e: Element): seq<Piece> {
    if e.Box? then Shape(dpi, e) else Shape(dpi, e) + FieldPieces(Switches(e) + Field(RawField(e)))
  }

  function ElementsPieces(dpi: nat, es: seq<Element>): seq<Piece> {
    if es == [] then [] else ElementsPieces(dpi, es[..|es| - 1]) + ElementPieces(dpi, es[|es| - 1])
  }

  function TwoDigits(n: nat): string { if n < 10 then ['0'] + Decimal(n) else Decimal(n) }

  function Clamp(n: nat): nat { if n < 2 then 2 else if n > 14 then 14 else n }

  function Setup(l: Label): seq<Piece> {
    [Piece('^', 'C', 'I', "28", true),
     Piece('^', 'P', 'W', Decimal(Dots(l.dpi, l.width)), true), Piece('^', 'L', 'L', Decimal(Dots(l.dpi, l.height)), true),
     Piece('^', 'L', 'H', "0,0", true)]
    + (if l.darkness.Some? then [Piece('~', 'S', 'D', TwoDigits(l.darkness.value), true)] else [])
    + (if l.speed.Some? then [Piece('^', 'P', 'R', Decimal(Clamp(l.speed.value)), true)] else [])
  }

  function Middle(l: Label): seq<Piece> { Setup(l) + ElementsPieces(l.dpi, l.elements) }

  function LabelPieces(l: Label): seq<Piece> {
    [Piece('^', 'X', 'A', [], true)] + Middle(l) + [Piece('^', 'X', 'Z', [], true)]
  }

  /** Everything of a command after its prefix. */
  function Tail(p: Piece): string { [p.a, p.b] + p.params + if p.breaks then ['\n'] else [] }

  function PieceText(p: Piece): (s: string)
    ensures |s| > 0
  {
    [p.lead] + Tail(p)
  }

  function Written(ps: seq<Piece>): string {
    if ps == [] then [] else PieceText(ps[0]) + Written(ps[1..])
  }

  // ------------------------------------------------------------------ reading back

  /** The body holds nothing that could end the command. */
  predicate Safe(s: string) {
    forall i :: 0 <= i < |s| ==> SafeChar(s[i])
  }

  predicate SafeChar(c: char) { !Lead(c) && c != '\n' }

  predicate SafePiece(p: Piece) {
    Lead(p.lead) && SafeChar(p.a) && SafeChar(p.b) && Safe(p.params)
  }

  predicate SafePieces(ps: seq<Piece>) {
    forall i :: 0 <= i < |ps| ==> SafePiece(ps[i])
  }

  function Meant(ps: seq<Piece>): seq<Command> {
    seq(|ps|, i requires 0 <= i < |ps| => Command(ps[i].lead, ps[i].a, ps[i].b, ps[i].params))
  }

  lemma {:induction false} LeadAfter(a: string, b: string)
    requires (forall i :: 0 <= i < |a| ==> !Lead(a[i])) && (b == [] || Lead(b[0]))
    ensures FirstLead(a + b) == |a|
  {
    if a == [] {
      assert a + b == b;
    } else {
      assert (a + b)[1..] == a[1..] + b;
      LeadAfter(a[1..], b);
    }
  }

  lemma {:induction false} BreaksGone(s: string, breaks: bool)
    requires Safe(s)
    ensures NoBreaks(s + if breaks then ['\n'] else []) == s
  {
    var tail := if breaks then ['\n'] else [];
    if s == [] {
      assert s + tail == tail;
      assert breaks ==> tail[1..] == [];
    } else {
      assert (s + tail)[1..] == s[1..] + tail;
      BreaksGone(s[1..], breaks);
    }
  }

  lemma WrittenStarts(ps: seq<Piece>)
    requires SafePieces(ps)
    ensures Written(ps) == [] || Lead(Written(ps)[0])
  {
  }

  lemma ReadOne(lead: char, body: string, rest: string)
    requires Lead(lead) && (forall i :: 0 <= i < |body| ==> !Lead(body[i])) && (rest == [] || Lead(rest[0]))
    ensures ReadCommands([lead] + body + rest) == [AsCommand(lead, NoBreaks(body))] + ReadCommands(rest)
  {
    hide NoBreaks;
    var s := [lead] + body + rest;
    assert s[1..] == body + rest;
    LeadAfter(body, rest);
    assert (body + rest)[..|body|] == body && (body + rest)[|body|..] == rest;
  }

  /** Safe commands are read back exactly, whatever their bodies are. */
  lemma {:induction false} ReadsBack(ps: seq<Piece>)
    requires SafePieces(ps)
    ensures ReadCommands(Written(ps)) == Meant(ps)
    decreases |ps|
  {
    hide ReadCommands, NoBreaks;
    if ps == [] {
      assert ReadCommands([]) == [] by { ReadNothing(); }
    } else {
      var p := ps[0];
      WrittenStarts(ps[1..]);
      TailIsPlain(p);
      ReadOne(p.lead, Tail(p), Written(ps[1..]));
      ReadsBack(ps[1..]);
      assert Meant(ps) == [Command(p.lead, p.a, p.b, p.params)] + Meant(ps[1..]);
    }
  }

  lemma TailIsPlain(p: Piece)
    requires SafePiece(p)
    ensures forall i :: 0 <= i < |Tail(p)| ==> !Lead(Tail(p)[i])
    ensures AsCommand(p.lead, NoBreaks(Tail(p))) == Command(p.lead, p.a, p.b, p.params)
  {
    var body := [p.a, p.b] + p.params;
    BreaksGone(body, p.breaks);
    assert Tail(p) == body + if p.breaks then ['\n'] else [];
    assert body[2..] == p.params;
  }

  lemma ReadNothing()
    ensures ReadCommands([]) == []
  {
  }

  lemma {:induction false} WrittenJoin(a: seq<Piece>, b: seq<Piece>)
    ensures Written(a + b) == Written(a) + Written(b)
    decreases |a|
  {
    hide PieceText;
    if a == [] {
      assert a + b == b;
    } else {
      assert (a + b)[1..] == a[1..] + b;
      WrittenJoin(a[1..], b);
    }
  }
}
