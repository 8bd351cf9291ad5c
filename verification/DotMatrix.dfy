/**
 Dot-matrix documents, their encoding as ESC/P (renderers/src/dotmatrix.rs and the dot-matrix
 part of print-core/src/model/label.rs), and an abstract ESC/P printer. RAW items are not
 part of the model.
 */
module DotMatrix {
  import opened Wrappers
  import opened EscP
  import EscPos
  import Receipt

  type Byte = EscPos.Byte
  const LF: Byte := EscPos.LF

  // ------------------------------------------------------------------ documents

  datatype LineStyle = LineStyle(bold: bool, condensed: bool, wide: bool, underline: bool, italic: bool, strike: bool)

  datatype Entry =
    | Text(text: string)
    | Styled(text: string, style: LineStyle)
    | LineFeed(lines: Byte)
    | FormFeed

  datatype Settings = Settings(
    cpi: nat, lpi: real, pins: nat, nlq: bool,
    formLines: Option<Byte>, formInches: Option<Byte>, skip: Option<Byte>,
    left: Option<Byte>, right: Option<Byte>,
    table: Option<Byte>)                       // `characterTable`, or the encoding's own

  datatype Document = Document(settings: Settings, initialize: bool, formFeed: bool, entries: seq<Entry>)

  /** `DotMatrixDocument::validate`. */
  predicate ValidSettings(s: Settings) {
    && (s.cpi == 10 || s.cpi == 12 || s.cpi == 15 || s.cpi == 17 || s.cpi == 20)
    && 1.0 <= s.lpi <= 72.0 && (s.pins == 9 || s.pins == 24)
    && !(s.formLines.Some? && s.formInches.Some?)
    && (s.formLines.Some? ==> s.formLines.value >= 1)
    && (s.formInches.Some? ==> 1 <= s.formInches.value <= 22)
  }

  /** Characters that `replace` turns into spaces. */
  function Flat(s: string): (r: string)
    ensures |r| == |s|
  {
    seq(|s|, i requires 0 <= i < |s| => if s[i] == '\r' || s[i] == '\n' || s[i] == 0x0C as char then ' ' else s[i])
  }

  /** `split('\u{c}')`. */
  function Pages(s: string): (r: seq<string>)
    ensures |r| >= 1
  {
    if s == [] then [[]]
    else
      var rest := Pages(s[1..]);
      if s[0] == 0x0C as char then [[]] + rest else [[s[0]] + rest[0]] + rest[1..]
  }

  predicate CleanEntry(e: Entry) {
    match e
    case Text(text) =>
      var lines := Receipt.LinesOf(text);
      forall i :: 0 <= i < |lines| ==> CleanPages(Pages(lines[i]))
    case Styled(text, _) => Receipt.Printable(Flat(text))
    case _ => true
  }

  predicate CleanPages(pages: seq<string>) {
    forall k :: 0 <= k < |pages| ==> Receipt.Printable(Flat(pages[k]))
  }

  ghost predicate ValidDocument(d: Document) {
    ValidSettings(d.settings) && forall i :: 0 <= i < |d.entries| ==> CleanEntry(d.entries[i])
  }

  // ------------------------------------------------------------------ encoding

  function IfSome(op: Byte, n: Option<Byte>): seq<Command> {
    if n.Some? then [With(op, n.value)] else []
  }

  function StartOf(s: Settings): seq<Command>
    requires s.lpi > 0.0
  {
    [With(120, if s.nlq then 1 else 0)] + Pitch(s.cpi) + [Spacing(s.lpi, s.pins)]
  }

  function LengthOf(s: Settings): seq<Command> {
    IfSome(PAGE, s.formLines) + if s.formInches.Some? then [PageInches(s.formInches.value)] else []
  }

  function MarginsOf(s: Settings): seq<Command> {
    IfSome(78, s.skip) + IfSome(108, s.left) + IfSome(81, s.right) + IfSome(116, s.table)
  }

  /** The settings, in the order the source sends them. */
  function Head(s: Settings): seq<Command>
    requires s.lpi > 0.0
  {
    StartOf(s) + LengthOf(s) + MarginsOf(s)
  }

  function Letters(table: seq<char>, text: string): Option<seq<Command>>
    requires |table| == 128
  {
    var bytes := Receipt.EncodeText(table, text);
    if bytes.Some? then Some(seq(|bytes.value|, i requires 0 <= i < |bytes.value| => Print(bytes.value[i]))) else None
  }

  function LineEnd(): seq<Command> { [Control(CR), Control(LF)] }

  /** One line of a plain entry: its pages with form feeds between them. */
  function PageCommands(table: seq<char>, pages: seq<string>): Option<seq<Command>>
    requires |table| == 128 && |pages| >= 1
  {
    var first := Letters(table, Flat(pages[0]));
    if first.None? then None
    else if |pages| == 1 then first
    else
      var rest := PageCommands(table, pages[1..]);
      if rest.None? then None else Some(first.value + [Control(FF)] + rest.value)
  }

  function TextCommands(table: seq<char>, lines: seq<string>): Option<seq<Command>>
    requires |table| == 128
  {
    if lines == [] then Some([])
    else
      var n := |lines| - 1;
      var front := TextCommands(table, lines[..n]);
      var last := PageCommands(table, Pages(lines[n]));
      if front.Some? && last.Some? then Some(front.value + last.value + LineEnd()) else None
  }

  predicate CondensedPitch(cpi: nat) { cpi == 17 || cpi == 20 }

  function On(s: LineStyle, cpi: nat): seq<Command> {
    (if s.bold then [Plain(69)] else []) + (if s.strike then [Plain(71)] else [])
    + (if s.italic then [Plain(52)] else []) + (if s.underline then [With(45, 1)] else [])
    + (if s.wide then [With(87, 1)] else []) + (if s.condensed && !CondensedPitch(cpi) then [Control(SI)] else [])
  }

  function Off(s: LineStyle, cpi: nat): seq<Command> {
    (if s.bold then [Plain(70)] else []) + (if s.strike then [Plain(72)] else [])
    + (if s.italic then [Plain(53)] else []) + (if s.underline then [With(45, 0)] else [])
    + (if s.wide then [With(87, 0)] else []) + (if s.condensed && !CondensedPitch(cpi) then [Control(DC2)] else [])
  }

  function Feeds(n: nat): seq<Command> { if n == 0 then [] else Feeds(n - 1) + LineEnd() }

  function EntryCommands(table: seq<char>, cpi: nat, e: Entry): Option<seq<Command>>
    requires |table| == 128
  {
    match e
    case Text(text) => TextCommands(table, Receipt.LinesOf(text))
    case Styled(text, style) =>
      var letters := Letters(table, Flat(text));
      if letters.Some? then Some(On(style, cpi) + letters.value + Off(style, cpi) + LineEnd()) else None
    case LineFeed(n) => Some(Feeds(n))
    case FormFeed => Some([Control(FF)])
  }

  function EntriesCommands(table: seq<char>, cpi: nat, entries: seq<Entry>): Option<seq<Command>>
    requires |table| == 128
  {
    if entries == [] then Some([])
    else
      var n := |entries| - 1;
      var front := EntriesCommands(table, cpi, entries[..n]);
      var last := EntryCommands(table, cpi, entries[n]);
      if front.Some? && last.Some? then Some(front.value + last.value) else None
  }

  function Body(table: seq<char>, d: Document): Option<seq<Command>>
    requires |table| == 128 && d.settings.lpi > 0.0
  {
    var entries := EntriesCommands(table, d.settings.cpi, d.entries);
    if entries.Some? then Some((if d.initialize then [Plain(64)] else []) + Head(d.settings) + entries.value) else None
  }

  /** `out.last() == Some(&FORM_FEED)`, a test on the last byte. */
  predicate EndsInFF(bytes: seq<Byte>) {
    bytes != [] && bytes[|bytes| - 1] == FF
  }

  function DocumentCommands(table: seq<char>, d: Document): Option<seq<Command>>
    requires |table| == 128 && d.settings.lpi > 0.0
  {
    var body := Body(table, d);
    if body.None? then None
    else Some(body.value + if d.formFeed && !EndsInFF(Stream(body.value)) then [Control(FF)] else [])
  }

  // ------------------------------------------------------------------ printer

  /** How a character is printed. */
  datatype Look = Look(pitch: nat, condensed: bool, bold: bool, strike: bool, italic: bool, underline: bool, wide: bool)

  datatype Cell = Cell(glyph: char, look: Look)

  datatype Event =
    | Line(cells: seq<Cell>)        // a line feed ends the line
    | Eject(cells: seq<Cell>)       // a form feed ends the page, and the line begun on it

  datatype Pace = Sixth | Eighth | Units(n: Byte)
  datatype PageLength = Default | InLines(lines: Byte) | InInches(inches: Byte)

  /** Everything about the form that text does not change; `None` is the power-on setting. */
  datatype Form = Form(nlq: bool, pace: Pace, length: PageLength,
                       skip: Option<Byte>, left: Option<Byte>, right: Option<Byte>, table: Option<Byte>)

  datatype Printer = Printer(look: Look, form: Form, line: seq<Cell>, out: seq<Event>)

  const PICA := Look(10, false, false, false, false, false, false)

  function PowerOn(out: seq<Event>): Printer {
    Printer(PICA, Form(false, Sixth, Default, None, None, None, None), [], out)
  }

  function ObeyPlain(p: Printer, op: Byte): Printer {
    if op == 64 then PowerOn(p.out)
    else if op == 80 then p.(look := p.look.(pitch := 10))
    else if op == 77 then p.(look := p.look.(pitch := 12))
    else if op == 103 then p.(look := p.look.(pitch := 15))
    else if op == 50 then p.(form := p.form.(pace := Sixth))
    else if op == 48 then p.(form := p.form.(pace := Eighth))
    else if op == 69 then p.(look := p.look.(bold := true))
    else if op == 70 then p.(look := p.look.(bold := false))
    else if op == 71 then p.(look := p.look.(strike := true))
    else if op == 72 then p.(look := p.look.(strike := false))
    else if op == 52 then p.(look := p.look.(italic := true))
    else if op == 53 then p.(look := p.look.(italic := false))
    else p
  }

  function ObeyWith(p: Printer, op: Byte, n: Byte): Printer {
    if op == 45 then p.(look := p.look.(underline := n == 1))
    else if op == 87 then p.(look := p.look.(wide := n == 1))
    else if op == 120 then p.(form := p.form.(nlq := n == 1))
    else if op == 51 then p.(form := p.form.(pace := Units(n)))
    else if op == PAGE then p.(form := p.form.(length := InLines(n)))
    else if op == 78 then p.(form := p.form.(skip := Some(n)))
    else if op == 108 then p.(form := p.form.(left := Some(n)))
    else if op == 81 then p.(form := p.form.(right := Some(n)))
    else if op == 116 then p.(form := p.form.(table := Some(n)))
    else p
  }

  function Obey(table: seq<char>, p: Printer, c: Command): Printer
    requires |table| == 128
  {
    match c
    case Print(b) => p.(line := p.line + [Cell(Receipt.DecodeByte(table, b), p.look)])
    case Control(b) =>
      if b == LF then p.(line := [], out := p.out + [Line(p.line)])
      else if b == FF then p.(line := [], out := p.out + [Eject(p.line)])
      else if b == SI then p.(look := p.look.(condensed := true))
      else if b == DC2 then p.(look := p.look.(condensed := false))
      else p
    case Plain(op) => ObeyPlain(p, op)
    case With(op, n) => ObeyWith(p, op, n)
    case PageInches(n) => p.(form := p.form.(length := InInches(n)))
  }

  function Run(table: seq<char>, p: Printer, cs: seq<Command>): Printer
    requires |table| == 128
  {
    if cs == [] then p else Obey(table, Run(table, p, cs[..|cs| - 1]), cs[|cs| - 1])
  }

  lemma {:induction false} RunJoin(table: seq<char>, p: Printer, a: seq<Command>, b: seq<Command>)
    requires |table| == 128
    ensures Run(table, p, a + b) == Run(table, Run(table, p, a), b)
    decreases |b|
  {
    hide Obey;
    if b == [] {
      assert a + b == a;
    } else {
      assert (a + b)[..|a + b| - 1] == a + b[..|b| - 1];
      RunJoin(table, p, a, b[..|b| - 1]);
    }
  }

  lemma RunOne(table: seq<char>, p: Printer, c: Command)
    requires |table| == 128
    ensures Run(table, p, [c]) == Obey(table, p, c)
    ensures Run(table, p, []) == p
  {
    hide Obey;
    assert [c][..0] == [];
  }

  // ------------------------------------------------------------------ what a document means

  /** The look of unstyled text: 17 and 20 cpi are condensed pica and elite. */
  function Baseline(cpi: nat): Look {
    PICA.(pitch := if cpi == 12 || cpi == 20 then 12 else if cpi == 15 then 15 else 10, condensed := CondensedPitch(cpi))
  }

  /** A line's own styles on top of the document's pitch. */
  function StyledLook(cpi: nat, s: LineStyle): Look {
    Look(Baseline(cpi).pitch, Baseline(cpi).condensed || s.condensed, s.bold, s.strike, s.italic, s.underline, s.wide)
  }

  function PaceOf(lpi: real, pins: nat): Pace
    requires lpi > 0.0
  {
    var n := Round(Unit(pins) / lpi);
    if 6.0 - EPSILON < lpi < 6.0 + EPSILON then Sixth
    else if 8.0 - EPSILON < lpi < 8.0 + EPSILON then Eighth
    else Units(if n < 1 then 1 else if n > 255 then 255 else n)
  }

  /** The form that the settings ask for. */
  function FormOf(s: Settings): Form
    requires s.lpi > 0.0
  {
    Form(s.nlq, PaceOf(s.lpi, s.pins),
         if s.formInches.Some? then InInches(s.formInches.value)
         else if s.formLines.Some? then InLines(s.formLines.value) else Default,
         s.skip, s.left, s.right, s.table)
  }

  function Cells(text: string, look: Look): (r: seq<Cell>)
    ensures |r| == |text|
  {
    seq(|text|, i requires 0 <= i < |text| => Cell(text[i], look))
  }

  function PagesMeaning(pages: seq<string>, look: Look): seq<Event>
    requires |pages| >= 1
  {
    if |pages| == 1 then [Line(Cells(Flat(pages[0]), look))]
    else [Eject(Cells(Flat(pages[0]), look))] + PagesMeaning(pages[1..], look)
  }

  function TextMeaning(lines: seq<string>, look: Look): seq<Event> {
    if lines == [] then []
    else TextMeaning(lines[..|lines| - 1], look) + PagesMeaning(Pages(lines[|lines| - 1]), look)
  }

  function BlankLines(n: nat): seq<Event> { if n == 0 then [] else BlankLines(n - 1) + [Line([])] }

  function Meaning(cpi: nat, e: Entry): seq<Event> {
    match e
    case Text(text) => TextMeaning(Receipt.LinesOf(text), Baseline(cpi))
    case Styled(text, style) => [Line(Cells(Flat(text), StyledLook(cpi, style)))]
    case LineFeed(n) => BlankLines(n)
    case FormFeed => [Eject([])]
  }

  function EntriesMeaning(cpi: nat, entries: seq<Entry>): seq<Event> {
    if entries == [] then [] else EntriesMeaning(cpi, entries[..|entries| - 1]) + Meaning(cpi, entries[|entries| - 1])
  }

  /** The printer holds no text and looks as the document's baseline says. */
  predicate AtBaseline(p: Printer, cpi: nat) {
    p.look == Baseline(cpi) && p.line == []
  }

  /** From baseline to baseline, adding exactly `events`. */
  predicate Printed(p: Printer, p': Printer, cpi: nat, events: seq<Event>) {
    AtBaseline(p', cpi) && p'.form == p.form && p'.out == p.out + events
  }
}
