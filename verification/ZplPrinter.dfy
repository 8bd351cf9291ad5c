/**
 An abstract ZPL label printer: it obeys the commands of a stream and draws objects. A label's
 stream draws exactly the label's elements, at their positions and sizes in dots.
 */
module ZplPrinter {
  import opened Wrappers
  import opened EscPos
  import opened Zpl
  import opened ZplCode

  // ------------------------------------------------------------------ parameters

  /** The value of a string of digits. */
  function Value(s: string): nat {
    if s == [] then 0
    else Value(s[..|s| - 1]) * 10 + if '0' <= s[|s| - 1] <= '9' then s[|s| - 1] as int - '0' as int else 0
  }

  lemma {:induction false} DecimalReads(n: nat)
    ensures Value(Decimal(n)) == n
  {
    var s := Decimal(n);
    if n < 10 {
      assert s[..0] == [];
    } else {
      DecimalReads(n / 10);
      assert s[..|s| - 1] == Decimal(n / 10);
    }
  }

  /** Parameters between commas. */
  function Parts(s: string): (r: seq<string>)
    ensures |r| >= 1
  {
    if s == [] then [[]]
    else
      var rest := Parts(s[1..]);
      if s[0] == ',' then [[]] + rest else [[s[0]] + rest[0]] + rest[1..]
  }

  predicate Plain(s: string) { ',' !in s }

  lemma {:induction false} PartsOfFirst(a: string, b: string)
    requires Plain(a)
    ensures Parts(a + [','] + b) == [a] + Parts(b)
    decreases |a|
  {
    var s := a + [','] + b;
    if a == [] {
      assert s[1..] == b;
    } else {
      assert s[1..] == a[1..] + [','] + b;
      PartsOfFirst(a[1..], b);
      assert [s[0]] + a[1..] == a;
    }
  }

  lemma {:induction false} PartsOfOne(a: string)
    requires Plain(a)
    ensures Parts(a) == [a]
  {
    if a != [] {
      PartsOfOne(a[1..]);
      assert [a[0]] + a[1..] == a;
    }
  }

  /** Parameters are read back as they were joined. */
  lemma {:induction false} PartsBack(parts: seq<string>)
    requires |parts| >= 1 && forall i :: 0 <= i < |parts| ==> Plain(parts[i])
    ensures Parts(Joined(parts)) == parts
    decreases |parts|
  {
    if |parts| == 1 {
      PartsOfOne(parts[0]);
    } else {
      PartsBack(parts[1..]);
      PartsOfFirst(parts[0], Joined(parts[1..]));
      assert parts == [parts[0]] + parts[1..];
    }
  }

  lemma DecimalIsPlain(n: nat)
    ensures Plain(Decimal(n))
  {
  }

  lemma WordsArePlain(rotation: nat, on: bool)
    ensures Plain([Orientation(rotation)]) && Plain(YesNo(on)) && Plain("N") && Plain("Y") && Plain("2") && Plain("3") && Plain("200")
  {
  }

  // ------------------------------------------------------------------ printer

  datatype Shape =
    | Nothing
    | Letters(orientation: string, height: nat, width: nat)
    | BarLines(symbology: Symbology, orientation: string, height: nat, readable: bool)
    | QrSquare(magnification: nat)
    | Matrix(size: nat)
    | Frame(width: nat, height: nat, thickness: nat)

  /** What is drawn; `unit` is the narrow bar of a barcode, `level` the switches of a QR code. */
  datatype Object = Object(x: nat, y: nat, shape: Shape, unit: nat, level: string, data: string)

  datatype Printer = Printer(width: nat, height: nat, darkness: Option<nat>, speed: Option<nat>,
                             x: nat, y: nat, unit: nat, shape: Shape, hex: bool, data: string, out: seq<Object>)

  function PowerOn(): Printer { Printer(0, 0, None, None, 0, 0, 2, Nothing, false, [], []) }

  function Number(parts: seq<string>, i: nat): nat { if i < |parts| then Value(parts[i]) else 0 }
  function Word(parts: seq<string>, i: nat): string { if i < |parts| then parts[i] else [] }

  /** The barcode a `^B` command names; CODE39 has its height one place further on. */
  function BarName(b: char): Option<Symbology> {
    if b == 'C' then Some(Code128) else if b == '3' then Some(Code39) else if b == 'E' then Some(Ean13)
    else if b == '8' then Some(Ean8) else if b == 'U' then Some(UpcA) else if b == '2' then Some(Itf) else None
  }

  function BarShape(s: Symbology, parts: seq<string>): Shape {
    var at := if s.Code39? then 2 else 1;
    BarLines(s, Word(parts, 0), Number(parts, at), Word(parts, at + 1) == "Y")
  }

  /** A finished field: a CODE128 field has its `>0` undone, a QR field its switches taken off. */
  function Drawn(p: Printer): Object {
    var shown := if p.shape.BarLines? && p.shape.symbology.Code128? then Uninvoked(p.data) else p.data;
    var qr := p.shape.QrSquare? && |shown| >= 3;
    Object(p.x, p.y, p.shape, if p.shape.BarLines? then p.unit else 0,
           if qr then shown[..3] else [], if qr then shown[3..] else shown)
  }

  function ObeyField(p: Printer, b: char, params: string): Printer {
    if b == 'O' then p.(x := Number(Parts(params), 0), y := Number(Parts(params), 1))
    else if b == 'H' then p.(hex := true)
    else if b == 'D' then p.(data := if p.hex then Unhex(params) else params)
    else if b == 'S' then p.(out := p.out + [Drawn(p)], shape := Nothing, hex := false, data := [])
    else p
  }

  function ObeyBar(p: Printer, b: char, params: string): Printer {
    var parts := Parts(params);
    if b == 'Y' then p.(unit := Number(parts, 0))
    else if b == 'Q' then p.(shape := QrSquare(Number(parts, 2)))
    else if b == 'X' then p.(shape := Matrix(Number(parts, 1)))
    else if BarName(b).Some? then p.(shape := BarShape(BarName(b).value, parts))
    else p
  }

  function Obey(p: Printer, c: Command): Printer {
    if c.Fragment? then p
    else if c.lead == '~' then
      if c.a == 'S' && c.b == 'D' then p.(darkness := Some(Value(c.params))) else p
    else if c.a == 'F' then ObeyField(p, c.b, c.params)
    else if c.a == 'B' then ObeyBar(p, c.b, c.params)
    else if c.a == 'A' then
      var parts := Parts(c.params);
      p.(shape := Letters(Word(parts, 0), Number(parts, 1), Number(parts, 2)))
    else if c.a == 'G' && c.b == 'B' then
      var parts := Parts(c.params);
      p.(shape := Frame(Number(parts, 0), Number(parts, 1), Number(parts, 2)))
    else if c.a == 'P' && c.b == 'W' then p.(width := Value(c.params))
    else if c.a == 'L' && c.b == 'L' then p.(height := Value(c.params))
    else if c.a == 'P' && c.b == 'R' then p.(speed := Some(Value(c.params)))
    else p
  }

  function Run(p: Printer, cs: seq<Command>): Printer
    decreases |cs|
  {
    if cs == [] then p else Run(Obey(p, cs[0]), cs[1..])
  }

  lemma {:induction false} RunJoin(p: Printer, a: seq<Command>, b: seq<Command>)
    ensures Run(p, a + b) == Run(Run(p, a), b)
    decreases |a|
  {
    hide Obey;
    if a == [] {
      assert a + b == b;
    } else {
      assert (a + b)[1..] == a[1..] + b;
      RunJoin(Obey(p, a[0]), a[1..], b);
    }
  }

  lemma RunNone(p: Printer)
    ensures Run(p, []) == p
  {
  }

  lemma RunFirst(p: Printer, c: Command, rest: seq<Command>)
    ensures Run(p, [c] + rest) == Run(Obey(p, c), rest)
  {
    hide Obey;
    assert ([c] + rest)[1..] == rest;
  }

  // ------------------------------------------------------------------ what a label means

  function ShapeMeaning(dpi: nat, e: Element): Shape {
    match e
    case Text(_, _, _, height, rotation) => Letters([Orientation(rotation)], AtLeastOne(dpi, height), AtLeastOne(dpi, height))
    case BarcodeElement(_, _, s, _, height, _, readable, rotation) =>
      BarLines(s, [Orientation(rotation)], AtLeastOne(dpi, height), readable)
    case QrElement(_, _, _, magnification, _) => QrSquare(magnification)
    case DataMatrix(_, _, _, size) => Matrix(size)
    case Box(_, _, width, height, thickness) =>
      var t := AtLeastOne(dpi, thickness);
      Frame(Max(AtLeastOne(dpi, width), t), Max(AtLeastOne(dpi, height), t), t)
  }

  function DataMeaning(e: Element): string {
    match e
    case Text(_, _, text, _, _) => OneLine(text)
    case BarcodeElement(_, _, s, data, _, _, _, _) => OneLine(Payload(s, data))
    case QrElement(_, _, data, _, _) => OneLine(data)
    case DataMatrix(_, _, data, _) => OneLine(data)
    case Box(_, _, _, _, _) => []
  }

  /** The object an element stands for. */
  function ObjectOf(dpi: nat, e: Element): Object {
    Object(Dots(dpi, e.x), Dots(dpi, e.y), ShapeMeaning(dpi, e), if e.BarcodeElement? then e.unit else 0,
           if e.QrElement? then [LevelLetter(e.level), 'A', ','] else [], DataMeaning(e))
  }

  function Objects(dpi: nat, es: seq<Element>): seq<Object> {
    if es == [] then [] else [ObjectOf(dpi, es[0])] + Objects(dpi, es[1..])
  }

  predicate Resting(p: Printer) { p.shape == Nothing && !p.hex && p.data == [] }

  /** Nothing but the drawing, the position and the bar unit has changed. */
  predicate Drew(p: Printer, p': Printer, objects: seq<Object>) {
    && Resting(p') && p'.out == p.out + objects
    && p'.width == p.width && p'.height == p.height && p'.darkness == p.darkness && p'.speed == p.speed
  }

  // ------------------------------------------------------------------ one element

  lemma AtReads(dpi: nat, x: real, y: real, p: Printer)
    ensures Obey(p, Meant([At(dpi, x, y)])[0]) == p.(x := Dots(dpi, x), y := Dots(dpi, y))
  {
    hide Decimal, Dots, Joined, Parts, Value;
    var a, b := Dots(dpi, x), Dots(dpi, y);
    DecimalIsPlain(a);
    DecimalIsPlain(b);
    PartsBack([Decimal(a), Decimal(b)]);
    DecimalReads(a);
    DecimalReads(b);
  }

  /** The commands that say what the element is: all of its shape after the position. */
  function Kind(dpi: nat, e: Element): seq<Command> {
    if e.Box? then Meant(Zpl.Shape(dpi, e)[1..2]) else Meant(Zpl.Shape(dpi, e)[1..])
  }

  lemma TextReads(dpi: nat, e: Element, p: Printer)
    requires e.Text?
    ensures Run(p, Kind(dpi, e)) == p.(shape := ShapeMeaning(dpi, e))
  {
    hide Decimal, Dots, Joined, Parts, Value, AtLeastOne, Orientation;
    var h := AtLeastOne(dpi, e.height);
    DecimalIsPlain(h);
    WordsArePlain(e.rotation, true);
    PartsBack([[Orientation(e.rotation)], Decimal(h), Decimal(h)]);
    DecimalReads(h);
    assert Kind(dpi, e)[1..] == [];
  }

  lemma BoxReads(dpi: nat, e: Element, p: Printer)
    requires e.Box?
    ensures Run(p, Kind(dpi, e)) == p.(shape := ShapeMeaning(dpi, e))
  {
    hide Decimal, Dots, Joined, Parts, Value, AtLeastOne;
    var t := AtLeastOne(dpi, e.thickness);
    var w, h := Max(AtLeastOne(dpi, e.width), t), Max(AtLeastOne(dpi, e.height), t);
    DecimalIsPlain(w);
    DecimalIsPlain(h);
    DecimalIsPlain(t);
    PartsBack([Decimal(w), Decimal(h), Decimal(t)]);
    DecimalReads(w);
    DecimalReads(h);
    DecimalReads(t);
    assert Kind(dpi, e)[1..] == [];
  }

  lemma SquareReads(dpi: nat, e: Element, p: Printer)
    requires e.QrElement? || e.DataMatrix?
    ensures Run(p, Kind(dpi, e)) == p.(shape := ShapeMeaning(dpi, e))
  {
    hide Decimal, Dots, Joined, Parts, Value;
    var n := if e.QrElement? then e.magnification else e.size;
    DecimalIsPlain(n);
    WordsArePlain(0, true);
    PartsBack(["N", "2", Decimal(n)]);
    PartsBack(["N", Decimal(n), "200"]);
    DecimalReads(n);
    assert Kind(dpi, e)[1..] == [];
  }

  lemma BarCommandReads(s: Symbology, o: string, h: nat, readable: bool, p: Printer)
    requires Plain(o)
    ensures Obey(p, Meant([BarCommand(s, o, Decimal(h), YesNo(readable))])[0]) == p.(shape := BarLines(s, o, h, readable))
  {
    hide Decimal, Joined, Parts, Value;
    DecimalIsPlain(h);
    WordsArePlain(0, readable);
    WordsArePlain(0, true);
    DecimalReads(h);
    var d, y := Decimal(h), YesNo(readable);
    PartsBack([o, d, y, "N", "N"]);
    PartsBack([o, "N", d, y, "N"]);
    PartsBack([o, d, y, "N"]);
    PartsBack([o, d, y, "N", "Y"]);
  }

  lemma UnitReads(unit: nat, h: string, p: Printer)
    requires Plain(h)
    ensures Obey(p, Command('^', 'B', 'Y', Joined([Decimal(unit), "3", h]))) == p.(unit := unit)
  {
    hide Decimal, Joined, Parts, Value;
    DecimalIsPlain(unit);
    WordsArePlain(0, true);
    PartsBack([Decimal(unit), "3", h]);
    DecimalReads(unit);
  }

  lemma BarsRead(dpi: nat, e: Element, p: Printer)
    requires e.BarcodeElement?
    ensures Run(p, Kind(dpi, e)) == p.(shape := ShapeMeaning(dpi, e), unit := e.unit)
  {
    hide Decimal, Dots, Joined, Obey, BarCommand, AtLeastOne, Orientation, Run;
    var h, o := AtLeastOne(dpi, e.height), [Orientation(e.rotation)];
    var cs := Kind(dpi, e);
    var bar := BarCommand(e.symbology, o, Decimal(h), YesNo(e.readable));
    DecimalIsPlain(h);
    WordsArePlain(e.rotation, true);
    UnitReads(e.unit, Decimal(h), p);
    BarCommandReads(e.symbology, o, h, e.readable, p.(unit := e.unit));
    var unit, bc := Command('^', 'B', 'Y', Joined([Decimal(e.unit), "3", Decimal(h)])), Meant([bar])[0];
    assert cs == [unit] + ([bc] + []);
    RunFirst(p, unit, [bc] + []);
    RunFirst(p.(unit := e.unit), bc, []);
    RunNone(Obey(p.(unit := e.unit), bc));
  }

  lemma KindReads(dpi: nat, e: Element, p: Printer)
    ensures
      var p' := Run(p, Kind(dpi, e));
      p' == p.(shape := ShapeMeaning(dpi, e), unit := if e.BarcodeElement? then e.unit else p.unit)
  {
    hide Run, Kind, ShapeMeaning;
    match e
    case Text(_, _, _, _, _) => TextReads(dpi, e, p);
    case BarcodeElement(_, _, _, _, _, _, _, _) => BarsRead(dpi, e, p);
    case QrElement(_, _, _, _, _) => SquareReads(dpi, e, p);
    case DataMatrix(_, _, _, _) => SquareReads(dpi, e, p);
    case Box(_, _, _, _, _) => BoxReads(dpi, e, p);
  }

  lemma FieldObeys(p: Printer, data: string)
    ensures Obey(p, Command('^', 'F', 'H', [])) == p.(hex := true)
    ensures Obey(p.(hex := true), Command('^', 'F', 'D', data)) == p.(hex := true, data := Unhex(data))
    ensures
      var q := p.(hex := true, data := Unhex(data));
      Obey(q, Command('^', 'F', 'S', [])) == q.(out := q.out + [Drawn(q)], shape := Nothing, hex := false, data := [])
  {
    hide Unhex, Drawn, Parts, Value;
  }

  lemma FieldRun(p: Printer, data: string)
    requires Resting(p.(shape := Nothing))
    ensures Run(p, Meant(FieldPieces(data))) ==
            p.(out := p.out + [Drawn(p.(hex := true, data := Unhex(data)))], shape := Nothing, hex := false, data := [])
  {
    hide Unhex, Drawn, Run, Obey, Resting;
    FieldObeys(p, data);
    var fh, fd, fs := Command('^', 'F', 'H', []), Command('^', 'F', 'D', data), Command('^', 'F', 'S', []);
    assert Meant(FieldPieces(data)) == [fh] + ([fd] + ([fs] + []));
    RunFirst(p, fh, [fd] + ([fs] + []));
    var p1 := p.(hex := true);
    RunFirst(p1, fd, [fs] + []);
    var p2 := p1.(data := Unhex(data));
    RunFirst(p2, fs, []);
    RunNone(Obey(p2, fs));
  }

  lemma BoxRun(p: Printer)
    requires Resting(p.(shape := Nothing))
    ensures Run(p, Meant([Piece('^', 'F', 'S', [], true)])) ==
            p.(out := p.out + [Drawn(p)], shape := Nothing, hex := false, data := [])
  {
    hide Drawn, Run, Obey, Resting;
    var fs := Command('^', 'F', 'S', []);
    assert Meant([Piece('^', 'F', 'S', [], true)]) == [fs] + [];
    SeparatorObeys(p);
    RunFirst(p, fs, []);
    RunNone(Obey(p, fs));
  }

  lemma SeparatorObeys(p: Printer)
    ensures Obey(p, Command('^', 'F', 'S', [])) == p.(out := p.out + [Drawn(p)], shape := Nothing, hex := false, data := [])
  {
    hide Drawn, Parts, Value;
  }

  lemma {:induction false} OneLineInvoked(s: string)
    ensures OneLine(Invoked(s)) == Invoked(OneLine(s))
  {
    if s != [] {
      OneLineInvoked(s[1..]);
      var first := if s[0] == '>' then ">0" else [s[0]];
      assert OneLine(first + Invoked(s[1..])) == OneLine(first) + OneLine(Invoked(s[1..]));
      assert OneLine(s)[1..] == OneLine(s[1..]);
    }
  }

  /** What a reader of the field is left with is the element's data. */
  lemma DrawnIs(dpi: nat, e: Element, p: Printer)
    requires !e.Box? && p.x == Dots(dpi, e.x) && p.y == Dots(dpi, e.y) && p.shape == ShapeMeaning(dpi, e)
    requires (e.BarcodeElement? ==> p.unit == e.unit) && p.data == FieldMeaning(e)
    ensures Drawn(p) == ObjectOf(dpi, e)
  {
    hide Dots, AtLeastOne, Orientation, OneLine, Uninvoked, Invoked;
    if e.QrElement? {
      var switches := [LevelLetter(e.level), 'A', ','];
      assert p.data == switches + OneLine(e.data);
      assert p.data[..3] == switches && p.data[3..] == OneLine(e.data);
    } else {
      assert p.data == OneLine(RawField(e));
      if e.BarcodeElement? && e.symbology.Code128? {
        OneLineInvoked(Payload(e.symbology, e.data));
        InvokedBack(OneLine(Payload(e.symbology, e.data)));
      }
    }
  }

  lemma ElementStart(dpi: nat, e: Element, p: Printer)
    ensures
      var cs := Meant([At(dpi, e.x, e.y)]) + Kind(dpi, e);
      Run(p, cs) == p.(x := Dots(dpi, e.x), y := Dots(dpi, e.y), shape := ShapeMeaning(dpi, e),
                       unit := if e.BarcodeElement? then e.unit else p.unit)
  {
    hide Obey, At, Kind, ShapeMeaning, Dots;
    var at := Meant([At(dpi, e.x, e.y)]);
    RunJoin(p, at, Kind(dpi, e));
    assert at[1..] == [] && Run(Obey(p, at[0]), []) == Obey(p, at[0]);
    AtReads(dpi, e.x, e.y, p);
    KindReads(dpi, e, Obey(p, at[0]));
  }

  lemma ElementSplits(dpi: nat, e: Element)
    ensures Meant(ElementPieces(dpi, e)) == Meant([At(dpi, e.x, e.y)]) + Kind(dpi, e) +
      (if e.Box? then Meant([Piece('^', 'F', 'S', [], true)]) else Meant(FieldPieces(Switches(e) + Field(RawField(e)))))
  {
    hide Decimal, Dots, Joined, AtLeastOne, Orientation, BarCommand, Field, RawField, Switches, FieldPieces, At;
    var shape := Zpl.Shape(dpi, e);
    assert shape[0] == At(dpi, e.x, e.y);
  }

  /** One element draws its object, and the printer is ready for the next. */
  lemma ElementDraws(dpi: nat, e: Element, p: Printer)
    requires Resting(p)
    ensures Drew(p, Run(p, Meant(ElementPieces(dpi, e))), [ObjectOf(dpi, e)])
  {
    hide Run, Kind, ShapeMeaning, ElementPieces, At, Dots, Unhex, Switches, Field, RawField, FieldPieces, DataMeaning;
    ElementSplits(dpi, e);
    ElementStart(dpi, e, p);
    var start := Meant([At(dpi, e.x, e.y)]) + Kind(dpi, e);
    var p1 := Run(p, start);
    if e.Box? {
      RunJoin(p, start, Meant([Piece('^', 'F', 'S', [], true)]));
      BoxRun(p1);
      BoxIs(dpi, e, p1);
    } else {
      var data := Switches(e) + Field(RawField(e));
      RunJoin(p, start, Meant(FieldPieces(data)));
      FieldRun(p1, data);
      SwitchesDecode(e);
      DrawnIs(dpi, e, p1.(hex := true, data := Unhex(data)));
    }
  }

  lemma BoxIs(dpi: nat, e: Element, p: Printer)
    requires e.Box? && p.x == Dots(dpi, e.x) && p.y == Dots(dpi, e.y) && p.shape == ShapeMeaning(dpi, e) && p.data == []
    ensures Drawn(p) == ObjectOf(dpi, e)
  {
    hide Dots, AtLeastOne;
  }

  // ------------------------------------------------------------------ labels

  lemma {:induction false} ElementsDraw(dpi: nat, es: seq<Element>, p: Printer)
    requires Resting(p)
    ensures Drew(p, Run(p, Meant(ElementsPieces(dpi, es))), Objects(dpi, es))
    decreases |es|
  {
    hide ElementPieces, ObjectOf, Run, Drew;
    if es == [] {
      RunNone(p);
      DrewNothing(p);
    } else {
      PiecesFront(dpi, es);
      var first, rest := Meant(ElementPieces(dpi, es[0])), Meant(ElementsPieces(dpi, es[1..]));
      assert Meant(ElementsPieces(dpi, es)) == first + rest;
      RunJoin(p, first, rest);
      ElementDraws(dpi, es[0], p);
      var p1 := Run(p, first);
      DrewRests(p, p1, [ObjectOf(dpi, es[0])]);
      ElementsDraw(dpi, es[1..], p1);
      DrewJoin(p, p1, Run(p1, rest), [ObjectOf(dpi, es[0])], Objects(dpi, es[1..]));
    }
  }

  lemma DrewNothing(p: Printer)
    requires Resting(p)
    ensures Drew(p, p, [])
  {
    assert p.out + [] == p.out;
  }

  lemma DrewRests(p: Printer, q: Printer, a: seq<Object>)
    requires Drew(p, q, a)
    ensures Resting(q)
  {
  }

  lemma DrewJoin(p: Printer, q: Printer, r: Printer, a: seq<Object>, b: seq<Object>)
    requires Drew(p, q, a) && Drew(q, r, b)
    ensures Drew(p, r, a + b)
  {
    assert p.out + a + b == p.out + (a + b);
  }

  lemma {:induction false} ZeroInFront(s: string)
    ensures Value(['0'] + s) == Value(s)
    decreases |s|
  {
    if s == [] {
      assert (['0'] + s)[..0] == [];
    } else {
      assert (['0'] + s)[..|s|] == ['0'] + s[..|s| - 1];
      ZeroInFront(s[..|s| - 1]);
    }
  }

  lemma TwoDigitsRead(n: nat)
    ensures Value(TwoDigits(n)) == n
  {
    hide Decimal;
    DecimalReads(n);
    ZeroInFront(Decimal(n));
  }

  /** The printer once the label is set up. */
  function Prepared(l: Label): Printer {
    PowerOn().(width := Dots(l.dpi, l.width), height := Dots(l.dpi, l.height), darkness := l.darkness,
               speed := if l.speed.Some? then Some(Clamp(l.speed.value)) else None)
  }

  lemma SetupRun(l: Label)
    ensures Run(PowerOn(), Meant(Setup(l))) == Prepared(l)
  {
    hide Decimal, Dots, Run, Value, TwoDigits;
    var w, h := Dots(l.dpi, l.width), Dots(l.dpi, l.height);
    DecimalReads(w);
    DecimalReads(h);
    var dark := if l.darkness.Some? then [Command('~', 'S', 'D', TwoDigits(l.darkness.value))] else [];
    var speed := if l.speed.Some? then [Command('^', 'P', 'R', Decimal(Clamp(l.speed.value)))] else [];
    var c1, c2 := Command('^', 'C', 'I', "28"), Command('^', 'P', 'W', Decimal(w));
    var c3, c4 := Command('^', 'L', 'L', Decimal(h)), Command('^', 'L', 'H', "0,0");
    assert Meant(Setup(l)) == [c1] + ([c2] + ([c3] + ([c4] + (dark + speed))));
    RunFirst(PowerOn(), c1, [c2] + ([c3] + ([c4] + (dark + speed))));
    RunFirst(PowerOn(), c2, [c3] + ([c4] + (dark + speed)));
    var p := PowerOn().(width := w);
    RunFirst(p, c3, [c4] + (dark + speed));
    var p1 := p.(height := h);
    RunFirst(p1, c4, dark + speed);
    OptionsRun(l, p1, dark, speed);
  }

  lemma OptionsRun(l: Label, p: Printer, dark: seq<Command>, speed: seq<Command>)
    requires p.darkness.None? && p.speed.None?
    requires dark == if l.darkness.Some? then [Command('~', 'S', 'D', TwoDigits(l.darkness.value))] else []
    requires speed == if l.speed.Some? then [Command('^', 'P', 'R', Decimal(Clamp(l.speed.value)))] else []
    ensures Run(p, dark + speed) ==
            p.(darkness := l.darkness, speed := if l.speed.Some? then Some(Clamp(l.speed.value)) else None)
  {
    hide Decimal, Run, Value, TwoDigits;
    RunJoin(p, dark, speed);
    RunNone(p);
    if l.darkness.Some? {
      TwoDigitsRead(l.darkness.value);
      RunFirst(p, dark[0], []);
      assert dark == [dark[0]] + [];
      RunNone(Obey(p, dark[0]));
    }
    var p1 := p.(darkness := l.darkness);
    RunNone(p1);
    if l.speed.Some? {
      DecimalReads(Clamp(l.speed.value));
      RunFirst(p1, speed[0], []);
      assert speed == [speed[0]] + [];
      RunNone(Obey(p1, speed[0]));
    }
  }

  /**
   A printer that reads the stream of a label draws exactly the label's elements in order, each at
   its position and in its size in dots with its data, on a label of the given size, darkness and
   (clamped) speed.
   */
  lemma LabelPrintsItself(l: Label)
    ensures Drew(Prepared(l), Run(PowerOn(), ReadCommands(Written(LabelPieces(l)))), Objects(l.dpi, l.elements))
  {
    hide ReadCommands, Written, Setup, ElementsPieces, Objects, Obey, Fields, Expected, Dots;
    LabelReadsBack(l);
    var start, end := Command('^', 'X', 'A', []), Command('^', 'X', 'Z', []);
    var setup, body := Meant(Setup(l)), Meant(ElementsPieces(l.dpi, l.elements));
    assert Meant(LabelPieces(l)) == [start] + (setup + (body + [end]));
    RunFirst(PowerOn(), start, setup + (body + [end]));
    EndsDoNothing(PowerOn());
    RunJoin(PowerOn(), setup, body + [end]);
    SetupRun(l);
    RunJoin(Prepared(l), body, [end]);
    ElementsDraw(l.dpi, l.elements, Prepared(l));
    var p := Run(Prepared(l), body);
    EndsDoNothing(p);
    RunFirst(p, end, []);
    assert [end] + [] == [end];
    RunNone(p);
  }

  lemma EndsDoNothing(p: Printer)
    ensures Obey(p, Command('^', 'X', 'A', [])) == p && Obey(p, Command('^', 'X', 'Z', [])) == p
  {
  }
}
