/**
 An abstract ESC/POS printer, and the proof that it prints exactly the document that a
 receipt's bytes encode.
 */
module ReceiptPrinter {
  import opened Wrappers
  import opened EscPos
  import opened Receipt

  // ------------------------------------------------------------------ printer

  datatype Cell = Cell(glyph: char, style: Style)

  /** What appears on paper or at the connectors, in order. */
  datatype Event =
    | Line(align: Alignment, cells: seq<Cell>)
    | Fed(lines: Byte)
    | BarsPrinted(symbology: Symbology, data: seq<Byte>, height: Byte, unit: Byte, readable: bool, align: Alignment)
    | QrPrinted(data: seq<Byte>, size: Byte, level: QrLevel, align: Alignment)
    | Picture(width: nat, rows: nat, bits: seq<Byte>, align: Alignment)
    | Cutting(partial: bool, feed: Byte)
    | Kicked(pin: Byte)

  datatype Printer = Printer(
    style: Style, page: CodePage, line: seq<Cell>,
    barHeight: Byte, barUnit: Byte, barText: bool,
    qrSize: Byte, qrLevel: QrLevel, qrData: seq<Byte>,
    out: seq<Event>)

  function PowerOn(out: seq<Event>): Printer {
    Printer(PLAIN, Ibm437, [], 162, 3, false, 3, QrL, [], out)
  }

  function AlignOf(n: Byte): Alignment { if n == 1 then Center else if n == 2 then Right else Left }

  function PageOf(n: Byte, otherwise: CodePage): CodePage {
    if n == 0 then Ibm437 else if n == 2 then Ibm850 else if n == 19 then Ibm858 else otherwise
  }

  function Modes(): map<Byte, Symbology> {
    map[65 := UpcA, 67 := Ean13, 68 := Ean8, 69 := Code39, 70 := Itf, 73 := Code128]
  }

  function LevelOf(n: Byte): QrLevel { if n == 49 then QrM else if n == 50 then QrQ else if n == 51 then QrH else QrL }

  /** CODE128 data of code set B with the escapes undone. */
  function Undoubled(d: seq<Byte>): seq<Byte> {
    if d == [] then []
    else if |d| >= 2 && d[0] == 123 && d[1] == 123 then [123 as Byte] + Undoubled(d[2..])
    else [d[0]] + Undoubled(d[1..])
  }

  function BarData(s: Symbology, payload: seq<Byte>): seq<Byte> {
    if s.Code128? && |payload| >= 2 then Undoubled(payload[2..]) else payload
  }

  function Emit(p: Printer, e: Event): Printer { p.(out := p.out + [e]) }

  function SetOne(p: Printer, lead: Byte, op: Byte, n: Byte): Printer {
    if lead == ESC then
      if op == 97 then p.(style := p.style.(align := AlignOf(n)))
      else if op == 69 then p.(style := p.style.(bold := n % 2 == 1))
      else if op == 45 then p.(style := p.style.(underline := n != 0))
      else if op == 77 then p.(style := p.style.(small := n == 1))
      else if op == 116 then p.(page := PageOf(n, p.page))
      else if op == 100 then Emit(if p.line == [] then p else EndLine(p), Fed(n))
      else p
    else
      if op == 33 then p.(style := p.style.(wide := n / 16 > 0, tall := n % 16 > 0))
      else if op == 66 then p.(style := p.style.(invert := n % 2 == 1))
      else if op == 104 then p.(barHeight := n)
      else if op == 119 then p.(barUnit := n)
      else if op == 72 then p.(barText := n != 0)
      else p
  }

  function EndLine(p: Printer): Printer { Emit(p, Line(p.style.align, p.line)).(line := []) }

  function QrFunction(p: Printer, fn: Byte, params: seq<Byte>): Printer {
    if params == [] then p
    else if fn == 67 then p.(qrSize := params[0])
    else if fn == 69 then p.(qrLevel := LevelOf(params[0]))
    else if fn == 80 then p.(qrData := params[1..])
    else if fn == 81 then Emit(p, QrPrinted(p.qrData, p.qrSize, p.qrLevel, p.style.align))
    else p
  }

  function Obey(tables: Tables, p: Printer, t: Token): Printer
    requires |tables(p.page)| == 128
  {
    match t
    case Glyph(b) => p.(line := p.line + [Cell(DecodeByte(tables(p.page), b), p.style)])
    case NewLine => EndLine(p)
    case Reset => PowerOn(p.out)
    case Set(lead, op, n) => SetOne(p, lead, op, n)
    case Pulse(m, _, _) => Emit(p, Kicked(m))
    case Cut(m, n) => Emit(p, Cutting(m == 66, n))
    case Bars(m, data) =>
      if m in Modes() then
        Emit(p, BarsPrinted(Modes()[m], BarData(Modes()[m], data), p.barHeight, p.barUnit, p.barText, p.style.align))
      else p
    case Symbol(cn, fn, params) => if cn == 49 then QrFunction(p, fn, params) else p
    case Raster(_, width, height, bits) => Emit(p, Picture(width, height, bits, p.style.align))
  }

  function Run(tables: Tables, p: Printer, ts: seq<Token>): Printer
    requires forall page :: |tables(page)| == 128
  {
    if ts == [] then p else Obey(tables, Run(tables, p, ts[..|ts| - 1]), ts[|ts| - 1])
  }

  lemma {:induction false} RunJoin(tables: Tables, p: Printer, a: seq<Token>, b: seq<Token>)
    requires ValidTables(tables)
    ensures Run(tables, p, a + b) == Run(tables, Run(tables, p, a), b)
    decreases |b|
  {
    hide Obey;
    if b == [] {
      assert a + b == a;
    } else {
      var n := |b| - 1;
      assert (a + b)[..|a + b| - 1] == a + b[..n];
      RunJoin(tables, p, a, b[..n]);
    }
  }

  lemma RunOne(tables: Tables, p: Printer, t: Token)
    requires ValidTables(tables)
    ensures Run(tables, p, [t]) == Obey(tables, p, t)
  {
    hide Obey;
    assert [t][..0] == [];
  }

  // ------------------------------------------------------------------ what a document means

  function CellsOf(text: string, style: Style): (r: seq<Cell>)
    ensures |r| == |text|
  {
    seq(|text|, i requires 0 <= i < |text| => Cell(text[i], style))
  }

  function LinesMeaning(lines: seq<string>, style: Style): seq<Event> {
    if lines == [] then []
    else LinesMeaning(lines[..|lines| - 1], style) + [Line(style.align, CellsOf(lines[|lines| - 1], style))]
  }

  /** The picture in bands of at most 256 rows. */
  function BandsMeaning(b: Bitmap, row: nat, align: Alignment): seq<Event>
    requires |b.bits| == b.rows * b.width
    decreases b.rows - row
  {
    if row >= b.rows then []
    else
      var n := Min(BAND, b.rows - row);
      BandFits(b, row);
      [Picture(b.width, n, b.bits[row * b.width..(row + n) * b.width], align)] + BandsMeaning(b, row + n, align)
  }

  function Meaning(table: seq<char>, width: nat, item: Item): seq<Event>
    requires |table| == 128 && ValidItem(item)
  {
    match item
    case Text(text, style) => LinesMeaning(LinesOf(text), style)
    case Columns(left, right, bold) => [Line(Left, CellsOf(ColumnsLine(left, right, width), PLAIN.(bold := bold)))]
    case Separator(c) => [Line(Left, CellsOf(SeparatorLine(table, c, width), PLAIN))]
    case Feed(n) => [Fed(n)]
    case BarcodeItem(s, data, height, unit, readable, align) =>
      [BarsPrinted(s, data, height, unit, readable, align), Line(align, [])]
    case QrItem(data, size, level, align) => [QrPrinted(data, size, level, align), Line(align, [])]
    case Image(b, align) => BandsMeaning(b, 0, align)
    case CutItem(partial, n) => [Cutting(partial, n)]
    case Drawer(pin) => [Kicked(pin)]
  }

  function ItemsMeaning(table: seq<char>, width: nat, items: seq<Item>): seq<Event>
    requires |table| == 128 && forall i :: 0 <= i < |items| ==> ValidItem(items[i])
  {
    if items == [] then []
    else ItemsMeaning(table, width, items[..|items| - 1]) + Meaning(table, width, items[|items| - 1])
  }

  function DocumentMeaning(tables: Tables, d: Document): seq<Event>
    requires ValidDocument(d) && |tables(d.page)| == 128
  {
    ItemsMeaning(tables(d.page), d.width, d.items)
    + (if d.openDrawer then [Kicked(0)] else [])
    + (if d.cut && !EndsWithCut(d.items) then [Cutting(false, 3)] else [])
  }

  /** Nothing is buffered and every style is at its default. */
  predicate AtRest(p: Printer, page: CodePage) {
    p.style == PLAIN && p.line == [] && p.page == page
  }

  /** The bands of a picture, put together again, are the whole bitmap. */
  function BitsOf(events: seq<Event>): seq<Byte> {
    if events == [] then []
    else (if events[0].Picture? then events[0].bits else []) + BitsOf(events[1..])
  }

  lemma {:induction false} BandsAreWhole(b: Bitmap, row: nat, align: Alignment)
    requires |b.bits| == b.rows * b.width && row <= b.rows
    ensures 0 <= row * b.width <= |b.bits| && BitsOf(BandsMeaning(b, row, align)) == b.bits[row * b.width..]
    ensures forall i :: 0 <= i < |BandsMeaning(b, row, align)| ==>
      && BandsMeaning(b, row, align)[i].Picture? && BandsMeaning(b, row, align)[i].width == b.width
      && 1 <= BandsMeaning(b, row, align)[i].rows <= 256
      && (i < |BandsMeaning(b, row, align)| - 1 ==> BandsMeaning(b, row, align)[i].rows == 256)
    decreases b.rows - row
  {
    if row < b.rows {
      var n := Min(BAND, b.rows - row);
      BandFits(b, row);
      BandsAreWhole(b, row + n, align);
      var e := BandsMeaning(b, row, align);
      assert e[1..] == BandsMeaning(b, row + n, align);
      assert b.bits[row * b.width..] == b.bits[row * b.width..(row + n) * b.width] + b.bits[(row + n) * b.width..];
    }
  }

  // ------------------------------------------------------------------ text

  lemma {:induction false} Decodes(table: seq<char>, s: string)
    requires |table| == 128 && EncodeText(table, s).Some?
    ensures forall i :: 0 <= i < |s| ==> DecodeByte(table, EncodeText(table, s).value[i]) == s[i]
    ensures Printable(s) ==> forall i :: 0 <= i < |s| ==> EncodeText(table, s).value[i] >= 0x20
  {
    if s != [] { Decodes(table, s[1..]); }
  }

  lemma {:induction false} GlyphsRun(tables: Tables, p: Printer, bytes: seq<Byte>, text: string)
    requires ValidTables(tables) && |bytes| == |text|
    requires forall i :: 0 <= i < |text| ==> DecodeByte(tables(p.page), bytes[i]) == text[i]
    ensures Run(tables, p, Glyphs(bytes)) == p.(line := p.line + CellsOf(text, p.style))
    decreases |bytes|
  {
    if bytes == [] {
      assert p.line + CellsOf(text, p.style) == p.line;
    } else {
      var n := |bytes| - 1;
      assert Glyphs(bytes)[..n] == Glyphs(bytes[..n]);
      GlyphsRun(tables, p, bytes[..n], text[..n]);
      assert CellsOf(text, p.style) == CellsOf(text[..n], p.style) + [Cell(text[n], p.style)];
    }
  }

  lemma LineRun(tables: Tables, p: Printer, line: string)
    requires ValidTables(tables) && p.line == [] && LineTokens(tables(p.page), line).Some?
    ensures Run(tables, p, LineTokens(tables(p.page), line).value) == Emit(p, Line(p.style.align, CellsOf(line, p.style)))
  {
    var bytes := EncodeText(tables(p.page), line).value;
    Decodes(tables(p.page), line);
    GlyphsRun(tables, p, bytes, line);
    RunJoin(tables, p, Glyphs(bytes), [NewLine]);
    RunOne(tables, Run(tables, p, Glyphs(bytes)), NewLine);
    assert [] + CellsOf(line, p.style) == CellsOf(line, p.style);
  }

  lemma {:induction false} LinesRun(tables: Tables, p: Printer, lines: seq<string>)
    requires ValidTables(tables) && p.line == [] && LinesTokens(tables(p.page), lines).Some?
    ensures Run(tables, p, LinesTokens(tables(p.page), lines).value) == p.(out := p.out + LinesMeaning(lines, p.style))
    decreases |lines|
  {
    hide Obey, EncodeText;
    if lines == [] {
      assert p.out + LinesMeaning(lines, p.style) == p.out;
    } else {
      var n := |lines| - 1;
      var table := tables(p.page);
      var front := LinesTokens(table, lines[..n]).value;
      LinesRun(tables, p, lines[..n]);
      RunJoin(tables, p, front, LineTokens(table, lines[n]).value);
      LineRun(tables, Run(tables, p, front), lines[n]);
    }
  }

  lemma RunFirst(tables: Tables, p: Printer, ts: seq<Token>)
    requires ValidTables(tables) && ts != []
    ensures Run(tables, p, ts) == Run(tables, Obey(tables, p, ts[0]), ts[1..])
  {
    hide Obey;
    assert ts == [ts[0]] + ts[1..];
    RunJoin(tables, p, [ts[0]], ts[1..]);
    RunOne(tables, p, ts[0]);
  }

  /** Six one-argument commands in a row. */
  lemma RunSix(tables: Tables, p: Printer, ts: seq<Token>)
    requires ValidTables(tables) && |ts| == 6 && forall i :: 0 <= i < 6 ==> ts[i].Set?
    ensures
      var p1 := SetOne(p, ts[0].lead, ts[0].op, ts[0].n);
      var p2 := SetOne(p1, ts[1].lead, ts[1].op, ts[1].n);
      var p3 := SetOne(p2, ts[2].lead, ts[2].op, ts[2].n);
      var p4 := SetOne(p3, ts[3].lead, ts[3].op, ts[3].n);
      var p5 := SetOne(p4, ts[4].lead, ts[4].op, ts[4].n);
      Run(tables, p, ts) == SetOne(p5, ts[5].lead, ts[5].op, ts[5].n)
  {
    hide SetOne, Run;
    RunFirst(tables, p, ts);
    var p1, r1 := SetOne(p, ts[0].lead, ts[0].op, ts[0].n), ts[1..];
    RunFirst(tables, p1, r1);
    var p2, r2 := SetOne(p1, r1[0].lead, r1[0].op, r1[0].n), r1[1..];
    RunFirst(tables, p2, r2);
    var p3, r3 := SetOne(p2, r2[0].lead, r2[0].op, r2[0].n), r2[1..];
    RunFirst(tables, p3, r3);
    var p4, r4 := SetOne(p3, r3[0].lead, r3[0].op, r3[0].n), r3[1..];
    RunFirst(tables, p4, r4);
    var p5, r5 := SetOne(p4, r4[0].lead, r4[0].op, r4[0].n), r4[1..];
    assert r5 == [ts[5]];
    RunOne(tables, p5, ts[5]);
  }

  lemma StyleOnRun(tables: Tables, p: Printer, s: Style)
    requires ValidTables(tables)
    ensures Run(tables, p, StyleOn(s)) == p.(style := s)
  {
    hide Run;
    RunSix(tables, p, StyleOn(s));
  }

  lemma StyleOffRun(tables: Tables, p: Printer)
    requires ValidTables(tables)
    ensures Run(tables, p, StyleOff()) == p.(style := PLAIN)
  {
    hide Run;
    RunSix(tables, p, StyleOff());
  }

  // ------------------------------------------------------------------ items

  /** The printer went from rest to rest and added exactly `events`. */
  predicate Added(p: Printer, p': Printer, page: CodePage, events: seq<Event>) {
    AtRest(p', page) && p'.out == p.out + events
  }

  lemma TextRun(tables: Tables, p: Printer, text: string, style: Style)
    requires ValidTables(tables) && AtRest(p, p.page) && LinesTokens(tables(p.page), LinesOf(text)).Some?
    ensures Added(p, Run(tables, p, StyleOn(style) + LinesTokens(tables(p.page), LinesOf(text)).value + StyleOff()), p.page,
                  LinesMeaning(LinesOf(text), style))
  {
    hide Run, LinesTokens, LinesMeaning, StyleOn, StyleOff, LinesOf;
    var lines := LinesTokens(tables(p.page), LinesOf(text)).value;
    var p1 := p.(style := style);
    StyleOnRun(tables, p, style);
    RunJoin(tables, p, StyleOn(style), lines);
    LinesRun(tables, p1, LinesOf(text));
    RunJoin(tables, p, StyleOn(style) + lines, StyleOff());
    StyleOffRun(tables, Run(tables, p1, lines));
  }

  lemma ColumnsRun(tables: Tables, p: Printer, line: string, bold: bool)
    requires ValidTables(tables) && AtRest(p, p.page) && LineTokens(tables(p.page), line).Some?
    ensures Added(p, Run(tables, p, [BoldTo(bold)] + LineTokens(tables(p.page), line).value + [BoldTo(false)]), p.page,
                  [Line(Left, CellsOf(line, PLAIN.(bold := bold)))])
  {
    hide Run, LineTokens, CellsOf;
    var tokens := LineTokens(tables(p.page), line).value;
    RunOne(tables, p, BoldTo(bold));
    var p1 := p.(style := PLAIN.(bold := bold));
    RunJoin(tables, p, [BoldTo(bold)], tokens);
    LineRun(tables, p1, line);
    RunJoin(tables, p, [BoldTo(bold)] + tokens, [BoldTo(false)]);
    RunOne(tables, Run(tables, p1, tokens), BoldTo(false));
  }

  /** An aligned item: align, commands that keep the style, align left again. */
  lemma AlignedRun(tables: Tables, p: Printer, align: Alignment, body: seq<Token>, events: seq<Event>)
    requires ValidTables(tables) && AtRest(p, p.page)
    requires
      var p1 := p.(style := PLAIN.(align := align));
      var p2 := Run(tables, p1, body);
      p2.style == p1.style && p2.line == [] && p2.page == p.page && p2.out == p.out + events
    ensures Added(p, Run(tables, p, [AlignTo(align)] + body + [AlignTo(Left)]), p.page, events)
  {
    hide Run;
    RunOne(tables, p, AlignTo(align));
    RunJoin(tables, p, [AlignTo(align)], body);
    RunJoin(tables, p, [AlignTo(align)] + body, [AlignTo(Left)]);
    RunOne(tables, Run(tables, p.(style := PLAIN.(align := align)), body), AlignTo(Left));
  }

  lemma {:induction false} UndoubledDoubled(d: seq<Byte>)
    ensures Undoubled(Doubled(d)) == d
  {
    if d != [] {
      UndoubledDoubled(d[1..]);
      var r := Doubled(d);
      if d[0] == 123 {
        assert r[2..] == Doubled(d[1..]);
      } else {
        assert r[1..] == Doubled(d[1..]);
      }
    }
  }

  lemma BarPayloadReads(s: Symbology, data: seq<Byte>)
    ensures BarMode(s) in Modes() && Modes()[BarMode(s)] == s && BarData(s, BarPayload(s, data)) == data
  {
    if s.Code128? {
      assert BarPayload(s, data)[2..] == Doubled(data);
      UndoubledDoubled(data);
    }
  }

  lemma BarcodeRun(tables: Tables, p: Printer, s: Symbology, data: seq<Byte>, height: Byte, unit: Byte, readable: bool)
    requires ValidTables(tables) && p.line == []
    ensures
      var p' := Run(tables, p, Barcode(s, data, height, unit, readable) + [NewLine]);
      && p'.style == p.style && p'.line == [] && p'.page == p.page
      && p'.out == p.out + [BarsPrinted(s, data, height, unit, readable, p.style.align), Line(p.style.align, [])]
  {
    hide Run, BarData, BarPayload, Modes, BarMode;
    BarPayloadReads(s, data);
    var ts := Barcode(s, data, height, unit, readable) + [NewLine];
    RunFirst(tables, p, ts);
    var p1 := p.(barHeight := height);
    RunFirst(tables, p1, ts[1..]);
    var p2 := p1.(barUnit := unit);
    RunFirst(tables, p2, ts[1..][1..]);
    var p3 := p2.(barText := readable);
    RunFirst(tables, p3, ts[1..][1..][1..]);
    assert ts[1..][1..][1..][1..] == [NewLine];
    RunOne(tables, Obey(tables, p3, ts[3]), NewLine);
  }

  lemma QrRun(tables: Tables, p: Printer, data: seq<Byte>, size: Byte, level: QrLevel)
    requires ValidTables(tables) && p.line == []
    ensures
      var p' := Run(tables, p, Qr(data, size, level) + [NewLine]);
      && p'.style == p.style && p'.line == [] && p'.page == p.page
      && p'.out == p.out + [QrPrinted(data, size, level, p.style.align), Line(p.style.align, [])]
  {
    hide Run;
    var ts := Qr(data, size, level) + [NewLine];
    RunFirst(tables, p, ts);
    RunFirst(tables, p, ts[1..]);
    var p1 := p.(qrSize := size);
    RunFirst(tables, p1, ts[1..][1..]);
    var p2 := p1.(qrLevel := level);
    RunFirst(tables, p2, ts[1..][1..][1..]);
    assert ([48] + data)[1..] == data;
    var p3 := p2.(qrData := data);
    RunFirst(tables, p3, ts[1..][1..][1..][1..]);
    assert ts[1..][1..][1..][1..][1..] == [NewLine];
    RunOne(tables, Emit(p3, QrPrinted(data, size, level, p.style.align)), NewLine);
  }

  lemma {:induction false} BandsRun(tables: Tables, p: Printer, b: Bitmap, row: nat)
    requires ValidTables(tables) && |b.bits| == b.rows * b.width
    ensures Run(tables, p, Bands(b, row)) == p.(out := p.out + BandsMeaning(b, row, p.style.align))
    decreases b.rows - row
  {
    hide Run;
    if row >= b.rows {
      assert Run(tables, p, []) == p by { NothingRun(tables, p); }
      assert p.out + BandsMeaning(b, row, p.style.align) == p.out;
    } else {
      var n := Min(BAND, b.rows - row);
      BandFits(b, row);
      RunFirst(tables, p, Bands(b, row));
      assert Bands(b, row)[1..] == Bands(b, row + n);
      var e := Picture(b.width, n, b.bits[row * b.width..(row + n) * b.width], p.style.align);
      BandsRun(tables, Emit(p, e), b, row + n);
      assert p.out + [e] + BandsMeaning(b, row + n, p.style.align) == p.out + BandsMeaning(b, row, p.style.align);
    }
  }

  lemma NothingRun(tables: Tables, p: Printer)
    requires ValidTables(tables)
    ensures Run(tables, p, []) == p
  {
  }

  lemma SymbolItemRun(tables: Tables, p: Printer, width: nat, item: Item)
    requires ValidTables(tables) && AtRest(p, p.page) && ValidItem(item) && (item.BarcodeItem? || item.QrItem? || item.Image?)
    ensures Added(p, Run(tables, p, ItemTokens(tables(p.page), width, item).value), p.page, Meaning(tables(p.page), width, item))
  {
    hide Run, Added, Barcode, Qr, ValidBars, Bands, BandsMeaning;
    var p1 := p.(style := PLAIN.(align := item.align));
    match item
    case BarcodeItem(s, data, height, unit, readable, align) =>
      BarcodeRun(tables, p1, s, data, height, unit, readable);
      var body := Barcode(s, data, height, unit, readable) + [NewLine];
      AlignedRun(tables, p, align, body, Meaning(tables(p.page), width, item));
      assert [AlignTo(align)] + body + [AlignTo(Left)] == ItemTokens(tables(p.page), width, item).value;
    case QrItem(data, size, level, align) =>
      QrRun(tables, p1, data, size, level);
      var body := Qr(data, size, level) + [NewLine];
      AlignedRun(tables, p, align, body, Meaning(tables(p.page), width, item));
      assert [AlignTo(align)] + body + [AlignTo(Left)] == ItemTokens(tables(p.page), width, item).value;
    case Image(b, align) =>
      BandsRun(tables, p1, b, 0);
      AlignedRun(tables, p, align, Bands(b, 0), Meaning(tables(p.page), width, item));
  }

  /** One item: printed as it means, and the printer is back at its default style. */
  lemma ItemRun(tables: Tables, p: Printer, width: nat, item: Item)
    requires ValidTables(tables) && AtRest(p, p.page) && ValidItem(item) && ItemTokens(tables(p.page), width, item).Some?
    ensures Added(p, Run(tables, p, ItemTokens(tables(p.page), width, item).value), p.page, Meaning(tables(p.page), width, item))
  {
    hide Run, LinesTokens, LineTokens, LinesMeaning, CellsOf, Barcode, Qr, Bands, BandsMeaning, ValidBars, StyleOn, StyleOff;
    match item
    case Text(text, style) => TextRun(tables, p, text, style);
    case Columns(left, right, bold) => ColumnsRun(tables, p, ColumnsLine(left, right, width), bold);
    case Separator(c) => LineRun(tables, p, SeparatorLine(tables(p.page), c, width));
    case Feed(n) => RunOne(tables, p, FeedBy(n));
    case CutItem(partial, n) => RunOne(tables, p, CutAfter(partial, n));
    case Drawer(pin) => RunOne(tables, p, Kick(pin));
    case _ => SymbolItemRun(tables, p, width, item);
  }

  lemma {:induction false} ItemsRun(tables: Tables, p: Printer, width: nat, items: seq<Item>)
    requires ValidTables(tables) && AtRest(p, p.page) && forall i :: 0 <= i < |items| ==> ValidItem(items[i])
    requires ItemsTokens(tables(p.page), width, items).Some?
    ensures Added(p, Run(tables, p, ItemsTokens(tables(p.page), width, items).value), p.page,
                  ItemsMeaning(tables(p.page), width, items))
    decreases |items|
  {
    hide Obey, ItemTokens, Meaning, ValidItem;
    if items == [] {
      assert p.out + [] == p.out;
    } else {
      var n := |items| - 1;
      var table := tables(p.page);
      var front := ItemsTokens(table, width, items[..n]).value;
      ItemsRun(tables, p, width, items[..n]);
      var p1 := Run(tables, p, front);
      RunJoin(tables, p, front, ItemTokens(table, width, items[n]).value);
      ItemRun(tables, p1, width, items[n]);
    }
  }
}
