/** What a label's ZPL says, and the encoder as the source writes it. */
module ZplCode {
  import opened Wrappers
  import opened EscPos
  import opened Zpl

  // ------------------------------------------------------------------ field data

  /** No field contains a command prefix or a line break. */
  lemma {:induction false} FieldIsSafe(text: string)
    ensures Safe(Field(text))
  {
    if text != [] { FieldIsSafe(text[..|text| - 1]); }
  }

  lemma FieldPush(text: string, c: char)
    ensures Field(text + [c]) == Field(text) + FieldChar(c)
  {
    hide FieldChar;
    assert (text + [c])[..|text|] == text;
  }

  lemma {:induction false} FieldFront(text: string)
    requires text != []
    ensures Field(text) == FieldChar(text[0]) + Field(text[1..])
    decreases |text|
  {
    hide Field, FieldChar;
    var n := |text| - 1;
    var front, last := text[..n], text[n];
    assert text == front + [last];
    FieldPush(front, last);
    if n == 0 {
      assert front == [] && text[1..] == [];
      EmptyField();
    } else {
      FieldFront(front);
      assert text[1..] == front[1..] + [last];
      FieldPush(front[1..], last);
    }
  }

  lemma UnhexEscape(c: char, rest: string)
    ensures Unhex(FieldChar(c) + rest) == [if c == '\r' || c == '\n' then ' ' else c] + Unhex(rest)
  {
    var s := FieldChar(c) + rest;
    if c == '_' || c == '^' || c == '~' {
      assert s[3..] == rest;
      assert s[0] == '_' && HexDigit(s[1]).Some? && HexDigit(s[2]).Some?;
    } else {
      assert s[1..] == rest && s[0] != '_';
    }
  }

  /** Decoding the hex escapes gives the text back, on one line. */
  lemma {:induction false} FieldDecodes(text: string)
    ensures Unhex(Field(text)) == OneLine(text)
    decreases |text|
  {
    hide Unhex, Field, FieldChar;
    if text == [] {
      assert Unhex(Field([])) == [] by { EmptyField(); }
    } else {
      FieldFront(text);
      FieldDecodes(text[1..]);
      UnhexEscape(text[0], Field(text[1..]));
      assert OneLine(text) == [OneLine(text)[0]] + OneLine(text[1..]);
    }
  }

  lemma EmptyField()
    ensures Field([]) == [] && Unhex(Field([])) == []
  {
  }

  lemma {:induction false} InvokedBack(s: string)
    ensures Uninvoked(Invoked(s)) == s
  {
    if s != [] {
      InvokedBack(s[1..]);
      var r := Invoked(s);
      if s[0] == '>' {
        assert r[2..] == Invoked(s[1..]);
      } else {
        assert r[1..] == Invoked(s[1..]);
      }
    }
  }

  /** What a reader should find in an element's field. */
  function FieldMeaning(e: Element): string {
    Switches(e) + OneLine(RawField(e))
  }

  /** The data of a CODE128 barcode after its `>0` sequences are undone; of others, as they are. */
  lemma BarDataRestored(s: Symbology, data: string)
    ensures (if s.Code128? then Uninvoked(BarField(s, data)) else BarField(s, data)) == Payload(s, data)
    ensures !s.Ean13? && !s.Ean8? && !s.UpcA? ==> Payload(s, data) == data
  {
    InvokedBack(Payload(s, data));
  }

  lemma {:induction false} UnhexPrefix(a: string, b: string)
    requires '_' !in a
    ensures Unhex(a + b) == a + Unhex(b)
    decreases |a|
  {
    if a == [] {
      assert a + b == b;
    } else {
      assert (a + b)[1..] == a[1..] + b;
      UnhexPrefix(a[1..], b);
    }
  }

  lemma SwitchesDecode(e: Element)
    ensures Unhex(Switches(e) + Field(RawField(e))) == FieldMeaning(e)
    ensures Safe(Switches(e) + Field(RawField(e)))
  {
    FieldDecodes(RawField(e));
    FieldIsSafe(RawField(e));
    UnhexPrefix(Switches(e), Field(RawField(e)));
  }

  // ------------------------------------------------------------------ all commands are safe

  /** No command but the first and last of a label opens, closes or re-prefixes a format. */
  predicate Ordinary(p: Piece) {
    SafePiece(p) && p.a != 'X' && !(p.a == 'C' && p.b == 'C')
  }

  predicate AllOrdinary(ps: seq<Piece>) {
    forall i :: 0 <= i < |ps| ==> Ordinary(ps[i])
  }

  lemma {:induction false} JoinedIsSafe(parts: seq<string>)
    requires forall i :: 0 <= i < |parts| ==> Safe(parts[i])
    ensures Safe(Joined(parts))
    decreases |parts|
  {
    if |parts| > 1 { JoinedIsSafe(parts[1..]); }
  }

  lemma DecimalIsSafe(n: nat)
    ensures Safe(Decimal(n)) && Safe(TwoDigits(n))
  {
    hide Decimal;
  }

  lemma AtIsOrdinary(dpi: nat, x: real, y: real)
    ensures Ordinary(At(dpi, x, y))
  {
    hide Decimal, Dots, Safe, Joined;
    DecimalIsSafe(Dots(dpi, x));
    DecimalIsSafe(Dots(dpi, y));
    JoinedIsSafe([Decimal(Dots(dpi, x)), Decimal(Dots(dpi, y))]);
  }

  lemma LettersAreSafe(rotation: nat, on: bool)
    ensures Safe([Orientation(rotation)]) && Safe(YesNo(on)) && Safe("N") && Safe("Y") && Safe("2") && Safe("3") && Safe("200")
    ensures Safe("28") && Safe("0,0") && Safe([])
  {
  }

  lemma BarIsOrdinary(s: Symbology, o: string, h: string, readable: string)
    requires Safe(o) && Safe(h) && Safe(readable)
    ensures Ordinary(BarCommand(s, o, h, readable))
  {
    hide Safe, Joined;
    LettersAreSafe(0, true);
    JoinedIsSafe([o, h, readable, "N", "N"]);
    JoinedIsSafe([o, "N", h, readable, "N"]);
    JoinedIsSafe([o, h, readable, "N"]);
    JoinedIsSafe([o, h, readable, "N", "Y"]);
  }

  lemma SecondIsOrdinary(dpi: nat, e: Element)
    ensures Ordinary(Shape(dpi, e)[1])
  {
    hide Safe, Joined, Decimal, Dots, AtLeastOne, BarCommand, At, Orientation;
    match e
    case Text(_, _, _, height, rotation) =>
      DecimalIsSafe(AtLeastOne(dpi, height));
      LettersAreSafe(rotation, true);
      JoinedIsSafe([[Orientation(rotation)], Decimal(AtLeastOne(dpi, height)), Decimal(AtLeastOne(dpi, height))]);
    case BarcodeElement(_, _, _, _, height, unit, _, _) =>
      DecimalIsSafe(AtLeastOne(dpi, height));
      DecimalIsSafe(unit);
      LettersAreSafe(0, true);
      JoinedIsSafe([Decimal(unit), "3", Decimal(AtLeastOne(dpi, height))]);
    case QrElement(_, _, _, magnification, _) =>
      DecimalIsSafe(magnification);
      LettersAreSafe(0, true);
      JoinedIsSafe(["N", "2", Decimal(magnification)]);
    case DataMatrix(_, _, _, size) =>
      DecimalIsSafe(size);
      LettersAreSafe(0, true);
      JoinedIsSafe(["N", Decimal(size), "200"]);
    case Box(_, _, width, height, thickness) =>
      var t := AtLeastOne(dpi, thickness);
      var w, h := Max(AtLeastOne(dpi, width), t), Max(AtLeastOne(dpi, height), t);
      DecimalIsSafe(t);
      DecimalIsSafe(w);
      DecimalIsSafe(h);
      JoinedIsSafe([Decimal(w), Decimal(h), Decimal(t)]);
  }

  lemma ShapeIsOrdinary(dpi: nat, e: Element)
    ensures AllOrdinary(Shape(dpi, e))
  {
    hide Safe, Joined, Decimal, Dots, AtLeastOne, BarCommand, At, Orientation;
    AtIsOrdinary(dpi, e.x, e.y);
    SecondIsOrdinary(dpi, e);
    if e.BarcodeElement? {
      DecimalIsSafe(AtLeastOne(dpi, e.height));
      LettersAreSafe(e.rotation, e.readable);
      BarIsOrdinary(e.symbology, [Orientation(e.rotation)], Decimal(AtLeastOne(dpi, e.height)), YesNo(e.readable));
    } else if e.Box? {
      LettersAreSafe(0, true);
    }
  }

  lemma FieldIsOrdinary(data: string)
    requires Safe(data)
    ensures AllOrdinary(FieldPieces(data))
  {
    hide Safe;
    LettersAreSafe(0, true);
  }

  lemma ElementIsOrdinary(dpi: nat, e: Element)
    ensures AllOrdinary(ElementPieces(dpi, e))
  {
    hide Shape, Field, Switches, Safe, Ordinary, FieldPieces, RawField;
    ShapeIsOrdinary(dpi, e);
    SwitchesDecode(e);
    FieldIsOrdinary(Switches(e) + Field(RawField(e)));
  }

  lemma {:induction false} ElementsAreOrdinary(dpi: nat, es: seq<Element>)
    ensures AllOrdinary(ElementsPieces(dpi, es))
    decreases |es|
  {
    hide ElementPieces, Ordinary;
    if es != [] {
      ElementsAreOrdinary(dpi, es[..|es| - 1]);
      ElementIsOrdinary(dpi, es[|es| - 1]);
    }
  }

  lemma MiddleIsOrdinary(l: Label)
    ensures AllOrdinary(Middle(l))
  {
    hide Decimal, Dots, ElementsPieces, Safe, TwoDigits;
    ElementsAreOrdinary(l.dpi, l.elements);
    LettersAreSafe(0, true);
    DecimalIsSafe(Dots(l.dpi, l.width));
    DecimalIsSafe(Dots(l.dpi, l.height));
    if l.darkness.Some? { DecimalIsSafe(l.darkness.value); }
    if l.speed.Some? { DecimalIsSafe(Clamp(l.speed.value)); }
  }

  lemma LabelIsSafe(l: Label)
    ensures SafePieces(LabelPieces(l))
  {
    hide Middle;
    MiddleIsOrdinary(l);
  }

  // ------------------------------------------------------------------ fields are recovered

  predicate NoField(c: Command) { !Named(c, 'F', 'H') && !Named(c, 'F', 'D') }

  lemma {:induction false} FieldsSkip(a: seq<Command>, b: seq<Command>)
    requires forall i :: 0 <= i < |a| ==> NoField(a[i])
    ensures Fields(a + b, false) == Fields(b, false)
    decreases |a|
  {
    if a == [] {
      assert a + b == b;
    } else {
      assert (a + b)[1..] == a[1..] + b;
      FieldsSkip(a[1..], b);
    }
  }

  /** Shape commands hold no field. */
  lemma ShapeHasNoField(dpi: nat, e: Element, i: nat)
    requires i < |Shape(dpi, e)|
    ensures NoField(Meant(Shape(dpi, e))[i])
  {
    hide Decimal, Dots, Joined, AtLeastOne, Orientation;
  }

  function Expected(es: seq<Element>): seq<string> {
    if es == [] then []
    else (if es[0].Box? then [] else [FieldMeaning(es[0])]) + Expected(es[1..])
  }

  lemma FieldRead(data: string, rest: seq<Command>)
    ensures Fields(Meant(FieldPieces(data)) + rest, false) == [Unhex(data)] + Fields(rest, false)
  {
    hide Unhex;
    var cs := Meant(FieldPieces(data)) + rest;
    var cs1, cs2 := cs[1..], cs[2..];
    assert cs1[1..] == cs2 && cs2[1..] == rest;
    assert Named(cs[0], 'F', 'H') && Fields(cs, false) == Fields(cs1, true);
    assert Named(cs1[0], 'F', 'D') && Fields(cs1, true) == [Unhex(data)] + Fields(cs2, true);
    assert Named(cs2[0], 'F', 'S') && Fields(cs2, true) == Fields(rest, false);
  }

  lemma ElementRead(dpi: nat, e: Element, rest: seq<Command>)
    ensures Fields(Meant(ElementPieces(dpi, e)) + rest, false) ==
            (if e.Box? then [] else [FieldMeaning(e)]) + Fields(rest, false)
  {
    hide Shape, Fields, Unhex, Switches, RawField, Field, FieldMeaning, FieldPieces;
    var shape := Meant(Shape(dpi, e));
    forall i | 0 <= i < |shape| ensures NoField(shape[i]) { ShapeHasNoField(dpi, e, i); }
    if e.Box? {
      FieldsSkip(shape, rest);
    } else {
      var data := Switches(e) + Field(RawField(e));
      assert Meant(ElementPieces(dpi, e)) + rest == shape + (Meant(FieldPieces(data)) + rest);
      FieldsSkip(shape, Meant(FieldPieces(data)) + rest);
      FieldRead(data, rest);
      SwitchesDecode(e);
    }
  }

  lemma {:induction false} PiecesFront(dpi: nat, es: seq<Element>)
    requires es != []
    ensures ElementsPieces(dpi, es) == ElementPieces(dpi, es[0]) + ElementsPieces(dpi, es[1..])
    decreases |es|
  {
    hide ElementPieces;
    var n := |es| - 1;
    if n == 0 {
      assert es[..n] == [] && es[1..] == [];
    } else {
      PiecesFront(dpi, es[..n]);
      assert es[..n][1..] == es[1..][..n - 1];
    }
  }

  lemma {:induction false} ElementsRead(dpi: nat, es: seq<Element>, rest: seq<Command>)
    ensures Fields(Meant(ElementsPieces(dpi, es)) + rest, false) == Expected(es) + Fields(rest, false)
    decreases |es|
  {
    hide ElementPieces, Fields, FieldMeaning;
    if es == [] {
      assert Meant(ElementsPieces(dpi, es)) + rest == rest;
    } else {
      PiecesFront(dpi, es);
      var later := Meant(ElementsPieces(dpi, es[1..])) + rest;
      assert Meant(ElementsPieces(dpi, es)) + rest == Meant(ElementPieces(dpi, es[0])) + later;
      ElementRead(dpi, es[0], later);
      ElementsRead(dpi, es[1..], rest);
    }
  }

  lemma SetupHasNoField(l: Label)
    ensures forall i :: 0 <= i < |Setup(l)| ==> NoField(Meant(Setup(l))[i])
  {
    hide Decimal, Dots;
  }

  /** A ZPL reader finds exactly the label's commands, and in them every field's data in order. */
  lemma LabelReadsBack(l: Label)
    ensures ReadCommands(Written(LabelPieces(l))) == Meant(LabelPieces(l))
    ensures Fields(ReadCommands(Written(LabelPieces(l))), false) == Expected(l.elements)
  {
    hide ReadCommands, Written, Setup, ElementsPieces, Fields, Expected;
    LabelIsSafe(l);
    ReadsBack(LabelPieces(l));
    SetupHasNoField(l);
    var start := Meant([Piece('^', 'X', 'A', [], true)]);
    var end := Meant([Piece('^', 'X', 'Z', [], true)]);
    var body := Meant(ElementsPieces(l.dpi, l.elements));
    assert Meant(LabelPieces(l)) == start + (Meant(Setup(l)) + (body + end));
    FieldsSkip(start, Meant(Setup(l)) + (body + end));
    FieldsSkip(Meant(Setup(l)), body + end);
    ElementsRead(l.dpi, l.elements, end);
    assert end == end + [];
    FieldsSkip(end, []);
    FieldsNothing();
  }

  lemma FieldsNothing()
    ensures Fields([], false) == []
  {
  }

  // ------------------------------------------------------------------ inspection

  /** How many commands of the stream spell the needle at their start. */
  function Starting(ps: seq<Piece>, needle: string): nat
    requires |needle| == 3
  {
    if ps == [] then 0
    else (if [ps[0].lead, ps[0].a, ps[0].b] == needle then 1 else 0) + Starting(ps[1..], needle)
  }

  lemma {:induction false} NoWindow(a: string, b: string, needle: string)
    requires |needle| == 3 && Lead(needle[0]) && forall i :: 0 <= i < |a| ==> !Lead(a[i])
    ensures Count(a + b, needle) == Count(b, needle)
    decreases |a|
  {
    if a == [] {
      assert a + b == b;
    } else {
      assert (a + b)[1..] == a[1..] + b;
      NoWindow(a[1..], b, needle);
      if |a + b| >= 3 { assert (a + b)[..3][0] == a[0]; }
      if |a + b| < 3 { assert Count(b, needle) == 0; }
    }
  }

  lemma PieceWindow(p: Piece, rest: string, needle: string)
    requires SafePiece(p) && |needle| == 3 && Lead(needle[0])
    ensures Count(PieceText(p) + rest, needle) ==
            (if [p.lead, p.a, p.b] == needle then 1 else 0) + Count(rest, needle)
  {
    var s := PieceText(p) + rest;
    TailIsPlain(p);
    assert s == [p.lead] + (Tail(p) + rest);
    assert s[1..] == Tail(p) + rest;
    assert s[..3] == [p.lead, p.a, p.b];
    NoWindow(Tail(p), rest, needle);
  }

  lemma {:induction false} CountsCommands(ps: seq<Piece>, needle: string)
    requires SafePieces(ps) && |needle| == 3 && Lead(needle[0])
    ensures Count(Written(ps), needle) == Starting(ps, needle)
    decreases |ps|
  {
    hide PieceText, SafePiece;
    if ps != [] {
      CountsCommands(ps[1..], needle);
      PieceWindow(ps[0], Written(ps[1..]), needle);
    }
  }

  lemma {:induction false} StartingJoin(a: seq<Piece>, b: seq<Piece>, needle: string)
    requires |needle| == 3
    ensures Starting(a + b, needle) == Starting(a, needle) + Starting(b, needle)
    decreases |a|
  {
    if a == [] {
      assert a + b == b;
    } else {
      assert (a + b)[1..] == a[1..] + b;
      StartingJoin(a[1..], b, needle);
    }
  }

  lemma {:induction false} OrdinaryStart(ps: seq<Piece>, needle: string)
    requires AllOrdinary(ps) && |needle| == 3 && (needle[1] == 'X' || (needle[1] == 'C' && needle[2] == 'C'))
    ensures Starting(ps, needle) == 0
    decreases |ps|
  {
    if ps != [] {
      OrdinaryStart(ps[1..], needle);
      assert Ordinary(ps[0]);
      assert [ps[0].lead, ps[0].a, ps[0].b][1] == ps[0].a && [ps[0].lead, ps[0].a, ps[0].b][2] == ps[0].b;
    }
  }

  lemma LabelCounts(l: Label, needle: string)
    requires |needle| == 3 && Lead(needle[0]) && (needle[1] == 'X' || (needle[1] == 'C' && needle[2] == 'C'))
    ensures Count(Written(LabelPieces(l)), needle) == if needle == "^XA" || needle == "^XZ" then 1 else 0
  {
    hide Middle, Written, Count;
    var first, last := [Piece('^', 'X', 'A', [], true)], [Piece('^', 'X', 'Z', [], true)];
    LabelIsSafe(l);
    CountsCommands(LabelPieces(l), needle);
    MiddleIsOrdinary(l);
    OrdinaryStart(Middle(l), needle);
    StartingJoin(first + Middle(l), last, needle);
    StartingJoin(first, Middle(l), needle);
    OnePiece(first[0], needle);
    OnePiece(last[0], needle);
  }

  lemma OnePiece(p: Piece, needle: string)
    requires |needle| == 3
    ensures Starting([p], needle) == if needle[0] == p.lead && needle[1] == p.a && needle[2] == p.b then 1 else 0
  {
    var word := [p.lead, p.a, p.b];
    assert needle == [needle[0], needle[1], needle[2]];
    assert [p][1..] == [];
    assert Starting([], needle) == 0;
    assert word == needle <==> word[0] == needle[0] && word[1] == needle[1] && word[2] == needle[2];
  }

  /** The inspection of any encoded label gives no warning, whatever its texts say. */
  lemma InspectIsClean(l: Label)
    ensures Inspect(Written(LabelPieces(l))) == []
  {
    hide Count, Contains, Written, LabelPieces, TrimStart;
    var s := Written(LabelPieces(l));
    LabelCounts(l, "^XA");
    LabelCounts(l, "^XZ");
    LabelCounts(l, "^CC");
    LabelCounts(l, "~CC");
    ContainsIff(s, "^CC");
    ContainsIff(s, "~CC");
  }

  // ------------------------------------------------------------------ the encoder

  /** `field`. */
  method EncodeField(text: string) returns (out: string)
    ensures out == Field(text) && Safe(out) && Unhex(out) == OneLine(text)
  {
    out := [];
    for i := 0 to |text|
      invariant out == Field(text[..i])
    {
      assert text[..i + 1][..i] == text[..i];
      out := out + FieldChar(text[i]);
    }
    assert text[..|text|] == text;
    FieldIsSafe(text);
    FieldDecodes(text);
  }

  method EncodeElement(dpi: nat, e: Element) returns (out: string)
    ensures out == Written(ElementPieces(dpi, e))
  {
    hide Written, Shape, Field, FieldPieces;
    if e.Box? { return Written(Shape(dpi, e)); }
    var data := EncodeField(RawField(e));
    WrittenJoin(Shape(dpi, e), FieldPieces(Switches(e) + data));
    return Written(Shape(dpi, e)) + Written(FieldPieces(Switches(e) + data));
  }

  /** `encode`: a stream that a ZPL reader takes apart into the label's commands and fields, and that
      passes the inspection. */
  method Encode(l: Label) returns (z: string)
    ensures ReadCommands(z) == Meant(LabelPieces(l))
    ensures Fields(ReadCommands(z), false) == Expected(l.elements)
    ensures Inspect(z) == []
  {
    hide Written, Setup, ElementPieces, ReadCommands, Fields, Inspect, Expected, Meant;
    var first := [Piece('^', 'X', 'A', [], true)];
    z := Written(first + Setup(l));
    assert first + Setup(l) + [] == first + Setup(l);
    for i := 0 to |l.elements|
      invariant z == Written(first + Setup(l) + ElementsPieces(l.dpi, l.elements[..i]))
    {
      assert l.elements[..i + 1][..i] == l.elements[..i];
      var element := EncodeElement(l.dpi, l.elements[i]);
      var before := first + Setup(l) + ElementsPieces(l.dpi, l.elements[..i]);
      WrittenJoin(before, ElementPieces(l.dpi, l.elements[i]));
      assert before + ElementPieces(l.dpi, l.elements[i]) == first + Setup(l) + ElementsPieces(l.dpi, l.elements[..i + 1]);
      z := z + element;
    }
    assert l.elements[..|l.elements|] == l.elements;
    ghost var last := [Piece('^', 'X', 'Z', [], true)];
    WrittenJoin(first + Setup(l) + ElementsPieces(l.dpi, l.elements), last);
    assert first + Setup(l) + ElementsPieces(l.dpi, l.elements) + last == LabelPieces(l);
    LastCommand();
    z := z + "^XZ\n";
    LabelReadsBack(l);
    InspectIsClean(l);
  }

  lemma LastCommand()
    ensures Written([Piece('^', 'X', 'Z', [], true)]) == "^XZ\n"
  {
    var p := Piece('^', 'X', 'Z', [], true);
    assert [p][1..] == [];
    assert Written([]) == [];
  }
}
