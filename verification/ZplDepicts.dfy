/**
 What a drawn object must look like to stand for a label element, said without the encoder's own
 tables: positions and sizes are the nearest dots, the orientation letter is read by the printer's
 meaning of N, R, I and B, the QR switches by its meaning of L, M, Q and H.
 */
module ZplDepicts {
  import opened Wrappers
  import opened EscPos
  import opened Zpl
  import opened ZplPrinter

  /** `n` dots are as near to `mm` millimetres as dots can be; nothing lies left of or above the label. */
  predicate NearestDot(dpi: nat, mm: real, n: nat) {
    if mm < 0.0 then n == 0 else -12.7 <= 25.4 * n as real - mm * dpi as real <= 12.7
  }

  /** A size in dots: the nearest one, but never none. */
  predicate SizeInDots(dpi: nat, mm: real, n: nat) {
    n >= 1 && (NearestDot(dpi, mm, n) || (n == 1 && NearestDot(dpi, mm, 0)))
  }

  /** The printer's orientations, in degrees clockwise. */
  function Degrees(word: string): Option<nat> {
    if word == "N" then Some(0) else if word == "R" then Some(90)
    else if word == "I" then Some(180) else if word == "B" then Some(270) else None
  }

  /** The object is turned by the last quarter turn that the rotation reaches. */
  predicate TurnedBy(word: string, rotation: nat) {
    Degrees(word).Some? && Degrees(word).value <= rotation % 360 < Degrees(word).value + 90
  }

  /** The printer's reading of the QR switches: error correction, then automatic input. */
  function SwitchLevel(switches: string): Option<QrLevel> {
    if |switches| != 3 || switches[1..] != "A," then None
    else if switches[0] == 'L' then Some(QrL) else if switches[0] == 'M' then Some(QrM)
    else if switches[0] == 'Q' then Some(QrQ) else if switches[0] == 'H' then Some(QrH) else None
  }

  /** The first `n` characters of `text`, with every line break shown as a space. */
  predicate Shows(data: string, text: string, n: nat) {
    && |data| == n <= |text|
    && forall i :: 0 <= i < n ==> data[i] == if text[i] == '\r' || text[i] == '\n' then ' ' else text[i]
  }

  /** A printer computes the check digit of EAN and UPC codes itself, so at most the digits before it are sent. */
  function Significant(s: Symbology, n: nat): nat {
    match s
    case Ean13 => if n > 12 then 12 else n
    case Ean8 => if n > 7 then 7 else n
    case UpcA => if n > 11 then 11 else n
    case _ => n
  }

  predicate ShapeDepicts(dpi: nat, e: Element, shape: ZplPrinter.Shape) {
    match e
    case Text(_, _, _, height, rotation) =>
      shape.Letters? && TurnedBy(shape.orientation, rotation) && SizeInDots(dpi, height, shape.height) && shape.width == shape.height
    case BarcodeElement(_, _, s, _, height, _, readable, rotation) =>
      && shape.BarLines? && shape.symbology == s && TurnedBy(shape.orientation, rotation)
      && SizeInDots(dpi, height, shape.height) && shape.readable == readable
    case QrElement(_, _, _, magnification, _) => shape == QrSquare(magnification)
    case DataMatrix(_, _, _, size) => shape == Matrix(size)
    case Box(_, _, width, height, thickness) =>
      && shape.Frame? && SizeInDots(dpi, thickness, shape.thickness)
      && shape.width >= shape.thickness && (SizeInDots(dpi, width, shape.width) || shape.width == shape.thickness)
      && shape.height >= shape.thickness && (SizeInDots(dpi, height, shape.height) || shape.height == shape.thickness)
  }

  predicate DataDepicts(e: Element, data: string) {
    match e
    case Text(_, _, text, _, _) => Shows(data, text, |text|)
    case BarcodeElement(_, _, s, text, _, _, _, _) => Shows(data, text, Significant(s, |text|))
    case QrElement(_, _, text, _, _) => Shows(data, text, |text|)
    case DataMatrix(_, _, text, _) => Shows(data, text, |text|)
    case Box(_, _, _, _, _) => data == []
  }

  predicate Depicts(dpi: nat, e: Element, o: Object) {
    && NearestDot(dpi, e.x, o.x) && NearestDot(dpi, e.y, o.y)
    && ShapeDepicts(dpi, e, o.shape) && DataDepicts(e, o.data)
    && (e.BarcodeElement? ==> o.unit == e.unit)
    && (e.QrElement? ==> SwitchLevel(o.level) == Some(e.level))
  }

  // ------------------------------------------------------------------ proofs

  lemma DotsAreNearest(dpi: nat, mm: real)
    ensures NearestDot(dpi, mm, Dots(dpi, mm))
  {
    if mm >= 0.0 {
      var exact := mm / 25.4 * dpi as real;
      var n := Dots(dpi, mm);
      assert n as real <= exact + 0.5 < n as real + 1.0;
      assert 25.4 * exact == mm * dpi as real by { assert 25.4 * (mm / 25.4) == mm; }
    } else {
      assert 0.0 / 25.4 * dpi as real == 0.0;
    }
  }

  lemma SizesAreNearest(dpi: nat, mm: real)
    ensures SizeInDots(dpi, mm, AtLeastOne(dpi, mm))
  {
    hide Dots, NearestDot;
    DotsAreNearest(dpi, mm);
  }

  lemma OrientationTurns(rotation: nat)
    ensures TurnedBy([Orientation(rotation)], rotation)
  {
    var q := rotation / 90 % 4;
    assert rotation % 360 == 90 * q + rotation % 90;
  }

  lemma LettersAreLevels(l: QrLevel)
    ensures SwitchLevel([LevelLetter(l), 'A', ',']) == Some(l)
  {
    assert [LevelLetter(l), 'A', ','][1..] == "A,";
  }

  lemma PayloadShows(s: Symbology, text: string)
    ensures Shows(OneLine(Payload(s, text)), text, Significant(s, |text|))
  {
  }

  lemma OneLineShows(text: string)
    ensures Shows(OneLine(text), text, |text|)
  {
  }

  lemma ObjectDepicts(dpi: nat, e: Element)
    ensures Depicts(dpi, e, ObjectOf(dpi, e))
  {
    hide Dots, AtLeastOne, Orientation, LevelLetter, OneLine, Payload, NearestDot, SizeInDots, TurnedBy, SwitchLevel, Shows, Significant;
    DotsAreNearest(dpi, e.x);
    DotsAreNearest(dpi, e.y);
    match e
    case Text(_, _, text, height, rotation) =>
      SizesAreNearest(dpi, height);
      OrientationTurns(rotation);
      OneLineShows(text);
    case BarcodeElement(_, _, s, text, height, _, _, rotation) =>
      SizesAreNearest(dpi, height);
      OrientationTurns(rotation);
      PayloadShows(s, text);
    case QrElement(_, _, text, _, level) =>
      LettersAreLevels(level);
      OneLineShows(text);
    case DataMatrix(_, _, text, _) => OneLineShows(text);
    case Box(_, _, width, height, thickness) =>
      SizesAreNearest(dpi, width);
      SizesAreNearest(dpi, height);
      SizesAreNearest(dpi, thickness);
  }

  /** The nearest speed that the printer has. */
  predicate NearestSpeed(asked: nat, n: nat) {
    2 <= n <= 14 && (n == asked || (n == 2 && asked < 2) || (n == 14 && asked > 14))
  }

  lemma {:induction false} ObjectsAreMapped(dpi: nat, es: seq<Element>)
    ensures |Objects(dpi, es)| == |es| && forall i :: 0 <= i < |es| ==> Depicts(dpi, es[i], Objects(dpi, es)[i])
    decreases |es|
  {
    hide Depicts, ObjectOf;
    if es != [] {
      ObjectsAreMapped(dpi, es[1..]);
      ObjectDepicts(dpi, es[0]);
      forall i | 0 <= i < |es| ensures Depicts(dpi, es[i], Objects(dpi, es)[i]) {
        if i > 0 { assert es[i] == es[1..][i - 1]; }
      }
    }
  }

  /**
   A printer that reads the stream of a label draws one object for each element, in order, and each
   object depicts its element; the label has the nearest size in dots, the darkness that was asked
   for and the nearest speed that exists.
   */
  lemma LabelIsDepicted(l: Label)
    ensures
      var p := Run(PowerOn(), ReadCommands(Written(LabelPieces(l))));
      && |p.out| == |l.elements| && (forall i :: 0 <= i < |p.out| ==> Depicts(l.dpi, l.elements[i], p.out[i]))
      && NearestDot(l.dpi, l.width, p.width) && NearestDot(l.dpi, l.height, p.height) && p.darkness == l.darkness
      && (p.speed.Some? <==> l.speed.Some?) && (l.speed.Some? ==> NearestSpeed(l.speed.value, p.speed.value))
  {
    hide Run, ReadCommands, Written, LabelPieces, Objects, Depicts, Dots, NearestDot;
    LabelPrintsItself(l);
    ObjectsAreMapped(l.dpi, l.elements);
    DotsAreNearest(l.dpi, l.width);
    DotsAreNearest(l.dpi, l.height);
    var p := Run(PowerOn(), ReadCommands(Written(LabelPieces(l))));
    assert p.out == Objects(l.dpi, l.elements);
  }
}
