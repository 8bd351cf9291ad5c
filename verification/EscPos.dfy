/**
 The ESC/POS commands that receipts use (protocols/src/escpos_commands.rs): the bytes each
 builder produces, and a reader that splits a byte stream into commands by Epson's formats
 (one-argument commands, `GS k m n d1..dn`, `GS ( k pL pH cn fn ..`, `GS v 0 m xL xH yL yH ..`).
 */
module EscPos {
  import opened Wrappers

  type Byte = b: int | 0 <= b < 256

  const ESC: Byte := 0x1B
  const GS: Byte := 0x1D
  const LF: Byte := 0x0A

  /** A two-byte length, low byte first. */
  function Word(lo: Byte, hi: Byte): nat { lo as int + 256 * (hi as int) }

  /** One command of the stream. */
  datatype Token =
    | Glyph(b: Byte)                                  // a printable character
    | NewLine
    | Reset                                           // ESC @
    | Set(lead: Byte, op: Byte, n: Byte)              // every command with one argument
    | Pulse(m: Byte, t1: Byte, t2: Byte)              // ESC p
    | Cut(m: Byte, n: Byte)                           // GS V
    | Bars(m: Byte, data: seq<Byte>)                  // GS k, function B
    | Symbol(cn: Byte, fn: Byte, params: seq<Byte>)   // GS ( k
    | Raster(m: Byte, width: nat, height: nat, bits: seq<Byte>) // GS v 0

  /** The one-argument commands: ESC a E - M t d, GS ! B h w H. */
  predicate OneArgument(lead: Byte, op: Byte) {
    || (lead == ESC && (op == 97 || op == 69 || op == 45 || op == 77 || op == 116 || op == 100))
    || (lead == GS && (op == 33 || op == 66 || op == 104 || op == 119 || op == 72))
  }

  // ------------------------------------------------------------------ reader

  datatype Read = Read(token: Token, rest: seq<Byte>)

  /** The first command of a stream. */
  function Next(s: seq<Byte>): (r: Option<Read>)
    ensures r.Some? ==> |r.value.rest| < |s|
  {
    if |s| == 0 then None
    else if s[0] >= 0x20 then Some(Read(Glyph(s[0]), s[1..]))
    else if s[0] == LF then Some(Read(NewLine, s[1..]))
    else if s[0] == ESC then NextEsc(s)
    else if s[0] == GS then NextGs(s)
    else None
  }

  function NextEsc(s: seq<Byte>): (r: Option<Read>)
    requires |s| > 0 && s[0] == ESC
    ensures r.Some? ==> |r.value.rest| < |s|
  {
    if |s| < 2 then None
    else if s[1] == 64 then Some(Read(Reset, s[2..]))
    else if |s| >= 3 && OneArgument(ESC, s[1]) then Some(Read(Set(ESC, s[1], s[2]), s[3..]))
    else if |s| >= 5 && s[1] == 112 then Some(Read(Pulse(s[2], s[3], s[4]), s[5..]))
    else None
  }

  function NextGs(s: seq<Byte>): (r: Option<Read>)
    requires |s| > 0 && s[0] == GS
    ensures r.Some? ==> |r.value.rest| < |s|
  {
    if |s| < 3 then None
    else if OneArgument(GS, s[1]) then Some(Read(Set(GS, s[1], s[2]), s[3..]))
    else if |s| < 4 then None
    else if s[1] == 86 then Some(Read(Cut(s[2], s[3]), s[4..]))
    else if s[1] == 107 then NextBars(s)
    else if s[1] == 40 && s[2] == 107 then NextSymbol(s)
    else if s[1] == 118 && s[2] == 48 then NextRaster(s)
    else None
  }

  function NextBars(s: seq<Byte>): (r: Option<Read>)
    requires |s| >= 4
    ensures r.Some? ==> |r.value.rest| < |s|
  {
    var len := s[3] as int;
    if |s| < 4 + len then None
    else Some(Read(Bars(s[2], s[4..4 + len]), s[4 + len..]))
  }

  function NextSymbol(s: seq<Byte>): (r: Option<Read>)
    requires |s| >= 4
    ensures r.Some? ==> |r.value.rest| < |s|
  {
    if |s| < 5 then None
    else
      var len := Word(s[3], s[4]);
      if len < 2 || |s| < 5 + len then None
      else Some(Read(Symbol(s[5], s[6], s[7..5 + len]), s[5 + len..]))
  }

  function NextRaster(s: seq<Byte>): (r: Option<Read>)
    requires |s| >= 4
    ensures r.Some? ==> |r.value.rest| < |s|
  {
    if |s| < 8 then None
    else
      var width, height := Word(s[4], s[5]), Word(s[6], s[7]);
      var len := width * height;
      if |s| < 8 + len then None
      else Some(Read(Raster(s[3], width, height, s[8..8 + len]), s[8 + len..]))
  }

  /** The whole stream, if every byte of it belongs to a known command. */
  function Parse(s: seq<Byte>): (r: Option<seq<Token>>)
    decreases |s|
  {
    if s == [] then Some([])
    else
      var first := Next(s);
      if first.None? then None
      else
        var rest := Parse(first.value.rest);
        if rest.None? then None else Some([first.value.token] + rest.value)
  }

  // ------------------------------------------------------------------ the bytes of a command

  /** Commands whose lengths fit the fields that announce them. */
  predicate Sound(t: Token) {
    match t
    case Glyph(b) => b >= 0x20
    case NewLine => true
    case Reset => true
    case Set(lead, op, _) => OneArgument(lead, op)
    case Pulse(_, _, _) => true
    case Cut(_, _) => true
    case Bars(_, data) => |data| < 256
    case Symbol(_, _, params) => |params| + 2 < 65536
    case Raster(_, width, height, bits) => width < 65536 && height < 65536 && |bits| == width * height
  }

  function Bytes(t: Token): (s: seq<Byte>)
    ensures |s| > 0
  {
    match t
    case Glyph(b) => [b]
    case NewLine => [LF]
    case Reset => [ESC, 64]
    case Set(lead, op, n) => [lead, op, n]
    case Pulse(m, t1, t2) => [ESC, 112, m, t1, t2]
    case Cut(m, n) => [GS, 86, m, n]
    case Bars(m, data) => [GS, 107, m, |data| % 256] + data
    case Symbol(cn, fn, params) =>
      [GS, 40, 107, (|params| + 2) % 256, (|params| + 2) / 256 % 256, cn, fn] + params
    case Raster(m, width, height, bits) =>
      [GS, 118, 48, m, width % 256, width / 256 % 256, height % 256, height / 256 % 256] + bits
  }

  function AllBytes(ts: seq<Token>): seq<Byte> {
    if ts == [] then [] else Bytes(ts[0]) + AllBytes(ts[1..])
  }

  predicate AllSound(ts: seq<Token>) {
    forall i :: 0 <= i < |ts| ==> Sound(ts[i])
  }

  // ------------------------------------------------------------------ reading back

  lemma BarsReadBack(m: Byte, data: seq<Byte>, rest: seq<Byte>)
    requires |data| < 256
    ensures Next(Bytes(Bars(m, data)) + rest) == Some(Read(Bars(m, data), rest))
  {
    var s := Bytes(Bars(m, data)) + rest;
    assert s[3] == |data| && s[4..4 + |data|] == data && s[4 + |data|..] == rest;
  }

  lemma SymbolReadBack(cn: Byte, fn: Byte, params: seq<Byte>, rest: seq<Byte>)
    requires |params| + 2 < 65536
    ensures Next(Bytes(Symbol(cn, fn, params)) + rest) == Some(Read(Symbol(cn, fn, params), rest))
  {
    var s := Bytes(Symbol(cn, fn, params)) + rest;
    var len := |params| + 2;
    assert Word(s[3], s[4]) == len;
    assert s[7..5 + len] == params && s[5 + len..] == rest;
  }

  lemma WordBack(n: nat)
    requires n < 65536
    ensures Word(n % 256, n / 256 % 256) == n
  {
  }

  lemma RasterReadBack(m: Byte, width: nat, height: nat, bits: seq<Byte>, rest: seq<Byte>)
    requires Sound(Raster(m, width, height, bits))
    ensures Next(Bytes(Raster(m, width, height, bits)) + rest) == Some(Read(Raster(m, width, height, bits), rest))
  {
    hide Word;
    WordBack(width);
    WordBack(height);
    RasterReads(m, width % 256, width / 256 % 256, height % 256, height / 256 % 256, bits, rest);
  }

  lemma RasterReads(m: Byte, xl: Byte, xh: Byte, yl: Byte, yh: Byte, bits: seq<Byte>, rest: seq<Byte>)
    requires |bits| == Word(xl, xh) * Word(yl, yh)
    ensures Next([GS, 118, 48, m, xl, xh, yl, yh] + bits + rest) == Some(Read(Raster(m, Word(xl, xh), Word(yl, yh), bits), rest))
  {
    hide Word;
    var s := [GS, 118, 48, m, xl, xh, yl, yh] + bits + rest;
    assert s[8..8 + |bits|] == bits && s[8 + |bits|..] == rest;
    assert Next(s) == NextRaster(s);
  }

  lemma ShortReadBack(t: Token, rest: seq<Byte>)
    requires Sound(t) && !t.Bars? && !t.Symbol? && !t.Raster?
    ensures Next(Bytes(t) + rest) == Some(Read(t, rest))
  {
    var s := Bytes(t) + rest;
    assert s[|Bytes(t)|..] == rest;
  }

  /** No length field is truncated: a sound command is read back whole, whatever follows it. */
  lemma ReadBack(t: Token, rest: seq<Byte>)
    requires Sound(t)
    ensures Next(Bytes(t) + rest) == Some(Read(t, rest))
  {
    hide Next, Bytes;
    match t
    case Bars(m, data) => BarsReadBack(m, data, rest);
    case Symbol(cn, fn, params) => SymbolReadBack(cn, fn, params, rest);
    case Raster(m, width, height, bits) => RasterReadBack(m, width, height, bits, rest);
    case _ => ShortReadBack(t, rest);
  }

  lemma {:induction false} ParseBack(ts: seq<Token>)
    requires AllSound(ts)
    ensures Parse(AllBytes(ts)) == Some(ts)
    decreases |ts|
  {
    hide Next, Bytes;
    if ts != [] {
      ReadBack(ts[0], AllBytes(ts[1..]));
      ParseBack(ts[1..]);
      assert ts == [ts[0]] + ts[1..];
    }
  }

  lemma {:induction false} BytesJoin(a: seq<Token>, b: seq<Token>)
    ensures AllBytes(a + b) == AllBytes(a) + AllBytes(b)
    decreases |a|
  {
    hide Bytes;
    if a == [] {
      assert a + b == b;
    } else {
      assert (a + b)[1..] == a[1..] + b;
      BytesJoin(a[1..], b);
    }
  }

  // ------------------------------------------------------------------ command builders

  datatype Alignment = Left | Center | Right
  datatype Symbology = Code128 | Code39 | Ean13 | Ean8 | UpcA | Itf
  datatype QrLevel = QrL | QrM | QrQ | QrH

  function Flag(on: bool): Byte { if on then 1 else 0 }

  function AlignCode(a: Alignment): Byte {
    match a case Left => 0 case Center => 1 case Right => 2
  }

  function AlignTo(a: Alignment): Token { Set(ESC, 97, AlignCode(a)) }
  function BoldTo(on: bool): Token { Set(ESC, 69, Flag(on)) }
  function UnderlineTo(on: bool): Token { Set(ESC, 45, Flag(on)) }
  function SizeTo(wide: bool, tall: bool): Token { Set(GS, 33, 16 * Flag(wide) + Flag(tall)) }
  function InvertTo(on: bool): Token { Set(GS, 66, Flag(on)) }
  function SmallTo(on: bool): Token { Set(ESC, 77, Flag(on)) }
  function TableTo(n: Byte): Token { Set(ESC, 116, n) }
  function FeedBy(n: Byte): Token { Set(ESC, 100, n) }
  function CutAfter(partial: bool, n: Byte): Token { Cut(if partial then 66 else 65, n) }
  function Kick(pin: Byte): Token { Pulse(if pin < 1 then pin else 1, 25, 250) }

  /** CODE128 data for code set B: `{` is the escape, so a literal one is doubled. */
  function Doubled(d: seq<Byte>): (r: seq<Byte>)
    ensures |r| <= 2 * |d|
  {
    if d == [] then [] else (if d[0] == 123 then [123, 123] else [d[0]]) + Doubled(d[1..])
  }

  function BarMode(s: Symbology): Byte {
    match s
    case UpcA => 65
    case Ean13 => 67
    case Ean8 => 68
    case Code39 => 69
    case Itf => 70
    case Code128 => 73
  }

  function BarPayload(s: Symbology, data: seq<Byte>): seq<Byte> {
    if s.Code128? then [123, 66] + Doubled(data) else data
  }

  function Barcode(s: Symbology, data: seq<Byte>, height: Byte, unit: Byte, readable: bool): seq<Token> {
    [Set(GS, 104, height), Set(GS, 119, unit), Set(GS, 72, if readable then 2 else 0),
     Bars(BarMode(s), BarPayload(s, data))]
  }

  function LevelCode(l: QrLevel): Byte {
    match l case QrL => 48 case QrM => 49 case QrQ => 50 case QrH => 51
  }

  function Qr(data: seq<Byte>, size: Byte, level: QrLevel): seq<Token> {
    [Symbol(49, 65, [50, 0]), Symbol(49, 67, [size]), Symbol(49, 69, [LevelCode(level)]),
     Symbol(49, 80, [48] + data), Symbol(49, 81, [48])]
  }

  /** The bytes of some commands, as printers document them; the drawer opens with a pulse of 25 and 250
      units of two milliseconds. */
  lemma CommandsOnTheWire()
    ensures Bytes(AlignTo(Center)) == [0x1B, 97, 1] && Bytes(SizeTo(true, true)) == [0x1D, 33, 0x11]
    ensures Bytes(CutAfter(true, 3)) == [0x1D, 86, 66, 3] && Bytes(Kick(1)) == [0x1B, 112, 1, 25, 250]
    ensures Bytes(Raster(0, 1, 2, [0x80, 0x01])) == [0x1D, 118, 48, 0, 1, 0, 2, 0, 0x80, 0x01]
  {
  }
}
