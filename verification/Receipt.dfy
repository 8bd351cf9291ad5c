/**
 Receipts and their encoding as ESC/POS (renderers/src/receipt.rs, the receipt part of
 print-core/src/model/label.rs, the DOS code pages of protocols/src/encoding.rs). RAW items
 are not part of the model, and an image is its packed bitmap.
 */
module Receipt {
  import opened Wrappers
  import opened EscPos

  // ------------------------------------------------------------------ code pages

  datatype CodePage = Ibm437 | Ibm850 | Ibm858

  /** The upper halves of the code pages, 128 characters each. */
  type Tables = CodePage -> seq<char>

  ghost predicate ValidTables(tables: Tables) {
    forall p :: |tables(p)| == 128
  }

  function TableNumber(p: CodePage): Byte {
    match p case Ibm437 => 0 case Ibm850 => 2 case Ibm858 => 19
  }

  /** The first position of `c` from `i` on. */
  function Position(table: seq<char>, c: char, i: nat): (r: Option<nat>)
    requires i <= |table|
    ensures r.Some? ==> r.value < |table| && table[r.value] == c
    ensures r.None? ==> forall k :: i <= k < |table| ==> table[k] != c
    decreases |table| - i
  {
    if i == |table| then None else if table[i] == c then Some(i) else Position(table, c, i + 1)
  }

  function EncodeChar(table: seq<char>, c: char): Option<Byte>
    requires |table| == 128
  {
    if c as int < 128 then Some(c as int)
    else
      var p := Position(table, c, 0);
      if p.Some? then Some(128 + p.value) else None
  }

  function DecodeByte(table: seq<char>, b: Byte): char
    requires |table| == 128
  {
    if b < 128 then b as char else table[b - 128]
  }

  /** `TextEncoder::encode` for a DOS code page: strict, no substitution. */
  function EncodeText(table: seq<char>, s: string): (r: Option<seq<Byte>>)
    requires |table| == 128
    ensures r.Some? ==> |r.value| == |s|
  {
    if s == [] then Some([])
    else
      var first := EncodeChar(table, s[0]);
      var rest := EncodeText(table, s[1..]);
      if first.Some? && rest.Some? then Some([first.value] + rest.value) else None
  }

  predicate Printable(s: string) {
    forall i :: 0 <= i < |s| ==> s[i] as int >= 0x20
  }

  // ------------------------------------------------------------------ documents

  datatype Style = Style(align: Alignment, bold: bool, underline: bool, wide: bool, tall: bool, invert: bool, small: bool)

  const PLAIN := Style(Left, false, false, false, false, false, false)

  /** A one-bit image: `rows` rows of `width` bytes. */
  datatype Bitmap = Bitmap(width: nat, rows: nat, bits: seq<Byte>)

  datatype Item =
    | Text(text: string, style: Style)
    | Columns(left: string, right: string, bold: bool)
    | Separator(character: char)
    | Feed(lines: Byte)
    | BarcodeItem(symbology: Symbology, data: seq<Byte>, height: nat, unit: Byte, readable: bool, align: Alignment)
    | QrItem(data: seq<Byte>, size: Byte, level: QrLevel, align: Alignment)
    | Image(bitmap: Bitmap, align: Alignment)
    | CutItem(partial: bool, feed: Byte)
    | Drawer(pin: Byte)

  datatype Document = Document(width: nat, page: CodePage, cut: bool, openDrawer: bool, items: seq<Item>)

  predicate Digits(data: seq<Byte>) {
    forall i :: 0 <= i < |data| ==> 48 <= data[i] <= 57
  }

  predicate Code39Char(b: Byte) {
    || 65 <= b <= 90 || 48 <= b <= 57
    || b == 32 || b == 45 || b == 46 || b == 36 || b == 47 || b == 43 || b == 37
  }

  /** `Symbology::validate`; the data are ASCII codes. */
  predicate ValidBars(s: Symbology, data: seq<Byte>) {
    match s
    case Code128 => data != [] && |data| <= 80 && forall i :: 0 <= i < |data| ==> 32 <= data[i] <= 126
    case Code39 => data != [] && |data| <= 80 && forall i :: 0 <= i < |data| ==> Code39Char(data[i])
    case Ean13 => Digits(data) && (|data| == 12 || |data| == 13)
    case Ean8 => Digits(data) && (|data| == 7 || |data| == 8)
    case UpcA => Digits(data) && (|data| == 11 || |data| == 12)
    case Itf => Digits(data) && data != [] && |data| % 2 == 0 && |data| <= 80
  }

  /** `ReceiptDocument::validate` for one item; images are at most 2048 dots wide. */
  predicate ValidItem(item: Item) {
    match item
    case Text(_, _) => true
    case Columns(_, _, _) => true
    case Separator(_) => true
    case Feed(lines) => lines <= 100
    case BarcodeItem(s, data, height, unit, _, _) => ValidBars(s, data) && 1 <= height <= 255 && 2 <= unit <= 6
    case QrItem(data, size, _, _) => 1 <= |data| <= 2000 && 1 <= size <= 16
    case Image(b, _) => b.width <= 256 && |b.bits| == b.rows * b.width
    case CutItem(_, _) => true
    case Drawer(pin) => pin <= 1
  }

  /** Text without control characters, other than its line breaks. */
  predicate CleanItem(item: Item) {
    match item
    case Text(text, _) => forall i :: 0 <= i < |LinesOf(text)| ==> Printable(LinesOf(text)[i])
    case Columns(left, right, _) => Printable(left) && Printable(right)
    case Separator(c) => c as int >= 0x20
    case _ => true
  }

  predicate ValidDocument(d: Document) {
    16 <= d.width <= 96 && forall i :: 0 <= i < |d.items| ==> ValidItem(d.items[i]) && CleanItem(d.items[i])
  }

  // ------------------------------------------------------------------ text layout

  /** `replace("\r\n", "\n")`. */
  function Unix(s: string): string {
    if s == [] then []
    else if |s| >= 2 && s[0] == '\r' && s[1] == '\n' then ['\n'] + Unix(s[2..])
    else [s[0]] + Unix(s[1..])
  }

  /** `split('\n')`. */
  function Split(s: string): (r: seq<string>)
    ensures |r| >= 1
  {
    if s == [] then [[]]
    else
      var rest := Split(s[1..]);
      if s[0] == '\n' then [[]] + rest else [[s[0]] + rest[0]] + rest[1..]
  }

  function LinesOf(text: string): (r: seq<string>)
    ensures |r| >= 1
  {
    Split(Unix(text))
  }

  function Joined(lines: seq<string>): string
    requires |lines| >= 1
  {
    if |lines| == 1 then lines[0] else lines[0] + ['\n'] + Joined(lines[1..])
  }

  /** Splitting loses nothing and leaves no line break inside a line. */
  lemma {:induction false} SplitJoins(s: string)
    ensures Joined(Split(s)) == s
    ensures forall i :: 0 <= i < |Split(s)| ==> '\n' !in Split(s)[i]
  {
    if s != [] {
      SplitJoins(s[1..]);
      var rest := Split(s[1..]);
      if s[0] == '\n' {
        assert Split(s)[1..] == rest;
      } else if |rest| > 1 {
        assert Split(s)[1..] == rest[1..];
      }
    }
  }

  /** The carriage return of a CR LF pair. */
  predicate Dropped(s: string, i: nat) {
    i + 1 < |s| && s[i] == '\r' && s[i + 1] == '\n'
  }

  /** `r` is `s` without exactly the carriage returns of its CR LF pairs: `at` gives the position in
      `s` of every character of `r`, in order, and leaves out no other position. */
  ghost predicate KeepsExactly(s: string, r: string, at: seq<nat>) {
    && |at| == |r|
    && (forall k :: 0 <= k < |r| ==> at[k] < |s| && s[at[k]] == r[k])
    && (forall k, l :: 0 <= k < l < |r| ==> at[k] < at[l])
    && (forall i :: 0 <= i < |s| ==> (i in at <==> !Dropped(s, i)))
  }

  function Shifted(at: seq<nat>, n: nat): (r: seq<nat>)
    ensures |r| == |at| && forall k :: 0 <= k < |at| ==> r[k] == at[k] + n
  {
    seq(|at|, k requires 0 <= k < |at| => at[k] + n)
  }

  lemma ShiftedHas(at: seq<nat>, n: nat, i: nat)
    ensures i + n in Shifted(at, n) <==> i in at
  {
    if i in at {
      var k :| 0 <= k < |at| && at[k] == i;
      assert Shifted(at, n)[k] == i + n;
    }
  }

  /** Putting `skip` characters of `s` before a tail that is kept exactly; the last of them is kept. */
  lemma KeepsOneMore(s: string, skip: nat, r: string, at: seq<nat>) returns (whole: seq<nat>)
    requires 1 <= skip <= 2 <= |s| + 1 && skip <= |s| && KeepsExactly(s[skip..], r, at)
    requires if skip == 2 then Dropped(s, 0) else !Dropped(s, 0)
    ensures KeepsExactly(s, [s[skip - 1]] + r, whole)
  {
    whole := [skip - 1] + Shifted(at, skip);
    var t := [s[skip - 1]] + r;
    forall k | 0 <= k < |t| ensures whole[k] < |s| && s[whole[k]] == t[k] {
      if k > 0 { assert s[skip..][at[k - 1]] == s[at[k - 1] + skip]; }
    }
    forall i | 0 <= i < |s| ensures i in whole <==> !Dropped(s, i) {
      if i >= skip {
        ShiftedHas(at, skip, i - skip);
        assert Dropped(s[skip..], i - skip) <==> Dropped(s, i);
      } else {
        assert i !in Shifted(at, skip);
        assert whole[0] == skip - 1;
      }
    }
  }

  lemma {:induction false} UnixKeeps(s: string) returns (at: seq<nat>)
    ensures KeepsExactly(s, Unix(s), at)
    decreases |s|
  {
    hide KeepsExactly;
    if s == [] {
      at := [];
      NothingKept();
    } else {
      var skip := if Dropped(s, 0) then 2 else 1;
      var rest := UnixKeeps(s[skip..]);
      at := KeepsOneMore(s, skip, Unix(s[skip..]), rest);
    }
  }

  lemma NothingKept()
    ensures KeepsExactly([], [], [])
  {
  }

  /** The lines of a text, joined by line breaks, are the text without exactly the carriage returns
      of its CR LF pairs; every other character is there, in order. */
  lemma LinesKeepText(text: string) returns (at: seq<nat>)
    ensures KeepsExactly(text, Joined(LinesOf(text)), at)
    ensures forall i :: 0 <= i < |LinesOf(text)| ==> '\n' !in LinesOf(text)[i]
  {
    hide KeepsExactly;
    at := UnixKeeps(text);
    SplitJoins(Unix(text));
  }

  /** A text with no CR LF pair is exactly its lines. */
  lemma PlainLinesJoin(text: string)
    requires forall i: nat :: i < |text| ==> !Dropped(text, i)
    ensures Joined(LinesOf(text)) == text
  {
    var at := LinesKeepText(text);
    KeptWhole(text, Joined(LinesOf(text)), at);
  }

  lemma KeptWhole(s: string, r: string, at: seq<nat>)
    requires KeepsExactly(s, r, at) && forall i: nat :: i < |s| ==> !Dropped(s, i)
    ensures r == s
  {
    PositionsAreAll(at, |s|);
  }

  /** Increasing positions below `n` that include every one are 0, 1, .., n - 1. */
  lemma {:induction false} PositionsAreAll(at: seq<nat>, n: nat)
    requires forall k, l :: 0 <= k < l < |at| ==> at[k] < at[l]
    requires forall k :: 0 <= k < |at| ==> at[k] < n
    requires forall i :: 0 <= i < n ==> i in at
    ensures |at| == n && forall k :: 0 <= k < n ==> at[k] == k
    decreases |at|
  {
    if at == [] {
      assert n > 0 ==> 0 in at;
    } else {
      var m := |at| - 1;
      assert at[m] < n && n - 1 in at;
      var k :| 0 <= k < |at| && at[k] == n - 1;
      assert at[m] == n - 1;
      forall i | 0 <= i < n - 1 ensures i in at[..m] {
        assert i in at;
        var l :| 0 <= l < |at| && at[l] == i;
        assert at[..m][l] == i;
      }
      PositionsAreAll(at[..m], n - 1);
    }
  }

  function Repeat(c: char, n: nat): (r: string)
    ensures |r| == n && forall i :: 0 <= i < n ==> r[i] == c
  {
    seq(n, i => c)
  }

  function Min(a: nat, b: nat): nat { if a < b then a else b }

  /** `columns`: the left side gives way first. */
  function ColumnsLine(left: string, right: string, width: nat): string {
    var r := right[..Min(|right|, width)];
    var room := if width > |r| + 1 then width - (|r| + 1) else 0;
    var l := left[..Min(|left|, room)];
    var gap := if width > |l| + |r| then width - (|l| + |r|) else 0;
    l + Repeat(' ', if gap > 1 then gap else 1) + r
  }

  /** The line has the promised width iff the right side is shorter than the line; otherwise it is
      one character too long. It always ends with as much of the right side as a line can hold. */
  lemma ColumnsFitIff(left: string, right: string, width: nat)
    requires width >= 1
    ensures |ColumnsLine(left, right, width)| == width <==> |right| < width
    ensures |right| >= width ==> ColumnsLine(left, right, width) == [' '] + right[..width]
    ensures |right| < width ==>
      var line := ColumnsLine(left, right, width);
      && line[width - |right|..] == right && line[width - |right| - 1] == ' '
      && (forall i :: |left| <= i < width - |right| ==> line[i] == ' ')
      && (|left| + |right| < width ==> line[..|left|] == left)
      && (|left| + |right| >= width ==> line[..width - |right| - 1] == left[..width - |right| - 1])
  {
    var line := ColumnsLine(left, right, width);
    if |right| >= width {
      assert line == [] + Repeat(' ', 1) + right[..width];
    } else {
      assert right[..Min(|right|, width)] == right;
    }
  }

  /** A right side that fills the line: 17 characters for a width of 16. */
  lemma ColumnsTooLong()
    ensures |ColumnsLine("Total", "1234567890123456", 16)| == 17
  {
    var right := "1234567890123456";
    assert |right| == 16 && right[..16] == right;
    ColumnsFitIff("Total", right, 16);
  }

  lemma ColumnsPrintable(left: string, right: string, width: nat)
    requires Printable(left) && Printable(right)
    ensures Printable(ColumnsLine(left, right, width))
  {
  }

  // ------------------------------------------------------------------ encoding

  function Glyphs(bytes: seq<Byte>): (ts: seq<Token>)
    ensures |ts| == |bytes|
  {
    seq(|bytes|, i requires 0 <= i < |bytes| => Glyph(bytes[i]))
  }

  function LineTokens(table: seq<char>, line: string): Option<seq<Token>>
    requires |table| == 128
  {
    var bytes := EncodeText(table, line);
    if bytes.Some? then Some(Glyphs(bytes.value) + [NewLine]) else None
  }

  function LinesTokens(table: seq<char>, lines: seq<string>): Option<seq<Token>>
    requires |table| == 128
  {
    if lines == [] then Some([])
    else
      var n := |lines| - 1;
      var front := LinesTokens(table, lines[..n]);
      var last := LineTokens(table, lines[n]);
      if front.Some? && last.Some? then Some(front.value + last.value) else None
  }

  function StyleOn(s: Style): seq<Token> {
    [AlignTo(s.align), SmallTo(s.small), BoldTo(s.bold), UnderlineTo(s.underline), SizeTo(s.wide, s.tall), InvertTo(s.invert)]
  }

  function StyleOff(): seq<Token> {
    [InvertTo(false), SizeTo(false, false), UnderlineTo(false), BoldTo(false), SmallTo(false), AlignTo(Left)]
  }

  const BAND: nat := 256

  lemma BandFits(b: Bitmap, row: nat)
    requires |b.bits| == b.rows * b.width && row < b.rows
    ensures
      var n := Min(BAND, b.rows - row);
      0 <= row * b.width <= (row + n) * b.width <= |b.bits| && (row + n) * b.width - row * b.width == n * b.width
  {
    var n := Min(BAND, b.rows - row);
    assert (row + n) * b.width == row * b.width + n * b.width;
    assert b.rows * b.width == (row + n) * b.width + (b.rows - row - n) * b.width;
    assert n * b.width >= 0 && (b.rows - row - n) * b.width >= 0;
  }

  /** The loop of `raster_image` from `row` on. */
  function Bands(b: Bitmap, row: nat): seq<Token>
    requires |b.bits| == b.rows * b.width
    decreases b.rows - row
  {
    if row >= b.rows then []
    else
      var n := Min(BAND, b.rows - row);
      BandFits(b, row);
      [Raster(0, b.width, n, b.bits[row * b.width..(row + n) * b.width])] + Bands(b, row + n)
  }

  function SeparatorLine(table: seq<char>, c: char, width: nat): string
    requires |table| == 128
  {
    if EncodeText(table, Repeat(c, width)).Some? then Repeat(c, width) else Repeat('-', width)
  }

  /** The commands of one item; `None` if its text cannot be represented. */
  function ItemTokens(table: seq<char>, width: nat, item: Item): Option<seq<Token>>
    requires |table| == 128 && ValidItem(item)
  {
    match item
    case Text(text, style) =>
      var lines := LinesTokens(table, LinesOf(text));
      if lines.Some? then Some(StyleOn(style) + lines.value + StyleOff()) else None
    case Columns(left, right, bold) =>
      var line := LineTokens(table, ColumnsLine(left, right, width));
      if line.Some? then Some([BoldTo(bold)] + line.value + [BoldTo(false)]) else None
    case Separator(c) => LineTokens(table, SeparatorLine(table, c, width))
    case Feed(n) => Some([FeedBy(n)])
    case BarcodeItem(s, data, height, unit, readable, align) =>
      Some([AlignTo(align)] + Barcode(s, data, Min(height, 255), unit, readable) + [NewLine, AlignTo(Left)])
    case QrItem(data, size, level, align) => Some([AlignTo(align)] + Qr(data, size, level) + [NewLine, AlignTo(Left)])
    case Image(b, align) => Some([AlignTo(align)] + Bands(b, 0) + [AlignTo(Left)])
    case CutItem(partial, n) => Some([CutAfter(partial, n)])
    case Drawer(pin) => Some([Kick(pin)])
  }

  function ItemsTokens(table: seq<char>, width: nat, items: seq<Item>): Option<seq<Token>>
    requires |table| == 128 && forall i :: 0 <= i < |items| ==> ValidItem(items[i])
  {
    if items == [] then Some([])
    else
      var n := |items| - 1;
      var front := ItemsTokens(table, width, items[..n]);
      var last := ItemTokens(table, width, items[n]);
      if front.Some? && last.Some? then Some(front.value + last.value) else None
  }

  predicate EndsWithCut(items: seq<Item>) {
    items != [] && items[|items| - 1].CutItem?
  }

  function Ending(d: Document): seq<Token> {
    (if d.openDrawer then [Kick(0)] else []) + (if d.cut && !EndsWithCut(d.items) then [CutAfter(false, 3)] else [])
  }

  function DocumentTokens(tables: Tables, d: Document): Option<seq<Token>>
    requires ValidDocument(d) && |tables(d.page)| == 128
  {
    var body := ItemsTokens(tables(d.page), d.width, d.items);
    if body.Some? then Some([Reset, TableTo(TableNumber(d.page))] + body.value + Ending(d)) else None
  }
}
