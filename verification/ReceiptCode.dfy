/** The receipt encoder as the source writes it, and what its bytes print. */
module ReceiptCode {
  import opened Wrappers
  import opened EscPos
  import opened Receipt
  import opened ReceiptPrinter

  // ------------------------------------------------------------------ sound commands

  lemma LineSound(table: seq<char>, line: string)
    requires |table| == 128 && Printable(line) && LineTokens(table, line).Some?
    ensures AllSound(LineTokens(table, line).value)
  {
    Decodes(table, line);
  }

  lemma {:induction false} LinesSound(table: seq<char>, lines: seq<string>)
    requires |table| == 128 && LinesTokens(table, lines).Some?
    requires forall i :: 0 <= i < |lines| ==> Printable(lines[i])
    ensures AllSound(LinesTokens(table, lines).value)
    decreases |lines|
  {
    hide LineTokens;
    if lines != [] {
      LinesSound(table, lines[..|lines| - 1]);
      LineSound(table, lines[|lines| - 1]);
    }
  }

  lemma {:induction false} BandsSound(b: Bitmap, row: nat)
    requires |b.bits| == b.rows * b.width && b.width <= 256
    ensures AllSound(Bands(b, row))
    decreases b.rows - row
  {
    if row < b.rows {
      BandFits(b, row);
      BandsSound(b, row + Min(BAND, b.rows - row));
    }
  }

  /** The length fields of `GS k`, `GS ( k` and `GS v 0` hold the lengths of every valid item. */
  lemma ItemSound(table: seq<char>, width: nat, item: Item)
    requires |table| == 128 && ValidItem(item) && CleanItem(item) && ItemTokens(table, width, item).Some?
    ensures AllSound(ItemTokens(table, width, item).value)
  {
    hide LinesTokens, LineTokens, Bands;
    match item
    case Text(text, _) => LinesSound(table, LinesOf(text));
    case Columns(left, right, _) =>
      ColumnsPrintable(left, right, width);
      LineSound(table, ColumnsLine(left, right, width));
    case Separator(c) => LineSound(table, SeparatorLine(table, c, width));
    case Image(b, _) => BandsSound(b, 0);
    case _ =>
  }

  lemma {:induction false} ItemsSound(table: seq<char>, width: nat, items: seq<Item>)
    requires |table| == 128 && forall i :: 0 <= i < |items| ==> ValidItem(items[i]) && CleanItem(items[i])
    requires ItemsTokens(table, width, items).Some?
    ensures AllSound(ItemsTokens(table, width, items).value)
    decreases |items|
  {
    hide ItemTokens, ValidItem, CleanItem;
    if items != [] {
      ItemsSound(table, width, items[..|items| - 1]);
      ItemSound(table, width, items[|items| - 1]);
    }
  }

  // ------------------------------------------------------------------ main results

  /**
   The bytes of a valid receipt parse completely, and an ESC/POS printer prints exactly the
   document's items in order, every cell in its item's style, and ends at its default style.
   */
  lemma ReceiptPrintsItself(tables: Tables, d: Document)
    requires ValidTables(tables) && ValidDocument(d) && DocumentTokens(tables, d).Some?
    ensures
      var tokens := Parse(AllBytes(DocumentTokens(tables, d).value));
      && tokens.Some?
      && Added(PowerOn([]), Run(tables, PowerOn([]), tokens.value), d.page, DocumentMeaning(tables, d))
  {
    hide ItemsTokens, ItemsMeaning, Run, Bytes, AllBytes, Parse, ValidItem, CleanItem;
    var table := tables(d.page);
    var body := ItemsTokens(table, d.width, d.items).value;
    var head := [Reset, TableTo(TableNumber(d.page))];
    ItemsSound(table, d.width, d.items);
    ParseBack(DocumentTokens(tables, d).value);
    HeadRun(tables, d.page);
    var p := PowerOn([]).(page := d.page);
    RunJoin(tables, PowerOn([]), head, body);
    ItemsRun(tables, p, d.width, d.items);
    RunJoin(tables, PowerOn([]), head + body, Ending(d));
    EndingRun(tables, Run(tables, p, body), d);
  }

  lemma HeadRun(tables: Tables, page: CodePage)
    requires ValidTables(tables)
    ensures Run(tables, PowerOn([]), [Reset, TableTo(TableNumber(page))]) == PowerOn([]).(page := page)
  {
    hide Run;
    var ts := [Reset, TableTo(TableNumber(page))];
    RunFirst(tables, PowerOn([]), ts);
    assert ts[1..] == [TableTo(TableNumber(page))];
    RunOne(tables, PowerOn([]), TableTo(TableNumber(page)));
  }

  lemma EndingRun(tables: Tables, p: Printer, d: Document)
    requires ValidTables(tables) && AtRest(p, p.page)
    ensures Added(p, Run(tables, p, Ending(d)), p.page,
                  (if d.openDrawer then [Kicked(0)] else []) +
                  (if d.cut && !EndsWithCut(d.items) then [Cutting(false, 3)] else []))
  {
    hide Run;
    var first := if d.openDrawer then [Kick(0)] else [];
    var second := if d.cut && !EndsWithCut(d.items) then [CutAfter(false, 3)] else [];
    RunJoin(tables, p, first, second);
    NothingRun(tables, p);
    RunOne(tables, p, Kick(0));
    var p1 := Run(tables, p, first);
    NothingRun(tables, p1);
    RunOne(tables, p1, CutAfter(false, 3));
  }

  /** After every item the printer is back at its default style with nothing buffered. */
  lemma RestBetweenItems(tables: Tables, d: Document, k: nat)
    requires ValidTables(tables) && ValidDocument(d) && k <= |d.items|
    requires ItemsTokens(tables(d.page), d.width, d.items[..k]).Some?
    ensures
      var tokens := [Reset, TableTo(TableNumber(d.page))] + ItemsTokens(tables(d.page), d.width, d.items[..k]).value;
      AtRest(Run(tables, PowerOn([]), tokens), d.page)
  {
    hide ItemsTokens, ItemsMeaning, Run, ValidItem, CleanItem;
    var body := ItemsTokens(tables(d.page), d.width, d.items[..k]).value;
    HeadRun(tables, d.page);
    RunJoin(tables, PowerOn([]), [Reset, TableTo(TableNumber(d.page))], body);
    ItemsRun(tables, PowerOn([]).(page := d.page), d.width, d.items[..k]);
  }

  // ------------------------------------------------------------------ when encoding fails

  predicate Representable(table: seq<char>, s: string) {
    forall i :: 0 <= i < |s| ==> s[i] as int < 128 || s[i] in table
  }

  lemma {:induction false} EncodesIff(table: seq<char>, s: string)
    requires |table| == 128
    ensures EncodeText(table, s).Some? <==> Representable(table, s)
  {
    if s != [] {
      EncodesIff(table, s[1..]);
      assert Representable(table, s) ==> Representable(table, s[1..]);
      assert EncodeChar(table, s[0]).Some? <==> s[0] as int < 128 || s[0] in table;
      assert forall i :: 1 <= i < |s| ==> s[i] == s[1..][i - 1];
    }
  }

  predicate ItemRepresentable(table: seq<char>, width: nat, item: Item) {
    match item
    case Text(text, _) => forall i :: 0 <= i < |LinesOf(text)| ==> Representable(table, LinesOf(text)[i])
    case Columns(left, right, _) => Representable(table, ColumnsLine(left, right, width))
    case _ => true
  }

  lemma {:induction false} LinesEncodeIff(table: seq<char>, lines: seq<string>)
    requires |table| == 128
    ensures LinesTokens(table, lines).Some? <==> forall i :: 0 <= i < |lines| ==> Representable(table, lines[i])
    decreases |lines|
  {
    hide Representable, EncodeText;
    if lines != [] {
      var n := |lines| - 1;
      LinesEncodeIff(table, lines[..n]);
      EncodesIff(table, lines[n]);
      assert forall i :: 0 <= i < n ==> lines[..n][i] == lines[i];
    }
  }

  lemma ItemEncodesIff(table: seq<char>, width: nat, item: Item)
    requires |table| == 128 && ValidItem(item)
    ensures ItemTokens(table, width, item).Some? <==> ItemRepresentable(table, width, item)
  {
    hide EncodeText, LinesTokens, Bands, Representable, ValidBars;
    match item
    case Text(text, _) => LinesEncodeIff(table, LinesOf(text));
    case Columns(left, right, _) => EncodesIff(table, ColumnsLine(left, right, width));
    case Separator(c) =>
      EncodesIff(table, Repeat('-', width));
      AsciiIsRepresentable(table, width);
    case _ =>
  }

  lemma AsciiIsRepresentable(table: seq<char>, width: nat)
    ensures Representable(table, Repeat('-', width))
  {
  }

  /** Encoding fails exactly when some text has a character outside the code page; a separator
      never fails, because it falls back to dashes. */
  lemma {:induction false} EncodingFailsIff(table: seq<char>, width: nat, items: seq<Item>)
    requires |table| == 128 && forall i :: 0 <= i < |items| ==> ValidItem(items[i])
    ensures ItemsTokens(table, width, items).Some? <==>
      forall i :: 0 <= i < |items| ==> ItemRepresentable(table, width, items[i])
    decreases |items|
  {
    hide ItemTokens, ItemRepresentable, ValidItem;
    if items != [] {
      var n := |items| - 1;
      EncodingFailsIff(table, width, items[..n]);
      ItemEncodesIff(table, width, items[n]);
      assert forall i :: 0 <= i < n ==> items[..n][i] == items[i];
    }
  }

  // ------------------------------------------------------------------ the encoder

  lemma {:induction false} GlyphBytes(bytes: seq<Byte>)
    ensures AllBytes(Glyphs(bytes)) == bytes
  {
    if bytes != [] {
      GlyphBytes(bytes[1..]);
      assert Glyphs(bytes)[1..] == Glyphs(bytes[1..]);
      assert Bytes(Glyphs(bytes)[0]) == [bytes[0]];
    }
  }

  lemma LineBytes(bytes: seq<Byte>)
    ensures AllBytes(Glyphs(bytes) + [NewLine]) == bytes + [LF]
  {
    GlyphBytes(bytes);
    BytesJoin(Glyphs(bytes), [NewLine]);
    assert [NewLine][1..] == [];
    assert AllBytes([NewLine]) == [LF];
  }

  /** The loop over the lines of a text item. */
  method EncodeLines(table: seq<char>, lines: seq<string>) returns (r: Option<seq<Byte>>)
    requires |table| == 128
    ensures r.Some? <==> LinesTokens(table, lines).Some?
    ensures r.Some? ==> r.value == AllBytes(LinesTokens(table, lines).value)
  {
    hide EncodeText, Bytes;
    var out: seq<Byte> := [];
    for i := 0 to |lines|
      invariant LinesTokens(table, lines[..i]).Some? && out == AllBytes(LinesTokens(table, lines[..i]).value)
    {
      assert lines[..i + 1][..i] == lines[..i];
      var bytes := EncodeText(table, lines[i]);
      if bytes.None? {
        NoLine(table, lines, i);
        return None;
      }
      LineBytes(bytes.value);
      BytesJoin(LinesTokens(table, lines[..i]).value, LineTokens(table, lines[i]).value);
      out := out + bytes.value + [LF];
    }
    assert lines[..|lines|] == lines;
    return Some(out);
  }

  lemma NoLine(table: seq<char>, lines: seq<string>, i: nat)
    requires |table| == 128 && i < |lines| && EncodeText(table, lines[i]).None?
    ensures LinesTokens(table, lines).None?
  {
    EncodesIff(table, lines[i]);
    LinesEncodeIff(table, lines);
  }

  /** The loop of `raster_image`. */
  method EncodeBitmap(b: Bitmap) returns (out: seq<Byte>)
    requires |b.bits| == b.rows * b.width
    ensures out == AllBytes(Bands(b, 0))
  {
    hide Bytes;
    out := [];
    var row := 0;
    assert AllBytes([]) == [];
    while row < b.rows
      invariant AllBytes(Bands(b, 0)) == out + AllBytes(Bands(b, row))
      decreases b.rows - row
    {
      var n := Min(BAND, b.rows - row);
      BandFits(b, row);
      assert Bands(b, row)[1..] == Bands(b, row + n);
      out := out + Bytes(Raster(0, b.width, n, b.bits[row * b.width..(row + n) * b.width]));
      row := row + n;
    }
  }

  /** One turn of the loop in `encode`. */
  method EncodeItem(table: seq<char>, width: nat, item: Item) returns (r: Option<seq<Byte>>)
    requires |table| == 128 && ValidItem(item)
    ensures r.Some? <==> ItemTokens(table, width, item).Some?
    ensures r.Some? ==> r.value == AllBytes(ItemTokens(table, width, item).value)
  {
    hide EncodeText, Bytes, LinesTokens, Bands, Glyphs, AllBytes, ValidBars;
    match item {
      case Text(text, style) =>
        var lines := EncodeLines(table, LinesOf(text));
        if lines.None? { return None; }
        ghost var tokens := LinesTokens(table, LinesOf(text)).value;
        BytesJoin(StyleOn(style), tokens);
        BytesJoin(StyleOn(style) + tokens, StyleOff());
        return Some(AllBytes(StyleOn(style)) + lines.value + AllBytes(StyleOff()));
      case Columns(left, right, bold) =>
        var line := EncodeText(table, ColumnsLine(left, right, width));
        if line.None? { return None; }
        LineBytes(line.value);
        BytesJoin([BoldTo(bold)], Glyphs(line.value) + [NewLine]);
        BytesJoin([BoldTo(bold)] + (Glyphs(line.value) + [NewLine]), [BoldTo(false)]);
        return Some(AllBytes([BoldTo(bold)]) + line.value + [LF] + AllBytes([BoldTo(false)]));
      case Separator(c) =>
        var line := EncodeText(table, Repeat(c, width));
        if line.None? { line := EncodeText(table, Repeat('-', width)); }
        if line.None? { return None; }
        LineBytes(line.value);
        return Some(line.value + [LF]);
      case Image(b, align) =>
        var bands := EncodeBitmap(b);
        BytesJoin([AlignTo(align)], Bands(b, 0));
        BytesJoin([AlignTo(align)] + Bands(b, 0), [AlignTo(Left)]);
        return Some(AllBytes([AlignTo(align)]) + bands + AllBytes([AlignTo(Left)]));
      case _ =>
        return Some(AllBytes(ItemTokens(table, width, item).value));
    }
  }

  /** `encode`: fails iff some text is outside the code page; otherwise its bytes print the receipt. */
  method Encode(tables: Tables, d: Document) returns (r: Option<seq<Byte>>)
    requires ValidTables(tables) && ValidDocument(d)
    ensures r.Some? <==> forall i :: 0 <= i < |d.items| ==> ItemRepresentable(tables(d.page), d.width, d.items[i])
    ensures r.Some? ==>
      && Parse(r.value).Some?
      && Added(PowerOn([]), Run(tables, PowerOn([]), Parse(r.value).value), d.page, DocumentMeaning(tables, d))
  {
    hide Bytes, AllBytes, ItemTokens, Parse, Run, Added, DocumentMeaning, ValidItem, CleanItem, ItemRepresentable;
    var table := tables(d.page);
    ghost var head := [Reset, TableTo(TableNumber(d.page))];
    var out := AllBytes([Reset, TableTo(TableNumber(d.page))]);
    var endsWithCut := false;
    EncodingFailsIff(table, d.width, d.items);
    assert head + [] == head;
    for i := 0 to |d.items|
      invariant ItemsTokens(table, d.width, d.items[..i]).Some?
      invariant out == AllBytes(head + ItemsTokens(table, d.width, d.items[..i]).value)
      invariant endsWithCut == EndsWithCut(d.items[..i])
    {
      assert d.items[..i + 1][..i] == d.items[..i];
      var bytes := EncodeItem(table, d.width, d.items[i]);
      if bytes.None? {
        ItemEncodesIff(table, d.width, d.items[i]);
        return None;
      }
      endsWithCut := d.items[i].CutItem?;
      ghost var front, last := ItemsTokens(table, d.width, d.items[..i]).value, ItemTokens(table, d.width, d.items[i]).value;
      BytesJoin(head + front, last);
      assert head + front + last == head + (front + last);
      out := out + bytes.value;
    }
    assert d.items[..|d.items|] == d.items;
    ghost var body := ItemsTokens(table, d.width, d.items).value;
    BytesJoin(head + body, Ending(d));
    EndingBytes(d, out);
    if d.openDrawer { out := out + AllBytes([Kick(0)]); }
    if d.cut && !endsWithCut { out := out + AllBytes([CutAfter(false, 3)]); }
    ReceiptPrintsItself(tables, d);
    return Some(out);
  }

  lemma EndingBytes(d: Document, out: seq<Byte>)
    ensures
      var drawn := if d.openDrawer then out + AllBytes([Kick(0)]) else out;
      var done := if d.cut && !EndsWithCut(d.items) then drawn + AllBytes([CutAfter(false, 3)]) else drawn;
      done == out + AllBytes(Ending(d))
  {
    hide Bytes;
    BytesJoin(if d.openDrawer then [Kick(0)] else [], if d.cut && !EndsWithCut(d.items) then [CutAfter(false, 3)] else []);
  }
}
