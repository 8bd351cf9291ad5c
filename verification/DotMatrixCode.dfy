/** The dot-matrix encoder as the source writes it, and what its bytes print. */
module DotMatrixCode {
  import opened Wrappers
  import opened EscP
  import opened DotMatrix
  import Receipt
  import ReceiptPrinter
  import ReceiptCode
  import EscPos

  // ------------------------------------------------------------------ text

  lemma {:induction false} PrintsRun(table: seq<char>, p: Printer, bytes: seq<Byte>, text: string)
    requires |table| == 128 && |bytes| == |text|
    requires forall i :: 0 <= i < |text| ==> Receipt.DecodeByte(table, bytes[i]) == text[i]
    ensures Run(table, p, seq(|bytes|, i requires 0 <= i < |bytes| => Print(bytes[i]))) == p.(line := p.line + Cells(text, p.look))
    decreases |bytes|
  {
    var cs := seq(|bytes|, i requires 0 <= i < |bytes| => Print(bytes[i]));
    if bytes == [] {
      assert p.line + Cells(text, p.look) == p.line;
    } else {
      var n := |bytes| - 1;
      var front := bytes[..n];
      assert cs[..n] == seq(|front|, i requires 0 <= i < |front| => Print(front[i]));
      PrintsRun(table, p, front, text[..n]);
      assert Cells(text, p.look) == Cells(text[..n], p.look) + [Cell(text[n], p.look)];
    }
  }

  lemma LettersRun(table: seq<char>, p: Printer, text: string)
    requires |table| == 128 && Letters(table, text).Some?
    ensures Run(table, p, Letters(table, text).value) == p.(line := p.line + Cells(text, p.look))
  {
    ReceiptPrinter.Decodes(table, text);
    PrintsRun(table, p, Receipt.EncodeText(table, text).value, text);
  }

  lemma LineEndRun(table: seq<char>, p: Printer)
    requires |table| == 128
    ensures Run(table, p, LineEnd()) == p.(line := [], out := p.out + [Line(p.line)])
  {
    assert LineEnd() == [Control(CR)] + [Control(LF)];
    RunJoin(table, p, [Control(CR)], [Control(LF)]);
    RunOne(table, p, Control(CR));
    RunOne(table, p, Control(LF));
  }

  lemma {:induction false} PagesRun(table: seq<char>, p: Printer, pages: seq<string>)
    requires |table| == 128 && |pages| >= 1 && p.line == [] && PageCommands(table, pages).Some?
    ensures Run(table, p, PageCommands(table, pages).value + LineEnd()) == p.(out := p.out + PagesMeaning(pages, p.look))
    decreases |pages|
  {
    hide Run, Letters, LineEnd, Flat, Cells;
    var first := Letters(table, Flat(pages[0])).value;
    LettersRun(table, p, Flat(pages[0]));
    var cells := Cells(Flat(pages[0]), p.look);
    assert [] + cells == cells;
    var p1 := p.(line := cells);
    if |pages| == 1 {
      RunJoin(table, p, first, LineEnd());
      LineEndRun(table, p1);
    } else {
      var rest := PageCommands(table, pages[1..]).value;
      var p2 := p.(out := p.out + [Eject(cells)]);
      RunJoin(table, p, first, [Control(FF)]);
      RunOne(table, p1, Control(FF));
      PagesRun(table, p2, pages[1..]);
      RunJoin(table, p, first + [Control(FF)], rest + LineEnd());
      assert first + [Control(FF)] + rest + LineEnd() == first + [Control(FF)] + (rest + LineEnd());
      assert p.out + [Eject(cells)] + PagesMeaning(pages[1..], p.look) == p.out + PagesMeaning(pages, p.look);
    }
  }

  lemma {:induction false} TextRun(table: seq<char>, p: Printer, lines: seq<string>)
    requires |table| == 128 && p.line == [] && TextCommands(table, lines).Some?
    ensures Run(table, p, TextCommands(table, lines).value) == p.(out := p.out + TextMeaning(lines, p.look))
    decreases |lines|
  {
    hide Obey, PageCommands, PagesMeaning, LineEnd, Pages;
    if lines == [] {
      assert p.out + [] == p.out;
    } else {
      var n := |lines| - 1;
      var front, last := TextCommands(table, lines[..n]).value, PageCommands(table, Pages(lines[n])).value;
      TextRun(table, p, lines[..n]);
      RunJoin(table, p, front, last + LineEnd());
      assert front + last + LineEnd() == front + (last + LineEnd());
      PagesRun(table, Run(table, p, front), Pages(lines[n]));
    }
  }

  // ------------------------------------------------------------------ styles

  /** A command that is there only if wanted. */
  function Wanted(want: bool, c: Command): seq<Command> { if want then [c] else [] }

  lemma WantedRun(table: seq<char>, p: Printer, cs: seq<Command>, want: bool, c: Command)
    requires |table| == 128
    ensures Run(table, p, cs + Wanted(want, c)) ==
            if want then Obey(table, Run(table, p, cs), c) else Run(table, p, cs)
  {
    hide Run, Obey;
    RunJoin(table, p, cs, Wanted(want, c));
    RunOne(table, Run(table, p, cs), c);
  }

  lemma OnRun(table: seq<char>, p: Printer, s: LineStyle, cpi: nat)
    requires |table| == 128 && p.look == Baseline(cpi)
    ensures Run(table, p, On(s, cpi)) == p.(look := StyledLook(cpi, s))
  {
    hide Run;
    RunOne(table, p, Control(SI));
    assert Wanted(s.bold, Plain(69)) == [] + Wanted(s.bold, Plain(69));
    WantedRun(table, p, [], s.bold, Plain(69));
    var a := Wanted(s.bold, Plain(69));
    WantedRun(table, p, a, s.strike, Plain(71));
    var b := a + Wanted(s.strike, Plain(71));
    WantedRun(table, p, b, s.italic, Plain(52));
    var c := b + Wanted(s.italic, Plain(52));
    WantedRun(table, p, c, s.underline, With(45, 1));
    var d := c + Wanted(s.underline, With(45, 1));
    WantedRun(table, p, d, s.wide, With(87, 1));
    var e := d + Wanted(s.wide, With(87, 1));
    WantedRun(table, p, e, s.condensed && !CondensedPitch(cpi), Control(SI));
  }

  lemma OffRun(table: seq<char>, p: Printer, s: LineStyle, cpi: nat)
    requires |table| == 128 && p.look == StyledLook(cpi, s)
    ensures Run(table, p, Off(s, cpi)) == p.(look := Baseline(cpi))
  {
    hide Run;
    RunOne(table, p, Control(SI));
    assert Wanted(s.bold, Plain(70)) == [] + Wanted(s.bold, Plain(70));
    WantedRun(table, p, [], s.bold, Plain(70));
    var a := Wanted(s.bold, Plain(70));
    WantedRun(table, p, a, s.strike, Plain(72));
    var b := a + Wanted(s.strike, Plain(72));
    WantedRun(table, p, b, s.italic, Plain(53));
    var c := b + Wanted(s.italic, Plain(53));
    WantedRun(table, p, c, s.underline, With(45, 0));
    var d := c + Wanted(s.underline, With(45, 0));
    WantedRun(table, p, d, s.wide, With(87, 0));
    var e := d + Wanted(s.wide, With(87, 0));
    WantedRun(table, p, e, s.condensed && !CondensedPitch(cpi), Control(DC2));
  }

  lemma StyledRun(table: seq<char>, p: Printer, cpi: nat, text: string, s: LineStyle)
    requires |table| == 128 && AtBaseline(p, cpi) && Letters(table, text).Some?
    ensures Printed(p, Run(table, p, On(s, cpi) + Letters(table, text).value + Off(s, cpi) + LineEnd()), cpi,
                    [Line(Cells(text, StyledLook(cpi, s)))])
  {
    hide Run, On, Off, Letters, LineEnd, Cells, StyledLook, Baseline;
    var letters := Letters(table, text).value;
    OnRun(table, p, s, cpi);
    var p1 := p.(look := StyledLook(cpi, s));
    RunJoin(table, p, On(s, cpi), letters);
    LettersRun(table, p1, text);
    var cells := Cells(text, p1.look);
    assert [] + cells == cells;
    var p2 := p1.(line := cells);
    RunJoin(table, p, On(s, cpi) + letters, Off(s, cpi));
    OffRun(table, p2, s, cpi);
    RunJoin(table, p, On(s, cpi) + letters + Off(s, cpi), LineEnd());
    LineEndRun(table, p2.(look := Baseline(cpi)));
  }

  lemma {:induction false} FeedsRun(table: seq<char>, p: Printer, n: nat)
    requires |table| == 128 && p.line == []
    ensures Run(table, p, Feeds(n)) == p.(out := p.out + BlankLines(n))
  {
    hide Obey, LineEnd;
    if n == 0 {
      assert p.out + [] == p.out;
    } else {
      FeedsRun(table, p, n - 1);
      RunJoin(table, p, Feeds(n - 1), LineEnd());
      LineEndRun(table, p.(out := p.out + BlankLines(n - 1)));
    }
  }

  /** One entry is printed as it means, and the printer is back at the document's baseline. */
  lemma EntryRun(table: seq<char>, p: Printer, cpi: nat, e: Entry)
    requires |table| == 128 && AtBaseline(p, cpi) && EntryCommands(table, cpi, e).Some?
    ensures Printed(p, Run(table, p, EntryCommands(table, cpi, e).value), cpi, Meaning(cpi, e))
  {
    hide Run, TextCommands, Letters, On, Off, LineEnd, Feeds, TextMeaning, Cells, BlankLines, Baseline;
    match e
    case Text(text) => TextRun(table, p, Receipt.LinesOf(text));
    case Styled(text, s) => StyledRun(table, p, cpi, Flat(text), s);
    case LineFeed(n) => FeedsRun(table, p, n);
    case FormFeed => RunOne(table, p, Control(FF));
  }

  lemma {:induction false} EntriesRun(table: seq<char>, p: Printer, cpi: nat, entries: seq<Entry>)
    requires |table| == 128 && AtBaseline(p, cpi) && EntriesCommands(table, cpi, entries).Some?
    ensures Printed(p, Run(table, p, EntriesCommands(table, cpi, entries).value), cpi, EntriesMeaning(cpi, entries))
    decreases |entries|
  {
    hide Obey, EntryCommands, Meaning, Baseline;
    if entries == [] {
      assert p.out + [] == p.out;
    } else {
      var n := |entries| - 1;
      var front := EntriesCommands(table, cpi, entries[..n]).value;
      EntriesRun(table, p, cpi, entries[..n]);
      RunJoin(table, p, front, EntryCommands(table, cpi, entries[n]).value);
      EntryRun(table, Run(table, p, front), cpi, entries[n]);
    }
  }

  // ------------------------------------------------------------------ settings

  lemma IfSomeRun(table: seq<char>, p: Printer, op: Byte, n: Option<Byte>)
    requires |table| == 128
    ensures Run(table, p, IfSome(op, n)) == if n.Some? then ObeyWith(p, op, n.value) else p
  {
    RunOne(table, p, With(op, if n.Some? then n.value else 0));
  }

  lemma PitchRun(table: seq<char>, p: Printer, cpi: nat)
    requires |table| == 128
    ensures Run(table, p, Pitch(cpi)) == p.(look := p.look.(pitch := Baseline(cpi).pitch, condensed := CondensedPitch(cpi)))
  {
    hide Run;
    var a, b := Pitch(cpi)[0], Pitch(cpi)[1];
    assert Pitch(cpi) == [a] + [b];
    RunJoin(table, p, [a], [b]);
    RunOne(table, p, a);
    RunOne(table, Obey(table, p, a), b);
  }

  lemma StartRun(table: seq<char>, p: Printer, s: Settings)
    requires |table| == 128 && s.lpi > 0.0 && p.look == PICA
    ensures Run(table, p, StartOf(s)) ==
            p.(look := Baseline(s.cpi), form := p.form.(nlq := s.nlq, pace := PaceOf(s.lpi, s.pins)))
  {
    hide Run, Pitch;
    var q := With(120, if s.nlq then 1 else 0);
    RunOne(table, p, q);
    var p1 := p.(form := p.form.(nlq := s.nlq));
    RunJoin(table, p, [q], Pitch(s.cpi));
    PitchRun(table, p1, s.cpi);
    var p2 := p1.(look := Baseline(s.cpi));
    RunJoin(table, p, [q] + Pitch(s.cpi), [Spacing(s.lpi, s.pins)]);
    RunOne(table, p2, Spacing(s.lpi, s.pins));
  }

  lemma LengthRun(table: seq<char>, p: Printer, s: Settings)
    requires |table| == 128
    ensures Run(table, p, LengthOf(s)) == p.(form := p.form.(length :=
      if s.formInches.Some? then InInches(s.formInches.value)
      else if s.formLines.Some? then InLines(s.formLines.value) else p.form.length))
  {
    hide Run, IfSome;
    var second := if s.formInches.Some? then [PageInches(s.formInches.value)] else [];
    RunJoin(table, p, IfSome(PAGE, s.formLines), second);
    IfSomeRun(table, p, PAGE, s.formLines);
    var p1 := Run(table, p, IfSome(PAGE, s.formLines));
    RunOne(table, p1, PageInches(if s.formInches.Some? then s.formInches.value else 0));
  }

  lemma MarginsRun(table: seq<char>, p: Printer, s: Settings)
    requires |table| == 128 && p.form.skip.None? && p.form.left.None? && p.form.right.None? && p.form.table.None?
    ensures Run(table, p, MarginsOf(s)) == p.(form := p.form.(skip := s.skip, left := s.left, right := s.right, table := s.table))
  {
    hide Run, IfSome;
    var a := IfSome(78, s.skip);
    var b, c := a + IfSome(108, s.left), a + IfSome(108, s.left) + IfSome(81, s.right);
    IfSomeRun(table, p, 78, s.skip);
    RunJoin(table, p, a, IfSome(108, s.left));
    IfSomeRun(table, Run(table, p, a), 108, s.left);
    RunJoin(table, p, b, IfSome(81, s.right));
    IfSomeRun(table, Run(table, p, b), 81, s.right);
    RunJoin(table, p, c, IfSome(116, s.table));
    IfSomeRun(table, Run(table, p, c), 116, s.table);
  }

  /** The settings leave the printer at the baseline with exactly the form that was asked for. */
  lemma HeadRun(table: seq<char>, s: Settings, out: seq<Event>)
    requires |table| == 128 && s.lpi > 0.0
    ensures Run(table, PowerOn(out), Head(s)) == PowerOn(out).(look := Baseline(s.cpi), form := FormOf(s))
  {
    hide Run, StartOf, LengthOf, MarginsOf, Baseline;
    var p := PowerOn(out);
    StartRun(table, p, s);
    RunJoin(table, p, StartOf(s), LengthOf(s));
    LengthRun(table, Run(table, p, StartOf(s)), s);
    RunJoin(table, p, StartOf(s) + LengthOf(s), MarginsOf(s));
    MarginsRun(table, Run(table, p, StartOf(s) + LengthOf(s)), s);
  }

  // ------------------------------------------------------------------ well-formed streams

  predicate Fine(cs: seq<Command>) {
    forall i :: 0 <= i < |cs| ==> WellFormed(cs[i])
  }

  lemma LettersFine(table: seq<char>, text: string)
    requires |table| == 128 && Receipt.Printable(text) && Letters(table, text).Some?
    ensures Fine(Letters(table, text).value)
  {
    ReceiptPrinter.Decodes(table, text);
  }

  lemma {:induction false} PagesFine(table: seq<char>, pages: seq<string>)
    requires |table| == 128 && |pages| >= 1 && CleanPages(pages) && PageCommands(table, pages).Some?
    ensures Fine(PageCommands(table, pages).value)
    decreases |pages|
  {
    hide Letters, Flat;
    LettersFine(table, Flat(pages[0]));
    if |pages| > 1 { PagesFine(table, pages[1..]); }
  }

  lemma {:induction false} TextFine(table: seq<char>, lines: seq<string>)
    requires |table| == 128 && TextCommands(table, lines).Some?
    requires forall i :: 0 <= i < |lines| ==> CleanPages(Pages(lines[i]))
    ensures Fine(TextCommands(table, lines).value)
    decreases |lines|
  {
    hide PageCommands, CleanPages, Pages;
    if lines != [] {
      var n := |lines| - 1;
      TextFine(table, lines[..n]);
      PagesFine(table, Pages(lines[n]));
    }
  }

  lemma {:induction false} FeedsFine(n: nat)
    ensures Fine(Feeds(n))
  {
    if n > 0 { FeedsFine(n - 1); }
  }

  lemma StyleFine(s: LineStyle, cpi: nat)
    ensures Fine(On(s, cpi)) && Fine(Off(s, cpi)) && Fine(LineEnd())
  {
  }

  lemma EntryFine(table: seq<char>, cpi: nat, e: Entry)
    requires |table| == 128 && CleanEntry(e) && EntryCommands(table, cpi, e).Some?
    ensures Fine(EntryCommands(table, cpi, e).value)
  {
    hide TextCommands, Letters, Feeds, Pages, On, Off, LineEnd, Flat, WellFormed, CleanPages;
    match e
    case Text(text) => TextFine(table, Receipt.LinesOf(text));
    case Styled(text, s) =>
      LettersFine(table, Flat(text));
      StyleFine(s, cpi);
    case LineFeed(n) => FeedsFine(n);
    case FormFeed => FormFeedFine();
  }

  lemma FormFeedFine()
    ensures Fine([Control(FF)]) && Fine([Plain(64)])
  {
  }

  lemma {:induction false} EntriesFine(table: seq<char>, cpi: nat, entries: seq<Entry>)
    requires |table| == 128 && (forall i :: 0 <= i < |entries| ==> CleanEntry(entries[i])) && EntriesCommands(table, cpi, entries).Some?
    ensures Fine(EntriesCommands(table, cpi, entries).value)
    decreases |entries|
  {
    hide EntryCommands, CleanEntry, WellFormed;
    if entries != [] {
      var n := |entries| - 1;
      EntriesFine(table, cpi, entries[..n]);
      EntryFine(table, cpi, entries[n]);
    }
  }

  lemma HeadFine(s: Settings)
    requires ValidSettings(s)
    ensures Fine(Head(s))
  {
    assert Fine(StartOf(s)) && Fine(LengthOf(s)) && Fine(MarginsOf(s));
  }

  // ------------------------------------------------------------------ main results

  /** What the last form feed adds, if it is sent. */
  function LastPage(table: seq<char>, d: Document): seq<Event>
    requires |table| == 128 && d.settings.lpi > 0.0 && Body(table, d).Some?
  {
    if d.formFeed && !EndsInFF(Stream(Body(table, d).value)) then [Eject([])] else []
  }

  /**
   The bytes of an initialised document parse completely, and an ESC/P printer, whatever its
   state before, prints each entry in the document's pitch with exactly its own styles, with
   the form that was asked for, and ends at the document's baseline.
   */
  lemma DocumentPrintsItself(table: seq<char>, d: Document, p: Printer)
    requires |table| == 128 && ValidDocument(d) && d.initialize && DocumentCommands(table, d).Some?
    ensures
      var cs := Commands(Stream(DocumentCommands(table, d).value));
      && cs.Some?
      && var p' := Run(table, p, cs.value);
         && AtBaseline(p', d.settings.cpi) && p'.form == FormOf(d.settings)
         && p'.out == p.out + EntriesMeaning(d.settings.cpi, d.entries) + LastPage(table, d)
  {
    hide Run, Head, EntriesCommands, EntriesMeaning, Stream, Commands, WellFormed, Baseline, FormOf, CleanEntry, ValidSettings, EndsInFF;
    Positive(d.settings);
    var s, all := d.settings, DocumentCommands(table, d).value;
    var entries := EntriesCommands(table, s.cpi, d.entries).value;
    StreamIsFine(table, d);
    CommandsBack(all);
    RunOne(table, p, Plain(64));
    RunJoin(table, p, [Plain(64)], Head(s));
    HeadRun(table, s, p.out);
    var p1 := PowerOn(p.out).(look := Baseline(s.cpi), form := FormOf(s));
    RunJoin(table, p, [Plain(64)] + Head(s), entries);
    EntriesRun(table, p1, s.cpi, d.entries);
    var p2 := Run(table, p1, entries);
    RunJoin(table, p, Body(table, d).value, if d.formFeed && !EndsInFF(Stream(Body(table, d).value)) then [Control(FF)] else []);
    RunOne(table, p2, Control(FF));
  }

  lemma Positive(s: Settings)
    requires ValidSettings(s)
    ensures s.lpi > 0.0
  {
  }

  lemma StreamIsFine(table: seq<char>, d: Document)
    requires |table| == 128 && ValidDocument(d) && DocumentCommands(table, d).Some?
    ensures Fine(DocumentCommands(table, d).value)
  {
    hide Head, EntriesCommands, WellFormed, CleanEntry, EndsInFF, Stream;
    HeadFine(d.settings);
    EntriesFine(table, d.settings.cpi, d.entries);
    FormFeedFine();
  }

  /** After every entry the printer is at the document's baseline: condensed iff the pitch is. */
  lemma BaselineBetweenEntries(table: seq<char>, d: Document, k: nat, p: Printer)
    requires |table| == 128 && ValidDocument(d) && d.initialize && k <= |d.entries|
    requires EntriesCommands(table, d.settings.cpi, d.entries[..k]).Some?
    ensures
      var p' := Run(table, p, [Plain(64)] + Head(d.settings) + EntriesCommands(table, d.settings.cpi, d.entries[..k]).value);
      AtBaseline(p', d.settings.cpi) && (p'.look.condensed <==> CondensedPitch(d.settings.cpi))
  {
    hide Run, Head, EntriesCommands, EntriesMeaning;
    var s := d.settings;
    var entries := EntriesCommands(table, s.cpi, d.entries[..k]).value;
    RunOne(table, p, Plain(64));
    RunJoin(table, p, [Plain(64)], Head(s));
    HeadRun(table, s, p.out);
    RunJoin(table, p, [Plain(64)] + Head(s), entries);
    EntriesRun(table, PowerOn(p.out).(look := Baseline(s.cpi), form := FormOf(s)), s.cpi, d.entries[..k]);
  }

  // ------------------------------------------------------------------ the last form feed

  predicate EndsLine(cs: seq<Command>) {
    cs != [] && (cs[|cs| - 1] == Control(LF) || cs[|cs| - 1] == Control(FF))
  }

  lemma FeedsEnd(n: nat)
    ensures if n == 0 then Feeds(n) == [] else EndsLine(Feeds(n))
  {
  }

  lemma EntryEnds(table: seq<char>, cpi: nat, e: Entry)
    requires |table| == 128 && EntryCommands(table, cpi, e).Some?
    ensures if e == LineFeed(0) then EntryCommands(table, cpi, e).value == [] else EndsLine(EntryCommands(table, cpi, e).value)
  {
    hide PageCommands, Letters, On, Off, Feeds;
    if e.LineFeed? { FeedsEnd(e.lines); }
  }

  lemma {:induction false} EntriesEnd(table: seq<char>, cpi: nat, entries: seq<Entry>)
    requires |table| == 128 && EntriesCommands(table, cpi, entries).Some?
    ensures
      var cs := EntriesCommands(table, cpi, entries).value;
      if forall i :: 0 <= i < |entries| ==> entries[i] == LineFeed(0) then cs == [] else EndsLine(cs)
    decreases |entries|
  {
    hide EntryCommands;
    if entries != [] {
      var n := |entries| - 1;
      EntriesEnd(table, cpi, entries[..n]);
      EntryEnds(table, cpi, entries[n]);
      assert forall i :: 0 <= i < n ==> entries[..n][i] == entries[i];
    }
  }

  lemma LastByte(cs: seq<Command>)
    requires cs != []
    ensures EndsInFF(Stream(cs)) <==> BytesOf(cs[|cs| - 1])[|BytesOf(cs[|cs| - 1])| - 1] == FF
  {
  }

  lemma HeadEnd(s: Settings)
    requires s.lpi > 0.0
    ensures Head(s) != [] && Head(s)[|Head(s)| - 1] != Control(FF)
  {
    var start := StartOf(s);
    assert start[|start| - 1] == Spacing(s.lpi, s.pins);
  }

  /**
   A document that asks for a final form feed ends in one iff it has an entry that prints or
   feeds something, or the last settings byte is not 12: the source compares bytes, and the
   argument of a setting can be the byte 12.
   */
  lemma FinalFormFeedIff(table: seq<char>, d: Document)
    requires |table| == 128 && d.settings.lpi > 0.0 && d.formFeed && DocumentCommands(table, d).Some?
    ensures
      var cs := DocumentCommands(table, d).value;
      var settings := (if d.initialize then [Plain(64)] else []) + Head(d.settings);
      (cs != [] && cs[|cs| - 1] == Control(FF)) <==>
      !((forall i :: 0 <= i < |d.entries| ==> d.entries[i] == LineFeed(0)) && EndsInFF(Stream(settings)))
  {
    hide Head, EntriesCommands, EndsInFF, Stream;
    var settings := (if d.initialize then [Plain(64)] else []) + Head(d.settings);
    var entries := EntriesCommands(table, d.settings.cpi, d.entries).value;
    HeadEnd(d.settings);
    EntriesEnd(table, d.settings.cpi, d.entries);
    assert entries == [] ==> settings + entries == settings;
    LastByte(settings + entries);
  }

  /** 15 lines per inch on a 24-pin printer is `ESC 3 12`: the final form feed is lost. */
  lemma FormFeedLost(table: seq<char>)
    requires |table| == 128
    ensures
      var s := Settings(10, 15.0, 24, false, None, None, None, None, None, None);
      var d := Document(s, true, true, [LineFeed(0)]);
      && ValidDocument(d) && DocumentCommands(table, d).Some?
      && var cs := DocumentCommands(table, d).value;
         cs != [] && cs[|cs| - 1] != Control(FF)
  {
    hide Stream, EndsInFF;
    var s := Settings(10, 15.0, 24, false, None, None, None, None, None, None);
    var d := Document(s, true, true, [LineFeed(0)]);
    assert d.entries[..0] == [];
    assert EntriesCommands(table, 10, []) == Some([]);
    assert Feeds(0) == [];
    assert EntryCommands(table, 10, LineFeed(0)) == Some([]);
    EntriesEnd(table, 10, d.entries);
    FinalFormFeedIff(table, d);
    Fifteen();
    var settings := [Plain(64)] + Head(s);
    assert settings[|settings| - 1] == With(51, 12);
    LastByte(settings);
  }

  lemma Fifteen()
    ensures Spacing(15.0, 24) == With(51, 12)
  {
    assert 180.0 / 15.0 == 12.0;
    assert (12.0 + 0.5).Floor == 12;
  }

  // ------------------------------------------------------------------ when encoding fails

  predicate PagesRepresentable(table: seq<char>, pages: seq<string>) {
    forall i :: 0 <= i < |pages| ==> ReceiptCode.Representable(table, Flat(pages[i]))
  }

  predicate EntryRepresentable(table: seq<char>, e: Entry) {
    match e
    case Text(text) =>
      var lines := Receipt.LinesOf(text);
      forall i :: 0 <= i < |lines| ==> PagesRepresentable(table, Pages(lines[i]))
    case Styled(text, _) => ReceiptCode.Representable(table, Flat(text))
    case _ => true
  }

  lemma {:induction false} PagesEncodeIff(table: seq<char>, pages: seq<string>)
    requires |table| == 128 && |pages| >= 1
    ensures PageCommands(table, pages).Some? <==> PagesRepresentable(table, pages)
    decreases |pages|
  {
    hide ReceiptCode.Representable, Receipt.EncodeText, Flat;
    ReceiptCode.EncodesIff(table, Flat(pages[0]));
    if |pages| > 1 {
      PagesEncodeIff(table, pages[1..]);
      assert forall i :: 1 <= i < |pages| ==> pages[i] == pages[1..][i - 1];
    }
  }

  lemma {:induction false} TextEncodesIff(table: seq<char>, lines: seq<string>)
    requires |table| == 128
    ensures TextCommands(table, lines).Some? <==> forall i :: 0 <= i < |lines| ==> PagesRepresentable(table, Pages(lines[i]))
    decreases |lines|
  {
    hide PagesRepresentable, PageCommands, Pages;
    if lines != [] {
      var n := |lines| - 1;
      TextEncodesIff(table, lines[..n]);
      PagesEncodeIff(table, Pages(lines[n]));
      assert forall i :: 0 <= i < n ==> lines[..n][i] == lines[i];
    }
  }

  lemma EntryEncodesIff(table: seq<char>, cpi: nat, e: Entry)
    requires |table| == 128
    ensures EntryCommands(table, cpi, e).Some? <==> EntryRepresentable(table, e)
  {
    hide ReceiptCode.Representable, Receipt.EncodeText, TextCommands, PagesRepresentable, Flat;
    match e
    case Text(text) => TextEncodesIff(table, Receipt.LinesOf(text));
    case Styled(text, _) => ReceiptCode.EncodesIff(table, Flat(text));
    case _ =>
  }

  /** Encoding fails exactly when some text has a character outside the code page. */
  lemma {:induction false} EncodingFailsIff(table: seq<char>, cpi: nat, entries: seq<Entry>)
    requires |table| == 128
    ensures EntriesCommands(table, cpi, entries).Some? <==>
      forall i :: 0 <= i < |entries| ==> EntryRepresentable(table, entries[i])
    decreases |entries|
  {
    hide EntryCommands, EntryRepresentable;
    if entries != [] {
      var n := |entries| - 1;
      EncodingFailsIff(table, cpi, entries[..n]);
      EntryEncodesIff(table, cpi, entries[n]);
      assert forall i :: 0 <= i < n ==> entries[..n][i] == entries[i];
    }
  }

  // ------------------------------------------------------------------ the encoder

  lemma {:induction false} PrintBytes(bytes: seq<Byte>)
    ensures Stream(seq(|bytes|, i requires 0 <= i < |bytes| => Print(bytes[i]))) == bytes
    decreases |bytes|
  {
    if bytes != [] {
      var n := |bytes| - 1;
      var front := bytes[..n];
      var cs := seq(|bytes|, i requires 0 <= i < |bytes| => Print(bytes[i]));
      assert cs[..n] == seq(|front|, i requires 0 <= i < |front| => Print(front[i]));
      PrintBytes(front);
    }
  }

  /** The closure `text_line` without its line end: pages with form feeds between them. */
  method EncodePages(table: seq<char>, pages: seq<string>) returns (r: Option<seq<Byte>>)
    requires |table| == 128 && |pages| >= 1
    ensures r.Some? <==> PageCommands(table, pages).Some?
    ensures r.Some? ==> r.value == Stream(PageCommands(table, pages).value)
  {
    hide BytesOf, Flat, Stream;
    var out: seq<Byte> := [];
    var i := 0;
    assert pages[0..] == pages;
    while true
      invariant 0 <= i < |pages|
      invariant PageCommands(table, pages).Some? <==> PageCommands(table, pages[i..]).Some?
      invariant PageCommands(table, pages).Some? ==>
        Stream(PageCommands(table, pages).value) == out + Stream(PageCommands(table, pages[i..]).value)
      decreases |pages| - i
    {
      var part := Receipt.EncodeText(table, Flat(pages[i]));
      if part.None? { return None; }
      PrintBytes(part.value);
      if i + 1 == |pages| { return Some(out + part.value); }
      assert pages[i..][1..] == pages[i + 1..];
      PageBytes(table, pages[i..], part.value);
      out := out + part.value + [FF];
      i := i + 1;
    }
  }

  lemma PageBytes(table: seq<char>, pages: seq<string>, first: seq<Byte>)
    requires |table| == 128 && |pages| > 1 && Receipt.EncodeText(table, Flat(pages[0])) == Some(first)
    ensures PageCommands(table, pages).Some? <==> PageCommands(table, pages[1..]).Some?
    ensures PageCommands(table, pages).Some? ==>
      Stream(PageCommands(table, pages).value) == first + [FF] + Stream(PageCommands(table, pages[1..]).value)
  {
    hide BytesOf, Flat, Stream;
    PrintBytes(first);
    if PageCommands(table, pages[1..]).Some? {
      var letters := Letters(table, Flat(pages[0])).value;
      StreamJoin(letters, [Control(FF)]);
      StreamJoin(letters + [Control(FF)], PageCommands(table, pages[1..]).value);
      StreamOne(Control(FF));
      FormFeedByte();
    }
  }

  lemma LineEndBytes()
    ensures Stream(LineEnd()) == [CR, LF]
  {
    assert LineEnd()[..1] == [Control(CR)];
    StreamOne(Control(CR));
  }

  lemma {:induction false} NoText(table: seq<char>, lines: seq<string>, i: nat)
    requires |table| == 128 && i < |lines| && PageCommands(table, Pages(lines[i])).None?
    ensures TextCommands(table, lines).None?
    decreases |lines|
  {
    if i < |lines| - 1 { NoText(table, lines[..|lines| - 1], i); }
  }

  /** The loop over the lines of a plain entry. */
  method EncodeText(table: seq<char>, lines: seq<string>) returns (r: Option<seq<Byte>>)
    requires |table| == 128
    ensures r.Some? <==> TextCommands(table, lines).Some?
    ensures r.Some? ==> r.value == Stream(TextCommands(table, lines).value)
  {
    hide BytesOf, PageCommands, Pages, LineEnd;
    var out: seq<Byte> := [];
    for i := 0 to |lines|
      invariant TextCommands(table, lines[..i]).Some? && out == Stream(TextCommands(table, lines[..i]).value)
    {
      assert lines[..i + 1][..i] == lines[..i];
      var bytes := EncodePages(table, Pages(lines[i]));
      if bytes.None? {
        NoText(table, lines, i);
        return None;
      }
      ghost var front, last := TextCommands(table, lines[..i]).value, PageCommands(table, Pages(lines[i])).value;
      StreamJoin(front, last);
      StreamJoin(front + last, LineEnd());
      LineEndBytes();
      out := out + bytes.value + [CR, LF];
    }
    assert lines[..|lines|] == lines;
    return Some(out);
  }

  method EncodeFeeds(n: nat) returns (out: seq<Byte>)
    ensures out == Stream(Feeds(n))
  {
    hide BytesOf, LineEnd;
    out := [];
    for i := 0 to n
      invariant out == Stream(Feeds(i))
    {
      StreamJoin(Feeds(i), LineEnd());
      LineEndBytes();
      out := out + [CR, LF];
    }
  }

  /** One turn of the loop in `encode`. */
  method EncodeEntry(table: seq<char>, cpi: nat, e: Entry) returns (r: Option<seq<Byte>>)
    requires |table| == 128
    ensures r.Some? <==> EntryCommands(table, cpi, e).Some?
    ensures r.Some? ==> r.value == Stream(EntryCommands(table, cpi, e).value)
  {
    hide BytesOf, Stream, TextCommands, On, Off, LineEnd, Flat, Feeds;
    match e {
      case Text(text) => r := EncodeText(table, Receipt.LinesOf(text));
      case Styled(text, style) =>
        var letters := Receipt.EncodeText(table, Flat(text));
        if letters.None? { return None; }
        PrintBytes(letters.value);
        ghost var a := On(style, cpi) + Letters(table, Flat(text)).value;
        StreamJoin(On(style, cpi), Letters(table, Flat(text)).value);
        StreamJoin(a, Off(style, cpi));
        StreamJoin(a + Off(style, cpi), LineEnd());
        LineEndBytes();
        return Some(Stream(On(style, cpi)) + letters.value + Stream(Off(style, cpi)) + [CR, LF]);
      case LineFeed(n) =>
        var out := EncodeFeeds(n);
        return Some(out);
      case FormFeed =>
        StreamOne(Control(FF));
        FormFeedByte();
        return Some([FF]);
    }
  }

  lemma FormFeedByte()
    ensures BytesOf(Control(FF)) == [FF]
  {
  }

  lemma {:induction false} NoEntry(table: seq<char>, cpi: nat, entries: seq<Entry>, i: nat)
    requires |table| == 128 && i < |entries| && EntryCommands(table, cpi, entries[i]).None?
    ensures EntriesCommands(table, cpi, entries).None?
    decreases |entries|
  {
    hide EntryCommands;
    if i < |entries| - 1 { NoEntry(table, cpi, entries[..|entries| - 1], i); }
  }

  /** Where any printer is after the bytes of an initialised document: at the document's baseline, with
      the form asked for, and with exactly the document's events added. */
  ghost predicate PrintsDocument(table: seq<char>, d: Document, p: Printer, p': Printer)
    requires |table| == 128 && d.settings.lpi > 0.0 && Body(table, d).Some?
  {
    && AtBaseline(p', d.settings.cpi) && p'.form == FormOf(d.settings)
    && p'.out == p.out + EntriesMeaning(d.settings.cpi, d.entries) + LastPage(table, d)
  }

  /** `encode`: fails iff some text is outside the code page; otherwise its bytes are the document's
      commands, and print an initialised document on a printer in any state. */
  method Encode(table: seq<char>, d: Document) returns (r: Option<seq<Byte>>)
    requires |table| == 128 && ValidDocument(d)
    ensures r.Some? <==> forall i :: 0 <= i < |d.entries| ==> EntryRepresentable(table, d.entries[i])
    ensures r.Some? ==> DocumentCommands(table, d).Some? && r.value == Stream(DocumentCommands(table, d).value)
    ensures r.Some? && d.initialize ==>
      && Commands(r.value).Some?
      && forall p: Printer :: PrintsDocument(table, d, p, Run(table, p, Commands(r.value).value))
  {
    hide BytesOf, Stream, EntryCommands, Head, ValidSettings, CleanEntry, Commands, Run, EntriesMeaning, EntryRepresentable;
    Positive(d.settings);
    EncodingFailsIff(table, d.settings.cpi, d.entries);
    var start := if d.initialize then [Plain(64)] else [];
    var out := Stream(start + Head(d.settings));
    ghost var head := start + Head(d.settings);
    assert head + [] == head;
    for i := 0 to |d.entries|
      invariant EntriesCommands(table, d.settings.cpi, d.entries[..i]).Some?
      invariant out == Stream(head + EntriesCommands(table, d.settings.cpi, d.entries[..i]).value)
    {
      assert d.entries[..i + 1][..i] == d.entries[..i];
      var bytes := EncodeEntry(table, d.settings.cpi, d.entries[i]);
      if bytes.None? {
        NoEntry(table, d.settings.cpi, d.entries, i);
        return None;
      }
      ghost var front := EntriesCommands(table, d.settings.cpi, d.entries[..i]).value;
      ghost var last := EntryCommands(table, d.settings.cpi, d.entries[i]).value;
      StreamJoin(head + front, last);
      assert head + front + last == head + (front + last);
      out := out + bytes.value;
    }
    assert d.entries[..|d.entries|] == d.entries;
    if d.formFeed && !EndsInFF(out) {
      StreamJoin(Body(table, d).value, [Control(FF)]);
      StreamOne(Control(FF));
      FormFeedByte();
      out := out + [FF];
    } else {
      assert Body(table, d).value + [] == Body(table, d).value;
    }
    if d.initialize {
      DocumentPrintsItself(table, d, PowerOn([]));
      forall p: Printer ensures PrintsDocument(table, d, p, Run(table, p, Commands(out).value)) {
        DocumentPrintsItself(table, d, p);
      }
    }
    return Some(out);
  }
}
