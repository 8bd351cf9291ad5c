/** What the text of a dot-matrix document looks like on paper, character by character. */
module DotMatrixText {
  import opened Wrappers
  import opened EscP
  import opened DotMatrix
  import opened DotMatrixCode
  import Receipt

  const PAGE_BREAK: char := 0x0C as char

  // ------------------------------------------------------------------ form feeds in text

  /** The parts of a line with form feeds between them. */
  function Glued(pages: seq<string>): string
    requires |pages| >= 1
  {
    if |pages| == 1 then pages[0] else pages[0] + [PAGE_BREAK] + Glued(pages[1..])
  }

  /** Splitting at form feeds loses nothing and leaves no form feed inside a part. */
  lemma {:induction false} PagesJoin(s: string)
    ensures Glued(Pages(s)) == s
    ensures forall i :: 0 <= i < |Pages(s)| ==> PAGE_BREAK !in Pages(s)[i]
    ensures '\n' !in s ==> forall i :: 0 <= i < |Pages(s)| ==> '\n' !in Pages(s)[i]
  {
    if s != [] {
      PagesJoin(s[1..]);
      var rest := Pages(s[1..]);
      if s[0] == PAGE_BREAK {
        assert Pages(s)[1..] == rest;
      } else if |rest| > 1 {
        assert Pages(s)[1..] == rest[1..];
      }
    }
  }

  // ------------------------------------------------------------------ reading the paper

  function Glyphs(cells: seq<Cell>): (r: string)
    ensures |r| == |cells|
  {
    seq(|cells|, i requires 0 <= i < |cells| => cells[i].glyph)
  }

  /** The printed characters in order, with the line feed or form feed that ends each line. */
  function ReadOff(events: seq<Event>): string {
    if events == [] then []
    else ReadOff(events[..|events| - 1]) + Glyphs(events[|events| - 1].cells) +
         [if events[|events| - 1].Line? then '\n' else PAGE_BREAK]
  }

  lemma {:induction false} ReadOffJoin(a: seq<Event>, b: seq<Event>)
    ensures ReadOff(a + b) == ReadOff(a) + ReadOff(b)
    decreases |b|
  {
    if b == [] {
      assert a + b == a;
    } else {
      assert (a + b)[..|a + b| - 1] == a + b[..|b| - 1];
      ReadOffJoin(a, b[..|b| - 1]);
    }
  }

  lemma ReadOffOne(e: Event)
    ensures ReadOff([e]) == Glyphs(e.cells) + [if e.Line? then '\n' else PAGE_BREAK]
  {
    assert [e][..0] == [];
    assert ReadOff([]) == [];
  }

  /** A carriage return that is no line break prints as a space. */
  function Spaced(s: string): (r: string)
    ensures |r| == |s|
  {
    seq(|s|, i requires 0 <= i < |s| => if s[i] == '\r' then ' ' else s[i])
  }

  lemma SpacedJoin(a: string, b: string)
    ensures Spaced(a + b) == Spaced(a) + Spaced(b)
  {
  }

  lemma CellsShow(page: string, look: Look)
    requires '\n' !in page && PAGE_BREAK !in page
    ensures Glyphs(Cells(Flat(page), look)) == Spaced(page)
  {
  }

  lemma {:induction false} PagesShow(pages: seq<string>, look: Look)
    requires |pages| >= 1 && forall i :: 0 <= i < |pages| ==> '\n' !in pages[i] && PAGE_BREAK !in pages[i]
    ensures ReadOff(PagesMeaning(pages, look)) == Spaced(Glued(pages)) + ['\n']
    decreases |pages|
  {
    hide Glyphs, Cells, Flat, Spaced;
    CellsShow(pages[0], look);
    if |pages| == 1 {
      ReadOffOne(Line(Cells(Flat(pages[0]), look)));
    } else {
      var first := Eject(Cells(Flat(pages[0]), look));
      PagesShow(pages[1..], look);
      ReadOffOne(first);
      ReadOffJoin([first], PagesMeaning(pages[1..], look));
      SpacedJoin(pages[0] + [PAGE_BREAK], Glued(pages[1..]));
      SpacedJoin(pages[0], [PAGE_BREAK]);
      SpacedBreak();
    }
  }

  lemma SpacedBreak()
    ensures Spaced([PAGE_BREAK]) == [PAGE_BREAK] && Spaced(['\n']) == ['\n']
  {
  }

  lemma {:induction false} JoinedLast(lines: seq<string>)
    requires |lines| >= 2
    ensures Receipt.Joined(lines) == Receipt.Joined(lines[..|lines| - 1]) + ['\n'] + lines[|lines| - 1]
    decreases |lines|
  {
    var n := |lines| - 1;
    if n > 1 {
      JoinedLast(lines[1..]);
      assert lines[1..][..n - 1] == lines[..n][1..];
    } else {
      assert lines[1..] == [lines[1]] && lines[..1] == [lines[0]];
    }
  }

  lemma {:induction false} TextShows(lines: seq<string>, look: Look)
    requires |lines| >= 1 && forall i :: 0 <= i < |lines| ==> '\n' !in lines[i]
    ensures ReadOff(TextMeaning(lines, look)) == Spaced(Receipt.Joined(lines)) + ['\n']
    decreases |lines|
  {
    hide PagesMeaning, Spaced;
    var n := |lines| - 1;
    PagesJoin(lines[n]);
    PagesShow(Pages(lines[n]), look);
    ReadOffJoin(TextMeaning(lines[..n], look), PagesMeaning(Pages(lines[n]), look));
    if n == 0 {
      assert TextMeaning([], look) == [] && ReadOff([]) == [];
      assert lines[..0] == [];
    } else {
      TextShows(lines[..n], look);
      JoinedLast(lines);
      var front := Receipt.Joined(lines[..n]);
      SpacedJoin(front + ['\n'], lines[n]);
      SpacedJoin(front, ['\n']);
      SpacedBreak();
    }
  }

  /** Every printed character has this look. */
  predicate AllIn(events: seq<Event>, look: Look) {
    forall i :: 0 <= i < |events| ==> forall k :: 0 <= k < |events[i].cells| ==> events[i].cells[k].look == look
  }

  lemma {:induction false} PagesLook(pages: seq<string>, look: Look)
    requires |pages| >= 1
    ensures AllIn(PagesMeaning(pages, look), look)
    decreases |pages|
  {
    if |pages| > 1 { PagesLook(pages[1..], look); }
  }

  lemma {:induction false} TextLook(lines: seq<string>, look: Look)
    ensures AllIn(TextMeaning(lines, look), look)
    decreases |lines|
  {
    if lines != [] {
      TextLook(lines[..|lines| - 1], look);
      PagesLook(Pages(lines[|lines| - 1]), look);
    }
  }

  /**
   A text entry on paper. Read off with its line feeds and form feeds, it is the entry's text and a
   final line feed: exactly the carriage returns of CR LF pairs are gone, any other prints as a
   space, every other character is there in order, in the document's pitch and without styles.
   */
  lemma TextEntryShowsItsText(table: seq<char>, p: Printer, cpi: nat, text: string) returns (kept: string, at: seq<nat>)
    requires |table| == 128 && AtBaseline(p, cpi) && EntryCommands(table, cpi, Text(text)).Some?
    ensures
      var p' := Run(table, p, EntryCommands(table, cpi, Text(text)).value);
      && |p'.out| >= |p.out| && p'.out[..|p.out|] == p.out && AllIn(p'.out[|p.out|..], Baseline(cpi))
      && ReadOff(p'.out[|p.out|..]) == Spaced(kept) + ['\n'] && Receipt.KeepsExactly(text, kept, at)
  {
    hide Run, EntryCommands, ReadOff, Spaced, TextMeaning, Receipt.KeepsExactly, Receipt.LinesOf, Receipt.Joined, AllIn;
    EntryRun(table, p, cpi, Text(text));
    var p' := Run(table, p, EntryCommands(table, cpi, Text(text)).value);
    var lines := Receipt.LinesOf(text);
    assert p'.out[|p.out|..] == TextMeaning(lines, Baseline(cpi));
    kept := Receipt.Joined(lines);
    at := Receipt.LinesKeepText(text);
    TextShows(lines, Baseline(cpi));
    TextLook(lines, Baseline(cpi));
  }

  /** A line feed entry gives as many blank lines as it asks for. */
  lemma {:induction false} FeedsAreBlankLines(n: nat)
    ensures |BlankLines(n)| == n && forall i :: 0 <= i < n ==> BlankLines(n)[i] == Line([])
  {
    if n > 0 { FeedsAreBlankLines(n - 1); }
  }
}
