/** What a text item looks like on paper, character by character. */
module ReceiptText {
  import opened Wrappers
  import opened EscPos
  import opened Receipt
  import opened ReceiptPrinter
  import opened ReceiptCode

  /** The characters of a printed line. */
  function Shown(e: Event): (r: string)
    requires e.Line?
    ensures |r| == |e.cells| && forall k :: 0 <= k < |r| ==> r[k] == e.cells[k].glyph
  {
    seq(|e.cells|, k requires 0 <= k < |e.cells| => e.cells[k].glyph)
  }

  /** Printed lines, all in one style and position. */
  predicate LinesIn(events: seq<Event>, style: Style) {
    forall i :: 0 <= i < |events| ==>
      && events[i].Line? && events[i].align == style.align
      && forall k :: 0 <= k < |events[i].cells| ==> events[i].cells[k].style == style
  }

  function AllShown(events: seq<Event>): (r: seq<string>)
    requires forall i :: 0 <= i < |events| ==> events[i].Line?
    ensures |r| == |events|
  {
    seq(|events|, i requires 0 <= i < |events| => Shown(events[i]))
  }

  lemma {:induction false} MeaningShows(lines: seq<string>, style: Style)
    ensures |LinesMeaning(lines, style)| == |lines| && LinesIn(LinesMeaning(lines, style), style)
    ensures AllShown(LinesMeaning(lines, style)) == lines
    decreases |lines|
  {
    if lines != [] {
      var n := |lines| - 1;
      MeaningShows(lines[..n], style);
      var events := LinesMeaning(lines, style);
      assert Shown(events[n]) == lines[n];
      forall i | 0 <= i < n ensures AllShown(events)[i] == lines[i] {
        assert events[i] == LinesMeaning(lines[..n], style)[i];
        assert AllShown(LinesMeaning(lines[..n], style))[i] == lines[..n][i];
      }
    }
  }

  /**
   A text item on paper: the printed lines, read off character by character and joined by line
   breaks, are the item's text without exactly the carriage returns of its CR LF pairs, and every
   character is in the item's own style and position.
   */
  lemma TextItemShowsItsText(tables: Tables, p: Printer, width: nat, text: string, style: Style) returns (at: seq<nat>)
    requires ValidTables(tables) && AtRest(p, p.page) && ItemTokens(tables(p.page), width, Text(text, style)).Some?
    ensures
      var p' := Run(tables, p, ItemTokens(tables(p.page), width, Text(text, style)).value);
      && |p'.out| > |p.out| && p'.out[..|p.out|] == p.out && LinesIn(p'.out[|p.out|..], style)
      && KeepsExactly(text, Joined(AllShown(p'.out[|p.out|..])), at)
  {
    hide Run, ItemTokens, KeepsExactly, LinesOf, LinesMeaning, LinesIn, AllShown;
    ItemRun(tables, p, width, Text(text, style));
    MeaningShows(LinesOf(text), style);
    var p' := Run(tables, p, ItemTokens(tables(p.page), width, Text(text, style)).value);
    assert p'.out[|p.out|..] == LinesMeaning(LinesOf(text), style);
    at := LinesKeepText(text);
  }

  /**
   A separator on paper: one plain line of `width` copies of its character if the code page has it,
   else of a hyphen.
   */
  lemma SeparatorShowsARule(tables: Tables, p: Printer, width: nat, c: char)
    requires ValidTables(tables) && AtRest(p, p.page) && ItemTokens(tables(p.page), width, Separator(c)).Some?
    ensures
      var p' := Run(tables, p, ItemTokens(tables(p.page), width, Separator(c)).value);
      && |p'.out| == |p.out| + 1 && p'.out[..|p.out|] == p.out && LinesIn(p'.out[|p.out|..], PLAIN)
      && AllShown(p'.out[|p.out|..]) == [Repeat(if c as int < 128 || c in tables(p.page) then c else '-', width)]
  {
    hide Run, ItemTokens, EncodeText;
    ItemRun(tables, p, width, Separator(c));
    EncodesIff(tables(p.page), Repeat(c, width));
    var rule := SeparatorLine(tables(p.page), c, width);
    if width > 0 {
      assert Repeat(c, width)[0] == c;
    } else {
      assert rule == Repeat('-', width);
    }
    var p' := Run(tables, p, ItemTokens(tables(p.page), width, Separator(c)).value);
    assert p'.out[|p.out|..] == [Line(Left, CellsOf(rule, PLAIN))];
    assert Shown(Line(Left, CellsOf(rule, PLAIN))) == rule;
  }

  // ------------------------------------------------------------------ cuts

  function Cuts(events: seq<Event>): nat {
    if events == [] then 0 else Cuts(events[..|events| - 1]) + if events[|events| - 1].Cutting? then 1 else 0
  }

  function CutItems(items: seq<Item>): nat {
    if items == [] then 0 else CutItems(items[..|items| - 1]) + if items[|items| - 1].CutItem? then 1 else 0
  }

  lemma {:induction false} CutsJoin(a: seq<Event>, b: seq<Event>)
    ensures Cuts(a + b) == Cuts(a) + Cuts(b)
    decreases |b|
  {
    if b == [] {
      assert a + b == a;
    } else {
      assert (a + b)[..|a + b| - 1] == a + b[..|b| - 1];
      CutsJoin(a, b[..|b| - 1]);
    }
  }

  lemma {:induction false} NoCuts(events: seq<Event>)
    requires forall i :: 0 <= i < |events| ==> !events[i].Cutting?
    ensures Cuts(events) == 0
    decreases |events|
  {
    if events != [] { NoCuts(events[..|events| - 1]); }
  }

  lemma ItemCuts(table: seq<char>, width: nat, item: Item)
    requires |table| == 128 && ValidItem(item)
    ensures Cuts(Meaning(table, width, item)) == if item.CutItem? then 1 else 0
  {
    hide LinesMeaning, BandsMeaning, SeparatorLine, ColumnsLine, ValidBars;
    var events := Meaning(table, width, item);
    match item
    case Text(text, style) =>
      MeaningShows(LinesOf(text), style);
      NoCuts(events);
    case Image(b, align) =>
      BandsAreWhole(b, 0, align);
      NoCuts(events);
    case CutItem(partial, n) =>
      assert events[..0] == [];
    case _ =>
      NoCuts(events);
  }

  lemma {:induction false} ItemsCuts(table: seq<char>, width: nat, items: seq<Item>)
    requires |table| == 128 && forall i :: 0 <= i < |items| ==> ValidItem(items[i])
    ensures Cuts(ItemsMeaning(table, width, items)) == CutItems(items)
    decreases |items|
  {
    hide Meaning, ValidItem;
    if items != [] {
      var n := |items| - 1;
      ItemsCuts(table, width, items[..n]);
      CutsJoin(ItemsMeaning(table, width, items[..n]), Meaning(table, width, items[n]));
      ItemCuts(table, width, items[n]);
    }
  }

  /** Only the drawer opens after the cut at `k`. */
  predicate LastCut(events: seq<Event>, k: nat) {
    k < |events| && events[k].Cutting? && forall i :: k < i < |events| ==> events[i] == Kicked(0)
  }

  /**
   The cuts of a printed receipt: one for each cut item, and one more exactly if the receipt asks for
   it and does not end with a cut item, so that an explicit cut is never doubled. A receipt that asks
   for a cut has one after everything it prints.
   */
  lemma CutsAreNotDoubled(tables: Tables, d: Document)
    requires ValidTables(tables) && ValidDocument(d) && DocumentTokens(tables, d).Some?
    ensures
      var tokens := Parse(AllBytes(DocumentTokens(tables, d).value));
      && tokens.Some?
      && var out := Run(tables, PowerOn([]), tokens.value).out;
      && Cuts(out) == CutItems(d.items) + (if d.cut && (d.items == [] || !d.items[|d.items| - 1].CutItem?) then 1 else 0)
      && (d.cut ==> exists k :: LastCut(out, k))
  {
    hide DocumentTokens, ItemsMeaning, Run, AllBytes, Parse, ValidItem, CleanItem;
    ReceiptPrintsItself(tables, d);
    var items := ItemsMeaning(tables(d.page), d.width, d.items);
    var drawer, cut := if d.openDrawer then [Kicked(0)] else [], if d.cut && !EndsWithCut(d.items) then [Cutting(false, 3)] else [];
    var out := DocumentMeaning(tables, d);
    assert [] + out == out && out == items + drawer + cut;
    ItemsCuts(tables(d.page), d.width, d.items);
    CutsJoin(items + drawer, cut);
    CutsJoin(items, drawer);
    NoCuts(drawer);
    assert cut != [] ==> cut[..0] == [];
    if d.cut {
      if EndsWithCut(d.items) {
        EndsInCut(tables(d.page), d.width, d.items);
        assert LastCut(out, |items| - 1);
      } else {
        assert LastCut(out, |out| - 1);
      }
    }
  }

  lemma EndsInCut(table: seq<char>, width: nat, items: seq<Item>)
    requires |table| == 128 && (forall i :: 0 <= i < |items| ==> ValidItem(items[i])) && EndsWithCut(items)
    ensures
      var events := ItemsMeaning(table, width, items);
      |events| >= 1 && events[|events| - 1].Cutting?
  {
    hide ValidItem;
  }
}
