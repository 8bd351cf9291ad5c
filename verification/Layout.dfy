/** Text wrapping and pagination for any measuring function (providers/windows/src/layout.rs). */
module Layout {
  /** Whitespace as `trim_end` sees it; only the space is assumed to be one. */
  type Whites = w: char -> bool | w(' ') witness c => c == ' '

  function TrimEnd(white: Whites, s: string): (r: string)
    ensures |r| <= |s| && r == s[..|r|]
    ensures r != [] ==> !white(r[|r| - 1])
    ensures forall i :: |r| <= i < |s| ==> white(s[i])
  {
    if s != [] && white(s[|s| - 1]) then TrimEnd(white, s[..|s| - 1]) else s
  }

  /** The characters that may not get lost. */
  function Ink(white: Whites, s: string): string {
    if s == [] then []
    else Ink(white, s[..|s| - 1]) + if white(s[|s| - 1]) then [] else [s[|s| - 1]]
  }

  function Concat(lines: seq<string>): string {
    if lines == [] then [] else Concat(lines[..|lines| - 1]) + lines[|lines| - 1]
  }

  /** A line may be printed: it fits as it is or without its trailing blanks, or is one character. */
  predicate Good(white: Whites, fits: string -> bool, s: string) {
    |s| <= 1 || fits(s) || fits(TrimEnd(white, s))
  }

  /** The same without the first way; every line that wrapping produces is like this. */
  predicate Tight(white: Whites, fits: string -> bool, s: string) {
    |s| <= 1 || fits(TrimEnd(white, s))
  }

  predicate AllTight(white: Whites, fits: string -> bool, lines: seq<string>) {
    forall i :: 0 <= i < |lines| ==> Tight(white, fits, lines[i])
  }

  predicate AllGood(white: Whites, fits: string -> bool, lines: seq<string>) {
    forall i :: 0 <= i < |lines| ==> Good(white, fits, lines[i])
  }

  lemma {:induction false} InkJoin(white: Whites, a: string, b: string)
    ensures Ink(white, a + b) == Ink(white, a) + Ink(white, b)
    decreases |b|
  {
    if b == [] {
      assert a + b == a;
    } else {
      assert (a + b)[..|a + b| - 1] == a + b[..|b| - 1];
      InkJoin(white, a, b[..|b| - 1]);
    }
  }

  lemma {:induction false} InkTrimmed(white: Whites, s: string)
    ensures Ink(white, TrimEnd(white, s)) == Ink(white, s)
  {
    if s != [] && white(s[|s| - 1]) { InkTrimmed(white, s[..|s| - 1]); }
  }

  lemma ConcatPush(lines: seq<string>, line: string)
    ensures Concat(lines + [line]) == Concat(lines) + line
  {
    assert (lines + [line])[..|lines|] == lines;
  }

  lemma {:induction false} ConcatJoin(a: seq<string>, b: seq<string>)
    ensures Concat(a + b) == Concat(a) + Concat(b)
    decreases |b|
  {
    if b == [] {
      assert a + b == a;
    } else {
      assert (a + b)[..|a + b| - 1] == a + b[..|b| - 1];
      ConcatJoin(a, b[..|b| - 1]);
    }
  }

  // ------------------------------------------------------------------ words and cuts

  /** `line[p..e]` is a word of `split_inclusive(' ')`: it keeps the space that ends it. */
  predicate IsWordAt(line: string, p: nat, e: nat) {
    && p < e <= |line| && (p == 0 || line[p - 1] == ' ') && (e == |line| || line[e - 1] == ' ')
    && forall i :: p <= i < e - 1 ==> line[i] != ' '
  }

  /** The end of the word that starts at `p`. */
  function WordEnd(line: string, p: nat): (e: nat)
    requires p < |line|
    ensures p < e <= |line| && (e == |line| || line[e - 1] == ' ') && forall i :: p <= i < e - 1 ==> line[i] != ' '
    decreases |line| - p
  {
    if line[p] == ' ' || p + 1 == |line| then p + 1 else WordEnd(line, p + 1)
  }

  /** A stretch `line[a..c]` put on a line of its own, and the word `line[p..e]` that made it end. */
  datatype Cut = Cut(a: nat, c: nat, p: nat, e: nat)

  /** The line could not be longer: before the word, the whole word did not fit any more; inside the
      word, the next character did not fit, and the word is too wide for any line. */
  predicate Justified(white: Whites, fits: string -> bool, line: string, s: Cut) {
    && s.a < s.c < |line| && IsWordAt(line, s.p, s.e)
    && (if s.c == s.p then !fits(TrimEnd(white, line[s.a..s.e]))
        else s.p < s.c < s.e && !fits(TrimEnd(white, line[s.a..s.c + 1])) && !fits(TrimEnd(white, line[s.p..s.e])))
  }

  predicate AllJustified(white: Whites, fits: string -> bool, line: string, cuts: seq<Cut>) {
    forall i :: 0 <= i < |cuts| ==> Justified(white, fits, line, cuts[i])
  }

  /** The stretches follow one another from `from` to `to`. */
  predicate Chain(cuts: seq<Cut>, from: nat, to: nat) {
    if cuts == [] then from == to
    else
      && cuts[0].a == from && cuts[|cuts| - 1].c == to
      && forall i :: 0 <= i < |cuts| - 1 ==> cuts[i].c == cuts[i + 1].a
  }

  /** Each line shows its stretch, with or without the trailing blanks. */
  predicate Shows(white: Whites, line: string, cuts: seq<Cut>, out: seq<string>) {
    && |out| == |cuts|
    && forall i :: 0 <= i < |cuts| ==>
         && cuts[i].a <= cuts[i].c <= |line|
         && (out[i] == line[cuts[i].a..cuts[i].c] || out[i] == TrimEnd(white, line[cuts[i].a..cuts[i].c]))
  }

  ghost predicate CutUp(white: Whites, fits: string -> bool, line: string, cuts: seq<Cut>, out: seq<string>, from: nat, to: nat) {
    AllJustified(white, fits, line, cuts) && Chain(cuts, from, to) && Shows(white, line, cuts, out)
  }

  lemma CutMore(white: Whites, fits: string -> bool, line: string, cuts: seq<Cut>, out: seq<string>, from: nat, s: Cut, shown: string)
    requires CutUp(white, fits, line, cuts, out, from, s.a) && Justified(white, fits, line, s)
    requires shown == line[s.a..s.c] || shown == TrimEnd(white, line[s.a..s.c])
    ensures CutUp(white, fits, line, cuts + [s], out + [shown], from, s.c)
  {
    hide TrimEnd;
    assert Chain(cuts + [s], from, s.c) by {
      if cuts != [] { assert (cuts + [s])[|cuts| - 1].c == s.a; }
    }
  }

  lemma CutJoin(white: Whites, fits: string -> bool, line: string, cuts: seq<Cut>, out: seq<string>, from: nat, mid: nat,
                cuts2: seq<Cut>, out2: seq<string>, to: nat)
    requires CutUp(white, fits, line, cuts, out, from, mid) && CutUp(white, fits, line, cuts2, out2, mid, to)
    ensures CutUp(white, fits, line, cuts + cuts2, out + out2, from, to)
  {
    hide Justified, TrimEnd;
    ChainJoin(cuts, cuts2, from, mid, to);
  }

  lemma ChainJoin(a: seq<Cut>, b: seq<Cut>, from: nat, mid: nat, to: nat)
    requires Chain(a, from, mid) && Chain(b, mid, to)
    ensures Chain(a + b, from, to)
  {
    var ab := a + b;
    if a == [] {
      assert ab == b;
    } else if b == [] {
      assert ab == a;
    } else {
      forall i | 0 <= i < |ab| - 1 ensures ab[i].c == ab[i + 1].a {
        if i < |a| - 1 {
          assert ab[i] == a[i] && ab[i + 1] == a[i + 1];
        } else if i == |a| - 1 {
          assert ab[i] == a[|a| - 1] && ab[i + 1] == b[0];
        } else {
          assert ab[i] == b[i - |a|] && ab[i + 1] == b[i - |a| + 1];
        }
      }
    }
  }

  // ------------------------------------------------------------------ wrapping

  /** Half way through a word: `current` is `line[start..q]`, the pieces before it are cut up. */
  ghost predicate Breaking(white: Whites, fits: string -> bool, line: string, cuts: seq<Cut>, pieces: seq<string>,
                           current: string, p: nat, start: nat, q: nat) {
    && p <= start <= q <= |line| && (p < q ==> start < q) && current == line[start..q]
    && Concat(pieces) + current == line[p..q]
    && AllTight(white, fits, pieces) && Tight(white, fits, current)
    && CutUp(white, fits, line, cuts, pieces, p, start)
  }

  lemma BreakOn(white: Whites, fits: string -> bool, line: string, cuts: seq<Cut>, pieces: seq<string>, current: string,
                p: nat, start: nat, q: nat)
    requires Breaking(white, fits, line, cuts, pieces, current, p, start, q) && q < |line|
    requires Tight(white, fits, current + [line[q]])
    ensures Breaking(white, fits, line, cuts, pieces, current + [line[q]], p, start, q + 1)
  {
    hide CutUp, Concat, AllTight, Tight;
    assert line[p..q + 1] == line[p..q] + [line[q]];
    assert Concat(pieces) + (current + [line[q]]) == Concat(pieces) + current + [line[q]];
  }

  lemma BreakHere(white: Whites, fits: string -> bool, line: string, cuts: seq<Cut>, pieces: seq<string>, current: string,
                  p: nat, start: nat, q: nat, e: nat)
    requires Breaking(white, fits, line, cuts, pieces, current, p, start, q) && p < q < e && IsWordAt(line, p, e)
    requires !fits(TrimEnd(white, line[p..e])) && !fits(TrimEnd(white, current + [line[q]]))
    ensures Breaking(white, fits, line, cuts + [Cut(start, q, p, e)], pieces + [current], [line[q]], p, q, q + 1)
  {
    hide CutUp, Concat, TrimEnd;
    assert current + [line[q]] == line[start..q + 1];
    CutMore(white, fits, line, cuts, pieces, p, Cut(start, q, p, e), current);
    ConcatPush(pieces, current);
    assert line[p..q + 1] == line[p..q] + [line[q]];
  }

  /** `break_word`: loses nothing, every piece may be printed, and none could be longer. */
  method BreakWord(white: Whites, fits: string -> bool, word: string, ghost line: string, ghost p: nat, ghost e: nat)
    returns (pieces: seq<string>, ghost cuts: seq<Cut>, ghost start: nat)
    requires IsWordAt(line, p, e) && word == line[p..e] && !fits(TrimEnd(white, word))
    ensures |pieces| >= 1 && Concat(pieces) == word && AllTight(white, fits, pieces)
    ensures p <= start < e && pieces[|pieces| - 1] == line[start..e]
    ensures CutUp(white, fits, line, cuts, pieces[..|pieces| - 1], p, start)
  {
    hide TrimEnd, CutUp, Concat, Breaking, AllTight, IsWordAt;
    pieces, cuts, start := [], [], p;
    var current: string := [];
    BreakStarts(white, fits, line, p, e);
    for i := 0 to |word|
      invariant Breaking(white, fits, line, cuts, pieces, current, p, start, p + i)
    {
      ghost var before := current;
      BreakFacts(white, fits, line, cuts, pieces, current, p, start, p + i);
      assert word[i] == line[p + i];
      current := current + [word[i]];
      if !fits(TrimEnd(white, current)) && |current| > 1 {
        current := current[..|current| - 1];
        assert current == before;
        BreakHere(white, fits, line, cuts, pieces, current, p, start, p + i, e);
        cuts := cuts + [Cut(start, p + i, p, e)];
        start := p + i;
        pieces := pieces + [current];
        current := [word[i]];
      } else {
        BreakOn(white, fits, line, cuts, pieces, before, p, start, p + i);
      }
    }
    BreakEnds(white, fits, line, cuts, pieces, current, p, start, e);
    pieces := pieces + [current];
  }

  lemma BreakStarts(white: Whites, fits: string -> bool, line: string, p: nat, e: nat)
    requires IsWordAt(line, p, e)
    ensures Breaking(white, fits, line, [], [], [], p, p, p) && p < e <= |line|
  {
    NoCuts(white, fits, line, p);
  }

  lemma BreakFacts(white: Whites, fits: string -> bool, line: string, cuts: seq<Cut>, pieces: seq<string>, current: string,
                   p: nat, start: nat, q: nat)
    requires Breaking(white, fits, line, cuts, pieces, current, p, start, q)
    ensures p <= start <= q <= |line| && |current| == q - start
  {
  }

  lemma BreakEnds(white: Whites, fits: string -> bool, line: string, cuts: seq<Cut>, pieces: seq<string>, current: string,
                  p: nat, start: nat, e: nat)
    requires Breaking(white, fits, line, cuts, pieces, current, p, start, e) && p < e
    ensures Concat(pieces + [current]) == line[p..e] && AllTight(white, fits, pieces + [current])
    ensures p <= start < e && current == line[start..e]
    ensures CutUp(white, fits, line, cuts, (pieces + [current])[..|pieces|], p, start)
  {
    hide CutUp, Concat, Tight;
    ConcatPush(pieces, current);
    assert (pieces + [current])[..|pieces|] == pieces;
  }

  lemma NoCuts(white: Whites, fits: string -> bool, line: string, p: nat)
    ensures CutUp(white, fits, line, [], [], p, p)
  {
  }

  /** What has been put out and what is held make up the words read so far, up to blanks. */
  ghost predicate Wrapped(white: Whites, fits: string -> bool, out: seq<string>, current: string, read: string) {
    && AllTight(white, fits, out)
    && Tight(white, fits, current)
    && Ink(white, Concat(out)) + Ink(white, current) == Ink(white, read)
  }

  lemma Extends(white: Whites, fits: string -> bool, out: seq<string>, current: string, read: string, word: string)
    requires Wrapped(white, fits, out, current, read) && fits(TrimEnd(white, current + word))
    ensures Wrapped(white, fits, out, current + word, read + word)
  {
    hide Ink, TrimEnd, AllTight;
    InkJoin(white, current, word);
    InkJoin(white, read, word);
    assert Ink(white, Concat(out)) + (Ink(white, current) + Ink(white, word))
        == (Ink(white, Concat(out)) + Ink(white, current)) + Ink(white, word);
  }

  lemma Flushes(white: Whites, fits: string -> bool, out: seq<string>, current: string, read: string)
    requires Wrapped(white, fits, out, current, read)
    ensures Wrapped(white, fits, out + [TrimEnd(white, current)], [], read)
  {
    var line := TrimEnd(white, current);
    ConcatPush(out, line);
    InkJoin(white, Concat(out), line);
    InkTrimmed(white, current);
    assert Ink(white, Concat(out + [line])) + Ink(white, []) == Ink(white, read);
  }

  lemma BreaksInk(white: Whites, out: seq<string>, read: string, word: string, pieces: seq<string>)
    requires Ink(white, Concat(out)) + Ink(white, []) == Ink(white, read) && |pieces| >= 1 && Concat(pieces) == word
    ensures Ink(white, Concat(out + pieces[..|pieces| - 1])) + Ink(white, pieces[|pieces| - 1]) == Ink(white, read + word)
  {
    hide Ink;
    EmptyInk(white);
    var n := |pieces| - 1;
    ConcatJoin(out, pieces[..n]);
    InkJoin(white, Concat(out), Concat(pieces[..n]));
    InkJoin(white, Concat(pieces[..n]), pieces[n]);
    InkJoin(white, read, word);
  }

  lemma Breaks(white: Whites, fits: string -> bool, out: seq<string>, read: string, word: string, pieces: seq<string>)
    requires Wrapped(white, fits, out, [], read) && |pieces| >= 1 && Concat(pieces) == word
    requires AllTight(white, fits, pieces)
    ensures Wrapped(white, fits, out + pieces[..|pieces| - 1], pieces[|pieces| - 1], read + word)
  {
    hide Ink, TrimEnd, Concat, Tight;
    BreaksInk(white, out, read, word, pieces);
  }

  lemma EmptyInk(white: Whites)
    ensures Ink(white, []) == []
  {
  }

  /** What the loop of `wrap_line` holds: `current` is `line[start..p]`, all before it is cut up. */
  ghost predicate Holding(white: Whites, fits: string -> bool, line: string, cuts: seq<Cut>, out: seq<string>,
                          current: string, start: nat, p: nat) {
    && start <= p <= |line| && current == line[start..p] && (p < |line| ==> p == 0 || line[p - 1] == ' ')
    && Wrapped(white, fits, out, current, line[..p])
    && CutUp(white, fits, line, cuts, out, 0, start)
  }

  /** `wrap_line`: no ink is lost or reordered, every line may be printed, and every line but the last
      is as long as it can be; a word is broken only if it is too wide for a line of its own. */
  method WrapLine(white: Whites, fits: string -> bool, line: string) returns (out: seq<string>, ghost cuts: seq<Cut>, ghost start: nat)
    ensures |out| >= 1
    ensures Ink(white, Concat(out)) == Ink(white, line)
    ensures AllGood(white, fits, out)
    ensures line == [] || fits(line) ==> out == [line]
    ensures line != [] && !fits(line) ==>
      && start <= |line| && |cuts| <= |out| <= |cuts| + 1 && CutUp(white, fits, line, cuts, out[..|cuts|], 0, start)
      && (if |out| == |cuts| then TrimEnd(white, line[start..]) == [] else out[|cuts|] == TrimEnd(white, line[start..]))
  {
    hide Ink, TrimEnd, Wrapped, Concat, CutUp;
    cuts, start := [], 0;
    if line == [] || fits(line) {
      assert [line] == [] + [line];
      ConcatPush([], line);
      EmptyConcat();
      assert [] + line == line;
      return [line], [], 0;
    }
    out := [];
    var current: string := [];
    var p := 0;
    StartsWrapped(white, fits);
    EmptyConcat();
    NoCuts(white, fits, line, 0);
    while p < |line|
      invariant Holding(white, fits, line, cuts, out, current, start, p)
      decreases |line| - p
    {
      var e := WordEnd(line, p);
      out, current, cuts, start := AddWord(white, fits, out, current, line[p..e], line, cuts, start, p, e);
      p := e;
    }
    assert line[..p] == line && line[start..p] == line[start..];
    Ends(white, fits, out, current, line);
    CutLength(white, fits, line, cuts, out, start);
    if TrimEnd(white, current) != [] || out == [] {
      assert (out + [TrimEnd(white, current)])[..|out|] == out;
      out := out + [TrimEnd(white, current)];
    } else {
      assert out[..|out|] == out;
    }
  }

  lemma CutLength(white: Whites, fits: string -> bool, line: string, cuts: seq<Cut>, out: seq<string>, to: nat)
    requires CutUp(white, fits, line, cuts, out, 0, to)
    ensures |cuts| == |out|
  {
  }

  lemma HoldMore(white: Whites, fits: string -> bool, line: string, cuts: seq<Cut>, out: seq<string>, current: string,
                 start: nat, p: nat, e: nat)
    requires Holding(white, fits, line, cuts, out, current, start, p) && IsWordAt(line, p, e)
    requires fits(TrimEnd(white, current + line[p..e]))
    ensures Holding(white, fits, line, cuts, out, current + line[p..e], start, e)
  {
    hide Wrapped, CutUp, TrimEnd;
    assert line[..p] + line[p..e] == line[..e] && current + line[p..e] == line[start..e];
    Extends(white, fits, out, current, line[..p], line[p..e]);
  }

  lemma HoldNone(white: Whites, fits: string -> bool, line: string, cuts: seq<Cut>, out: seq<string>, current: string,
                 start: nat, p: nat, e: nat)
    requires Holding(white, fits, line, cuts, out, current, start, p) && IsWordAt(line, p, e) && current != []
    requires !fits(TrimEnd(white, current + line[p..e]))
    ensures Holding(white, fits, line, cuts + [Cut(start, p, p, e)], out + [TrimEnd(white, current)], [], p, p)
  {
    hide Wrapped, CutUp, TrimEnd;
    assert current + line[p..e] == line[start..e];
    Flushes(white, fits, out, current, line[..p]);
    CutMore(white, fits, line, cuts, out, 0, Cut(start, p, p, e), TrimEnd(white, current));
  }

  lemma HoldRest(white: Whites, fits: string -> bool, line: string, cuts: seq<Cut>, out: seq<string>, p: nat, e: nat,
                 pieces: seq<string>, cuts2: seq<Cut>, start: nat)
    requires Holding(white, fits, line, cuts, out, [], p, p) && IsWordAt(line, p, e)
    requires |pieces| >= 1 && Concat(pieces) == line[p..e] && AllTight(white, fits, pieces)
    requires p <= start < e && pieces[|pieces| - 1] == line[start..e]
    requires CutUp(white, fits, line, cuts2, pieces[..|pieces| - 1], p, start)
    ensures Holding(white, fits, line, cuts + cuts2, out + pieces[..|pieces| - 1], pieces[|pieces| - 1], start, e)
  {
    hide Wrapped, CutUp, TrimEnd, Concat, AllTight;
    assert line[..p] + line[p..e] == line[..e];
    Breaks(white, fits, out, line[..p], line[p..e], pieces);
    CutJoin(white, fits, line, cuts, out, 0, p, cuts2, pieces[..|pieces| - 1], start);
  }

  /** One turn of the loop in `wrap_line`. */
  method AddWord(white: Whites, fits: string -> bool, out: seq<string>, current: string, word: string,
                 ghost line: string, ghost cuts: seq<Cut>, ghost start: nat, ghost p: nat, ghost e: nat)
    returns (out': seq<string>, current': string, ghost cuts': seq<Cut>, ghost start': nat)
    requires Holding(white, fits, line, cuts, out, current, start, p) && IsWordAt(line, p, e) && word == line[p..e]
    ensures Holding(white, fits, line, cuts', out', current', start', e)
  {
    hide Ink, TrimEnd, Wrapped, Concat, CutUp, AllTight;
    if fits(TrimEnd(white, current + word)) {
      HoldMore(white, fits, line, cuts, out, current, start, p, e);
      return out, current + word, cuts, start;
    }
    out', cuts' := out, cuts;
    if current != [] {
      HoldNone(white, fits, line, cuts, out, current, start, p, e);
      out', cuts' := out + [TrimEnd(white, current)], cuts + [Cut(start, p, p, e)];
    }
    start' := p;
    if fits(TrimEnd(white, word)) {
      assert [] + word == word;
      HoldMore(white, fits, line, cuts', out', [], p, p, e);
      current' := word;
    } else {
      var pieces, cuts2, start2 := BreakWord(white, fits, word, line, p, e);
      HoldRest(white, fits, line, cuts', out', p, e, pieces, cuts2, start2);
      current' := pieces[|pieces| - 1];
      out', cuts', start' := out' + pieces[..|pieces| - 1], cuts' + cuts2, start2;
    }
  }

  lemma EmptyConcat()
    ensures Concat([]) == []
  {
  }

  lemma StartsWrapped(white: Whites, fits: string -> bool)
    ensures Wrapped(white, fits, [], [], Concat([]))
  {
  }

  lemma Ends(white: Whites, fits: string -> bool, out: seq<string>, current: string, line: string)
    requires Wrapped(white, fits, out, current, line)
    ensures AllGood(white, fits, out) && AllGood(white, fits, out + [TrimEnd(white, current)])
    ensures Ink(white, Concat(out + [TrimEnd(white, current)])) == Ink(white, line)
    ensures TrimEnd(white, current) == [] ==> Ink(white, Concat(out)) == Ink(white, line)
  {
    hide Ink;
    Flushes(white, fits, out, current, line);
    EmptyInk(white);
    InkTrimmed(white, current);
  }

  // ------------------------------------------------------------------ pages

  type Page = seq<string>

  /** Pages of at most `n` lines; an empty page stays a page. */
  function Chunks(page: Page, n: nat): (r: seq<Page>)
    requires n >= 1
    decreases |page|
  {
    if |page| <= n then [page] else [page[..n]] + Chunks(page[n..], n)
  }

  function AllLines(pages: seq<Page>): seq<string> {
    if pages == [] then [] else AllLines(pages[..|pages| - 1]) + pages[|pages| - 1]
  }

  function Paginated(pages: seq<Page>, n: nat): seq<Page>
    requires n >= 1
  {
    if pages == [] then [] else Paginated(pages[..|pages| - 1], n) + Chunks(pages[|pages| - 1], n)
  }

  lemma {:induction false} LinesJoin(a: seq<Page>, b: seq<Page>)
    ensures AllLines(a + b) == AllLines(a) + AllLines(b)
    decreases |b|
  {
    if b == [] {
      assert a + b == a;
    } else {
      assert (a + b)[..|a + b| - 1] == a + b[..|b| - 1];
      LinesJoin(a, b[..|b| - 1]);
    }
  }

  /** A page's chunks hold its lines in order; all but the last are full, and there is one at least. */
  lemma {:induction false} ChunksAreWhole(page: Page, n: nat)
    requires n >= 1
    ensures AllLines(Chunks(page, n)) == page && |Chunks(page, n)| >= 1
    ensures forall i :: 0 <= i < |Chunks(page, n)| ==>
      |Chunks(page, n)[i]| <= n && (i < |Chunks(page, n)| - 1 ==> |Chunks(page, n)[i]| == n)
    decreases |page|
  {
    hide AllLines;
    if |page| <= n {
      OnePage(page);
    } else {
      var rest := Chunks(page[n..], n);
      ChunksAreWhole(page[n..], n);
      assert Chunks(page, n) == [page[..n]] + rest;
      OnePage(page[..n]);
      LinesJoin([page[..n]], rest);
      assert page[..n] + page[n..] == page;
    }
  }

  lemma OnePage(page: Page)
    ensures AllLines([page]) == page
  {
    assert [page][..0] == [];
    assert AllLines([]) == [];
  }

  /** Pagination keeps all lines in order, with at most `n` on a page. */
  lemma {:induction false} PagesAreWhole(pages: seq<Page>, n: nat)
    requires n >= 1
    ensures AllLines(Paginated(pages, n)) == AllLines(pages)
    ensures forall i :: 0 <= i < |Paginated(pages, n)| ==> |Paginated(pages, n)[i]| <= n
    decreases |pages|
  {
    hide Chunks;
    if pages != [] {
      var k := |pages| - 1;
      PagesAreWhole(pages[..k], n);
      ChunksAreWhole(pages[k], n);
      LinesJoin(Paginated(pages[..k], n), Chunks(pages[k], n));
    }
  }

  /** The device pages fall into one block for each explicit page: block `i` starts at `starts[i]`, has at
      least one page, holds exactly the lines of that page, and only its last page is not full. */
  ghost predicate Blocks(out: seq<Page>, pages: seq<Page>, n: nat, starts: seq<nat>) {
    && |starts| == |pages| + 1 && starts[0] == 0 && starts[|pages|] == |out|
    && forall i :: 0 <= i < |pages| ==> BlockAt(out, starts[i], starts[i + 1], pages[i], n)
  }

  predicate BlockAt(out: seq<Page>, a: nat, b: nat, page: Page, n: nat) {
    a < b <= |out| && IsBlock(out[a..b], page, n)
  }

  predicate IsBlock(block: seq<Page>, page: Page, n: nat) {
    && AllLines(block) == page
    && forall k :: 0 <= k < |block| ==> |block[k]| <= n && (k < |block| - 1 ==> |block[k]| == n)
  }

  lemma NextBlock(out: seq<Page>, pages: seq<Page>, n: nat, starts: seq<nat>, page: Page)
    requires n >= 1 && Blocks(out, pages, n, starts)
    ensures Blocks(out + Chunks(page, n), pages + [page], n, starts + [|out| + |Chunks(page, n)|])
  {
    hide AllLines, Chunks, IsBlock;
    ChunksAreABlock(page, n);
    var out', pages', starts' := out + Chunks(page, n), pages + [page], starts + [|out| + |Chunks(page, n)|];
    forall i | 0 <= i < |pages'| ensures BlockAt(out', starts'[i], starts'[i + 1], pages'[i], n) {
      if i < |pages| {
        assert BlockAt(out, starts[i], starts[i + 1], pages[i], n);
        assert out'[starts[i]..starts[i + 1]] == out[starts[i]..starts[i + 1]];
      } else {
        assert out'[|out|..|out'|] == Chunks(page, n);
      }
    }
  }

  lemma ChunksAreABlock(page: Page, n: nat)
    requires n >= 1
    ensures IsBlock(Chunks(page, n), page, n) && |Chunks(page, n)| >= 1
  {
    ChunksAreWhole(page, n);
  }

  /** `paginate`. */
  method Paginate(pages: seq<Page>, linesPerPage: nat) returns (out: seq<Page>)
    ensures
      var n := if linesPerPage > 1 then linesPerPage else 1;
      && AllLines(out) == AllLines(pages) && (exists starts: seq<nat> :: Blocks(out, pages, n, starts))
      && forall i :: 0 <= i < |out| ==> |out[i]| <= n
  {
    hide Blocks;
    var n := if linesPerPage > 1 then linesPerPage else 1;
    out := [];
    ghost var starts: seq<nat> := [0];
    NoBlocks(n);
    for i := 0 to |pages|
      invariant out == Paginated(pages[..i], n) && Blocks(out, pages[..i], n, starts)
    {
      assert pages[..i + 1][..i] == pages[..i] && pages[..i + 1] == pages[..i] + [pages[i]];
      NextBlock(out, pages[..i], n, starts, pages[i]);
      starts := starts + [|out| + |Chunks(pages[i], n)|];
      if pages[i] == [] {
        out := out + [[]];
      } else {
        out := out + Chunks(pages[i], n);
      }
    }
    assert pages[..|pages|] == pages;
    PagesAreWhole(pages, n);
  }

  lemma NoBlocks(n: nat)
    ensures Blocks([], [], n, [0])
  {
  }
}
