/**
 ESC/P commands of dot-matrix documents (protocols/src/escp_commands.rs): their bytes and a
 reader that splits a byte stream into commands.
 */
module EscP {
  import opened Wrappers
  import opened EscPos

  const CR: Byte := 0x0D
  const FF: Byte := 0x0C
  const SI: Byte := 0x0F
  const DC2: Byte := 0x12

  datatype Command =
    | Print(b: Byte)               // a printable character
    | Control(b: Byte)             // CR, LF, FF, SI, DC2
    | Plain(op: Byte)              // ESC op
    | With(op: Byte, n: Byte)      // ESC op n
    | PageInches(n: Byte)          // ESC C 0 n

  predicate IsControl(b: Byte) { b == CR || b == LF || b == FF || b == SI || b == DC2 }

  /** ESC @ P M g 2 0 E F G H 4 5. */
  predicate NoArgument(op: Byte) {
    || op == 64 || op == 80 || op == 77 || op == 103 || op == 50 || op == 48
    || op == 69 || op == 70 || op == 71 || op == 72 || op == 52 || op == 53
  }

  /** ESC x 3 N l Q t - W; `ESC C n` is apart, because n = 0 announces inches. */
  predicate TakesOne(op: Byte) {
    op == 120 || op == 51 || op == 78 || op == 108 || op == 81 || op == 116 || op == 45 || op == 87
  }

  const PAGE: Byte := 67

  datatype Step = Step(command: Command, rest: seq<Byte>)

  function First(s: seq<Byte>): (r: Option<Step>)
    ensures r.Some? ==> |r.value.rest| < |s|
  {
    if |s| == 0 then None
    else if s[0] >= 0x20 then Some(Step(Print(s[0]), s[1..]))
    else if IsControl(s[0]) then Some(Step(Control(s[0]), s[1..]))
    else if s[0] != ESC || |s| < 2 then None
    else if NoArgument(s[1]) then Some(Step(Plain(s[1]), s[2..]))
    else if |s| < 3 then None
    else if TakesOne(s[1]) then Some(Step(With(s[1], s[2]), s[3..]))
    else if s[1] != PAGE then None
    else if s[2] != 0 then Some(Step(With(PAGE, s[2]), s[3..]))
    else if |s| < 4 then None
    else Some(Step(PageInches(s[3]), s[4..]))
  }

  function Commands(s: seq<Byte>): (r: Option<seq<Command>>)
    decreases |s|
  {
    if s == [] then Some([])
    else
      var first := First(s);
      if first.None? then None
      else
        var rest := Commands(first.value.rest);
        if rest.None? then None else Some([first.value.command] + rest.value)
  }

  predicate WellFormed(c: Command) {
    match c
    case Print(b) => b >= 0x20
    case Control(b) => IsControl(b)
    case Plain(op) => NoArgument(op)
    case With(op, n) => TakesOne(op) || (op == PAGE && n != 0)
    case PageInches(_) => true
  }

  function BytesOf(c: Command): (s: seq<Byte>)
    ensures |s| > 0
  {
    match c
    case Print(b) => [b]
    case Control(b) => [b]
    case Plain(op) => [ESC, op]
    case With(op, n) => [ESC, op, n]
    case PageInches(n) => [ESC, PAGE, 0, n]
  }

  function Stream(cs: seq<Command>): seq<Byte> {
    if cs == [] then [] else Stream(cs[..|cs| - 1]) + BytesOf(cs[|cs| - 1])
  }

  lemma FirstBack(c: Command, rest: seq<Byte>)
    requires WellFormed(c)
    ensures First(BytesOf(c) + rest) == Some(Step(c, rest))
  {
    var s := BytesOf(c) + rest;
    assert s[|BytesOf(c)|..] == rest;
  }

  lemma {:induction false} StreamJoin(a: seq<Command>, b: seq<Command>)
    ensures Stream(a + b) == Stream(a) + Stream(b)
    decreases |b|
  {
    hide BytesOf;
    if b == [] {
      assert a + b == a;
    } else {
      assert (a + b)[..|a + b| - 1] == a + b[..|b| - 1];
      StreamJoin(a, b[..|b| - 1]);
    }
  }

  lemma StreamOne(c: Command)
    ensures Stream([c]) == BytesOf(c)
  {
    hide BytesOf;
    assert [c][..0] == [];
    assert Stream([]) == [];
  }

  /** A well-formed command stream is read back command by command. */
  lemma {:induction false} CommandsBack(cs: seq<Command>)
    requires forall i :: 0 <= i < |cs| ==> WellFormed(cs[i])
    ensures Commands(Stream(cs)) == Some(cs)
    decreases |cs|
  {
    hide First, BytesOf, WellFormed;
    if cs != [] {
      assert cs == [cs[0]] + cs[1..];
      StreamJoin([cs[0]], cs[1..]);
      StreamOne(cs[0]);
      FirstBack(cs[0], Stream(cs[1..]));
      CommandsBack(cs[1..]);
    }
  }

  // ------------------------------------------------------------------ builders

  /** `pitch`: 17 and 20 cpi are condensed pica and elite. */
  function Pitch(cpi: nat): seq<Command> {
    if cpi == 12 then [Plain(77), Control(DC2)]
    else if cpi == 15 then [Plain(103), Control(DC2)]
    else if cpi == 17 then [Plain(80), Control(SI)]
    else if cpi == 20 then [Plain(77), Control(SI)]
    else [Plain(80), Control(DC2)]
  }

  const EPSILON := 1.0 / 8388608.0

  function Abs(x: real): real { if x < 0.0 then -x else x }

  function Unit(pins: nat): real { if pins == 9 then 216.0 else 180.0 }

  function Round(x: real): int { (x + 0.5).Floor }

  /** `line_spacing`. */
  function Spacing(lpi: real, pins: nat): Command
    requires lpi > 0.0
  {
    if Abs(lpi - 6.0) < EPSILON then Plain(50)
    else if Abs(lpi - 8.0) < EPSILON then Plain(48)
    else
      var n := Round(Unit(pins) / lpi);
      With(51, if n < 1 then 1 else if n > 255 then 255 else n)
  }

  /** Six and eight lines per inch are `ESC 2` and `ESC 0`. For every other valid setting the command is
      `ESC 3` with the nearest multiple of the printer's unit, so the clamp to a byte never acts. */
  lemma SpacingIsNearest(lpi: real, pins: nat)
    requires 1.0 <= lpi <= 72.0 && (pins == 9 || pins == 24)
    ensures BytesOf(Spacing(lpi, pins)) == [ESC, 50] <==> 6.0 - EPSILON < lpi < 6.0 + EPSILON
    ensures BytesOf(Spacing(lpi, pins)) == [ESC, 48] <==> 8.0 - EPSILON < lpi < 8.0 + EPSILON
    ensures Spacing(lpi, pins).With? <==> !(6.0 - EPSILON < lpi < 6.0 + EPSILON) && !(8.0 - EPSILON < lpi < 8.0 + EPSILON)
    ensures Spacing(lpi, pins).With? ==>
      && Spacing(lpi, pins).op == 51
      && Spacing(lpi, pins).n == Round(Unit(pins) / lpi)
      && Abs(Spacing(lpi, pins).n as real - Unit(pins) / lpi) <= 0.5
  {
    var x := Unit(pins) / lpi;
    assert x * lpi == Unit(pins);
    assert 2.0 <= x by {
      if x < 2.0 { Product(x, lpi, 2.0, 72.0); }
    }
    assert x <= 216.0 by {
      if x > 216.0 { Product(216.0, 1.0, x, lpi); }
    }
  }

  lemma Product(a: real, b: real, c: real, d: real)
    requires 0.0 <= a < c && 0.0 < b <= d
    ensures a * b < c * d
  {
    assert a * b <= a * d;
    assert a * d < c * d;
  }
}
