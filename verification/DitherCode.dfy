/** The two-row algorithm and its bit packing, proved against the whole-image definition. */
module DitherCode {
  import opened Dither

  function WidthBytes(w: nat): nat { (w + 7) / 8 }

  // ------------------------------------------------------------------ bits

  /** `0x80 >> k`. */
  function Mask(k: nat): bv8
    requires k < 8
  {
    if k == 0 then 0x80 else if k == 1 then 0x40 else if k == 2 then 0x20 else if k == 3 then 0x10
    else if k == 4 then 0x08 else if k == 5 then 0x04 else if k == 6 then 0x02 else 0x01
  }

  lemma MaskIsShift(k: nat)
    requires k < 8
    ensures Mask(k) == 0x80 as bv8 >> k
  {
    assert k == 0 || k == 1 || k == 2 || k == 3 || k == 4 || k == 5 || k == 6 || k == 7;
  }

  /** Pixel `k` of a byte, most significant bit first. */
  predicate Bit(b: bv8, k: nat)
    requires k < 8
  {
    b & Mask(k) != 0
  }

  lemma OrMasks(b: bv8, m: bv8, n: bv8)
    ensures m & n == 0 ==> ((b | m) & n != 0 <==> b & n != 0)
    ensures m != 0 ==> (b | m) & m != 0
  {
  }

  lemma MasksApart(i: nat, k: nat)
    requires i < 8 && k < 8
    ensures Mask(i) != 0 && (i != k ==> Mask(i) & Mask(k) == 0)
  {
  }

  lemma OrSets(b: bv8, i: nat, k: nat)
    requires i < 8 && k < 8
    ensures Bit(b | Mask(i), k) <==> k == i || Bit(b, k)
  {
    hide Mask;
    MasksApart(i, k);
    OrMasks(b, Mask(i), Mask(k));
  }

  lemma ZeroIsClear(k: nat)
    requires k < 8
    ensures !Bit(0, k)
  {
  }

  /** Pixel (x, y) of a packed image of `wb` bytes per row and `h` rows. */
  predicate BitAt(bits: seq<bv8>, wb: nat, h: nat, x: nat, y: nat)
    requires |bits| == h * wb && x < 8 * wb && y < h
  {
    CellBound(wb, h, x / 8, y);
    Bit(bits[y * wb + x / 8], x % 8)
  }

  lemma CellsDiffer(wb: nat, b: nat, y: nat, c: nat, z: nat)
    requires b < wb && c < wb && (b != c || y != z)
    ensures y * wb + b != z * wb + c
  {
    if y < z {
      RowsApart(wb, y, z);
    } else if z < y {
      RowsApart(wb, z, y);
    }
  }

  lemma {:induction false} RowsApart(wb: nat, y: nat, z: nat)
    requires y < z
    ensures y * wb + wb <= z * wb
  {
    if y + 1 < z {
      RowsApart(wb, y, z - 1);
      assert (z - 1) * wb == z * wb - wb;
    } else {
      assert z * wb == (y + 1) * wb == y * wb + wb;
    }
  }

  /** Setting one pixel's bit changes that pixel and no other. */
  lemma SetPixel(bits: seq<bv8>, wb: nat, h: nat, x: nat, y: nat, i: nat, j: nat)
    requires |bits| == h * wb && x < 8 * wb && y < h && i < 8 * wb && j < h
    ensures
      var cell := y * wb + x / 8;
      && 0 <= cell < |bits|
      && (BitAt(bits[cell := bits[cell] | Mask(x % 8)], wb, h, i, j) <==> (i == x && j == y) || BitAt(bits, wb, h, i, j))
  {
    CellBound(wb, h, x / 8, y);
    CellBound(wb, h, i / 8, j);
    if i / 8 == x / 8 && j == y {
      OrSets(bits[y * wb + x / 8], x % 8, i % 8);
    } else {
      CellsDiffer(wb, x / 8, y, i / 8, j);
    }
  }

  // ------------------------------------------------------------------ rolling rows

  /** What row `y`, processed up to pixel `x`, has given to pixel `k` of the row below. */
  ghost function Below(img: Image, k: int, y: int, x: int): real
    requires ValidImage(img)
  {
    (if k - 1 < x then Error(img, k - 1, y) / 16.0 else 0.0)
    + (if k < x then Error(img, k, y) * 5.0 / 16.0 else 0.0)
    + (if k + 1 < x then Error(img, k + 1, y) * 3.0 / 16.0 else 0.0)
  }

  /** The current row from pixel `x` on. */
  ghost predicate CurrentOk(img: Image, y: nat, x: nat, current: seq<real>)
    requires ValidImage(img) && y < img.h
  {
    && |current| == img.w
    && forall k :: x <= k < img.w ==>
         current[k] == Grey(img, k, y) + FromAbove(img, k, y) + if k == x then Error(img, x - 1, y) * 7.0 / 16.0 else 0.0
  }

  /** The row below, if there is one. */
  ghost predicate NextOk(img: Image, y: nat, x: nat, next: seq<real>)
    requires ValidImage(img) && y < img.h
  {
    && |next| == img.w
    && (y + 1 < img.h ==> forall k :: 0 <= k < img.w ==> next[k] == Grey(img, k, y + 1) + Below(img, k, y, x))
  }

  /** Pixels before (x, y) in reading order are packed, everything else is zero. */
  ghost predicate BitsOk(img: Image, y: nat, x: nat, bits: seq<bv8>)
    requires ValidImage(img)
  {
    var wb := WidthBytes(img.w);
    && |bits| == img.h * wb
    && forall i, j :: 0 <= i < 8 * wb && 0 <= j < img.h ==>
         (BitAt(bits, wb, img.h, i, j) <==> i < img.w && (j < y || (j == y && i < x)) && Black(img, i, j))
  }

  lemma OldIsCurrent(img: Image, y: nat, x: nat, current: seq<real>)
    requires ValidImage(img) && y < img.h && x < img.w && CurrentOk(img, y, x, current)
    ensures current[x] == Old(img, x, y)
  {
  }

  lemma CurrentMoves(img: Image, y: nat, x: nat, current: seq<real>, current': seq<real>)
    requires ValidImage(img) && y < img.h && x < img.w && CurrentOk(img, y, x, current)
    requires current' == if x + 1 < img.w then current[x + 1 := current[x + 1] + Error(img, x, y) * 7.0 / 16.0] else current
    ensures CurrentOk(img, y, x + 1, current')
  {
    hide Error, FromAbove, Grey;
  }

  /** The additions of the inner loop to the row below, in its order. */
  ghost function Spread(next: seq<real>, x: nat, error: real): (r: seq<real>)
    requires x < |next|
    ensures |r| == |next|
  {
    var n1 := if x > 0 then next[x - 1 := next[x - 1] + error * 3.0 / 16.0] else next;
    var n2 := n1[x := n1[x] + error * 5.0 / 16.0];
    if x + 1 < |next| then n2[x + 1 := n2[x + 1] + error / 16.0] else n2
  }

  lemma NextMoves(img: Image, y: nat, x: nat, next: seq<real>)
    requires ValidImage(img) && y + 1 < img.h && x < img.w && NextOk(img, y, x, next)
    ensures NextOk(img, y, x + 1, Spread(next, x, Error(img, x, y)))
  {
    hide Error, Grey;
    var next' := Spread(next, x, Error(img, x, y));
    forall k | 0 <= k < img.w ensures next'[k] == Grey(img, k, y + 1) + Below(img, k, y, x + 1) {
      assert next[k] == Grey(img, k, y + 1) + Below(img, k, y, x);
      if k == x - 1 {
        assert next'[k] == next[k] + Error(img, x, y) * 3.0 / 16.0;
      } else if k == x {
        assert next'[k] == next[k] + Error(img, x, y) * 5.0 / 16.0;
      } else if k == x + 1 {
        assert next'[k] == next[k] + Error(img, x, y) / 16.0;
      } else {
        assert next'[k] == next[k];
      }
    }
  }

  lemma BitsMove(img: Image, y: nat, x: nat, bits: seq<bv8>)
    requires ValidImage(img) && y < img.h && x < img.w && BitsOk(img, y, x, bits)
    ensures
      var cell := y * WidthBytes(img.w) + x / 8;
      && 0 <= cell < |bits|
      && BitsOk(img, y, x + 1, if Black(img, x, y) then bits[cell := bits[cell] | Mask(x % 8)] else bits)
  {
    hide Black, ValidImage, BitAt, Mask;
    var wb := WidthBytes(img.w);
    var cell := y * wb + x / 8;
    CellBound(wb, img.h, x / 8, y);
    var bits' := if Black(img, x, y) then bits[cell := bits[cell] | Mask(x % 8)] else bits;
    forall i, j | 0 <= i < 8 * wb && 0 <= j < img.h
      ensures BitAt(bits', wb, img.h, i, j) <==> i < img.w && (j < y || (j == y && i < x + 1)) && Black(img, i, j)
    {
      BitMoves(img, y, x, bits, i, j);
    }
  }

  lemma BitMoves(img: Image, y: nat, x: nat, bits: seq<bv8>, i: nat, j: nat)
    requires ValidImage(img) && y < img.h && x < img.w && BitsOk(img, y, x, bits)
    requires i < 8 * WidthBytes(img.w) && j < img.h
    requires 0 <= y * WidthBytes(img.w) + x / 8 < |bits|
    ensures
      var wb := WidthBytes(img.w);
      var cell := y * wb + x / 8;
      var bits' := if Black(img, x, y) then bits[cell := bits[cell] | Mask(x % 8)] else bits;
      BitAt(bits', wb, img.h, i, j) <==> i < img.w && (j < y || (j == y && i < x + 1)) && Black(img, i, j)
  {
    hide Black, ValidImage, BitAt, Mask;
    SetPixel(bits, WidthBytes(img.w), img.h, x, y, i, j);
  }

  /** A finished row below is the next current row. */
  lemma RowsSwap(img: Image, y: nat, next: seq<real>)
    requires ValidImage(img) && y + 1 < img.h && NextOk(img, y, img.w, next)
    ensures CurrentOk(img, y + 1, 0, next)
  {
    hide Grey;
  }

  lemma BitsTurn(img: Image, y: nat, bits: seq<bv8>)
    requires ValidImage(img) && BitsOk(img, y, img.w, bits)
    ensures BitsOk(img, y + 1, 0, bits)
  {
    hide Black, BitAt;
  }

  /** The three buffers do not overlap. */
  ghost predicate Distinct(current: array<real>, next: array<real>, bits: array<bv8>) {
    current != next && bits as object != current as object && bits as object != next as object
  }

  /** One turn of the inner loop. */
  method DitherPixel(img: Image, y: nat, x: nat, current: array<real>, next: array<real>, bits: array<bv8>)
    requires ValidImage(img) && y < img.h && x < img.w && Distinct(current, next, bits)
    requires CurrentOk(img, y, x, current[..]) && NextOk(img, y, x, next[..]) && BitsOk(img, y, x, bits[..])
    modifies current, next, bits
    ensures CurrentOk(img, y, x + 1, current[..]) && NextOk(img, y, x + 1, next[..]) && BitsOk(img, y, x + 1, bits[..])
  {
    hide CurrentOk, NextOk, BitsOk, Grey, Old, Spread, ValidImage, Mask, Error, Black;
    ghost var cur, nxt, bts := current[..], next[..], bits[..];
    Lengths(img, y, x, cur, nxt, bts);
    OldIsCurrent(img, y, x, cur);
    BitsMove(img, y, x, bts);
    if y + 1 < img.h { NextMoves(img, y, x, nxt); } else { NoNext(img, y, x, nxt); }
    var black, error := Quantise(img, x, y, current[x]);
    CurrentMoves(img, y, x, cur, if x + 1 < img.w then cur[x + 1 := cur[x + 1] + error * 7.0 / 16.0] else cur);
    if black { SetBit(bits, y * WidthBytes(img.w) + x / 8, x); }
    if x + 1 < img.w {
      current[x + 1] := current[x + 1] + error * 7.0 / 16.0;
      assert current[..] == cur[x + 1 := cur[x + 1] + error * 7.0 / 16.0];
    }
    if y + 1 < img.h { SpreadBelow(next, x, error); }
  }

  /** `bits[cell] |= 0x80 >> (x % 8)`. */
  method SetBit(bits: array<bv8>, cell: nat, x: nat)
    requires cell < bits.Length
    modifies bits
    ensures bits[..] == old(bits[..])[cell := old(bits[cell]) | Mask(x % 8)]
  {
    hide Mask;
    MaskIsShift(x % 8);
    bits[cell] := bits[cell] | (0x80 as bv8 >> (x % 8));
  }

  method Quantise(ghost img: Image, ghost x: nat, ghost y: nat, value: real) returns (black: bool, error: real)
    requires ValidImage(img) && x < img.w && y < img.h && value == Old(img, x, y)
    ensures black == Black(img, x, y) && error == Error(img, x, y)
  {
    black := value < 128.0;
    error := value - if black then 0.0 else 255.0;
  }

  method SpreadBelow(next: array<real>, x: nat, error: real)
    requires x < next.Length
    modifies next
    ensures next[..] == Spread(old(next[..]), x, error)
  {
    if x > 0 { next[x - 1] := next[x - 1] + error * 3.0 / 16.0; }
    next[x] := next[x] + error * 5.0 / 16.0;
    if x + 1 < next.Length { next[x + 1] := next[x + 1] + error / 16.0; }
  }

  lemma Lengths(img: Image, y: nat, x: nat, current: seq<real>, next: seq<real>, bits: seq<bv8>)
    requires ValidImage(img) && y < img.h && x <= img.w
    requires CurrentOk(img, y, x, current) && NextOk(img, y, x, next) && BitsOk(img, y, x, bits)
    ensures |current| == img.w && |next| == img.w && |bits| == img.h * WidthBytes(img.w)
  {
  }

  lemma NoNext(img: Image, y: nat, x: nat, next: seq<real>)
    requires ValidImage(img) && y < img.h && y + 1 >= img.h && NextOk(img, y, x, next)
    ensures NextOk(img, y, x + 1, next)
  {
  }

  /**
   `dither`: byte `y * WidthBytes(w) + x / 8` holds pixel (x, y) in bit `x % 8`, set iff the
   whole-image definition makes the pixel black; the padding bits of each row are zero.
   */
  method DitherImage(img: Image) returns (packed: seq<bv8>)
    requires ValidImage(img) && (img.h > 0 || img.w == 0)
    ensures |packed| == img.h * WidthBytes(img.w)
    ensures forall x, y :: 0 <= x < 8 * WidthBytes(img.w) && 0 <= y < img.h ==>
      (BitAt(packed, WidthBytes(img.w), img.h, x, y) <==> x < img.w && Black(img, x, y))
  {
    hide Grey, Old, Black, BitAt;
    var w, h := img.w, img.h;
    var bits := new bv8[h * WidthBytes(w)](_ => 0);
    BlankBits(img, bits[..]);
    if h == 0 { return bits[..]; }
    var current := LoadRow(img, 0);
    var next := new real[w](_ => 0.0);
    FirstRow(img, current[..]);
    for y := 0 to h
      invariant fresh(current) && fresh(next) && fresh(bits) && Distinct(current, next, bits)
      invariant current.Length == w && next.Length == w && bits.Length == h * WidthBytes(w)
      invariant y < h ==> CurrentOk(img, y, 0, current[..])
      invariant BitsOk(img, y, 0, bits[..])
    {
      if y + 1 < h {
        next := LoadRow(img, y + 1);
      }
      FreshNext(img, y, next[..]);
      DitherRow(img, y, current, next, bits);
      if y + 1 < h { RowsSwap(img, y, next[..]); }
      BitsTurn(img, y, bits[..]);
      current, next := next, current;
    }
    AllPacked(img, bits[..]);
    return bits[..];
  }

  method DitherRow(img: Image, y: nat, current: array<real>, next: array<real>, bits: array<bv8>)
    requires ValidImage(img) && y < img.h && Distinct(current, next, bits)
    requires CurrentOk(img, y, 0, current[..]) && NextOk(img, y, 0, next[..]) && BitsOk(img, y, 0, bits[..])
    modifies current, next, bits
    ensures NextOk(img, y, img.w, next[..]) && BitsOk(img, y, img.w, bits[..])
  {
    hide CurrentOk, NextOk, BitsOk, ValidImage;
    for x := 0 to img.w
      invariant CurrentOk(img, y, x, current[..]) && NextOk(img, y, x, next[..]) && BitsOk(img, y, x, bits[..])
    {
      DitherPixel(img, y, x, current, next, bits);
    }
  }

  method LoadRow(img: Image, y: nat) returns (row: array<real>)
    requires ValidImage(img) && y < img.h
    ensures fresh(row) && row.Length == img.w
    ensures forall k :: 0 <= k < img.w ==> row[k] == Grey(img, k, y)
  {
    row := new real[img.w];
    for x := 0 to img.w
      invariant forall k :: 0 <= k < x ==> row[k] == Grey(img, k, y)
    {
      CellBound(img.w, img.h, x, y);
      row[x] := img.pixels[y * img.w + x] as real;
    }
  }

  lemma BlankBits(img: Image, bits: seq<bv8>)
    requires ValidImage(img) && |bits| == img.h * WidthBytes(img.w) && forall i :: 0 <= i < |bits| ==> bits[i] == 0
    ensures BitsOk(img, 0, 0, bits)
  {
    var wb := WidthBytes(img.w);
    forall i, j | 0 <= i < 8 * wb && 0 <= j < img.h ensures !BitAt(bits, wb, img.h, i, j) {
      CellBound(wb, img.h, i / 8, j);
      ZeroIsClear(i % 8);
    }
  }

  lemma FirstRow(img: Image, current: seq<real>)
    requires ValidImage(img) && 0 < img.h && |current| == img.w
    requires forall k :: 0 <= k < img.w ==> current[k] == Grey(img, k, 0)
    ensures CurrentOk(img, 0, 0, current)
  {
    hide Grey;
  }

  lemma FreshNext(img: Image, y: nat, next: seq<real>)
    requires ValidImage(img) && y < img.h && |next| == img.w
    requires y + 1 < img.h ==> forall k :: 0 <= k < img.w ==> next[k] == Grey(img, k, y + 1)
    ensures NextOk(img, y, 0, next)
  {
    hide Grey;
    assert forall k: int :: k < 0 ==> Error(img, k, y) == 0.0;
  }

  lemma AllPacked(img: Image, bits: seq<bv8>)
    requires ValidImage(img) && BitsOk(img, img.h, 0, bits)
    ensures |bits| == img.h * WidthBytes(img.w)
    ensures forall x, y :: 0 <= x < 8 * WidthBytes(img.w) && 0 <= y < img.h ==>
      (BitAt(bits, WidthBytes(img.w), img.h, x, y) <==> x < img.w && Black(img, x, y))
  {
    hide Black, BitAt;
  }
}
