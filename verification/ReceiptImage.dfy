/**
 From the grey image to the paper (`raster_image` in renderers/src/receipt.rs, after scaling):
 the dots that the printer sets are exactly the pixels that dithering makes black.
 */
module ReceiptImage {
  import opened Wrappers
  import opened EscPos
  import Dither
  import DitherCode
  import Receipt
  import ReceiptPrinter
  import ReceiptCode

  /** The weight of dot `k` of a byte, most significant first. */
  function Weight(k: nat): nat
    requires k < 8
  {
    if k == 0 then 128 else if k == 1 then 64 else if k == 2 then 32 else if k == 3 then 16
    else if k == 4 then 8 else if k == 5 then 4 else if k == 6 then 2 else 1
  }

  /** Dot (x, y) of a picture of `wb` bytes per row. */
  predicate Dot(bits: seq<Byte>, wb: nat, h: nat, x: nat, y: nat)
    requires |bits| == h * wb && x < 8 * wb && y < h
  {
    Dither.CellBound(wb, h, x / 8, y);
    bits[y * wb + x / 8] as int / Weight(x % 8) % 2 == 1
  }

  lemma Halves(b: bv8)
    ensures (b >> 1) as int == b as int / 2
  {
  }

  lemma LowDot(b: bv8)
    ensures b & 1 != 0 <==> b as int % 2 == 1
  {
  }

  /** Shifting is dividing, one half after the other. */
  lemma ShortShifts(b: bv8)
    ensures (b >> 1) as int == b as int / 2 && (b >> 2) as int == b as int / 4
    ensures (b >> 3) as int == b as int / 8 && (b >> 4) as int == b as int / 16
  {
    ShiftsJoin(b);
    Halves(b);
    Halves(b >> 1);
    Halves(b >> 2);
    Halves(b >> 3);
  }

  lemma Shifts(b: bv8)
    ensures (b >> 1) as int == b as int / 2 && (b >> 2) as int == b as int / 4 && (b >> 3) as int == b as int / 8
    ensures (b >> 4) as int == b as int / 16 && (b >> 5) as int == b as int / 32 && (b >> 6) as int == b as int / 64
    ensures (b >> 7) as int == b as int / 128
  {
    ShiftsJoin(b);
    ShortShifts(b);
    Halves(b >> 4);
    Halves(b >> 5);
    Halves(b >> 6);
  }

  lemma ShiftsJoin(b: bv8)
    ensures b >> 2 == (b >> 1) >> 1 && b >> 3 == (b >> 2) >> 1 && b >> 4 == (b >> 3) >> 1
    ensures b >> 5 == (b >> 4) >> 1 && b >> 6 == (b >> 5) >> 1 && b >> 7 == (b >> 6) >> 1
  {
  }

  lemma MasksShift(b: bv8)
    ensures (b & 0x80 != 0 <==> (b >> 7) & 1 != 0) && (b & 0x40 != 0 <==> (b >> 6) & 1 != 0)
    ensures (b & 0x20 != 0 <==> (b >> 5) & 1 != 0) && (b & 0x10 != 0 <==> (b >> 4) & 1 != 0)
    ensures (b & 0x08 != 0 <==> (b >> 3) & 1 != 0) && (b & 0x04 != 0 <==> (b >> 2) & 1 != 0)
    ensures b & 0x02 != 0 <==> (b >> 1) & 1 != 0
  {
  }

  /** The byte with dot `k` shifted to the end. */
  function Top(b: bv8, k: nat): bv8
    requires k < 8
  {
    if k == 0 then b >> 7 else if k == 1 then b >> 6 else if k == 2 then b >> 5 else if k == 3 then b >> 4
    else if k == 4 then b >> 3 else if k == 5 then b >> 2 else if k == 6 then b >> 1 else b
  }

  lemma TopValue(b: bv8, k: nat)
    requires k < 8
    ensures Top(b, k) as int == b as int / Weight(k)
  {
    Shifts(b);
  }

  lemma TopBit(b: bv8, k: nat)
    requires k < 8
    ensures DitherCode.Bit(b, k) <==> Top(b, k) & 1 != 0
  {
    MasksShift(b);
  }

  lemma BitIsDot(b: bv8, k: nat)
    requires k < 8
    ensures DitherCode.Bit(b, k) <==> b as int / Weight(k) % 2 == 1
  {
    hide Top, Weight, DitherCode.Bit;
    TopValue(b, k);
    TopBit(b, k);
    LowDot(Top(b, k));
  }

  function AsBytes(packed: seq<bv8>): (r: seq<Byte>)
    ensures |r| == |packed|
  {
    seq(|packed|, i requires 0 <= i < |packed| => packed[i] as int)
  }

  lemma PackedDots(packed: seq<bv8>, wb: nat, h: nat, x: nat, y: nat)
    requires |packed| == h * wb && x < 8 * wb && y < h
    ensures Dot(AsBytes(packed), wb, h, x, y) <==> DitherCode.BitAt(packed, wb, h, x, y)
  {
    hide Weight, DitherCode.Bit;
    Dither.CellBound(wb, h, x / 8, y);
    BitIsDot(packed[y * wb + x / 8], x % 8);
  }

  /** The bitmap of a dithered image. */
  function BitmapOf(img: Dither.Image, packed: seq<bv8>): Receipt.Bitmap {
    Receipt.Bitmap(DitherCode.WidthBytes(img.w), img.h, AsBytes(packed))
  }

  /** What `DitherImage` promises of its result. */
  ghost predicate Dithered(img: Dither.Image, packed: seq<bv8>)
    requires Dither.ValidImage(img)
  {
    var wb := DitherCode.WidthBytes(img.w);
    && |packed| == img.h * wb
    && forall x, y :: 0 <= x < 8 * wb && 0 <= y < img.h ==>
         (DitherCode.BitAt(packed, wb, img.h, x, y) <==> x < img.w && Dither.Black(img, x, y))
  }

  /** The pictures among the events show the image: dot (x, y) is set iff the pixel is black, and the
      dots beyond the width are not set. */
  ghost predicate ShowsImage(img: Dither.Image, events: seq<ReceiptPrinter.Event>)
    requires Dither.ValidImage(img)
  {
    var wb, bits := DitherCode.WidthBytes(img.w), ReceiptPrinter.BitsOf(events);
    && |bits| == img.h * wb
    && forall x, y :: 0 <= x < 8 * wb && 0 <= y < img.h ==>
         (Dot(bits, wb, img.h, x, y) <==> x < img.w && Dither.Black(img, x, y))
  }

  lemma BandsShowImage(img: Dither.Image, packed: seq<bv8>, align: Alignment)
    requires Dither.ValidImage(img) && Dithered(img, packed)
    ensures ShowsImage(img, ReceiptPrinter.BandsMeaning(BitmapOf(img, packed), 0, align))
  {
    hide Dot, DitherCode.BitAt, Dither.Black, AsBytes;
    var b := BitmapOf(img, packed);
    ReceiptPrinter.BandsAreWhole(b, 0, align);
    assert 0 * b.width == 0 && b.bits[0..] == b.bits;
    forall x, y | 0 <= x < 8 * b.width && 0 <= y < img.h
      ensures Dot(b.bits, b.width, img.h, x, y) <==> x < img.w && Dither.Black(img, x, y)
    {
      PackedDots(packed, b.width, img.h, x, y);
    }
  }

  /** A printed image item is the dithered image, dot by dot, and leaves the printer at rest. */
  lemma ImagePrintsItsPixels(tables: Receipt.Tables, p: ReceiptPrinter.Printer, width: nat, img: Dither.Image, packed: seq<bv8>,
                             align: Alignment)
    requires Receipt.ValidTables(tables) && ReceiptPrinter.AtRest(p, p.page)
    requires Dither.ValidImage(img) && img.w <= 2048 && Dithered(img, packed)
    ensures
      var item := Receipt.Image(BitmapOf(img, packed), align);
      var tokens := Receipt.ItemTokens(tables(p.page), width, item);
      && Receipt.ValidItem(item) && tokens.Some?
      && exists events ::
           ReceiptPrinter.Added(p, ReceiptPrinter.Run(tables, p, tokens.value), p.page, events) && ShowsImage(img, events)
  {
    hide ReceiptPrinter.Run, ShowsImage, ReceiptPrinter.Added, Dithered, AsBytes, Receipt.Bands, ReceiptPrinter.BandsMeaning;
    var item := Receipt.Image(BitmapOf(img, packed), align);
    PackedLength(img, packed);
    ReceiptPrinter.ItemRun(tables, p, width, item);
    BandsShowImage(img, packed, align);
  }

  lemma PackedLength(img: Dither.Image, packed: seq<bv8>)
    requires Dither.ValidImage(img) && Dithered(img, packed)
    ensures |packed| == img.h * DitherCode.WidthBytes(img.w)
  {
  }

  /** `raster_image` after scaling: dithers the image and encodes it in bands; reading the bytes back
      and printing them shows the image. */
  method RasterImage(tables: Receipt.Tables, img: Dither.Image, align: Alignment) returns (out: seq<Byte>)
    requires Receipt.ValidTables(tables) && Dither.ValidImage(img) && (img.h > 0 || img.w == 0) && img.w <= 2048
    ensures Parse(out).Some?
    ensures forall p: ReceiptPrinter.Printer :: p.style.align == align ==>
      ShowsImage(img, ReceiptPrinter.Run(tables, p.(out := []), Parse(out).value).out)
  {
    hide ReceiptPrinter.Run, ShowsImage, Dithered, AsBytes, Receipt.Bands, ReceiptPrinter.BandsMeaning, Parse, AllBytes;
    var packed := DitherCode.DitherImage(img);
    assert Dithered(img, packed) by { DitheredIs(img, packed); }
    PackedLength(img, packed);
    var b := BitmapOf(img, packed);
    out := ReceiptCode.EncodeBitmap(b);
    ReceiptCode.BandsSound(b, 0);
    ParseBack(Receipt.Bands(b, 0));
    forall p: ReceiptPrinter.Printer | p.style.align == align
      ensures ShowsImage(img, ReceiptPrinter.Run(tables, p.(out := []), Parse(out).value).out)
    {
      ReceiptPrinter.BandsRun(tables, p.(out := []), b, 0);
      BandsShowImage(img, packed, align);
      assert [] + ReceiptPrinter.BandsMeaning(b, 0, align) == ReceiptPrinter.BandsMeaning(b, 0, align);
    }
  }

  lemma DitheredIs(img: Dither.Image, packed: seq<bv8>)
    requires Dither.ValidImage(img) && |packed| == img.h * DitherCode.WidthBytes(img.w)
    requires forall x, y :: 0 <= x < 8 * DitherCode.WidthBytes(img.w) && 0 <= y < img.h ==>
      (DitherCode.BitAt(packed, DitherCode.WidthBytes(img.w), img.h, x, y) <==> x < img.w && Dither.Black(img, x, y))
    ensures Dithered(img, packed)
  {
  }
}
