/**
 Floyd-Steinberg dithering of a receipt image (renderers/src/receipt.rs), over the reals: the
 whole-image definition of each pixel's error, its bound, the conservation of grey, and the
 two-row algorithm that packs the result into bytes.
 */
module Dither {
  /** A grey image, row by row. */
  datatype Image = Image(w: nat, h: nat, pixels: seq<nat>)

  ghost predicate ValidImage(img: Image) {
    && |img.pixels| == img.h * img.w
    && forall i :: 0 <= i < |img.pixels| ==> img.pixels[i] <= 255
  }

  lemma CellBound(w: nat, h: nat, x: nat, y: nat)
    requires x < w && y < h
    ensures 0 <= y * w + x < h * w
  {
    assert (h - y - 1) * w >= 0;
    assert h * w == y * w + w + (h - y - 1) * w;
  }

  ghost function Grey(img: Image, x: nat, y: nat): (g: real)
    requires ValidImage(img) && x < img.w && y < img.h
    ensures 0.0 <= g <= 255.0
  {
    CellBound(img.w, img.h, x, y);
    img.pixels[y * img.w + x] as real
  }

  // ------------------------------------------------------------------ whole-image definition

  /** The error of pixel (x, y); nothing comes from outside the image. */
  ghost function Error(img: Image, x: int, y: int): real
    requires ValidImage(img)
    decreases y, x, 3
  {
    if 0 <= x < img.w && 0 <= y < img.h then
      Old(img, x, y) - (if Black(img, x, y) then 0.0 else 255.0)
    else 0.0
  }

  /** What the row above contributes to pixel (x, y). */
  ghost function FromAbove(img: Image, x: nat, y: nat): real
    requires ValidImage(img) && x < img.w && y < img.h
    decreases y, x, 0
  {
    if y == 0 then 0.0
    else Error(img, x - 1, y - 1) / 16.0 + Error(img, x, y - 1) * 5.0 / 16.0 + Error(img, x + 1, y - 1) * 3.0 / 16.0
  }

  /** The grey of pixel (x, y) with all errors diffused into it. */
  ghost function Old(img: Image, x: nat, y: nat): real
    requires ValidImage(img) && x < img.w && y < img.h
    decreases y, x, 1
  {
    Grey(img, x, y) + FromAbove(img, x, y) + Error(img, x - 1, y) * 7.0 / 16.0
  }

  ghost predicate Black(img: Image, x: nat, y: nat)
    requires ValidImage(img) && x < img.w && y < img.h
    decreases y, x, 2
  {
    Old(img, x, y) < 128.0
  }

  /** Every quantisation error lies between -127 and 128, its upper end excluded. */
  lemma {:induction false} ErrorIsBounded(img: Image, x: int, y: int)
    requires ValidImage(img)
    ensures -127.0 <= Error(img, x, y) < 128.0
    decreases y, x
  {
    hide Grey, ValidImage, Old, Black, FromAbove;
    if 0 <= x < img.w && 0 <= y < img.h {
      ErrorIsBounded(img, x - 1, y);
      ErrorIsBounded(img, x - 1, y - 1);
      ErrorIsBounded(img, x, y - 1);
      ErrorIsBounded(img, x + 1, y - 1);
      OldIs(img, x, y);
      Mixed(Grey(img, x, y), Error(img, x - 1, y), Error(img, x - 1, y - 1), Error(img, x, y - 1), Error(img, x + 1, y - 1));
    }
  }

  lemma OldIs(img: Image, x: nat, y: nat)
    requires ValidImage(img) && x < img.w && y < img.h
    ensures Black(img, x, y) <==> Old(img, x, y) < 128.0
    ensures Old(img, x, y) == Grey(img, x, y) + Error(img, x - 1, y) * 7.0 / 16.0 + (if y == 0 then 0.0 else
      Error(img, x - 1, y - 1) / 16.0 + Error(img, x, y - 1) * 5.0 / 16.0 + Error(img, x + 1, y - 1) * 3.0 / 16.0)
  {
  }

  /** The weights of incoming errors sum to one, so bounded errors keep the pixel in range. */
  lemma Mixed(g: real, a: real, b: real, c: real, d: real)
    requires 0.0 <= g <= 255.0
    requires -127.0 <= a < 128.0 && -127.0 <= b < 128.0 && -127.0 <= c < 128.0 && -127.0 <= d < 128.0
    ensures -127.0 <= g + (b / 16.0 + c * 5.0 / 16.0 + d * 3.0 / 16.0) + a * 7.0 / 16.0 < 383.0
    ensures -127.0 <= g + 0.0 + a * 7.0 / 16.0 < 383.0
  {
  }

  // ------------------------------------------------------------------ conservation

  /** Sum of the errors of the first `n` pixels of row `y`. */
  ghost function RowError(img: Image, n: nat, y: int): real
    requires ValidImage(img)
  {
    if n == 0 then 0.0 else RowError(img, n - 1, y) + Error(img, n - 1, y)
  }

  /** Grey minus 255 per white pixel, over the first `n` pixels of row `y`. */
  ghost function RowExcess(img: Image, n: nat, y: nat): real
    requires ValidImage(img) && n <= img.w && y < img.h
  {
    if n == 0 then 0.0
    else RowExcess(img, n - 1, y) + Grey(img, n - 1, y) - (if Black(img, n - 1, y) then 0.0 else 255.0)
  }

  /** The same over the first `m` rows. */
  ghost function Excess(img: Image, m: nat): real
    requires ValidImage(img) && m <= img.h
  {
    if m == 0 then 0.0 else Excess(img, m - 1) + RowExcess(img, img.w, m - 1)
  }

  ghost function RowGrey(img: Image, n: nat, y: nat): real
    requires ValidImage(img) && n <= img.w && y < img.h
  {
    if n == 0 then 0.0 else RowGrey(img, n - 1, y) + Grey(img, n - 1, y)
  }

  ghost function RowWhite(img: Image, n: nat, y: nat): nat
    requires ValidImage(img) && n <= img.w && y < img.h
  {
    if n == 0 then 0 else RowWhite(img, n - 1, y) + if Black(img, n - 1, y) then 0 else 1
  }

  ghost function TotalGrey(img: Image, m: nat): real
    requires ValidImage(img) && m <= img.h
  {
    if m == 0 then 0.0 else TotalGrey(img, m - 1) + RowGrey(img, img.w, m - 1)
  }

  ghost function TotalWhite(img: Image, m: nat): nat
    requires ValidImage(img) && m <= img.h
  {
    if m == 0 then 0 else TotalWhite(img, m - 1) + RowWhite(img, img.w, m - 1)
  }

  lemma {:induction false} RowExcessIs(img: Image, n: nat, y: nat)
    requires ValidImage(img) && n <= img.w && y < img.h
    ensures RowExcess(img, n, y) == RowGrey(img, n, y) - 255.0 * RowWhite(img, n, y) as real
  {
    if n > 0 { RowExcessIs(img, n - 1, y); }
  }

  lemma {:induction false} ExcessIs(img: Image, m: nat)
    requires ValidImage(img) && m <= img.h
    ensures Excess(img, m) == TotalGrey(img, m) - 255.0 * TotalWhite(img, m) as real
  {
    if m > 0 {
      ExcessIs(img, m - 1);
      RowExcessIs(img, img.w, m - 1);
    }
  }

  /** What row `y`'s first `n` pixels receive from above. */
  ghost function Received(img: Image, n: nat, y: nat): real
    requires ValidImage(img) && n <= img.w && y < img.h
  {
    if n == 0 then 0.0 else Received(img, n - 1, y) + FromAbove(img, n - 1, y)
  }

  lemma {:induction false} RowBalance(img: Image, n: nat, y: nat)
    requires ValidImage(img) && n <= img.w && y < img.h
    ensures RowExcess(img, n, y) ==
      RowError(img, n, y) * 9.0 / 16.0 + (if n == 0 then 0.0 else Error(img, n - 1, y) * 7.0 / 16.0) - Received(img, n, y)
  {
    hide Grey, ValidImage, Old, Black, FromAbove, Error;
    if n > 0 {
      RowBalance(img, n - 1, y);
      ErrorIs(img, n - 1, y);
      assert RowError(img, n, y) == RowError(img, n - 1, y) + Error(img, n - 1, y);
      assert Received(img, n, y) == Received(img, n - 1, y) + FromAbove(img, n - 1, y);
      assert n == 1 ==> RowError(img, 0, y) == 0.0 && Received(img, 0, y) == 0.0;
    }
  }

  /** A pixel's error, written out. */
  lemma ErrorIs(img: Image, x: nat, y: nat)
    requires ValidImage(img) && x < img.w && y < img.h
    ensures Error(img, x, y) == Grey(img, x, y) + FromAbove(img, x, y) + Error(img, x - 1, y) * 7.0 / 16.0
                                - (if Black(img, x, y) then 0.0 else 255.0)
    ensures x == 0 ==> Error(img, x - 1, y) == 0.0
  {
    hide Grey, FromAbove;
  }

  lemma {:induction false} ReceivedIs(img: Image, n: nat, y: nat)
    requires ValidImage(img) && n <= img.w && 0 < y < img.h
    ensures Received(img, n, y) == if n == 0 then 0.0 else
      RowError(img, n, y - 1) * 9.0 / 16.0 - Error(img, n - 1, y - 1) / 16.0
      - Error(img, 0, y - 1) * 3.0 / 16.0 + Error(img, n, y - 1) * 3.0 / 16.0
  {
    if n > 0 {
      ReceivedIs(img, n - 1, y);
      assert RowError(img, n, y - 1) == RowError(img, n - 1, y - 1) + Error(img, n - 1, y - 1);
      assert n == 1 ==> RowError(img, 0, y - 1) == 0.0 && Error(img, -1, y - 1) == 0.0;
      assert Received(img, n, y) == Received(img, n - 1, y) + FromAbove(img, n - 1, y);
    }
  }

  /** The error that leaves the image at the two ends of the rows above row `m`. */
  ghost function Dropped(img: Image, m: nat): real
    requires ValidImage(img)
  {
    if m == 0 then 0.0
    else Dropped(img, m - 1) + Error(img, img.w - 1, m - 1) * 8.0 / 16.0 + Error(img, 0, m - 1) * 3.0 / 16.0
  }

  /** Exactly where grey goes: into white pixels, over the edges, or out at the bottom. */
  lemma {:induction false} GreyBalance(img: Image, m: nat)
    requires ValidImage(img) && 0 < m <= img.h && 0 < img.w
    ensures Excess(img, m) ==
      Dropped(img, m - 1) + RowError(img, img.w, m - 1) * 9.0 / 16.0 + Error(img, img.w - 1, m - 1) * 7.0 / 16.0
  {
    RowBalance(img, img.w, m - 1);
    if m > 1 {
      GreyBalance(img, m - 1);
      ReceivedIs(img, img.w, m - 1);
    } else {
      TopReceives(img, img.w);
    }
  }

  lemma {:induction false} TopReceives(img: Image, n: nat)
    requires ValidImage(img) && n <= img.w && 0 < img.h
    ensures Received(img, n, 0) == 0.0
  {
    if n > 0 { TopReceives(img, n - 1); }
  }

  lemma {:induction false} RowErrorIsBounded(img: Image, n: nat, y: int)
    requires ValidImage(img)
    ensures -128.0 * n as real <= RowError(img, n, y) <= 128.0 * n as real
  {
    if n > 0 {
      RowErrorIsBounded(img, n - 1, y);
      ErrorIsBounded(img, n - 1, y);
    }
  }

  lemma {:induction false} DroppedIsBounded(img: Image, m: nat)
    requires ValidImage(img)
    ensures -88.0 * m as real <= Dropped(img, m) <= 88.0 * m as real
  {
    if m > 0 {
      DroppedIsBounded(img, m - 1);
      ErrorIsBounded(img, img.w - 1, m - 1);
      ErrorIsBounded(img, 0, m - 1);
    }
  }

  /** Total grey differs from 255 times the number of white pixels by at most 128 (w + h). */
  lemma GreyIsConserved(img: Image)
    requires ValidImage(img)
    ensures
      var difference := TotalGrey(img, img.h) - 255.0 * TotalWhite(img, img.h) as real;
      -128.0 * (img.w + img.h) as real <= difference <= 128.0 * (img.w + img.h) as real
  {
    ExcessIs(img, img.h);
    if img.w == 0 || img.h == 0 {
      EmptyExcess(img, img.h);
    } else {
      GreyBalance(img, img.h);
      DroppedIsBounded(img, img.h - 1);
      RowErrorIsBounded(img, img.w, img.h - 1);
      ErrorIsBounded(img, img.w - 1, img.h - 1);
    }
  }

  lemma {:induction false} EmptyExcess(img: Image, m: nat)
    requires ValidImage(img) && m <= img.h && (img.w == 0 || m == 0)
    ensures Excess(img, m) == 0.0
  {
    if m > 0 { EmptyExcess(img, m - 1); }
  }
}
