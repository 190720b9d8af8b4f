/** The two 32 x 32 RGBA texture images the driver paints into a fresh
    `Uint8Array` of 4096 bytes: a red and blue checkerboard, and the
    billboard with the letters M, G, R and an arrow. Byte `r * 128 + c * 4 + ch`
    is channel `ch` (red, green, blue, alpha) of the pixel in row `r`, column `c`. */
module Textures {
  import opened Host

  /** Bytes in a 32 x 32 RGBA image. */
  const ImageBytes: nat := 4096

  datatype Rgba = Rgba(r: byte, g: byte, b: byte, a: byte)

  const Red := Rgba(255, 50, 50, 255)
  const Blue := Rgba(50, 50, 255, 255)
  const Grey := Rgba(100, 100, 100, 255)

  /** The row, column and channel that byte `i` belongs to. */
  function Row(i: nat): nat { i / 128 }
  function Col(i: nat): nat { (i % 128) / 4 }
  function Channel(p: Rgba, ch: nat): byte
  {
    if ch == 0 then p.r else if ch == 1 then p.g else if ch == 2 then p.b else p.a
  }

  /** The offset of channel `ch` of pixel (`r`, `c`). */
  function Offset(r: nat, c: nat, ch: nat): nat { r * 128 + c * 4 + ch }

  /** The pixel at row `r`, column `c` of an image. */
  function Pixel(s: seq<byte>, r: nat, c: nat): Rgba
    requires |s| == ImageBytes && r < 32 && c < 32
  {
    Rgba(s[Offset(r, c, 0)], s[Offset(r, c, 1)], s[Offset(r, c, 2)], s[Offset(r, c, 3)])
  }

  /** Byte `i` lies in the pixel at row `Row(i)`, column `Col(i)`, channel `i % 4`. */
  lemma OffsetOfByte(i: nat)
    requires i < ImageBytes
    ensures Row(i) < 32 && Col(i) < 32 && i == Offset(Row(i), Col(i), i % 4)
  {
  }

  /** Channel `ch` of pixel (`r`, `c`) is byte `Offset(r, c, ch)`, and no other pixel
      shares it. */
  lemma ByteOfOffset(r: nat, c: nat, ch: nat)
    requires r < 32 && c < 32 && ch < 4
    ensures Offset(r, c, ch) < ImageBytes
    ensures Row(Offset(r, c, ch)) == r && Col(Offset(r, c, ch)) == c && Offset(r, c, ch) % 4 == ch
  {
  }

  /** An image whose every byte is given by `f(Row(i), Col(i), i % 4)` has the pixel
      whose channels are those values. */
  lemma PixelsOf(s: seq<byte>, r: nat, c: nat)
    requires |s| == ImageBytes && r < 32 && c < 32
    ensures Pixel(s, r, c) == Rgba(s[r * 128 + c * 4], s[r * 128 + c * 4 + 1], s[r * 128 + c * 4 + 2], s[r * 128 + c * 4 + 3])
    ensures forall ch :: 0 <= ch < 4 ==> Row(Offset(r, c, ch)) == r && Col(Offset(r, c, ch)) == c && Offset(r, c, ch) % 4 == ch
  {
    forall ch | 0 <= ch < 4
      ensures Row(Offset(r, c, ch)) == r && Col(Offset(r, c, ch)) == c && Offset(r, c, ch) % 4 == ch
    {
      ByteOfOffset(r, c, ch);
    }
  }

  /** The first nested loop of both painters: every pixel set to `p`. */
  method FillAll(a: array<byte>, p: Rgba)
    requires a.Length == ImageBytes
    modifies a
    ensures forall i :: 0 <= i < ImageBytes ==> a[i] == Channel(p, i % 4)
  {
    var r := 0;
    while r < 32
      invariant 0 <= r <= 32
      invariant forall i :: 0 <= i < r * 128 ==> a[i] == Channel(p, i % 4)
    {
      var c := 0;
      while c < 32
        invariant 0 <= c <= 32
        invariant forall i :: 0 <= i < r * 128 + c * 4 ==> a[i] == Channel(p, i % 4)
      {
        a[r * 128 + c * 4] := p.r;
        a[r * 128 + c * 4 + 1] := p.g;
        a[r * 128 + c * 4 + 2] := p.b;
        a[r * 128 + c * 4 + 3] := p.a;
        c := c + 1;
      }
      r := r + 1;
    }
  }

  // ---------------------------------------------------------------------------
  // fillArrayCheckered

  /** The checkerboard: a pixel is blue exactly when its row and its column fall in
      the same half of their 8-pixel period, red otherwise. */
  function CheckerPixel(r: nat, c: nat): Rgba
  {
    if (r % 8 < 4) == (c % 8 < 4) then Blue else Red
  }

  /** Pixel (`r`, `c`) lies in the 4 x 4 block whose top left pixel is (`r0`, `c0`). */
  predicate InBlock(r0: nat, c0: nat, r: nat, c: nat)
  {
    r0 <= r < r0 + 4 && c0 <= c < c0 + 4
  }

  /** Channel `ch` of a pixel that is blue when `blue` holds and red otherwise. */
  function Paint(blue: bool, ch: nat): byte
  {
    Channel(if blue then Blue else Red, ch)
  }

  /** Twelve writes of one loop body: the colour channels of the four pixels from
      byte `start` on set to blue. */
  method PaintRun(a: array<byte>, start: nat)
    requires a.Length == ImageBytes && start % 4 == 0 && start + 16 <= ImageBytes
    modifies a
    ensures forall i :: 0 <= i < ImageBytes ==>
              a[i] == if start <= i < start + 16 && i % 4 < 3 then Channel(Blue, i % 4) else old(a[i])
  {
    var dc := 0;
    while dc < 4
      invariant 0 <= dc <= 4
      invariant forall i :: 0 <= i < ImageBytes ==>
                  a[i] == if start <= i < start + dc * 4 && i % 4 < 3 then Channel(Blue, i % 4) else old(a[i])
    {
      a[start + dc * 4] := 50;
      a[start + dc * 4 + 1] := 50;
      a[start + dc * 4 + 2] := 255;
      dc := dc + 1;
    }
  }

  /** The four pixels from pixel (`r`, `c`) on are the bytes from `Offset(r, c, 0)` to
      16 bytes later. */
  lemma RunOfRow(i: nat, r: nat, c: nat)
    requires i < ImageBytes && r < 32 && c + 4 <= 32
    ensures Offset(r, c, 0) <= i < Offset(r, c, 0) + 16 <==> Row(i) == r && c <= Col(i) < c + 4
  {
  }

  /** The 48 writes of one loop body: the colour channels of the 4 x 4 block at
      (`r`, `c`) set to blue, one row of four pixels at a time. */
  method PaintBlock(a: array<byte>, r: nat, c: nat)
    requires a.Length == ImageBytes && r + 4 <= 32 && c + 4 <= 32
    modifies a
    ensures forall i :: 0 <= i < ImageBytes ==>
              a[i] == if i % 4 < 3 && InBlock(r, c, Row(i), Col(i)) then Channel(Blue, i % 4) else old(a[i])
  {
    var dr := 0;
    while dr < 4
      invariant 0 <= dr <= 4
      invariant forall i :: 0 <= i < ImageBytes ==>
                  a[i] == if i % 4 < 3 && r <= Row(i) < r + dr && c <= Col(i) < c + 4 then Channel(Blue, i % 4) else old(a[i])
    {
      PaintRun(a, r * 128 + c * 4 + dr * 128);
      forall i | 0 <= i < ImageBytes
        ensures Offset(r + dr, c, 0) <= i < Offset(r + dr, c, 0) + 16 <==> Row(i) == r + dr && c <= Col(i) < c + 4
      {
        RunOfRow(i, r + dr, c);
      }
      dr := dr + 1;
    }
  }

  /** Pixel (`pr`, `pc`) lies in one of the blocks the inner loop paints in rows `r`
      to `r + 3`: the blocks from column `c0` on, 8 columns apart. */
  predicate InBlockRow(r: nat, c0: nat, pr: nat, pc: nat)
  {
    r <= pr < r + 4 && c0 <= pc && (pc - c0) % 8 < 4
  }

  /** The inner loop of both block loops: the blocks at (`r`, `c0`), (`r`, `c0 + 8`),
      ... up to column 31 painted blue. */
  method PaintBlockRow(a: array<byte>, r: nat, c0: nat)
    requires a.Length == ImageBytes && r + 4 <= 32 && (c0 == 0 || c0 == 4)
    modifies a
    ensures forall i :: 0 <= i < ImageBytes ==>
              a[i] == if i % 4 < 3 && InBlockRow(r, c0, Row(i), Col(i)) then Channel(Blue, i % 4) else old(a[i])
  {
    var c := c0;
    while c < 32
      invariant c0 <= c <= 32 + c0 && (c - c0) % 8 == 0
      invariant forall i :: 0 <= i < ImageBytes ==>
                  a[i] == if i % 4 < 3 && InBlockRow(r, c0, Row(i), Col(i)) && Col(i) < c then Channel(Blue, i % 4) else old(a[i])
    {
      PaintBlock(a, r, c);
      c := c + 8;
    }
  }

  /** The first block loop paints, row of blocks by row of blocks, exactly the pixels
      whose row and column both fall in the first half of their period. */
  lemma FirstRows(pr: nat, pc: nat, r: nat)
    requires pr < 32 && pc < 32 && r % 8 == 0
    ensures (pr % 8 < 4 && pc % 8 < 4 && pr < r + 8) <==> (pr % 8 < 4 && pc % 8 < 4 && pr < r) || InBlockRow(r, 0, pr, pc)
  {
  }

  /** The second block loop likewise paints the pixels whose row and column both fall in
      the second half. */
  lemma SecondRows(pr: nat, pc: nat, r: nat)
    requires pr < 32 && pc < 32 && r % 8 == 4
    ensures (pr % 8 >= 4 && pc % 8 >= 4 && pr < r + 8) <==> (pr % 8 >= 4 && pc % 8 >= 4 && pr < r) || InBlockRow(r, 4, pr, pc)
  {
  }

  /** The first block loop of `fillArrayCheckered`: blocks at rows and columns 0, 8,
      16 and 24. */
  method PaintFirstBlocks(a: array<byte>)
    requires a.Length == ImageBytes
    requires forall i :: 0 <= i < ImageBytes ==> a[i] == Channel(Red, i % 4)
    modifies a
    ensures forall i :: 0 <= i < ImageBytes ==> a[i] == Paint(Row(i) % 8 < 4 && Col(i) % 8 < 4, i % 4)
  {
    var r := 0;
    while r < 32
      invariant r % 8 == 0 && r <= 32
      invariant forall i :: 0 <= i < ImageBytes ==> a[i] == Paint(Row(i) % 8 < 4 && Col(i) % 8 < 4 && Row(i) < r, i % 4)
    {
      PaintBlockRow(a, r, 0);
      forall i | 0 <= i < ImageBytes
        ensures (Row(i) % 8 < 4 && Col(i) % 8 < 4 && Row(i) < r + 8) <==>
                (Row(i) % 8 < 4 && Col(i) % 8 < 4 && Row(i) < r) || InBlockRow(r, 0, Row(i), Col(i))
      {
        FirstRows(Row(i), Col(i), r);
      }
      r := r + 8;
    }
  }

  /** The second block loop of `fillArrayCheckered`: blocks at rows and columns 4, 12,
      20 and 28. */
  method PaintSecondBlocks(a: array<byte>)
    requires a.Length == ImageBytes
    requires forall i :: 0 <= i < ImageBytes ==> a[i] == Paint(Row(i) % 8 < 4 && Col(i) % 8 < 4, i % 4)
    modifies a
    ensures forall i :: 0 <= i < ImageBytes ==> a[i] == Paint((Row(i) % 8 < 4) == (Col(i) % 8 < 4), i % 4)
  {
    var r := 4;
    while r < 32
      invariant r % 8 == 4 && r <= 36
      invariant forall i :: 0 <= i < ImageBytes ==>
                  a[i] == Paint((Row(i) % 8 < 4 && Col(i) % 8 < 4) || (Row(i) % 8 >= 4 && Col(i) % 8 >= 4 && Row(i) < r), i % 4)
    {
      PaintBlockRow(a, r, 4);
      forall i | 0 <= i < ImageBytes
        ensures (Row(i) % 8 >= 4 && Col(i) % 8 >= 4 && Row(i) < r + 8) <==>
                (Row(i) % 8 >= 4 && Col(i) % 8 >= 4 && Row(i) < r) || InBlockRow(r, 4, Row(i), Col(i))
      {
        SecondRows(Row(i), Col(i), r);
      }
      r := r + 8;
    }
  }

  /** `fillArrayCheckered`: 4096 bytes in which every pixel is opaque blue or opaque
      red in the checkerboard pattern of 4 x 4 squares. */
  method FillArrayCheckered() returns (result: array<byte>)
    ensures fresh(result) && result.Length == ImageBytes
    ensures forall r, c :: 0 <= r < 32 && 0 <= c < 32 ==> Pixel(result[..], r, c) == CheckerPixel(r, c)
  {
    result := new byte[ImageBytes](_ => 0);
    FillAll(result, Red);
    PaintFirstBlocks(result);
    PaintSecondBlocks(result);
    forall r, c | 0 <= r < 32 && 0 <= c < 32
      ensures Pixel(result[..], r, c) == CheckerPixel(r, c)
    {
      PixelsOf(result[..], r, c);
    }
  }

  /** Neighbouring 4 x 4 squares of the checkerboard differ, across both rows and
      columns, and squares 8 pixels apart agree. */
  lemma CheckerAlternates(r: nat, c: nat)
    ensures CheckerPixel(r, c) != CheckerPixel(r + 4, c)
    ensures CheckerPixel(r, c) != CheckerPixel(r, c + 4)
    ensures CheckerPixel(r, c) == CheckerPixel(r + 8, c) == CheckerPixel(r, c + 8)
    ensures CheckerPixel(r, c) == CheckerPixel(r + 4, c + 4)
  {
  }

  // ---------------------------------------------------------------------------
  // fillArrayMGR

  /** The largest offset `fillArrayMGR` writes after the grey fill: channel 2 of row 13,
      column 4 of the arrow's shaft. */
  const MaxSignWrite: nat := 3786

  /** What every write of `fillArrayMGR` keeps: each alpha byte is 255, the two bottom
      rows are grey, and every byte is 0, 100 or 255. */
  predicate SignKept(a: array<byte>)
    reads a
  {
    a.Length == ImageBytes &&
    (forall i :: 0 <= i < ImageBytes && i % 4 == 3 ==> a[i] == 255) &&
    (forall i :: 30 * 128 <= i < ImageBytes ==> a[i] == Channel(Grey, i % 4)) &&
    (forall i :: 0 <= i < ImageBytes ==> a[i] == 0 || a[i] == 100 || a[i] == 255)
  }

  /** Three writes of `fillArrayMGR` after the grey fill: the colour channels of one
      pixel, at offsets `i`, `i + 1` and `i + 2` no later than `MaxSignWrite`, set to
      0 or 255 each. */
  method PutColour(a: array<byte>, i: nat, red: byte, green: byte, blue: byte)
    requires SignKept(a) && i % 4 == 0 && i + 2 <= MaxSignWrite
    requires (red == 0 || red == 255) && (green == 0 || green == 255) && (blue == 0 || blue == 255)
    modifies a
    ensures SignKept(a)
    ensures a[i] == red && a[i + 1] == green && a[i + 2] == blue
    ensures forall j :: 0 <= j < a.Length && !(i <= j < i + 3) ==> a[j] == old(a[j])
  {
    a[i] := red;
    a[i + 1] := green;
    a[i + 2] := blue;
  }

  /** The M, G and R boxes: 12 rows of 9 white pixels each. */
  method PaintLetterBoxes(result: array<byte>)
    requires SignKept(result)
    modifies result
    ensures SignKept(result)
  {
    for r := 2 to 14
      invariant SignKept(result)
    {
      for c := 0 to 9
        invariant SignKept(result)
      {
        PutColour(result, r * 128 + c * 4 + 8, 255, 255, 255);
        PutColour(result, r * 128 + c * 4 + 48, 255, 255, 255);
        PutColour(result, r * 128 + c * 4 + 88, 255, 255, 255);
      }
    }
  }

  /** The long vertical strokes of the letters: green for M, blue for G, red for R. */
  method PaintVerticalStrokes(result: array<byte>, r: nat, c: nat)
    requires SignKept(result) && r < 10 && c < 1
    modifies result
    ensures SignKept(result)
  {
    PutColour(result, r * 128 + c * 4 + 396, 0, 255, 0);
    PutColour(result, r * 128 + c * 4 + 420, 0, 255, 0);
    PutColour(result, r * 128 + c * 4 + 436, 0, 0, 255);
    PutColour(result, r * 128 + c * 4 + 476, 255, 0, 0);
  }

  /** The shorter vertical strokes: the middle of the M, the two sides of the R's bowl
      and the two pieces of the G's right side. */
  method PaintShortStrokes(result: array<byte>, r: nat, c: nat)
    requires SignKept(result) && r < 10 && c < 1
    modifies result
    ensures SignKept(result)
  {
    if r > 2 {
      PutColour(result, r * 128 + c * 4 + 408, 0, 255, 0);
    }
    if r > 3 {
      PutColour(result, r * 128 + c * 4 + 492, 255, 0, 0);
    }
    if r < 4 {
      PutColour(result, r * 128 + c * 4 + 500, 255, 0, 0);
    }
    if r > 6 {
      PutColour(result, r * 128 + c * 4 + 460, 0, 0, 255);
    }
    if r < 5 {
      PutColour(result, r * 128 + c * 4 + 460, 0, 0, 255);
    }
  }

  /** The horizontal strokes of the letters, which run along a row: 128 bytes per
      step of `c` and 4 per step of `r`. */
  method PaintHorizontalStrokes(result: array<byte>, r: nat, c: nat)
    requires SignKept(result) && r < 10 && c < 1
    modifies result
    ensures SignKept(result)
  {
    if r > 5 { return; }
    PutColour(result, c * 128 + r * 4 + 1552, 0, 255, 0);
    PutColour(result, c * 128 + r * 4 + 436, 0, 0, 255);
    PutColour(result, c * 128 + r * 4 + 992, 255, 0, 0);
    PutColour(result, c * 128 + r * 4 + 1588, 0, 0, 255);
    if r > 3 { return; }
    PutColour(result, c * 128 + r * 4 + 960, 0, 0, 255);
    PutColour(result, c * 128 + r * 4 + 1632, 255, 0, 0);
  }

  /** The arrow's white shaft: 14 rows of 5 pixels. */
  method PaintArrowShaft(result: array<byte>)
    requires SignKept(result)
    modifies result
    ensures SignKept(result)
  {
    for r := 0 to 14
      invariant SignKept(result)
    {
      for c := 0 to 5
        invariant SignKept(result)
      {
        PutColour(result, r * 128 + c * 4 + 2104, 255, 255, 255);
      }
    }
  }

  /** Pixel `r` of the two white runs of one row of the arrow head, the runs starting
      at offsets `left` and `right`. */
  method PutHeadPixels(result: array<byte>, c: nat, r: nat, left: nat, right: nat)
    requires SignKept(result) && c < 1 && r < 8
    requires left % 4 == 0 && right % 4 == 0 && left + 30 <= MaxSignWrite && right + 30 <= MaxSignWrite
    modifies result
    ensures SignKept(result)
  {
    PutColour(result, c * 128 + r * 4 + left, 255, 255, 255);
    PutColour(result, c * 128 + r * 4 + right, 255, 255, 255);
  }

  /** The arrow head: seven rows of two white runs, each row one pixel shorter than
      the one below it. */
  method PaintArrowHead(result: array<byte>, r: nat, c: nat)
    requires SignKept(result) && r < 10 && c < 1
    modifies result
    ensures SignKept(result)
  {
    if r > 7 { return; }
    PutHeadPixels(result, c, r, 2968, 3020);
    if r > 6 { return; }
    PutHeadPixels(result, c, r, 2844, 2892);
    if r > 5 { return; }
    PutHeadPixels(result, c, r, 2720, 2764);
    if r > 4 { return; }
    PutHeadPixels(result, c, r, 2596, 2636);
    if r > 3 { return; }
    PutHeadPixels(result, c, r, 2472, 2508);
    if r > 2 { return; }
    PutHeadPixels(result, c, r, 2348, 2380);
    if r > 1 { return; }
    PutHeadPixels(result, c, r, 2224, 2252);
  }

  /** `fillArrayMGR`: the billboard image. Every write stays in the 4096 bytes and
      never touches an alpha byte, so every pixel stays opaque; nothing below row 29
      is painted over, so rows 30 and 31 stay grey. */
  method FillArrayMGR() returns (result: array<byte>)
    ensures fresh(result) && result.Length == ImageBytes
    ensures forall r, c :: 0 <= r < 32 && 0 <= c < 32 ==> Pixel(result[..], r, c).a == 255
    ensures forall r, c :: 30 <= r < 32 && 0 <= c < 32 ==> Pixel(result[..], r, c) == Grey
    ensures forall i :: 0 <= i < ImageBytes ==> result[i] == 0 || result[i] == 100 || result[i] == 255
  {
    result := new byte[ImageBytes](_ => 0);
    FillAll(result, Grey);
    PaintLetterBoxes(result);
    for r := 0 to 10
      invariant SignKept(result)
    {
      for c := 0 to 1
        invariant SignKept(result)
      {
        PaintVerticalStrokes(result, r, c);
        PaintShortStrokes(result, r, c);
        PaintHorizontalStrokes(result, r, c);
      }
    }
    PaintArrowShaft(result);
    for r := 0 to 10
      invariant SignKept(result)
    {
      for c := 0 to 1
        invariant SignKept(result)
      {
        PaintArrowHead(result, r, c);
      }
    }
    forall r, c | 0 <= r < 32 && 0 <= c < 32
      ensures Pixel(result[..], r, c).a == 255
      ensures 30 <= r ==> Pixel(result[..], r, c) == Grey
    {
      PixelsOf(result[..], r, c);
    }
  }
}
