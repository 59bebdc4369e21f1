/** What the two display mocks share: the 320x240 screen, the clipping of a requested
    rectangle to it, the split of a pixel count into transfer batches of at most 512 pixels,
    and the high-byte-first serialisation of an RGB565 colour. */
module Display {
  import opened Common

  const ScreenWidth: int := 320
  const ScreenHeight: int := 240

  /** Pixels per transfer batch: the size of the transfer buffer in pixels. */
  const BatchPixels: nat := 512

  datatype Rect = Rect(x: int, y: int, w: int, h: int)

  const Screen: Rect := Rect(0, 0, ScreenWidth, ScreenHeight)

  /** A non-empty rectangle that lies wholly on the screen. */
  predicate OnScreen(r: Rect) {
    0 <= r.x && 0 <= r.y && r.w > 0 && r.h > 0 && r.x + r.w <= ScreenWidth && r.y + r.h <= ScreenHeight
  }

  predicate Contains(r: Rect, px: int, py: int) {
    r.x <= px < r.x + r.w && r.y <= py < r.y + r.h
  }

  function Min(a: int, b: int): int { if a <= b then a else b }
  function Max(a: int, b: int): int { if a <= b then b else a }

  /** The common part of two rectangles, or None when they do not overlap. */
  function Intersect(a: Rect, b: Rect): Option<Rect> {
    var x0, x1 := Max(a.x, b.x), Min(a.x + a.w, b.x + b.w);
    var y0, y1 := Max(a.y, b.y), Min(a.y + a.h, b.y + b.h);
    if x0 < x1 && y0 < y1 then Some(Rect(x0, y0, x1 - x0, y1 - y0)) else None
  }

  /** A pixel is in the intersection exactly when it is in both rectangles. */
  lemma IntersectContains(a: Rect, b: Rect, px: int, py: int)
    ensures (Intersect(a, b).Some? && Contains(Intersect(a, b).value, px, py))
        <==> (Contains(a, px, py) && Contains(b, px, py))
  {
  }

  /** The int16 sums `w + x` and `h + y` that clipping a negative origin stores back into the
      extent do not leave the int16 range. */
  predicate NoWrap(x: I16, y: I16, w: I16, h: I16) {
    (x < 0 ==> w + x >= -0x8000) && (y < 0 ==> h + y >= -0x8000)
  }

  /** The clipping both display mocks apply before any transfer: a negative origin moves to 0
      and shrinks the extent by as much (with the int16 narrowing of the stored sum), an extent
      past the right or bottom edge is cut back to it, and an empty result means no drawing.
      Whenever the int16 sums do not wrap, this is the intersection with the screen. */
  function Clip(x: I16, y: I16, w: I16, h: I16): (r: Option<Rect>)
    ensures r.Some? ==> OnScreen(r.value)
    ensures NoWrap(x, y, w, h) ==> r == Intersect(Rect(x, y, w, h), Screen)
  {
    var (x1, w1) := if x < 0 then (0, Wrap16(w + x)) else (x as int, w as int);
    var (y1, h1) := if y < 0 then (0, Wrap16(h + y)) else (y as int, h as int);
    var w2 := if x1 + w1 > ScreenWidth then ScreenWidth - x1 else w1;
    var h2 := if y1 + h1 > ScreenHeight then ScreenHeight - y1 else h1;
    if w2 <= 0 || h2 <= 0 then None else Some(Rect(x1, y1, w2, h2))
  }

  /** The clipping code as both display mocks write it: the origin and extent are int16
      variables updated in place. It computes `Clip`, with the extent left non-positive when
      nothing is to be drawn. */
  method ClipRect(x: I16, y: I16, w: I16, h: I16) returns (cx: int, cy: int, cw: int, ch: int)
    ensures Clip(x, y, w, h) == if cw <= 0 || ch <= 0 then None else Some(Rect(cx, cy, cw, ch))
  {
    cx, cy, cw, ch := x, y, w, h;
    if cx < 0 {
      cw := Wrap16(cw + cx);
      cx := 0;
    }
    if cy < 0 {
      ch := Wrap16(ch + cy);
      cy := 0;
    }
    if cx + cw > ScreenWidth {
      cw := ScreenWidth - cx;
    }
    if cy + ch > ScreenHeight {
      ch := ScreenHeight - cy;
    }
  }

  /** The number of pixels a call paints: the clipped area, or 0 when the call draws nothing. */
  function ClippedArea(x: I16, y: I16, w: I16, h: I16): (n: nat)
    ensures n <= ScreenWidth * ScreenHeight
    ensures n == 0 <==> Clip(x, y, w, h).None?
  {
    match Clip(x, y, w, h)
    case None => 0
    case Some(r) => AreaBound(r); r.w * r.h
  }

  lemma AreaBound(r: Rect)
    requires OnScreen(r)
    ensures 0 < r.w * r.h <= ScreenWidth * ScreenHeight
  {
    MulMono(1, r.w, r.h);
    MulMono(r.w, ScreenWidth, r.h);
    assert ScreenWidth * r.h <= ScreenWidth * ScreenHeight;
  }

  lemma {:induction false} MulMono(a: nat, b: nat, c: nat)
    requires a <= b
    ensures a * c <= b * c
    decreases c
  {
    if c > 0 {
      MulMono(a, b, c - 1);
      assert a * c == a * (c - 1) + a;
      assert b * c == b * (c - 1) + b;
    }
  }

  /** Concrete cases: a rectangle hanging off the top-left corner keeps its on-screen
      quarter, one wholly above and left of the screen and a zero-size one draw nothing, and an
      oversized one is cut to the whole screen. */
  lemma ClipExamples()
    ensures Clip(-50, -50, 100, 100) == Some(Rect(0, 0, 50, 50))
    ensures Clip(-100, -100, 50, 50) == None
    ensures Clip(0, 0, 0, 0) == None
    ensures Clip(0, 0, 1000, 1000) == Some(Screen)
    ensures Clip(0, 0, ScreenWidth, ScreenHeight) == Some(Screen)
  {
  }

  /** Where the int16 sum wraps, clipping is not the intersection: a rectangle of width -30000
      at x = -30000 asks for nothing, but the stored sum -60000 narrows to 5536 and a full-width
      band is painted. */
  lemma ClipWhenSumWraps()
    ensures !NoWrap(-30000, 0, -30000, 10)
    ensures Intersect(Rect(-30000, 0, -30000, 10), Screen) == None
    ensures Clip(-30000, 0, -30000, 10) == Some(Rect(0, 0, ScreenWidth, 10))
  {
  }

  function Sum(s: seq<nat>): nat
    decreases |s|
  {
    if s == [] then 0 else s[0] + Sum(s[1..])
  }

  /** The batch sizes the transfer loop sends for `pixels` pixels: full batches of 512 while
      more than 512 remain, then the rest. The batches add up to the pixel count. */
  function Batches(pixels: nat): (bs: seq<nat>)
    ensures Sum(bs) == pixels
    decreases pixels
  {
    if pixels == 0 then []
    else
      var batch := if pixels > BatchPixels then BatchPixels else pixels;
      [batch] + Batches(pixels - batch)
  }

  /** Every batch is non-empty and at most 512 pixels. */
  lemma {:induction false} BatchBounds(pixels: nat)
    ensures forall i :: 0 <= i < |Batches(pixels)| ==> 1 <= Batches(pixels)[i] <= BatchPixels
    decreases pixels
  {
    if pixels > 0 {
      var batch := if pixels > BatchPixels then BatchPixels else pixels;
      BatchBounds(pixels - batch);
    }
  }

  /** One step of the transfer loop: sending the next batch leaves the rest to be split as
      before. */
  lemma BatchStep(sent: seq<nat>, left: nat, pixels: nat)
    requires left > 0 && sent + Batches(left) == Batches(pixels)
    ensures var batch := if left > BatchPixels then BatchPixels else left;
            (sent + [batch]) + Batches(left - batch) == Batches(pixels)
  {
    var batch := if left > BatchPixels then BatchPixels else left;
    var rest := Batches(left - batch);
    assert Batches(left) == [batch] + rest;
    SeqAssoc(sent, [batch], rest);
  }

  lemma SeqAssoc(a: seq<nat>, b: seq<nat>, c: seq<nat>)
    ensures a + (b + c) == (a + b) + c
  {
  }

  /** There are as few batches as possible: the pixel count divided by 512, rounded up. */
  lemma {:induction false} BatchCount(pixels: nat)
    ensures |Batches(pixels)| == (pixels + BatchPixels - 1) / BatchPixels
    decreases pixels
  {
    if pixels > BatchPixels {
      BatchCount(pixels - BatchPixels);
      assert (pixels + BatchPixels - 1) / BatchPixels == (pixels - 1) / BatchPixels + 1;
    }
  }

  /** `color >> 8`, which for an unsigned 16-bit value is the quotient by 256: the byte
      sent first. */
  function HighByte(color: U16): (b: U8)
    ensures b * 256 <= color < b * 256 + 256
  {
    color / 256
  }

  /** `color & 0xFF`, which for an unsigned value is the remainder by 256: the byte sent
      second. */
  function LowByte(color: U16): (b: U8)
    ensures (color - b) % 256 == 0
  {
    color % 256
  }

  /** The two bytes put back together give the colour again, so the pair is a lossless
      big-endian encoding; red 0xF800 goes out as 0xF8 then 0x00. */
  lemma PixelBytesRoundTrip(color: U16)
    ensures HighByte(color) * 256 + LowByte(color) == color
    ensures HighByte(0xF800) == 0xF8 && LowByte(0xF800) == 0x00
  {
  }

  /** A byte string holding whole pixels of one colour, each high byte first. */
  predicate IsColorRun(t: seq<U8>, color: U16) {
    |t| % 2 == 0 && forall j :: 0 <= j < |t| ==> t[j] == if j % 2 == 0 then HighByte(color) else LowByte(color)
  }

  /** `n` pixels of `color`, serialised. */
  function ColorRun(n: nat, color: U16): seq<U8> {
    seq(2 * n, j requires 0 <= j < 2 * n => if j % 2 == 0 then HighByte(color) else LowByte(color))
  }

  /** Every pixel of a colour run decodes back to the colour. */
  lemma ColorRunDecodes(t: seq<U8>, color: U16, p: nat)
    requires IsColorRun(t, color) && p < |t| / 2
    ensures t[2 * p] as int * 256 + t[2 * p + 1] as int == color
  {
    PixelBytesRoundTrip(color);
  }

  /** The byte strings sent for a list of batches: one colour run per batch. */
  function Payloads(bs: seq<nat>, color: U16): seq<seq<U8>> {
    seq(|bs|, k requires 0 <= k < |bs| => ColorRun(bs[k], color))
  }

  function TotalBytes(ts: seq<seq<U8>>): nat
    decreases |ts|
  {
    if ts == [] then 0 else |ts[0]| + TotalBytes(ts[1..])
  }

  /** The first `m` pixels of a run of `n` pixels are a run of `m` pixels. */
  lemma ColorRunPrefix(t: seq<U8>, n: nat, m: nat, color: U16)
    requires t == ColorRun(n, color) && m <= n
    ensures t[..2 * m] == ColorRun(m, color)
  {
  }

  /** Sending one more batch appends its colour run to the payloads. */
  lemma PayloadsSnoc(bs: seq<nat>, b: nat, color: U16)
    ensures Payloads(bs + [b], color) == Payloads(bs, color) + [ColorRun(b, color)]
  {
  }

  /** The payloads carry two bytes per batched pixel, each one a colour run. */
  lemma {:induction false} PayloadsCarryEveryPixel(bs: seq<nat>, color: U16)
    ensures TotalBytes(Payloads(bs, color)) == 2 * Sum(bs)
    ensures forall k :: 0 <= k < |bs| ==> IsColorRun(Payloads(bs, color)[k], color)
    decreases |bs|
  {
    if bs != [] {
      assert Payloads(bs, color)[1..] == Payloads(bs[1..], color);
      PayloadsCarryEveryPixel(bs[1..], color);
    }
  }

  /** What the serial link receives for `pixels` pixels: transfers of 1 to 512 whole pixels of
      the colour each, two bytes per pixel in all, and nothing at all for no pixels. */
  lemma PayloadShape(pixels: nat, color: U16)
    ensures forall k :: 0 <= k < |Payloads(Batches(pixels), color)| ==>
              2 <= |Payloads(Batches(pixels), color)[k]| <= 2 * BatchPixels
              && IsColorRun(Payloads(Batches(pixels), color)[k], color)
    ensures TotalBytes(Payloads(Batches(pixels), color)) == 2 * pixels
    ensures pixels == 0 ==> Payloads(Batches(pixels), color) == []
  {
    PayloadsCarryEveryPixel(Batches(pixels), color);
    BatchBounds(pixels);
  }
}
