/** The ST7701 display mock: a 320x240 screen whose `fillRect` clips and then transfers the
    area in batches of at most 512 pixels, and whose `fillScreen` is `fillRect` over the whole
    screen. Each batch is recorded by its size in pixels (it stands for a timed transfer of
    two bytes per pixel). */
module LcdPerformance {
  import opened Common
  import opened Display

  const MockWidth: I16 := 320
  const MockHeight: I16 := 240

  /** The reported width is the width clipping keeps drawing inside. */
  function Width(): (r: I16)
    ensures r == ScreenWidth
  {
    MockWidth
  }

  /** The reported height is the height clipping keeps drawing inside. */
  function Height(): (r: I16)
    ensures r == ScreenHeight
  {
    MockHeight
  }

  method FillRect(x: I16, y: I16, w: I16, h: I16, color: U16) returns (batches: seq<nat>)
    ensures batches == Batches(ClippedArea(x, y, w, h))
    ensures Clip(x, y, w, h).None? ==> batches == []
    ensures forall k :: 0 <= k < |batches| ==> 1 <= batches[k] <= BatchPixels
    ensures Sum(batches) == ClippedArea(x, y, w, h)
  {
    var cx, cy, cw, ch := ClipRect(x, y, w, h);
    if cw <= 0 || ch <= 0 {
      assert Batches(0) == [];
      return [];
    }
    assert ClippedArea(x, y, w, h) == cw * ch;
    batches := SendBatches(cw * ch);
    BatchBounds(cw * ch);
  }

  /** The transfer loop: batches of `min(pixels left, 512)` until no pixel is left. */
  method SendBatches(pixels: nat) returns (batches: seq<nat>)
    ensures batches == Batches(pixels)
  {
    var left: nat := pixels;
    assert [] + Batches(pixels) == Batches(pixels);
    batches := [];
    while left > 0
      invariant batches + Batches(left) == Batches(pixels)
      decreases left
    {
      var batchSize := if left > BatchPixels then BatchPixels else left;
      BatchStep(batches, left, pixels);
      batches := batches + [batchSize];
      left := left - batchSize;
    }
    assert batches + Batches(0) == batches;
  }

  /** Fills every pixel of the screen: one clipped-away-nothing rectangle of 320x240, sent as
      150 full batches. */
  method FillScreen(color: U16) returns (batches: seq<nat>)
    ensures Clip(0, 0, MockWidth, MockHeight) == Some(Screen)
    ensures batches == Batches(Width() * Height())
    ensures |batches| == 150 && forall k :: 0 <= k < |batches| ==> batches[k] == BatchPixels
  {
    batches := FillRect(0, 0, MockWidth, MockHeight, color);
    assert Clip(0, 0, MockWidth, MockHeight) == Some(Screen);
    assert Width() * Height() == BatchPixels * 150;
    FullBatches(150);
    BatchCount(BatchPixels * 150);
  }

  /** A multiple of 512 pixels goes out in full batches only. */
  lemma {:induction false} FullBatches(n: nat)
    ensures forall k :: 0 <= k < |Batches(BatchPixels * n)| ==> Batches(BatchPixels * n)[k] == BatchPixels
    decreases n
  {
    if n > 0 {
      assert BatchPixels * n - BatchPixels == BatchPixels * (n - 1);
      assert Batches(BatchPixels * n) == [BatchPixels] + Batches(BatchPixels * (n - 1));
      FullBatches(n - 1);
    }
  }
}
