/** The batched `fillRect` of the performance-test display: clip, prefill a 512-pixel transfer
    buffer with the colour high byte first, then send `min(pixels, 512)` pixels of it per
    transfer until the clipped area is done. Each transfer is recorded as the bytes handed to
    the serial write. */
module FillRectPerformance {
  import opened Common
  import opened Display

  /** The transfer buffer's size in pixels, one batch; it holds two bytes per pixel. */
  const BufferSize: nat := BatchPixels

  method FillRect(x: I16, y: I16, w: I16, h: I16, color: U16) returns (transfers: seq<seq<U8>>)
    ensures transfers == Payloads(Batches(ClippedArea(x, y, w, h)), color)
    ensures Clip(x, y, w, h).None? ==> transfers == []
    ensures forall k :: 0 <= k < |transfers| ==>
              2 <= |transfers[k]| <= 2 * BufferSize && IsColorRun(transfers[k], color)
    ensures TotalBytes(transfers) == 2 * ClippedArea(x, y, w, h) <= 2 * ScreenWidth * ScreenHeight
  {
    var cx, cy, cw, ch := ClipRect(x, y, w, h);
    PayloadShape(ClippedArea(x, y, w, h), color);
    if cw <= 0 || ch <= 0 {
      return [];
    }
    assert ClippedArea(x, y, w, h) == cw * ch;
    var buffer := PrefilledBuffer(color);
    transfers := SendRuns(buffer, cw * ch, color);
  }

  /** The transfer buffer, filled once with 512 pixels of the colour. */
  method PrefilledBuffer(color: U16) returns (buffer: array<U8>)
    ensures fresh(buffer)
    ensures buffer[..] == ColorRun(BufferSize, color)
  {
    buffer := new U8[2 * BufferSize];
    var colorHi, colorLo := HighByte(color), LowByte(color);
    var i := 0;
    while i < 2 * BufferSize
      invariant 0 <= i <= 2 * BufferSize && i % 2 == 0
      invariant forall j :: 0 <= j < i ==> buffer[j] == if j % 2 == 0 then colorHi else colorLo
    {
      buffer[i] := colorHi;
      buffer[i + 1] := colorLo;
      i := i + 2;
    }
  }

  /** The transfer loop: the first `min(pixels left, 512)` pixels of the buffer per transfer,
      until no pixel is left. */
  method SendRuns(buffer: array<U8>, pixels: nat, color: U16) returns (transfers: seq<seq<U8>>)
    requires buffer[..] == ColorRun(BufferSize, color)
    ensures transfers == Payloads(Batches(pixels), color)
  {
    var left: nat := pixels;
    assert [] + Batches(pixels) == Batches(pixels);
    ghost var sent: seq<nat> := [];
    transfers := [];
    while left > 0
      invariant sent + Batches(left) == Batches(pixels)
      invariant transfers == Payloads(sent, color)
      decreases left
    {
      var batchSize := if left > BufferSize then BufferSize else left;
      BatchStep(sent, left, pixels);
      ColorRunPrefix(buffer[..], BufferSize, batchSize, color);
      assert buffer[..batchSize * 2] == buffer[..][..batchSize * 2];
      PayloadsSnoc(sent, batchSize, color);
      transfers := transfers + [buffer[..batchSize * 2]];
      sent := sent + [batchSize];
      left := left - batchSize;
    }
    assert sent + Batches(0) == sent;
  }
}
