/**
 * The part of the Adafruit NeoPixel library the clock relies on: a buffer of
 * packed 0xRRGGBB colours, one global brightness byte and `show()`, which
 * flushes the buffer to the LEDs. A flush is recorded as a frame in `shown`.
 */
module NeoPixel {
  import opened Ints

  /** `setPixelColor(n, c)` on the buffer: writes past the end are dropped. */
  function Put(s: seq<uint32>, n: int, c: uint32): (r: seq<uint32>)
    ensures |r| == |s|
    ensures forall k :: 0 <= k < |s| ==> r[k] == (if k == n then c else s[k])
  {
    if 0 <= n < |s| then s[n := c] else s
  }

  /** `setPixelColor(n, c)` for every n in `leds`, in order. */
  function PutAll(s: seq<uint32>, leds: seq<int>, c: uint32): (r: seq<uint32>)
    ensures |r| == |s|
    ensures forall k :: 0 <= k < |s| ==> r[k] == if k in leds then c else s[k]
    decreases |leds|
  {
    if leds == [] then s else PutAll(Put(s, leds[0], c), leds[1..], c)
  }

  /** What one `show()` put on the LEDs. */
  datatype Frame = Frame(brightness: uint8, pixels: seq<uint32>)

  class Strip {
    const pixels: array<uint32>
    var brightness: uint8
    var shown: seq<Frame>

    constructor (numPixels: uint16)
      ensures fresh(pixels) && pixels.Length == numPixels
      ensures forall k :: 0 <= k < numPixels ==> pixels[k] == 0
      ensures shown == []
    {
      pixels := new uint32[numPixels](_ => 0);
      brightness := 0;
      shown := [];
    }

    function NumPixels(): int
    {
      pixels.Length
    }

    method SetPixelColor(n: int, c: uint32)
      modifies pixels
      ensures pixels[..] == Put(old(pixels[..]), n, c)
    {
      if 0 <= n < pixels.Length {
        pixels[n] := c;
      }
    }

    method SetBrightness(b: uint8)
      modifies this
      ensures brightness == b && shown == old(shown)
    {
      brightness := b;
    }

    method Show()
      modifies this
      ensures brightness == old(brightness)
      ensures shown == old(shown) + [Frame(brightness, pixels[..])]
    {
      shown := shown + [Frame(brightness, pixels[..])];
    }
  }
}
