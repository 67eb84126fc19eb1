/**
 * The hue wheel of firmware/digit.hpp: one byte of hue to a fully saturated
 * 0xRRGGBB colour, in the packing of `Adafruit_NeoPixel::Color`.
 */
module Color {
  import opened Ints

  datatype Rgb = Rgb(r: uint8, g: uint8, b: uint8)

  /** `Adafruit_NeoPixel::Color(r, g, b)`: a 24-bit colour, red in the high byte. */
  function Pack(c: Rgb): (packed: uint32)
    ensures packed < 0x100_0000
  {
    c.r * 0x1_0000 + c.g * 0x100 + c.b
  }

  /** `(c & 0xFF0000) >> 16`, `(c & 0x00FF00) >> 8` and `c & 0x0000FF`. */
  function Unpack(c: uint32): Rgb
  {
    Rgb((c / 0x1_0000) % 0x100, (c / 0x100) % 0x100, c % 0x100)
  }

  /**
   * The channels ColorWheel packs: the hue is inverted (`pos = 255 - pos`)
   * and then walks three 85-step ramps. Every colour is fully saturated: the
   * channels add up to 255 and at least one of them is dark.
   */
  function WheelRgb(pos: uint8): (c: Rgb)
    ensures c.r + c.g + c.b == 255
    ensures c.r == 0 || c.g == 0 || c.b == 0
  {
    var p := 255 - pos;
    if p < 85 then Rgb(255 - p * 3, 0, p * 3)
    else if p < 170 then Rgb(0, (p - 85) * 3, 255 - (p - 85) * 3)
    else Rgb((p - 170) * 3, 255 - (p - 170) * 3, 0)
  }

  /** Unpack reads back every channel Pack stored. */
  lemma UnpackPack(c: Rgb)
    ensures Unpack(Pack(c)) == c
  {
  }

  /** ColorWheel, packed as the LED buffer stores it. */
  function ColorWheel(pos: uint8): (c: uint32)
    ensures c < 0x100_0000
  {
    Pack(WheelRgb(pos))
  }

  /** The packed wheel colour holds the wheel channels. */
  lemma UnpackColorWheel(pos: uint8)
    ensures Unpack(ColorWheel(pos)) == WheelRgb(pos)
  {
    UnpackPack(WheelRgb(pos));
  }

  const RED: uint32 := 0xFF0000

  /** Both ends of the wheel are pure red, so hue 255 and hue 0 look the same. */
  lemma ColorWheelEndsAtRed()
    ensures ColorWheel(0) == RED && ColorWheel(255) == RED
  {
  }

  function Dist(a: int, b: int): nat { if a < b then b - a else a - b }

  /** Neighbouring hues, including 255 and 0, differ by at most 3 in each channel. */
  lemma {:induction false} WheelContinuous(pos: uint8)
    ensures var a, b := WheelRgb(pos), WheelRgb(U8(pos + 1));
      Dist(a.r, b.r) <= 3 && Dist(a.g, b.g) <= 3 && Dist(a.b, b.b) <= 3
  {
    if pos < 255 {
      assert U8(pos + 1) == pos + 1;
    }
  }

  /**
   * Recovers the hue from wheel channels: the ramp is told apart by which
   * channel is dark, the position on it by the rising channel.
   */
  function HueOf(c: Rgb): uint8
  {
    var p :=
      if c.g == 0 && c.r != 0 then c.b / 3
      else if c.r == 0 then 85 + c.g / 3
      else 170 + c.r / 3;
    255 - p
  }

  /** Hues 1..255 are told apart by their colour; hue 0 repeats hue 255. */
  lemma HueOfColorWheel(pos: uint8)
    requires pos != 0
    ensures HueOf(Unpack(ColorWheel(pos))) == pos
  {
    UnpackColorWheel(pos);
  }

  /** So two different hues in 1..255 always give two different colours. */
  lemma ColorWheelInjective(a: uint8, b: uint8)
    requires a != 0 && b != 0 && a != b
    ensures ColorWheel(a) != ColorWheel(b)
  {
    HueOfColorWheel(a);
    HueOfColorWheel(b);
  }
}
