/**
 * firmware/digit.hpp: the two kinds of digit that draw one numeral into a
 * cell of LEDS_PER_DIGIT consecutive pixels of the LED strip.
 */
module Digits {
  import opened Ints
  import opened NeoPixel

  const LEDS_PER_DIGIT: nat := 20
  const OFF_COLOR: uint32 := 0
  /** The numeral that draws nothing (a blank cell). */
  const INVALID: uint8 := 0xFF

  /**
   * DisplayDigit::NUMBERS, one row of LEDS_PER_DIGIT on/off cells per numeral
   * 0..9; row `num` is the block the source finds at NUMBERS + num * LEDS_PER_DIGIT.
   */
  const NUMBERS: seq<seq<uint8>> := [
    /* 0 */ [1, 0, 1, 1, 0, 0, 1, 1, 0, 0, 1, 1, 0, 0, 1, 1, 1, 0, 0, 0],
    /* 1 */ [1, 0, 1, 0, 1, 0, 0, 0, 1, 0, 0, 0, 1, 0, 0, 0, 1, 0, 0, 0],
    /* 2 */ [1, 0, 1, 1, 0, 0, 0, 1, 1, 0, 1, 0, 0, 0, 1, 1, 0, 0, 0, 0],
    /* 3 */ [1, 0, 1, 1, 0, 0, 0, 1, 1, 0, 0, 1, 0, 0, 1, 1, 1, 0, 0, 0],
    /* 4 */ [0, 0, 1, 1, 0, 0, 1, 1, 1, 0, 0, 1, 0, 0, 0, 1, 0, 0, 0, 1],
    /* 5 */ [0, 0, 1, 1, 0, 0, 1, 0, 1, 0, 0, 1, 0, 0, 1, 1, 1, 0, 0, 0],
    /* 6 */ [1, 0, 1, 0, 0, 0, 1, 0, 1, 0, 1, 1, 0, 0, 1, 1, 1, 0, 0, 0],
    /* 7 */ [1, 0, 1, 1, 0, 0, 0, 1, 0, 0, 0, 1, 0, 0, 0, 1, 0, 0, 0, 1],
    /* 8 */ [1, 0, 1, 1, 0, 0, 1, 1, 1, 0, 1, 1, 0, 0, 1, 1, 1, 0, 0, 0],
    /* 9 */ [1, 0, 1, 1, 0, 0, 1, 1, 1, 0, 0, 1, 0, 0, 0, 1, 1, 0, 0, 0]
  ]

  /** The two physical digit styles: EdgeLitDigit and DisplayDigit. */
  datatype Style = EdgeLit | Pixel

  /** A cell with every pixel off. */
  function Blank(): (img: seq<uint32>)
    ensures |img| == LEDS_PER_DIGIT
    ensures forall i :: 0 <= i < LEDS_PER_DIGIT ==> img[i] == OFF_COLOR
  {
    seq(LEDS_PER_DIGIT, _ => OFF_COLOR)
  }

  /** The strip `s` with its pixels first..first+|img|-1 replaced by `img`. */
  function Splice(s: seq<uint32>, first: int, img: seq<uint32>): (r: seq<uint32>)
    requires 0 <= first && first + |img| <= |s|
    ensures |r| == |s|
    ensures forall k :: 0 <= k < |s| ==>
      r[k] == if first <= k < first + |img| then img[k - first] else s[k]
  {
    s[..first] + img + s[first + |img|..]
  }

  /** Writing the next pixel of an image extends the painted prefix by one. */
  lemma SpliceStep(s: seq<uint32>, first: int, img: seq<uint32>, i: nat)
    requires 0 <= first && i < |img| && first + |img| <= |s|
    ensures Put(Splice(s, first, img[..i]), first + i, img[i]) == Splice(s, first, img[..i + 1])
  {
    var a := Put(Splice(s, first, img[..i]), first + i, img[i]);
    var b := Splice(s, first, img[..i + 1]);
    assert forall k :: 0 <= k < |s| ==> a[k] == b[k];
  }

  /** What EdgeLitDigit::Draw leaves in its cell: all off, then the LED pair of row 10 - num. */
  function EdgeLitImage(num: int, color: uint32): (img: seq<uint32>)
    ensures |img| == LEDS_PER_DIGIT
  {
    if 0 <= num <= 9 then
      var row := 10 - num;
      Blank()[row * 2 - 2 := color][row * 2 - 1 := color]
    else
      Blank()
  }

  /** What DisplayDigit::Draw leaves in its cell: the bitmap of `num`, or all off. */
  function PixelImage(num: int, color: uint32): (img: seq<uint32>)
    ensures |img| == LEDS_PER_DIGIT
  {
    if 0 <= num <= 9 then
      seq(LEDS_PER_DIGIT, i requires 0 <= i < LEDS_PER_DIGIT =>
        if NUMBERS[num][i] == 0 then OFF_COLOR else color)
    else
      Blank()
  }

  function CellImage(style: Style, num: int, color: uint32): (img: seq<uint32>)
    ensures |img| == LEDS_PER_DIGIT
  {
    match style
    case EdgeLit => EdgeLitImage(num, color)
    case Pixel => PixelImage(num, color)
  }

  /** An edge-lit numeral lights exactly the pixel pair 18 - 2*num and 19 - 2*num. */
  lemma EdgeLitLightsOnePair(num: int, color: uint32, i: int)
    requires 0 <= num <= 9 && 0 <= i < LEDS_PER_DIGIT
    ensures EdgeLitImage(num, color)[i] ==
      if i == 18 - 2 * num || i == 19 - 2 * num then color else OFF_COLOR
  {
  }

  /** Either style leaves the whole cell off for a numeral outside 0..9, INVALID included. */
  lemma OutOfRangeIsBlank(style: Style, num: int, color: uint32)
    requires !(0 <= num <= 9)
    ensures CellImage(style, num, color) == Blank()
  {
  }

  /** The first pixel of `img` at or after `k` that shows `c`, or |img| if none does. */
  function FirstLit(img: seq<uint32>, c: uint32, k: nat): (i: nat)
    requires k <= |img|
    ensures k <= i <= |img|
    decreases |img| - k
  {
    if k == |img| then k
    else if img[k] == c then k
    else FirstLit(img, c, k + 1)
  }

  /** The first numeral at or after `n` whose bitmap in colour `c` is `img`, or INVALID. */
  function MatchNumeral(img: seq<uint32>, c: uint32, n: nat): int
    decreases 10 - n
  {
    if n > 9 then INVALID
    else if img == PixelImage(n, c) then n
    else MatchNumeral(img, c, n + 1)
  }

  /**
   * The numeral a viewer reads off a cell drawn in colour `c`: for edge-lit
   * digits the row of the first lit pixel, for pixel digits the bitmap shown.
   */
  function ReadCell(style: Style, img: seq<uint32>, c: uint32): int
  {
    match style
    case EdgeLit =>
      var i := FirstLit(img, c, 0);
      if i < 20 && i % 2 == 0 then (18 - i) / 2 else INVALID
    case Pixel => MatchNumeral(img, c, 0)
  }

  lemma {:induction false} FirstLitAt(img: seq<uint32>, c: uint32, k: nat, j: nat)
    requires k <= j <= |img|
    requires j < |img| ==> img[j] == c
    requires forall i :: k <= i < j ==> img[i] != c
    ensures FirstLit(img, c, k) == j
    decreases j - k
  {
    if k < j {
      FirstLitAt(img, c, k + 1, j);
    }
  }

  lemma {:induction false} MatchNumeralAt(img: seq<uint32>, c: uint32, k: nat, n: int)
    requires k <= n && (n <= 9 || n == INVALID)
    requires n <= 9 ==> img == PixelImage(n, c)
    requires forall m :: k <= m <= 9 && m < n ==> img != PixelImage(m, c)
    ensures MatchNumeral(img, c, k) == n
    decreases 10 - k
  {
    if k <= 9 && k < n {
      MatchNumeralAt(img, c, k + 1, n);
    }
  }

  /** Every pixel-digit bitmap lights pixel 2, so no numeral looks blank. */
  lemma PixelImageNotBlank(n: int, c: uint32)
    requires 0 <= n <= 9 && c != OFF_COLOR
    ensures PixelImage(n, c) != Blank()
  {
    assert NUMBERS[n][2] == 1 by {
      if n == 0 {} else if n == 1 {} else if n == 2 {} else if n == 3 {} else if n == 4 {}
      else if n == 5 {} else if n == 6 {} else if n == 7 {} else if n == 8 {} else {}
    }
    assert PixelImage(n, c)[2] != Blank()[2];
  }

  /** No two numerals share a bitmap. */
  lemma PixelImagesDiffer(m: int, n: int, c: uint32)
    requires 0 <= m < n <= 9 && c != OFF_COLOR
    ensures PixelImage(m, c) != PixelImage(n, c)
  {
    if m < 3 {
      LowPixelImagesDiffer(m, n, c);
    } else {
      HighPixelImagesDiffer(m, n, c);
    }
  }

  /** Two bitmaps that disagree on whether cell p is lit give different images. */
  lemma DifferAt(m: int, n: int, c: uint32, p: int)
    requires 0 <= m <= 9 && 0 <= n <= 9 && 0 <= p < LEDS_PER_DIGIT && c != OFF_COLOR
    requires (NUMBERS[m][p] == 0) != (NUMBERS[n][p] == 0)
    ensures PixelImage(m, c) != PixelImage(n, c)
  {
    assert PixelImage(m, c)[p] != PixelImage(n, c)[p];
  }

  /** PixelImagesDiffer for the numerals 0, 1 and 2 against every later one. */
  lemma LowPixelImagesDiffer(m: int, n: int, c: uint32)
    requires 0 <= m < 3 && m < n <= 9 && c != OFF_COLOR
    ensures PixelImage(m, c) != PixelImage(n, c)
  {
    if m == 0 && n == 1 {
      DifferAt(0, 1, c, 3);
    } else if m == 0 && n == 2 {
      DifferAt(0, 2, c, 6);
    } else if m == 0 && n == 3 {
      DifferAt(0, 3, c, 6);
    } else if m == 0 && n == 4 {
      DifferAt(0, 4, c, 0);
    } else if m == 0 && n == 5 {
      DifferAt(0, 5, c, 0);
    } else if m == 0 && n == 6 {
      DifferAt(0, 6, c, 3);
    } else if m == 0 && n == 7 {
      DifferAt(0, 7, c, 6);
    } else if m == 0 && n == 8 {
      DifferAt(0, 8, c, 8);
    } else if m == 0 && n == 9 {
      DifferAt(0, 9, c, 8);
    } else if m == 1 && n == 2 {
      DifferAt(1, 2, c, 3);
    } else if m == 1 && n == 3 {
      DifferAt(1, 3, c, 3);
    } else if m == 1 && n == 4 {
      DifferAt(1, 4, c, 0);
    } else if m == 1 && n == 5 {
      DifferAt(1, 5, c, 0);
    } else if m == 1 && n == 6 {
      DifferAt(1, 6, c, 4);
    } else if m == 1 && n == 7 {
      DifferAt(1, 7, c, 3);
    } else if m == 1 && n == 8 {
      DifferAt(1, 8, c, 3);
    } else if m == 1 && n == 9 {
      DifferAt(1, 9, c, 3);
    } else if m == 2 && n == 3 {
      DifferAt(2, 3, c, 10);
    } else if m == 2 && n == 4 {
      DifferAt(2, 4, c, 0);
    } else if m == 2 && n == 5 {
      DifferAt(2, 5, c, 0);
    } else if m == 2 && n == 6 {
      DifferAt(2, 6, c, 3);
    } else if m == 2 && n == 7 {
      DifferAt(2, 7, c, 8);
    } else if m == 2 && n == 8 {
      DifferAt(2, 8, c, 6);
    } else if m == 2 && n == 9 {
      DifferAt(2, 9, c, 6);
    }
  }

  /** PixelImagesDiffer for the numerals 3 to 8 against every later one. */
  lemma HighPixelImagesDiffer(m: int, n: int, c: uint32)
    requires 3 <= m < n <= 9 && c != OFF_COLOR
    ensures PixelImage(m, c) != PixelImage(n, c)
  {
    if m == 3 && n == 4 {
      DifferAt(3, 4, c, 0);
    } else if m == 3 && n == 5 {
      DifferAt(3, 5, c, 0);
    } else if m == 3 && n == 6 {
      DifferAt(3, 6, c, 3);
    } else if m == 3 && n == 7 {
      DifferAt(3, 7, c, 8);
    } else if m == 3 && n == 8 {
      DifferAt(3, 8, c, 6);
    } else if m == 3 && n == 9 {
      DifferAt(3, 9, c, 6);
    } else if m == 4 && n == 5 {
      DifferAt(4, 5, c, 7);
    } else if m == 4 && n == 6 {
      DifferAt(4, 6, c, 0);
    } else if m == 4 && n == 7 {
      DifferAt(4, 7, c, 0);
    } else if m == 4 && n == 8 {
      DifferAt(4, 8, c, 0);
    } else if m == 4 && n == 9 {
      DifferAt(4, 9, c, 0);
    } else if m == 5 && n == 6 {
      DifferAt(5, 6, c, 0);
    } else if m == 5 && n == 7 {
      DifferAt(5, 7, c, 0);
    } else if m == 5 && n == 8 {
      DifferAt(5, 8, c, 0);
    } else if m == 5 && n == 9 {
      DifferAt(5, 9, c, 0);
    } else if m == 6 && n == 7 {
      DifferAt(6, 7, c, 3);
    } else if m == 6 && n == 8 {
      DifferAt(6, 8, c, 3);
    } else if m == 6 && n == 9 {
      DifferAt(6, 9, c, 3);
    } else if m == 7 && n == 8 {
      DifferAt(7, 8, c, 6);
    } else if m == 7 && n == 9 {
      DifferAt(7, 9, c, 6);
    } else if m == 8 && n == 9 {
      DifferAt(8, 9, c, 10);
    }
  }

  /**
   * Drawing then reading a cell gives the numeral back: every numeral 0..9
   * is visible and distinct in both styles, and anything else reads as blank.
   */
  lemma ReadDrawnCell(style: Style, num: int, c: uint32)
    requires c != OFF_COLOR
    ensures ReadCell(style, CellImage(style, num, c), c) == if 0 <= num <= 9 then num else INVALID
  {
    var img := CellImage(style, num, c);
    match style
    case EdgeLit =>
      if 0 <= num <= 9 {
        FirstLitAt(img, c, 0, 18 - 2 * num);
      } else {
        FirstLitAt(img, c, 0, LEDS_PER_DIGIT);
      }
    case Pixel =>
      if 0 <= num <= 9 {
        forall m | 0 <= m < num ensures img != PixelImage(m, c) {
          PixelImagesDiffer(m, num, c);
        }
        MatchNumeralAt(img, c, 0, num);
      } else {
        forall m | 0 <= m <= 9 ensures img != PixelImage(m, c) {
          PixelImageNotBlank(m, c);
        }
        MatchNumeralAt(img, c, 0, INVALID);
      }
  }

  class Digit {
    const strip: Strip
    const first: int
    const style: Style
    var color: uint32

    /** The cell lies inside the strip. */
    ghost predicate Valid()
    {
      0 <= first && first + LEDS_PER_DIGIT <= strip.pixels.Length
    }

    constructor (strip: Strip, first: int, style: Style, color: uint32)
      ensures this.strip == strip && this.first == first && this.style == style
      ensures this.color == color
    {
      this.strip := strip;
      this.first := first;
      this.style := style;
      this.color := color;
    }

    /** Turns the cell's LEDS_PER_DIGIT pixels off and touches no other pixel. */
    method AllOff()
      requires Valid()
      modifies strip.pixels
      ensures strip.pixels[..] == Splice(old(strip.pixels[..]), first, Blank())
    {
      var i := 0;
      while i < LEDS_PER_DIGIT
        invariant 0 <= i <= LEDS_PER_DIGIT
        invariant strip.pixels[..] == Splice(old(strip.pixels[..]), first, Blank()[..i])
      {
        SpliceStep(old(strip.pixels[..]), first, Blank(), i);
        strip.SetPixelColor(first + i, OFF_COLOR);
        i := i + 1;
      }
      assert Blank()[..LEDS_PER_DIGIT] == Blank();
    }

    /** Changes the colour of later draws only: no pixel is written. */
    method SetColor(newColor: uint32)
      modifies this
      ensures color == newColor
    {
      color := newColor;
    }

    method GetColor() returns (c: uint32)
      ensures c == color
    {
      c := color;
    }

    /** Draws `num` into the cell in the current colour; the rest of the strip is untouched. */
    method Draw(num: int)
      requires Valid()
      modifies strip.pixels
      ensures strip.pixels[..] == Splice(old(strip.pixels[..]), first, CellImage(style, num, color))
    {
      match style
      case EdgeLit => DrawEdgeLit(num);
      case Pixel => DrawPixel(num);
    }

    /** EdgeLitDigit::Draw */
    method DrawEdgeLit(num: int)
      requires Valid()
      modifies strip.pixels
      ensures strip.pixels[..] == Splice(old(strip.pixels[..]), first, EdgeLitImage(num, color))
    {
      AllOff();
      if 0 <= num <= 9 {
        var row := 10 - num;
        strip.SetPixelColor(first + row * 2 - 2, color);
        strip.SetPixelColor(first + row * 2 - 1, color);
        var want := Splice(old(strip.pixels[..]), first, EdgeLitImage(num, color));
        assert forall k :: 0 <= k < strip.pixels.Length ==> strip.pixels[k] == want[k];
      }
    }

    /** DisplayDigit::Draw */
    method DrawPixel(num: int)
      requires Valid()
      modifies strip.pixels
      ensures strip.pixels[..] == Splice(old(strip.pixels[..]), first, PixelImage(num, color))
    {
      if 0 <= num <= 9 {
        ghost var img := PixelImage(num, color);
        var i := 0;
        while i < LEDS_PER_DIGIT
          invariant 0 <= i <= LEDS_PER_DIGIT
          invariant strip.pixels[..] == Splice(old(strip.pixels[..]), first, img[..i])
        {
          LightCell(num, i, old(strip.pixels[..]));
          i := i + 1;
        }
        assert img[..LEDS_PER_DIGIT] == img;
      } else {
        AllOff();
      }
    }

    /** One pass of DisplayDigit::Draw's loop: cell i is lit or turned off as the bitmap says. */
    method LightCell(num: int, i: nat, ghost s0: seq<uint32>)
      requires Valid() && 0 <= num <= 9 && i < LEDS_PER_DIGIT && |s0| == strip.pixels.Length
      requires strip.pixels[..] == Splice(s0, first, PixelImage(num, color)[..i])
      modifies strip.pixels
      ensures strip.pixels[..] == Splice(s0, first, PixelImage(num, color)[..i + 1])
    {
      var col := if NUMBERS[num][i] == 0 then OFF_COLOR else color;
      assert col == PixelImage(num, color)[i];
      SpliceStep(s0, first, PixelImage(num, color), i);
      strip.SetPixelColor(first + i, col);
    }
  }
}
