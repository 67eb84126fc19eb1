/**
 * firmware/digit_manager.hpp: the six digits of the display, one cell of
 * LEDS_PER_DIGIT pixels each, and the six numerals they show.
 */
module DigitMgr {
  import opened Ints
  import opened NeoPixel
  import opened Digits
  import opened SettingsStore

  const NUM_DIGITS: nat := 6
  /** Pixels 0..DISPLAY_PIXELS-1 hold the six cells (DIGIT_1_LED = 0 .. DIGIT_6_LED = 100). */
  const DISPLAY_PIXELS: nat := 120

  /** LEDNumbers_e: the first pixel of digit `i`, counted from the left. */
  function FirstLed(i: nat): nat
  {
    i * LEDS_PER_DIGIT
  }

  /** CreateDigit's choice of class: digit type 1 is edge-lit, every other value the pixel display. */
  function StyleFor(digitType: uint32): Style
  {
    if digitType == 1 then EdgeLit else Pixel
  }

  /** The images the six digits draw for the given styles, numerals and colours. */
  function ImagesOf(styles: seq<Style>, nums: seq<uint8>, colors: seq<uint32>): (imgs: seq<seq<uint32>>)
    requires |styles| == |nums| == |colors|
    ensures |imgs| == |nums|
    ensures forall k :: 0 <= k < |imgs| ==> |imgs[k]| == LEDS_PER_DIGIT
  {
    seq(|nums|, k requires 0 <= k < |nums| => CellImage(styles[k], nums[k], colors[k]))
  }

  predicate CellSized(imgs: seq<seq<uint32>>)
  {
    forall k :: 0 <= k < |imgs| ==> |imgs[k]| == LEDS_PER_DIGIT
  }

  /** The strip after digit k draws imgs[k] into its cell, for k = 0, 1, ... in order. */
  function PaintCells(s: seq<uint32>, imgs: seq<seq<uint32>>): (r: seq<uint32>)
    requires CellSized(imgs) && |imgs| * LEDS_PER_DIGIT <= |s|
    ensures |r| == |s|
    decreases |imgs|
  {
    if imgs == [] then s
    else
      var n := |imgs| - 1;
      Splice(PaintCells(s, imgs[..n]), FirstLed(n), imgs[n])
  }

  /**
   * After the digits draw, pixel 20*i + j shows pixel j of digit i's image,
   * and every pixel past the painted cells keeps its value.
   */
  lemma {:induction false} PaintCellsAt(s: seq<uint32>, imgs: seq<seq<uint32>>, p: nat)
    requires CellSized(imgs) && |imgs| * LEDS_PER_DIGIT <= |s| && p < |s|
    ensures PaintCells(s, imgs)[p] ==
      if p < |imgs| * LEDS_PER_DIGIT then imgs[p / LEDS_PER_DIGIT][p % LEDS_PER_DIGIT] else s[p]
    decreases |imgs|
  {
    if imgs != [] {
      var n := |imgs| - 1;
      PaintCellsAt(s, imgs[..n], p);
      if FirstLed(n) <= p < FirstLed(n) + LEDS_PER_DIGIT {
        assert p / LEDS_PER_DIGIT == n;
      }
    }
  }

  /** Painting one more cell is splicing its image over the strip painted so far. */
  lemma PaintNext(s: seq<uint32>, imgs: seq<seq<uint32>>, i: nat)
    requires CellSized(imgs) && |imgs| * LEDS_PER_DIGIT <= |s| && i < |imgs|
    ensures PaintCells(s, imgs[..i + 1]) == Splice(PaintCells(s, imgs[..i]), FirstLed(i), imgs[i])
  {
    var pre := imgs[..i + 1];
    assert CellSized(pre) && |pre| == i + 1 && pre[i] == imgs[i];
    assert pre[..i] == imgs[..i];
    assert PaintCells(s, pre) == Splice(PaintCells(s, pre[..i]), FirstLed(i), pre[i]);
  }

  /** Overwriting entry i of a target-prefix/original-suffix split extends the prefix. */
  lemma PrefixStep(target: seq<uint32>, orig: seq<uint32>, i: nat)
    requires |target| == |orig| && i < |target|
    ensures (target[..i] + orig[i..])[i := target[i]] == target[..i + 1] + orig[i + 1..]
  {
  }

  class DigitManager {
    const strip: Strip
    const settings: Settings
    var digits: seq<Digit>
    /** The numeral shown by each digit; callers write it directly. */
    var numbers: seq<uint8>

    ghost predicate Valid()
      reads this
    {
      strip.pixels.Length >= DISPLAY_PIXELS && settings.Valid() &&
      |digits| == NUM_DIGITS && |numbers| == NUM_DIGITS &&
      forall i :: 0 <= i < NUM_DIGITS ==> digits[i].strip == strip && digits[i].first == FirstLed(i)
    }

    function Styles(): seq<Style>
      reads this
    {
      seq(|digits|, i requires 0 <= i < |digits| reads this => digits[i].style)
    }

    function Colors(): seq<uint32>
      reads this, digits
    {
      seq(|digits|, i requires 0 <= i < |digits| reads this, digits => digits[i].color)
    }

    /** A new manager shows six zeros in digits made from the current settings. */
    constructor (strip: Strip, settings: Settings)
      requires strip.pixels.Length >= DISPLAY_PIXELS && settings.Valid()
      ensures Valid() && this.strip == strip && this.settings == settings
      ensures numbers == [0, 0, 0, 0, 0, 0]
      ensures forall i :: 0 <= i < NUM_DIGITS ==> fresh(digits[i])
      ensures forall i :: 0 <= i < NUM_DIGITS ==>
        digits[i].style == StyleFor(settings.Get(SETTING_DIGIT_TYPE)) &&
        digits[i].color == settings.Get(SETTING_COLOR)
    {
      this.strip := strip;
      this.settings := settings;
      numbers := [0, 0, 0, 0, 0, 0];
      digits := [];
      new;
      CreateDigitDisplay();
    }

    /**
     * Replaces every digit by a new one of the style the digit-type setting
     * selects, coloured with the raw colour setting (not its wheel colour).
     */
    method CreateDigitDisplay()
      requires strip.pixels.Length >= DISPLAY_PIXELS && settings.Valid() && |numbers| == NUM_DIGITS
      modifies this
      ensures Valid() && numbers == old(numbers)
      ensures forall i :: 0 <= i < NUM_DIGITS ==> fresh(digits[i])
      ensures forall i :: 0 <= i < NUM_DIGITS ==>
        digits[i].style == StyleFor(settings.Get(SETTING_DIGIT_TYPE)) &&
        digits[i].color == settings.Get(SETTING_COLOR)
    {
      digits := [];
      var i := 0;
      while i < NUM_DIGITS
        invariant 0 <= i <= NUM_DIGITS && |digits| == i && numbers == old(numbers)
        invariant forall k :: 0 <= k < i ==> fresh(digits[k])
        invariant forall k :: 0 <= k < i ==> digits[k].strip == strip && digits[k].first == FirstLed(k)
        invariant forall k :: 0 <= k < i ==> digits[k].style == StyleFor(settings.Get(SETTING_DIGIT_TYPE))
        invariant forall k :: 0 <= k < i ==> digits[k].color == settings.Get(SETTING_COLOR)
      {
        var d := CreateDigit(FirstLed(i));
        digits := digits + [d];
        i := i + 1;
      }
    }

    method CreateDigit(firstLed: nat) returns (d: Digit)
      requires settings.Valid()
      ensures fresh(d) && d.strip == strip && d.first == firstLed
      ensures d.style == StyleFor(settings.Get(SETTING_DIGIT_TYPE))
      ensures d.color == settings.Get(SETTING_COLOR)
    {
      if settings.Get(SETTING_DIGIT_TYPE) == 1 {
        d := new Digit(strip, firstLed, EdgeLit, settings.Get(SETTING_COLOR));
      } else {
        d := new Digit(strip, firstLed, Pixel, settings.Get(SETTING_COLOR));
      }
    }

    /** Digit i draws numbers[i], i = 0..5; nothing outside the six cells is written. */
    method Draw()
      requires Valid()
      modifies strip.pixels
      ensures strip.pixels[..] == PaintCells(old(strip.pixels[..]), ImagesOf(Styles(), numbers, Colors()))
    {
      ghost var imgs := ImagesOf(Styles(), numbers, Colors());
      ghost var s0 := strip.pixels[..];
      var i := 0;
      while i < NUM_DIGITS
        invariant 0 <= i <= NUM_DIGITS
        invariant strip.pixels[..] == PaintCells(s0, imgs[..i])
      {
        assert digits[i].Valid();
        assert imgs[i] == CellImage(digits[i].style, numbers[i] as int, digits[i].color);
        PaintNext(s0, imgs, i);
        digits[i].Draw(numbers[i] as int);
        i := i + 1;
      }
      assert imgs[..NUM_DIGITS] == imgs;
    }

    /** Changes digit k's colour only: the other digits and every pixel are unchanged. */
    method SetDigitColor(k: nat, color: uint32)
      requires Valid() && k < NUM_DIGITS
      modifies digits[k]
      ensures Colors() == old(Colors())[k := color]
    {
      digits[k].SetColor(color);
      assert forall i :: 0 <= i < NUM_DIGITS && i != k ==> digits[i] != digits[k] by {
        forall i | 0 <= i < NUM_DIGITS && i != k ensures digits[i] != digits[k] {
          assert digits[i].first != digits[k].first;
        }
      }
    }
  }
}
