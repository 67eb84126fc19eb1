/**
 * firmware/reversible_neopixels.hpp and firmware/flippable_led_strip.hpp:
 * two NeoPixel strips that can mirror the digit area for a clock mounted
 * upside down, and fade the whole strip out. They differ only in how they
 * reach the settings (a reference or the static store); both are built
 * here on the same index and brightness functions.
 */
module FlipStrips {
  import opened Ints
  import opened NeoPixel
  import opened SettingsStore

  /** The two blinker LEDs at the end of the strip are never mirrored. */
  const NUM_BLINKER_LEDS: int := 2
  const FADE_STEP: int := 3

  /** The last mirrored pixel: numPixels - 1 - NUM_BLINKER_LEDS, as an `int`. */
  function LastPixelNum(numPixels: uint16): (last: int)
    ensures last == numPixels - 3 && last < numPixels
  {
    numPixels as int - 1 - NUM_BLINKER_LEDS
  }

  /** The index setPixelColor hands on to the base strip. */
  function FlipIndex(flip: bool, numPixels: uint16, n: uint16): (r: uint16)
    ensures !flip ==> r == n
    ensures flip && n as int <= LastPixelNum(numPixels) ==> r as int == LastPixelNum(numPixels) - n
    ensures n as int > LastPixelNum(numPixels) ==> r == n
  {
    var last := LastPixelNum(numPixels);
    if flip && n as int <= last then last - n else n
  }

  /** Mirrored indices stay in 0..last, and above last nothing moves. */
  lemma FlipIndexRange(flip: bool, numPixels: uint16, n: uint16)
    ensures n as int <= LastPixelNum(numPixels) ==> FlipIndex(flip, numPixels, n) as int <= LastPixelNum(numPixels)
    ensures n as int > LastPixelNum(numPixels) ==> FlipIndex(flip, numPixels, n) == n
  {
  }

  /** Mirroring twice is the identity: the flip is an involution, hence a permutation of 0..last. */
  lemma FlipInvolution(flip: bool, numPixels: uint16, n: uint16)
    ensures FlipIndex(flip, numPixels, FlipIndex(flip, numPixels, n)) == n
  {
  }

  /** Distinct pixels are written to distinct places. */
  lemma FlipInjective(flip: bool, numPixels: uint16, n1: uint16, n2: uint16)
    requires FlipIndex(flip, numPixels, n1) == FlipIndex(flip, numPixels, n2)
    ensures n1 == n2
  {
    FlipInvolution(flip, numPixels, n1);
    FlipInvolution(flip, numPixels, n2);
  }

  /** The brightness values the fade loop sets: from b down in steps of 3 while not negative. */
  function FadeSteps(b: int): seq<int>
    decreases b + FADE_STEP
  {
    if b < 0 then [] else [b] + FadeSteps(b - FADE_STEP)
  }

  /** The loop runs b / 3 + 1 times from b >= 0, never sets a negative value, and its last value is b % 3. */
  lemma {:induction false} FadeStepsShape(b: int)
    ensures b < 0 ==> FadeSteps(b) == []
    ensures b >= 0 ==> |FadeSteps(b)| == b / FADE_STEP + 1 && FadeSteps(b)[|FadeSteps(b)| - 1] == b % FADE_STEP
    ensures forall i :: 0 <= i < |FadeSteps(b)| ==> FadeSteps(b)[i] == b - FADE_STEP * i >= 0
    decreases b + FADE_STEP
  {
    if b >= 0 {
      FadeStepsShape(b - FADE_STEP);
      var r, t := FadeSteps(b), FadeSteps(b - FADE_STEP);
      assert r == [b] + t;
      forall i | 1 <= i < |r|
        ensures r[i] == b - FADE_STEP * i >= 0
      {
        assert r[i] == t[i - 1];
      }
    }
  }

  /** Every brightness FadeToOff shows, in order: the loop's values, then the final 0. */
  function FadeLevels(setting: uint32): seq<int>
  {
    FadeSteps(Int32(setting)) + [0]
  }

  /** The fade ends dark and never asks for a negative brightness. */
  lemma FadeEndsDark(setting: uint32)
    ensures |FadeLevels(setting)| >= 1 && FadeLevels(setting)[|FadeLevels(setting)| - 1] == 0
    ensures forall i :: 0 <= i < |FadeLevels(setting)| ==> FadeLevels(setting)[i] >= 0
  {
    FadeStepsShape(Int32(setting));
  }

  /** A show() after each brightness, with the pixels as they are; setBrightness takes a byte. */
  function FadeFrames(levels: seq<int>, px: seq<uint32>): (r: seq<Frame>)
    ensures |r| == |levels|
    ensures forall i :: 0 <= i < |levels| ==> r[i] == Frame(U8(levels[i]), px)
  {
    seq(|levels|, i requires 0 <= i < |levels| => Frame(U8(levels[i]), px))
  }

  /**
   * For the brightness range the app sends, the fade never brightens, and
   * every shown brightness is at most the starting one.
   */
  lemma {:induction false} FadeNeverBrightens(setting: uint32)
    requires setting < 0x100
    ensures var r := FadeLevels(setting);
      (forall i :: 0 <= i < |r| ==> U8(r[i]) == r[i] <= setting) &&
      (forall i, j :: 0 <= i < j < |r| ==> r[j] <= r[i])
  {
    var r := FadeLevels(setting);
    var s := FadeSteps(setting);
    assert Int32(setting) == setting;
    FadeStepsShape(setting);
    assert forall i :: 0 <= i < |s| ==> r[i] == s[i];
  }

  /** A setting of 2^31 or more reads as a negative `int`: the loop does not run and the strip goes dark at once. */
  lemma FadeFromNegative(setting: uint32)
    requires setting >= 0x8000_0000
    ensures FadeLevels(setting) == [0]
  {
    assert FadeSteps(Int32(setting)) == [];
  }

  /**
   * The body of FadeToOff, shared by both strips: the setting is read into
   * an `int`, stepped down by 3 with a show() after each value, then 0.
   */
  method Fade(strip: Strip, setting: uint32)
    modifies strip
    ensures strip.shown == old(strip.shown) + FadeFrames(FadeLevels(setting), strip.pixels[..])
    ensures strip.brightness == 0
  {
    var brightness := Int32(setting);
    ghost var start, px, shown0 := brightness, strip.pixels[..], strip.shown;
    ghost var done: seq<int> := [];
    while brightness >= 0
      invariant FadeSteps(start) == done + FadeSteps(brightness)
      invariant strip.shown == shown0 + FadeFrames(done, px)
      decreases brightness + FADE_STEP
    {
      strip.SetBrightness(U8(brightness));
      strip.Show();
      FadeStepsUnfold(start, done, brightness);
      FadeFramesSnoc(done, brightness, px);
      done := done + [brightness];
      brightness := brightness - FADE_STEP;
    }
    strip.SetBrightness(0);
    strip.Show();
    FadeStepsUnfold(start, done, brightness);
    FadeFramesSnoc(done, 0, px);
  }

  /** One turn of the fade loop, on the values it has set so far. */
  lemma FadeStepsUnfold(start: int, done: seq<int>, b: int)
    requires FadeSteps(start) == done + FadeSteps(b)
    ensures b >= 0 ==> FadeSteps(start) == (done + [b]) + FadeSteps(b - FADE_STEP)
    ensures b < 0 ==> FadeSteps(start) == done
  {
    if b >= 0 {
      assert FadeSteps(b) == [b] + FadeSteps(b - FADE_STEP);
      assert done + ([b] + FadeSteps(b - FADE_STEP)) == (done + [b]) + FadeSteps(b - FADE_STEP);
    } else {
      assert done + [] == done;
    }
  }

  lemma FadeFramesSnoc(levels: seq<int>, b: int, px: seq<uint32>)
    ensures FadeFrames(levels + [b], px) == FadeFrames(levels, px) + [Frame(U8(b), px)]
  {
    assert forall i :: 0 <= i < |levels| ==> (levels + [b])[i] == levels[i];
  }

  class ReversibleNeopixels {
    const strip: Strip
    const settings: Settings
    /** The slot of SETTING_FLIP_DISPLAY, which settings.hpp does not define. */
    const flipSlot: uint8

    ghost predicate Valid()
      reads this, strip, settings
    {
      settings.Valid() && strip.pixels.Length < 0x1_0000 && strip.pixels != settings.storage
    }

    constructor (settings: Settings, strip: Strip, flipSlot: uint8)
      requires settings.Valid() && strip.pixels.Length < 0x1_0000 && strip.pixels != settings.storage
      ensures this.settings == settings && this.strip == strip && this.flipSlot == flipSlot
      ensures Valid()
    {
      this.settings := settings;
      this.strip := strip;
      this.flipSlot := flipSlot;
    }

    function Flipped(): bool
      requires Valid()
      reads this, strip, settings, settings.storage
    {
      settings.Get(flipSlot) != 0
    }

    method SetPixelColor(n: uint16, c: uint32)
      requires Valid()
      modifies strip.pixels
      ensures strip.pixels[..] ==
        Put(old(strip.pixels[..]), FlipIndex(Flipped(), strip.pixels.Length as uint16, n), c)
    {
      var lastPixelNum := strip.pixels.Length - 1 - NUM_BLINKER_LEDS;
      if settings.Get(flipSlot) != 0 && n as int <= lastPixelNum {
        strip.SetPixelColor(lastPixelNum - n, c);
      } else {
        strip.SetPixelColor(n, c);
      }
    }

    method FadeToOff()
      requires Valid()
      modifies strip
      ensures strip.shown == old(strip.shown) +
        FadeFrames(FadeLevels(settings.Get(SETTING_CUR_BRIGHTNESS)), strip.pixels[..])
      ensures strip.brightness == 0
    {
      Fade(strip, settings.Get(SETTING_CUR_BRIGHTNESS));
    }

    method SetToCurrentBrightness()
      requires Valid()
      modifies strip
      ensures strip.brightness == U8(settings.Get(SETTING_CUR_BRIGHTNESS))
      ensures strip.shown == old(strip.shown) + [Frame(strip.brightness, strip.pixels[..])]
    {
      strip.SetBrightness(U8(settings.Get(SETTING_CUR_BRIGHTNESS)));
      strip.Show();
    }
  }

  /** The variant that reads the static settings store: the same behaviour. */
  class FlippableLedStrip {
    const strip: Strip
    const settings: Settings
    const flipSlot: uint8

    ghost predicate Valid()
      reads this, strip, settings
    {
      settings.Valid() && strip.pixels.Length < 0x1_0000 && strip.pixels != settings.storage
    }

    constructor (settings: Settings, strip: Strip, flipSlot: uint8)
      requires settings.Valid() && strip.pixels.Length < 0x1_0000 && strip.pixels != settings.storage
      ensures this.settings == settings && this.strip == strip && this.flipSlot == flipSlot
      ensures Valid()
    {
      this.settings := settings;
      this.strip := strip;
      this.flipSlot := flipSlot;
    }

    method SetPixelColor(n: uint16, c: uint32)
      requires Valid()
      modifies strip.pixels
      ensures strip.pixels[..] ==
        Put(old(strip.pixels[..]), FlipIndex(settings.Get(flipSlot) != 0, strip.pixels.Length as uint16, n), c)
    {
      var lastPixelNum := strip.pixels.Length - 1 - NUM_BLINKER_LEDS;
      if settings.Get(flipSlot) != 0 && n as int <= lastPixelNum {
        strip.SetPixelColor(lastPixelNum - n, c);
      } else {
        strip.SetPixelColor(n, c);
      }
    }

    method FadeToOff()
      requires Valid()
      modifies strip
      ensures strip.shown == old(strip.shown) +
        FadeFrames(FadeLevels(settings.Get(SETTING_CUR_BRIGHTNESS)), strip.pixels[..])
      ensures strip.brightness == 0
    {
      Fade(strip, settings.Get(SETTING_CUR_BRIGHTNESS));
    }

    method SetToCurrentBrightness()
      requires Valid()
      modifies strip
      ensures strip.brightness == U8(settings.Get(SETTING_CUR_BRIGHTNESS))
      ensures strip.shown == old(strip.shown) + [Frame(strip.brightness, strip.pixels[..])]
    {
      strip.SetBrightness(U8(settings.Get(SETTING_CUR_BRIGHTNESS)));
      strip.Show();
    }
  }
}
