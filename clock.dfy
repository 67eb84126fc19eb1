/**
 * firmware/clock.hpp: turns the latched RTC time into the six numerals,
 * colours the digits (cycling the colour setting when the cycle animation
 * is on), blinks the separator LEDs and flushes the strip, at most once a
 * second unless forced.
 */
module Clocks {
  import opened Ints
  import opened NeoPixel
  import opened Color
  import opened SettingsStore
  import opened RtcHal
  import opened Digits
  import opened DigitMgr
  import opened Animators

  /** ClockState_e: the set-time mode shows the time without reading the RTC. */
  datatype ClockState = Normal | SetTime

  /** The hour the display shows: the 24-hour value, or the 12-hour dial value. */
  function ShownHour(mode24: bool, hour: nat): nat
  {
    if mode24 then hour else To12Hour(hour)
  }

  /** The numerals UpdateDigits writes for time `t`: tens and units of hour, minute and second. */
  function TimeNumbers(mode24: bool, t: RtcRecord): (n: seq<uint8>)
    ensures |n| == NUM_DIGITS
  {
    var h := ShownHour(mode24, t.hour);
    var tens := U8(h / 10);
    [if !mode24 && tens == 0 then INVALID else tens, U8(h % 10),
     U8(t.minute / 10), U8(t.minute % 10),
     U8(t.seconds / 10), U8(t.seconds % 10)]
  }

  /** What a reader takes a numeral to mean: a blank leading digit counts as 0. */
  function DigitValue(n: uint8): nat
  {
    if n == INVALID then 0 else n
  }

  /**
   * For a time of day in range, every numeral is a decimal digit (the
   * leading one may be blank), the pairs read back as the shown hour, the
   * minute and the second, and the leading digit is blank exactly for a
   * one-digit hour in 12-hour mode.
   */
  lemma TimeNumbersReadBack(mode24: bool, t: RtcRecord)
    requires t.hour < 24 && t.minute < 60 && t.seconds < 60
    ensures var n := TimeNumbers(mode24, t);
      (forall i :: 1 <= i < NUM_DIGITS ==> n[i] <= 9) &&
      (n[0] <= 2 || n[0] == INVALID) &&
      10 * DigitValue(n[0]) + n[1] == ShownHour(mode24, t.hour) &&
      10 * n[2] + n[3] == t.minute &&
      10 * n[4] + n[5] == t.seconds &&
      (n[0] == INVALID <==> !mode24 && ShownHour(mode24, t.hour) < 10)
  {
    TwoDigits(ShownHour(mode24, t.hour));
    TwoDigits(t.minute);
    TwoDigits(t.seconds);
  }

  /** A value below 100 is its tens digit times ten plus its units digit. */
  lemma TwoDigits(v: nat)
    requires v < 100
    ensures U8(v / 10) <= 9 && U8(v % 10) <= 9 && 10 * U8(v / 10) + U8(v % 10) == v
  {
  }

  /** The colour UpdateDigits gives digit i from colour setting `c0`. */
  function ClockColor(cycling: bool, normal: bool, c0: uint32, i: nat): uint32
  {
    if !normal then ColorWheel(0)
    else if cycling then ColorWheel(U8(c0 + CYCLE_STEP * (i + 1)))
    else ColorWheel(U8(c0))
  }

  /** The digit colours UpdateDigits sets from colour setting `c0`. */
  function ClockColors(cycling: bool, normal: bool, c0: uint32): seq<uint32>
  {
    seq(NUM_DIGITS, i requires 0 <= i => ClockColor(cycling, normal, c0, i))
  }

  /** The colour setting after UpdateDigits: six unsigned 32-bit steps of 16 when cycling. */
  function ColorSettingAfter(cycling: bool, c0: uint32): uint32
  {
    if cycling then U32(c0 + CYCLE_STEP * NUM_DIGITS) else c0
  }

  /**
   * The clock's own cycling gives the digits the colours AnimatorCycleAll
   * would give them from a counter equal to the colour setting's low byte,
   * and leaves that low byte where the animator leaves its counter.
   */
  lemma ClockCycleMatchesAnimator(c0: uint32)
    ensures ClockColors(true, true, c0) == CycleColors(U8(c0))
    ensures U8(ColorSettingAfter(true, c0)) == NextCounter(U8(c0))
  {
    forall i | 0 <= i < NUM_DIGITS
      ensures ClockColors(true, true, c0)[i] == CycleColors(U8(c0))[i]
    {
      U8Add(c0, CYCLE_STEP * (i + 1));
    }
    U8OfU32(c0 + CYCLE_STEP * NUM_DIGITS);
    U8Add(c0, CYCLE_STEP * NUM_DIGITS);
  }

  /** The colour setting after `i` passes of the colour loop. */
  function StepColor(cycling: bool, c0: uint32, i: nat): uint32
  {
    if cycling then U32(c0 + CYCLE_STEP * i) else c0
  }

  lemma StepColorNext(cycling: bool, c0: uint32, i: nat)
    ensures StepColor(cycling, c0, i + 1) ==
      if cycling then U32(StepColor(cycling, c0, i) + CYCLE_STEP) else StepColor(cycling, c0, i)
  {
    U32Add(c0 + CYCLE_STEP * i, CYCLE_STEP);
  }

  /** Digit i's colour is the wheel colour of the setting after i + 1 loop passes. */
  lemma ClockColorAt(cycling: bool, normal: bool, c0: uint32, i: nat)
    requires i < NUM_DIGITS
    ensures ClockColors(cycling, normal, c0)[i] ==
      if normal then ColorWheel(U8(StepColor(cycling, c0, i + 1))) else ColorWheel(0)
  {
    U8OfU32(c0 + CYCLE_STEP * (i + 1));
  }

  /** DigitSeparatorLEDs_e: the LEDs blinked between the digit pairs. */
  function SeparatorLeds(digitType: uint32): seq<int>
  {
    if digitType == 1 then [120, 121] else [25, 33, 65, 73]
  }

  /** The separator colour: the wheel colour on even seconds, off on odd ones. */
  function SeparatorColor(colorSetting: uint32, second: nat): uint32
  {
    if second % 2 != 0 then 0 else ColorWheel(U8(colorSetting))
  }

  /** The strip after BlinkDigitSeparators: only blinking mode 1 writes the separator LEDs. */
  function Separators(s: seq<uint32>, digitType: uint32, blink: uint32, colorSetting: uint32, second: nat)
    : seq<uint32>
  {
    if blink != 1 then s else PutAll(s, SeparatorLeds(digitType), SeparatorColor(colorSetting, second))
  }

  /**
   * A separator LED never falls on a pixel a numeral lights: edge-lit
   * separators lie past the six cells, and the pixel-display separators sit
   * at cell positions 5 and 13, which no bitmap uses.
   */
  lemma SeparatorsAvoidNumerals(digitType: uint32, num: int, color: uint32, p: int)
    requires p in SeparatorLeds(digitType)
    ensures p >= DISPLAY_PIXELS ||
      (p >= 0 && CellImage(StyleFor(digitType), num, color)[p % LEDS_PER_DIGIT] == OFF_COLOR)
  {
    if digitType != 1 && 0 <= num <= 9 {
      assert p % LEDS_PER_DIGIT == 5 || p % LEDS_PER_DIGIT == 13;
      assert NUMBERS[num][5] == 0 && NUMBERS[num][13] == 0 by {
        if num == 0 {} else if num == 1 {} else if num == 2 {} else if num == 3 {}
        else if num == 4 {} else if num == 5 {} else if num == 6 {} else if num == 7 {}
        else if num == 8 {} else {}
      }
    }
  }

  class Clock {
    const strip: Strip
    const settings: Settings
    const rtc: Rtc
    const digitMgr: DigitManager
    /** The second of the last redraw; -1 before the first one. */
    var lastRedrawTime: int

    ghost predicate Valid()
      reads this, digitMgr
    {
      digitMgr.Valid() && digitMgr.strip == strip && digitMgr.settings == settings &&
      settings.storage != strip.pixels
    }

    /** The clock builds its digit manager and draws the first frame straight away. */
    constructor (strip: Strip, settings: Settings, rtc: Rtc, state: ClockState, hw: RtcRecord)
      requires strip.pixels.Length >= DISPLAY_PIXELS && settings.Valid()
      requires settings.storage != strip.pixels
      modifies strip, strip.pixels, settings.storage, rtc
      ensures Valid() && this.strip == strip && this.settings == settings && this.rtc == rtc
      ensures rtc.g == if state == Normal then hw else old(rtc.g)
      ensures Redrawn(state, old(settings.storage[..]), old(strip.pixels[..]), old(strip.shown))
    {
      this.strip := strip;
      this.settings := settings;
      this.rtc := rtc;
      lastRedrawTime := -1;
      digitMgr := new DigitManager(strip, settings);
      new;
      var _ := RedrawIfNeeded(true, state, hw);
    }

    /**
     * Writes the time as numerals, colours the digits, and draws them; the
     * colour setting is the only setting that changes.
     */
    method UpdateDigits(state: ClockState)
      requires Valid()
      modifies digitMgr, digitMgr.digits, settings.storage, strip.pixels
      ensures Valid() && digitMgr.digits == old(digitMgr.digits)
      ensures digitMgr.numbers == TimeNumbers(old(settings.Get(SETTING_24_HOUR_MODE)) == 1, rtc.g)
      ensures var cycling := old(settings.Get(SETTING_ANIMATION_TYPE)) == ANIM_CYCLE_COLORS;
        digitMgr.Colors() == ClockColors(cycling, state == Normal, old(settings.Get(SETTING_COLOR))) &&
        settings.storage[..] ==
          old(settings.storage[..])[SETTING_COLOR := ColorSettingAfter(cycling, old(settings.Get(SETTING_COLOR)))]
      ensures strip.pixels[..] ==
        PaintCells(old(strip.pixels[..]), ImagesOf(digitMgr.Styles(), digitMgr.numbers, digitMgr.Colors()))
    {
      WriteNumbers();
      ColorDigits(state);
      digitMgr.Draw();
    }

    /** The numerals of UpdateDigits: the hour in the chosen format, the minute and the second. */
    method WriteNumbers()
      requires Valid()
      modifies digitMgr
      ensures Valid() && digitMgr.digits == old(digitMgr.digits)
      ensures digitMgr.numbers == TimeNumbers(settings.Get(SETTING_24_HOUR_MODE) == 1, rtc.g)
    {
      var n0, n1;
      if settings.Get(SETTING_24_HOUR_MODE) == 1 {
        n0, n1 := U8(rtc.Hour() / 10), U8(rtc.Hour() % 10);
      } else {
        n0, n1 := U8(rtc.HourFormat12() / 10), U8(rtc.HourFormat12() % 10);
        if n0 == 0 {
          n0 := INVALID;
        }
      }
      digitMgr.numbers := [n0, n1, U8(rtc.Minute() / 10), U8(rtc.Minute() % 10),
                           U8(rtc.Second() / 10), U8(rtc.Second() % 10)];
    }

    /** The colour loop of UpdateDigits: digit i gets its colour after the i-th step of the setting. */
    method ColorDigits(state: ClockState)
      requires Valid()
      modifies digitMgr.digits, settings.storage
      ensures Valid()
      ensures var cycling := old(settings.Get(SETTING_ANIMATION_TYPE)) == ANIM_CYCLE_COLORS;
        digitMgr.Colors() == ClockColors(cycling, state == Normal, old(settings.Get(SETTING_COLOR))) &&
        settings.storage[..] ==
          old(settings.storage[..])[SETTING_COLOR := ColorSettingAfter(cycling, old(settings.Get(SETTING_COLOR)))]
    {
      ghost var c0 := settings.Get(SETTING_COLOR);
      ghost var cycling := settings.Get(SETTING_ANIMATION_TYPE) == ANIM_CYCLE_COLORS;
      ghost var target := ClockColors(cycling, state == Normal, c0);
      ghost var store0 := settings.storage[..];
      ghost var colors0 := digitMgr.Colors();
      assert store0[SETTING_COLOR := StepColor(cycling, c0, 0)] == store0;
      var i := 0;
      while i < NUM_DIGITS
        invariant 0 <= i <= NUM_DIGITS && Valid()
        invariant settings.storage[..] == store0[SETTING_COLOR := StepColor(cycling, c0, i)]
        invariant digitMgr.Colors() == target[..i] + colors0[i..]
      {
        ColorOne(i, state, cycling, c0, store0);
        PrefixStep(target, colors0, i);
        i := i + 1;
      }
      assert target[..NUM_DIGITS] + colors0[NUM_DIGITS..] == target;
    }

    /** One pass of the colour loop: step the setting if cycling, then colour digit i from it. */
    method ColorOne(i: nat, state: ClockState, ghost cycling: bool, ghost c0: uint32, ghost store0: seq<uint32>)
      requires Valid() && i < NUM_DIGITS && |store0| == SETTINGS_SIZE
      requires cycling == (store0[SETTING_ANIMATION_TYPE] == ANIM_CYCLE_COLORS)
      requires settings.storage[..] == store0[SETTING_COLOR := StepColor(cycling, c0, i)]
      modifies digitMgr.digits, settings.storage
      ensures Valid()
      ensures settings.storage[..] == store0[SETTING_COLOR := StepColor(cycling, c0, i + 1)]
      ensures digitMgr.Colors() == old(digitMgr.Colors())[i := ClockColors(cycling, state == Normal, c0)[i]]
    {
      StepColorNext(cycling, c0, i);
      ClockColorAt(cycling, state == Normal, c0, i);
      if settings.Get(SETTING_ANIMATION_TYPE) == ANIM_CYCLE_COLORS {
        settings.Set(SETTING_COLOR, U32(settings.Get(SETTING_COLOR) + CYCLE_STEP));
      }
      if state == Normal {
        digitMgr.SetDigitColor(i, ColorWheel(U8(settings.Get(SETTING_COLOR))));
      } else {
        digitMgr.SetDigitColor(i, ColorWheel(0));
      }
    }

    /** Writes the separator LEDs when blinking mode 1 is on; nothing else changes. */
    method BlinkDigitSeparators()
      requires Valid()
      modifies strip.pixels
      ensures strip.pixels[..] == Separators(old(strip.pixels[..]),
        settings.Get(SETTING_DIGIT_TYPE), settings.Get(SETTING_BLINKING_SEPARATORS),
        settings.Get(SETTING_COLOR), rtc.Second())
    {
      if settings.Get(SETTING_BLINKING_SEPARATORS) != 1 {
        return;
      }
      var blinkColor := ColorWheel(U8(settings.Get(SETTING_COLOR)));
      if rtc.Second() % 2 != 0 {
        blinkColor := 0;
      }
      ghost var s0 := strip.pixels[..];
      if settings.Get(SETTING_DIGIT_TYPE) == 1 {
        strip.SetPixelColor(120, blinkColor);
        strip.SetPixelColor(121, blinkColor);
        assert strip.pixels[..] == PutAll(s0, [120, 121], blinkColor);
      } else {
        strip.SetPixelColor(25, blinkColor);
        strip.SetPixelColor(33, blinkColor);
        strip.SetPixelColor(65, blinkColor);
        strip.SetPixelColor(73, blinkColor);
        assert strip.pixels[..] == PutAll(s0, [25, 33, 65, 73], blinkColor);
      }
    }

    /**
     * In normal mode latches the RTC first; set-time mode always redraws.
     * A redraw happens exactly when the second differs from the last
     * redrawn one or it is forced; otherwise nothing changes.
     */
    method RedrawIfNeeded(force: bool, state: ClockState, hw: RtcRecord) returns (redrawn: bool)
      requires Valid()
      modifies this, rtc, digitMgr, digitMgr.digits, settings.storage, strip, strip.pixels
      ensures Valid() && digitMgr.digits == old(digitMgr.digits)
      ensures strip.brightness == old(strip.brightness)
      ensures rtc.g == if state == Normal then hw else old(rtc.g)
      ensures redrawn <==> rtc.Second() != old(lastRedrawTime) || force || state != Normal
      ensures !redrawn ==>
        lastRedrawTime == old(lastRedrawTime) && strip.pixels[..] == old(strip.pixels[..]) &&
        strip.shown == old(strip.shown) && settings.storage[..] == old(settings.storage[..]) &&
        digitMgr.numbers == old(digitMgr.numbers) && digitMgr.Colors() == old(digitMgr.Colors())
      ensures redrawn ==> Redrawn(state, old(settings.storage[..]), old(strip.pixels[..]), old(strip.shown))
    {
      var f := force;
      if state == Normal {
        rtc.Update(hw);
      } else {
        f := true;
      }
      if rtc.Second() != lastRedrawTime || f {
        Redraw(state);
        redrawn := true;
      } else {
        redrawn := false;
      }
    }

    /**
     * The digit state after UpdateDigits ran on settings `store0`: the
     * latched time as numerals, the clock colours and the colour setting
     * stepped; the last redraw time is the latched second.
     */
    ghost predicate Updated(state: ClockState, store0: seq<uint32>)
      requires Valid() && |store0| == SETTINGS_SIZE
      reads this, rtc, digitMgr, digitMgr.digits, settings.storage
    {
      var cycling := store0[SETTING_ANIMATION_TYPE] == ANIM_CYCLE_COLORS;
      lastRedrawTime == rtc.Second() &&
      digitMgr.numbers == TimeNumbers(store0[SETTING_24_HOUR_MODE] == 1, rtc.g) &&
      digitMgr.Colors() == ClockColors(cycling, state == Normal, store0[SETTING_COLOR]) &&
      settings.storage[..] == store0[SETTING_COLOR := ColorSettingAfter(cycling, store0[SETTING_COLOR])]
    }

    /**
     * The state after a redraw from settings `store0`, pixels `pixels0` and
     * frame log `shown0`: the digits updated, and one new frame holding the
     * drawn digits with the separators over them.
     */
    ghost predicate Redrawn(state: ClockState, store0: seq<uint32>, pixels0: seq<uint32>, shown0: seq<Frame>)
      requires Valid() && |store0| == SETTINGS_SIZE && |pixels0| == strip.pixels.Length
      reads this, rtc, digitMgr, digitMgr.digits, settings.storage, strip, strip.pixels
    {
      Updated(state, store0) &&
      strip.pixels[..] == Separators(
        PaintCells(pixels0, ImagesOf(digitMgr.Styles(), digitMgr.numbers, digitMgr.Colors())),
        settings.Get(SETTING_DIGIT_TYPE), settings.Get(SETTING_BLINKING_SEPARATORS),
        settings.Get(SETTING_COLOR), rtc.Second()) &&
      strip.shown == shown0 + [Frame(strip.brightness, strip.pixels[..])]
    }

    /** The redraw branch of RedrawIfNeeded. */
    method Redraw(state: ClockState)
      requires Valid()
      modifies this, digitMgr, digitMgr.digits, settings.storage, strip, strip.pixels
      ensures Valid() && digitMgr.digits == old(digitMgr.digits)
      ensures strip.brightness == old(strip.brightness)
      ensures Redrawn(state, old(settings.storage[..]), old(strip.pixels[..]), old(strip.shown))
    {
      ghost var store0, pixels0 := settings.storage[..], strip.pixels[..];
      Compose(state);
      ghost var final := strip.pixels[..];
      strip.Show();
      assert strip.pixels[..] == final;
    }

    /** Redraw up to the show(): the digits updated and drawn, the separators over them. */
    method Compose(state: ClockState)
      requires Valid()
      modifies this, digitMgr, digitMgr.digits, settings.storage, strip.pixels
      ensures Valid() && digitMgr.digits == old(digitMgr.digits)
      ensures Updated(state, old(settings.storage[..]))
      ensures strip.pixels[..] == Separators(
        PaintCells(old(strip.pixels[..]), ImagesOf(digitMgr.Styles(), digitMgr.numbers, digitMgr.Colors())),
        settings.Get(SETTING_DIGIT_TYPE), settings.Get(SETTING_BLINKING_SEPARATORS),
        settings.Get(SETTING_COLOR), rtc.Second())
    {
      lastRedrawTime := rtc.Second();
      UpdateDigits(state);
      ghost var store0 := old(settings.storage[..]);
      assert Updated(state, store0);
      if settings.Get(SETTING_BLINKING_SEPARATORS) != 0 {
        BlinkDigitSeparators();
      }
    }
  }
}
