/**
 * firmware/blinkers.hpp: the separator LEDs on their own, lit on odd
 * seconds when blinking is on and turned off otherwise.
 */
module SeparatorBlinkers {
  import opened Ints
  import opened NeoPixel
  import opened Color
  import opened SettingsStore
  import opened RtcHal
  import opened Clocks

  /** The digit-type setting values: edge-lit digits and the pixel display. */
  const DT_EDGE_LIT: uint32 := 1
  const DT_PIXELS: uint32 := 2

  /** Update's choice: the blinkers light on an odd second with blinking enabled. */
  predicate BlinkersOn(second: nat, blink: uint32)
  {
    second % 2 != 0 && blink != 0
  }

  /**
   * The strip after Update. Lighting writes the wheel colour to the LEDs of
   * a known digit type and nothing for any other type; turning off clears
   * the edge-lit pair for type DT_EDGE_LIT and the pixel-display four otherwise.
   */
  function BlinkerPixels(s: seq<uint32>, digitType: uint32, blink: uint32, colorSetting: uint32, second: nat)
    : seq<uint32>
  {
    if BlinkersOn(second, blink) then
      if digitType == DT_EDGE_LIT || digitType == DT_PIXELS then
        PutAll(s, SeparatorLeds(digitType), ColorWheel(U8(colorSetting)))
      else s
    else PutAll(s, SeparatorLeds(digitType), 0)
  }

  /**
   * Update only ever writes the separator LEDs; for a known digit type they
   * all show the wheel colour on an odd second with blinking on, and are
   * dark otherwise.
   */
  lemma BlinkerPixelsAt(s: seq<uint32>, digitType: uint32, blink: uint32, colorSetting: uint32, second: nat,
                        p: nat)
    requires p < |s|
    ensures var r := BlinkerPixels(s, digitType, blink, colorSetting, second);
      |r| == |s| &&
      (p !in SeparatorLeds(digitType) ==> r[p] == s[p]) &&
      (p in SeparatorLeds(digitType) && (digitType == DT_EDGE_LIT || digitType == DT_PIXELS) ==>
        r[p] == if BlinkersOn(second, blink) then ColorWheel(U8(colorSetting)) else 0)
  {
  }

  /** No wheel colour is black, so a lit separator is always visible. */
  lemma ColorWheelNotBlack(pos: uint8)
    ensures ColorWheel(pos) != 0
  {
    UnpackColorWheel(pos);
  }

  /**
   * With blinking mode 1 on a known digit type, the Blinkers class and
   * Clock::BlinkDigitSeparators light the separators in opposite phase:
   * at every second exactly one of them leaves a separator LED dark.
   */
  lemma BlinkersOppositeToClock(s: seq<uint32>, digitType: uint32, colorSetting: uint32, second: nat, p: nat)
    requires digitType == DT_EDGE_LIT || digitType == DT_PIXELS
    requires p < |s| && p in SeparatorLeds(digitType)
    ensures (BlinkerPixels(s, digitType, 1, colorSetting, second)[p] == 0) !=
            (Separators(s, digitType, 1, colorSetting, second)[p] == 0)
  {
    ColorWheelNotBlack(U8(colorSetting));
  }

  class Blinkers {
    const strip: Strip
    const settings: Settings
    const rtc: Rtc

    constructor (strip: Strip, settings: Settings, rtc: Rtc)
      ensures this.strip == strip && this.settings == settings && this.rtc == rtc
    {
      this.strip := strip;
      this.settings := settings;
      this.rtc := rtc;
    }

    method Update()
      requires settings.Valid()
      modifies strip.pixels
      ensures strip.pixels[..] == BlinkerPixels(old(strip.pixels[..]),
        settings.Get(SETTING_DIGIT_TYPE), settings.Get(SETTING_BLINKING_SEPARATORS),
        settings.Get(SETTING_COLOR), rtc.Second())
    {
      if rtc.Second() % 2 != 0 && settings.Get(SETTING_BLINKING_SEPARATORS) != 0 {
        TurnOnBlinkers();
      } else {
        TurnOffBlinkers();
      }
    }

    method TurnOnBlinkers()
      requires settings.Valid()
      modifies strip.pixels
      ensures var t := settings.Get(SETTING_DIGIT_TYPE);
        strip.pixels[..] ==
          if t == DT_EDGE_LIT || t == DT_PIXELS then
            PutAll(old(strip.pixels[..]), SeparatorLeds(t), ColorWheel(U8(settings.Get(SETTING_COLOR))))
          else old(strip.pixels[..])
    {
      ghost var s0 := strip.pixels[..];
      var blinkColor := ColorWheel(U8(settings.Get(SETTING_COLOR)));
      if settings.Get(SETTING_DIGIT_TYPE) == DT_EDGE_LIT {
        strip.SetPixelColor(120, blinkColor);
        strip.SetPixelColor(121, blinkColor);
        assert strip.pixels[..] == PutAll(s0, [120, 121], blinkColor);
      } else if settings.Get(SETTING_DIGIT_TYPE) == DT_PIXELS {
        strip.SetPixelColor(25, blinkColor);
        strip.SetPixelColor(33, blinkColor);
        strip.SetPixelColor(65, blinkColor);
        strip.SetPixelColor(73, blinkColor);
        assert strip.pixels[..] == PutAll(s0, [25, 33, 65, 73], blinkColor);
      }
    }

    method TurnOffBlinkers()
      requires settings.Valid()
      modifies strip.pixels
      ensures strip.pixels[..] == PutAll(old(strip.pixels[..]), SeparatorLeds(settings.Get(SETTING_DIGIT_TYPE)), 0)
    {
      ghost var s0 := strip.pixels[..];
      if settings.Get(SETTING_DIGIT_TYPE) == DT_EDGE_LIT {
        strip.SetPixelColor(120, 0);
        strip.SetPixelColor(121, 0);
        assert strip.pixels[..] == PutAll(s0, [120, 121], 0);
      } else {
        strip.SetPixelColor(25, 0);
        strip.SetPixelColor(33, 0);
        strip.SetPixelColor(65, 0);
        strip.SetPixelColor(73, 0);
        assert strip.pixels[..] == PutAll(s0, [25, 33, 65, 73], 0);
      }
    }
  }
}
