# Foxie Clock core, modelled in Dafny

This project models the firmware of the Foxie Clock. The clock shows the time
on six digits drawn on a strip of NeoPixel LEDs. A phone app (BLEClock.cs)
sets its time and settings over Bluetooth Low Energy, one byte at a time. The
model covers these pieces:

- **Rendering.** The hue wheel `ColorWheel` and the two digit styles, each
  drawing one 20-pixel cell: edge-lit (one LED pair per numeral) and pixel
  display (a bitmap per numeral).
- **The display pipeline.** The digit manager with its six cells, the two
  animators, the clock's once-a-second redraw with 12/24-hour numerals and
  colour cycling, and the separator blinkers.
- **Input and timing.** The debounced push button, the millisecond
  stopwatch, and the RTC helpers (12-hour dial, clamping `setTime`,
  `setDate`, `millis`).
- **Settings.** The settings store: 256 `uint32` slots, defaults, and the
  first eight slots loaded from EEPROM.
- **The command protocol.** The app's frame encoder, the firmware's
  length-prefixed frame decoder, and the byte-wise set-time state machine
  behind the BLE `alert` callback. The scheduler's timer-tick
  arithmetic is modelled as well.
- **Strips and advertising.** The two strip classes that mirror the display
  and fade it out, and the bounded copy of the device name into the
  advertising data.

Code that updates fields in place is modelled as Dafny classes with
`modifies` clauses. The LED buffer and the settings storage are `array`s,
and the loops are `while`/`for` loops with invariants. Each such method's
`ensures` ties its new state to a pure function: `PaintCells`, `Splice`,
`Put`, `CheckStep`, `WasPressedStep`, `Step`, `AlertStep`, `SchedulerStep`,
`FadeFrames` or `AdvAfter`. The lemmas beside those functions prove what the
source promises: round trips, invariants kept, bounds, periodicity and
injectivity.

Fixed-width C arithmetic is written out with helper functions:

- `U8` truncates to a `uint8_t`.
- `U32` wraps in unsigned 32-bit arithmetic.
- `Int32` reads a 32-bit pattern as a two's-complement `int`.

Inputs the firmware reads from hardware are parameters: `millis()`, the pin
level, the running RTC and the CTIMER reading. Calls into code that is not
part of this model are returned as results. The strip is the `NeoPixel.Strip`
class. It holds the pixel buffer, the brightness byte, and a log `shown` of
every frame `show()` flushed.

## Model

| member | source | states |
|---|---|---|
| Color.Pack | firmware/digit.hpp:11-21 | `Adafruit_NeoPixel::Color(r, g, b)` packs three bytes into a 24-bit colour |
| Color.UnpackPack | firmware/digit.hpp:26-28 | the masks and shifts at these lines read back exactly the red, green and blue bytes that were packed |
| Color.WheelRgb | firmware/digit.hpp:6-22 | for every hue the three channels add up to exactly 255 and at least one of them is 0 |
| Color.UnpackColorWheel | firmware/digit.hpp:6-22 | the packed `ColorWheel` value holds the wheel's channels, so the sum-255 / one-dark property holds for the packed colour |
| Color.ColorWheel | firmware/digit.hpp:6-22 | a wheel colour fits in 24 bits (no white or alpha byte) |
| Color.ColorWheelEndsAtRed | firmware/digit.hpp:8-11 | because of `pos = 255 - pos`, hue 0 and hue 255 are both pure red 0xFF0000 |
| Color.WheelContinuous | firmware/digit.hpp:9-21 | neighbouring hues, including 255 and 0, differ by at most 3 in every channel |
| Color.HueOfColorWheel | firmware/digit.hpp:6-22 | hues 1..255 can be recovered from their colour |
| Color.ColorWheelInjective | firmware/digit.hpp:6-22 | two different hues in 1..255 give two different colours |
| SeparatorBlinkers.ColorWheelNotBlack | firmware/digit.hpp:6-22 | no wheel colour is 0, so a lit LED is always visible |
| Digits.Blank | firmware/digit.hpp:55-61 | the cell image of `AllOff`: 20 pixels, all `OFF_COLOR` |
| Digits.Splice | firmware/digit.hpp:57-59 | writing a cell image at `m_first` changes pixels `first..first+19` only, and every other pixel keeps its value |
| Digits.EdgeLitLightsOnePair | firmware/digit.hpp:81-90 | for n in 0..9 the edge-lit cell lights exactly pixels 2(10-n)-2 and 2(10-n)-1; the other 18 are off |
| Digits.OutOfRangeIsBlank | firmware/digit.hpp:84-114 | any numeral outside 0..9, `INVALID` included, leaves the whole cell off in both styles |
| Digits.PixelImageNotBlank | firmware/digit.hpp:118-242 | every numeral's bitmap lights at least one pixel |
| Digits.PixelImagesDiffer | firmware/digit.hpp:118-242 | no two numerals 0..9 share a bitmap |
| Digits.ReadDrawnCell | firmware/digit.hpp:81-115 | reading a drawn cell gives the numeral back, or `INVALID` for a numeral outside 0..9, in both styles: the cell images are distinct and distinguishable from blank |
| Digits.Digit.constructor | firmware/digit.hpp:48-51 | a digit records its strip, first LED and colour |
| Digits.Digit.AllOff | firmware/digit.hpp:55-61 | the loop turns the cell's 20 pixels off and writes no other pixel |
| Digits.Digit.SetColor | firmware/digit.hpp:63-66 | only the colour changes; no pixel is written |
| Digits.Digit.GetColor | firmware/digit.hpp:68-71 | returns the colour set last |
| Digits.Digit.Draw | firmware/digit.hpp:81-115 | the virtual `Draw` of either style writes that style's image into the cell, and nothing outside it |
| Digits.Digit.DrawEdgeLit | firmware/digit.hpp:81-90 | `AllOff` and then the pixel pair of row 10 - n, so the cell ends up as the edge-lit image |
| Digits.Digit.DrawPixel | firmware/digit.hpp:100-115 | for n in 0..9 pixel first+i is `m_color` iff `NUMBERS[20n+i] != 0` and `OFF_COLOR` otherwise; any other n turns the cell off |
| Digits.Digit.LightCell | firmware/digit.hpp:105-109 | one pass of the bitmap loop extends the drawn prefix of the cell by one pixel |
| DigitMgr.PaintCellsAt | firmware/digit_manager.hpp:57-63 | after the six draws, pixel 20i+j shows pixel j of digit i's image, and every pixel from 120 on keeps its value |
| DigitMgr.DigitManager.constructor | firmware/digit_manager.hpp:32-38 | `numbers` starts as six zeros, and the six digits are built from the current settings |
| DigitMgr.DigitManager.CreateDigitDisplay | firmware/digit_manager.hpp:40-55 | the old digits are replaced by six new ones: digit i starts at LED 20i, with the style the digit-type setting selects and the raw colour setting as colour; `numbers` is kept |
| DigitMgr.DigitManager.CreateDigit | firmware/digit_manager.hpp:71-80 | digit type 1 gives an edge-lit digit and any other value a pixel digit; the colour is the raw setting value, not its wheel colour |
| DigitMgr.DigitManager.Draw | firmware/digit_manager.hpp:57-63 | digit i draws `numbers[i]` for i = 0..5, painting pixels 0..119 only |
| DigitMgr.DigitManager.SetDigitColor | firmware/digit_manager.hpp:65-68 | only digit k's colour changes; the other digits and all pixels are unchanged |
| Animators.IterateAdvances | firmware/animator.hpp:29-38 | after k calls of `AnimatorCycleAll::Go` the `uint8_t` counter has moved 96k mod 256 |
| Animators.CounterPeriod | firmware/animator.hpp:29-38 | the counter is back at its start value exactly when the number of calls is a multiple of 8 |
| Animators.Animator.constructor | firmware/animator.hpp:25-29 | an animator keeps its digit manager, and the cycling counter starts at 0 |
| Animators.Animator.Go | firmware/animator.hpp:16-39 | the base animator gives all six digits `ColorWheel` of the colour setting's low byte and keeps no state, so repeating it changes nothing; the cycling one gives digit i `ColorWheel(c + 16(i+1))` and leaves the counter at c + 96 mod 256; no pixel is drawn and the settings are not written |
| Animators.Animator.GoOne | firmware/animator.hpp:34-38 | one loop pass: the counter steps by 16 (cycling only), then digit i alone gets its colour |
| Animators.AnimatorFactory | firmware/animator.hpp:42-50 | `ANIM_CYCLE_COLORS` gives the cycling animator and any other id the base one; the counter starts at 0 |
| Clocks.TimeNumbersReadBack | firmware/clock.hpp:41-64 | for a time in range, the six numerals are decimal digits (the first may be `INVALID`) that read back as the shown hour, the minute and the second; the first is `INVALID` exactly for a one-digit hour in 12-hour mode |
| Clocks.ClockCycleMatchesAnimator | firmware/clock.hpp:67-80 | with cycle colours on, the clock colours its digits as the cycling animator would from the colour setting's low byte, and both advance by 96 |
| Clocks.SeparatorsAvoidNumerals | firmware/clock.hpp:12-23 | no separator LED falls on a pixel any numeral lights |
| Clocks.Clock.constructor | firmware/clock.hpp:32-39 | the clock builds its digit manager and redraws at once, forced |
| Clocks.Clock.UpdateDigits | firmware/clock.hpp:41-84 | the numerals are the latched time; the colour setting is the only setting that changes (by 6 × 16 when cycling); digit i gets the wheel colour of the setting after i+1 steps, or `ColorWheel(0)` outside normal state; then the digits are drawn |
| Clocks.Clock.WriteNumbers | firmware/clock.hpp:43-64 | tens and units of the hour (24-hour, or 12-hour with a blank leading zero), the minute and the second |
| Clocks.Clock.ColorDigits | firmware/clock.hpp:66-82 | after the loop the digits hold the clock colours and the colour setting has taken six 32-bit steps of 16 when cycling |
| Clocks.Clock.ColorOne | firmware/clock.hpp:69-80 | one loop pass: the setting steps by 16 when cycling, then digit i alone is coloured from it |
| Clocks.Clock.BlinkDigitSeparators | firmware/clock.hpp:112-137 | only blinking setting 1 writes: pixels 120/121 for type 1, or 25/33/65/73 otherwise, in the wheel colour on even seconds and 0 on odd ones |
| Clocks.Clock.RedrawIfNeeded | firmware/clock.hpp:87-110 | normal state latches the RTC, and any other state forces a redraw; a redraw happens exactly when the second differs from the last redrawn one or it is forced; the strip's brightness is never changed; without a redraw nothing changes |
| Clocks.Clock.Redraw | firmware/clock.hpp:98-109 | the last redraw time becomes the latched second, the digits are updated and drawn with the separators over them, and exactly one frame is shown, at the strip's unchanged brightness |
| Clocks.Clock.Compose | firmware/clock.hpp:100-106 | the redraw before `show()`: updated digits, drawn, with the separators written when blinking is on |
| SeparatorBlinkers.BlinkerPixelsAt | firmware/blinkers.hpp:30-74 | only separator LEDs change; for a known digit type they show the wheel colour when the second is odd and blinking is on, and 0 otherwise |
| SeparatorBlinkers.BlinkersOppositeToClock | firmware/blinkers.hpp:30-40 | with blinking mode 1, `Blinkers` and the clock's own separators blink in opposite phase |
| SeparatorBlinkers.Blinkers.constructor | firmware/blinkers.hpp:26-28 | keeps the strip and the settings |
| SeparatorBlinkers.Blinkers.Update | firmware/blinkers.hpp:30-40 | turns on when the second is odd and blinking is non-zero, and off otherwise |
| SeparatorBlinkers.Blinkers.TurnOnBlinkers | firmware/blinkers.hpp:43-58 | writes the wheel colour to 120/121 for edge-lit or to 25/33/65/73 for pixel digits, and writes nothing for any other type |
| SeparatorBlinkers.Blinkers.TurnOffBlinkers | firmware/blinkers.hpp:60-74 | clears 120/121 for edge-lit, and the pixel-type four for every other type |
| Buttons.CheckStep | firmware/button.hpp:24-48 | a released pin clears `m_start` and turns a hold into a pending release; a pressed pin never clears a hold or a pending release, and sets `m_start` to `millis()` only when it was 0; the button is held after a sample iff the pin reads pressed and it was held already or more than `DEBOUNCE_MS` (10) have passed since `m_start`, in unsigned 32-bit time |
| Buttons.FreshPressNotHeld | firmware/button.hpp:27-47 | the first pressed sample starts the timer and is not yet a hold |
| Buttons.LongPressHeld | firmware/button.hpp:27-47 | a press sampled again more than `DEBOUNCE_MS` after it started is a hold, when it did not start at `millis()` = 0 (which leaves `m_start` at the not-pressed mark 0) |
| Buttons.BounceIgnored | firmware/button.hpp:24-66 | a press of at most `DEBOUNCE_MS` (10) that is then released leaves the button idle, and `WasPressed` reports nothing |
| Buttons.ReleaseReportedOnce | firmware/button.hpp:37-64 | releasing a held button is reported by exactly one `WasPressed`, which restarts the timer |
| Buttons.AutoRepeat | firmware/button.hpp:52-64 | while held, a press is reported once `REPEAT_MS` (200) have passed since the timer started; the timer restarts, so asking again at once reports nothing |
| Buttons.QuietWhenNotHeld | firmware/button.hpp:50-66 | with no hold and no pending release, `WasPressed` reports nothing and changes nothing |
| Buttons.Button.constructor | firmware/button.hpp:18-22 | a new button is idle |
| Buttons.Button.Check | firmware/button.hpp:24-48 | the fields change as `CheckStep` says, for the sampled pin level and `millis()` |
| Buttons.Button.WasPressed | firmware/button.hpp:50-66 | the fields and the answer are as `WasPressedStep` says |
| Stopwatch.Elapsed | firmware/elapsed_time.hpp:19-22 | the signed 32-bit difference: a value in `int` range that is congruent to now - mark mod 2^32 |
| Stopwatch.ElapsedSinceReset | firmware/elapsed_time.hpp:14-22 | after `Reset` at t0, `Ms` is the true elapsed time across the wrap of `millis()`, for up to 2^31 - 1 ms |
| Stopwatch.ElapsedAtReset | firmware/elapsed_time.hpp:14-22 | `Ms` reads 0 at the instant of `Reset` |
| Stopwatch.ElapsedTime.constructor | firmware/elapsed_time.hpp:9-12 | construction performs `Reset` |
| Stopwatch.ElapsedTime.Reset | firmware/elapsed_time.hpp:14-17 | the mark is the current `millis()` read as a signed `int` |
| Stopwatch.ElapsedTime.Ms | firmware/elapsed_time.hpp:19-22 | now minus the mark in 32-bit arithmetic, a value in the signed 32-bit range, without changing the mark |
| SettingsStore.Loaded | firmware/settings.hpp:46-55 | a new store has 256 slots: all zero, then the first `TOTAL_SETTINGS` (8) read from the EEPROM |
| SettingsStore.Written | firmware/settings.hpp:76-81 | the EEPROM after writing a block at word 0 starts with that block |
| SettingsStore.SaveThenLoad | firmware/settings.hpp:76-100 | saving and then constructing again restores slots 0..7, and restores the whole store exactly when slots 8..255 are zero |
| SettingsStore.Settings.constructor | firmware/settings.hpp:51-55 | the storage is `Loaded` from the EEPROM |
| SettingsStore.Settings.Get | firmware/settings.hpp:83-86 | the value held in slot `name`, the slot `Set`, `Load` and `ResetToDefaults` are stated to write |
| SettingsStore.Settings.Set | firmware/settings.hpp:88-91 | exactly slot `name` changes, and `Get(name)` then returns the value |
| SettingsStore.Settings.ResetToDefaults | firmware/settings.hpp:61-73 | slots 0..7 become 2, 64, 4, 192, 1, 192, 1, 0 and the other slots are kept; then the store is saved |
| SettingsStore.Settings.Save | firmware/settings.hpp:76-81 | the whole 256-slot block is written to the EEPROM at word 0 |
| SettingsStore.Settings.Load | firmware/settings.hpp:94-100 | slots 0..7 come from the EEPROM and slots 8..255 are untouched |
| RtcHal.To12Hour | firmware/rtc_hal_apollo3.cpp:37-41 | 0 maps to 12, 13..23 map to h - 12, 1..12 are kept; every hour 0..23 lands in 1..12 on the same dial position |
| RtcHal.Clamp | firmware/rtc_hal_apollo3.cpp:66-68 | the result is always in range: a field at or above its limit becomes 0 and one below it is kept |
| RtcHal.WithTime | firmware/rtc_hal_apollo3.cpp:63-72 | the time fields are set clamped with no carry (each in range is kept, each out of range becomes 0), the hundredths are zeroed, and the date is kept |
| RtcHal.WithDate | firmware/rtc_hal_apollo3.cpp:82-86 | the date is set, the time of day is kept and the hundredths are zeroed |
| RtcHal.Rtc.constructor | firmware/rtc_hal_apollo3.cpp:13 | `g_rtc` holds the given record |
| RtcHal.Rtc.Update | firmware/rtc_hal_apollo3.cpp:27-30 | latches the running hardware clock |
| RtcHal.Rtc.Hour | firmware/rtc_hal_apollo3.cpp:32-35 | the hour field of `g_rtc` as the last `Update` or `SetTime` left it |
| RtcHal.Rtc.Minute | firmware/rtc_hal_apollo3.cpp:43-46 | the minute field of `g_rtc` |
| RtcHal.Rtc.Second | firmware/rtc_hal_apollo3.cpp:48-51 | the seconds field of `g_rtc` |
| RtcHal.Rtc.HourFormat12 | firmware/rtc_hal_apollo3.cpp:37-41 | the 12-hour value is in 1..12 |
| RtcHal.Rtc.Millis | firmware/rtc_hal_apollo3.cpp:58-61 | ten times the hundredths: a multiple of 10 below 1000 |
| RtcHal.Rtc.SetTime | firmware/rtc_hal_apollo3.cpp:63-80 | `g_rtc` becomes `WithTime` of the old record, so `Hour`, `Minute` and `Second` then read the clamped values set |
| RtcHal.Rtc.SetDate | firmware/rtc_hal_apollo3.cpp:82-86 | `g_rtc` becomes `WithDate` of the old record |
| CmdHandlers.Bytes32 | firmware/cmd_handler.hpp:57 | four bytes whose big-endian value is v |
| CmdHandlers.Bytes32OfBigEndian | firmware/cmd_handler.hpp:57 | four bytes come back from their big-endian value, so the decoding is a bijection |
| CmdHandlers.Encode | firmware/cmd_handler.hpp:45-59 | a set-time or change-setting payload is 1 to 6 bytes |
| CmdHandlers.ParseEncode | firmware/cmd_handler.hpp:45-59 | every set-time and change-setting command is decoded from its payload unchanged |
| CmdHandlers.StepKeepsGood | firmware/cmd_handler.hpp:33-82 | every byte keeps the decoder invariant: waiting means an empty buffer, and a filling buffer is shorter than the announced length unless that length is 0 |
| CmdHandlers.Collect | firmware/cmd_handler.hpp:42 | bytes that do not complete the payload are only buffered, and no command runs |
| CmdHandlers.FrameDelivers | firmware/cmd_handler.hpp:33-82 | from waiting, a frame of 1..255 payload bytes yields exactly its parsed command, on its last byte, and leaves the decoder waiting with an empty buffer, whatever the command byte |
| CmdHandlers.FramesDeliver | firmware/cmd_handler.hpp:33-82 | a stream of frames yields their commands in order and ends waiting |
| CmdHandlers.ZeroLengthWedges | firmware/cmd_handler.hpp:35-42 | a length byte of 0 leaves the decoder in `STATE_RX` for good, and no later byte is ever decoded |
| CmdHandlers.CmdHandler.constructor | firmware/cmd_handler.hpp:24-31 | the handler starts waiting with an empty buffer |
| CmdHandlers.CmdHandler.ReceiveByte | firmware/cmd_handler.hpp:78-82 | push the byte, then process: the state, the settings, the RTC and the clock calls are as `Step` says |
| CmdHandlers.CmdHandler.Process | firmware/cmd_handler.hpp:33-76 | a length byte starts a payload; a complete payload runs set-time (RTC at h, m, s+1) or change-setting (one slot, big-endian value, clock reconfigured for digit or animation type, forced redraw); the handler then waits with an empty buffer |
| BleFuncs.WaitIgnoresOtherBytes | firmware/ble_funcs.cpp:83-90 | while waiting, every byte but 0x10 is ignored, and 0x10 starts a set-time sequence |
| BleFuncs.AlertStepKeepsGood | firmware/ble_funcs.cpp:81-131 | the inner state is at `CS_HOUR` whenever `g_alertState` waits |
| BleFuncs.ForcedUpdateIffSetTimeState | firmware/ble_funcs.cpp:81-131 | a forced clock update follows a byte exactly when it was handled in set-time state |
| BleFuncs.SetTimeSequence | firmware/ble_funcs.cpp:103-131 | 0x10, h, m, s sets the RTC to (h, m, s+1) on the last byte and only there, and both state machines return to their initial states |
| BleFuncs.AlertRunAppend | firmware/ble_funcs.cpp:81-100 | feeding two byte streams one after the other to `alert` is feeding their concatenation: effects in order, the second from the state the first leaves |
| BleFuncs.AlertHandler.constructor | firmware/ble_funcs.cpp:79-107 | both state machines start at `STATE_WAIT` / `CS_HOUR` |
| BleFuncs.AlertHandler.Alert | firmware/ble_funcs.cpp:81-100 | the state, the RTC and the forced update are as `AlertStep` says |
| BleFuncs.AlertHandler.HandleSetTimeState | firmware/ble_funcs.cpp:103-131 | hour, then minute, then the RTC set to (h, m, s+1) with a return to waiting; every call forces a clock update |
| BleFuncs.ElapsedCounts | firmware/ble_funcs.cpp:315-317 | for 16-bit readings, the elapsed count is the difference mod 0x10000 |
| BleFuncs.ElapsedCountsExact | firmware/ble_funcs.cpp:310-317 | with at most one overflow between readings, the computed count is the true one |
| BleFuncs.Ticks | firmware/ble_funcs.cpp:322-328 | the WSF ticks are the whole multiples of 5 counts |
| BleFuncs.LastTimeAdvancesOnTick | firmware/ble_funcs.cpp:322-331 | `g_ui32LastTime` moves to the reading exactly when at least 5 counts have passed, and is unchanged otherwise |
| BleFuncs.RemainderDropped | firmware/ble_funcs.cpp:322-331 | for every reading, ticks are reported exactly when the last time moves to the reading, and they cover the elapsed counts less their remainder mod 5, which the next update no longer counts |
| BleFuncs.RemainderDroppedTwice | firmware/ble_funcs.cpp:322-331 | two updates 9 counts apart report 2 ticks for the 18 counts, which span 3 |
| BleFuncs.SchedulerTimers.constructor | firmware/ble_funcs.cpp:182 | `g_ui32LastTime` starts at 0 |
| BleFuncs.SchedulerTimers.Update | firmware/ble_funcs.cpp:300-335 | the last time and the reported ticks are as `SchedulerStep` says |
| BleClockApp.DisplayModeCode | app/FoxieClock/BLEClock.cs:139-143 | edge-lit is 1 and pixel is 2 |
| BleClockApp.SettingData | app/FoxieClock/BLEClock.cs:122-169 | a change-setting payload is the id, then a 4-byte big-endian value whose upper three bytes are 0 |
| BleClockApp.SentBrightness | app/FoxieClock/BLEClock.cs:128-137 | values below 4 are raised to 4 and the others are kept |
| BleClockApp.FlagByte | app/FoxieClock/BLEClock.cs:157-169 | 1 iff the flag is true |
| BleClockApp.AppFrame | app/FoxieClock/BLEClock.cs:190-193 | `[len+1, cmd, payload…]`, with total length payload length + 2 |
| BleClockApp.Sent | app/FoxieClock/BLEClock.cs:183-193 | nothing is sent when not connected, and the frame otherwise |
| BleClockApp.BleClock.constructor | app/FoxieClock/BLEClock.cs:37-43 | not connected, 12-hour, blinking on, nothing sent |
| BleClockApp.BleClock.DeviceFound | app/FoxieClock/BLEClock.cs:84-90 | connected, no longer connecting |
| BleClockApp.BleClock.Disconnect | app/FoxieClock/BLEClock.cs:106-120 | neither connected nor connecting |
| BleClockApp.BleClock.SendCommand | app/FoxieClock/BLEClock.cs:183-202 | the bytes written one at a time are exactly `Sent(connected, cmd, data)`, and no flag changes |
| BleClockApp.BleClock.SetColorWheel | app/FoxieClock/BLEClock.cs:122-126 | sends change-setting for `SETTING_COLOR` with the hue |
| BleClockApp.BleClock.SetBrightness | app/FoxieClock/BLEClock.cs:128-137 | sends change-setting for `SETTING_CUR_BRIGHTNESS` with the value raised to at least 4 |
| BleClockApp.BleClock.SetDisplayMode | app/FoxieClock/BLEClock.cs:144-148 | sends change-setting for `SETTING_DIGIT_TYPE` with 1 or 2 |
| BleClockApp.BleClock.SetAnimation | app/FoxieClock/BLEClock.cs:150-154 | sends change-setting for `SETTING_ANIMATION_TYPE` |
| BleClockApp.BleClock.Toggle24hTime | app/FoxieClock/BLEClock.cs:157-162 | flips the flag and sends 1 iff the new flag is true |
| BleClockApp.BleClock.ToggleBlinkers | app/FoxieClock/BLEClock.cs:164-169 | flips the flag and sends 1 iff the new flag is true |
| BleClockApp.BleClock.SetTime | app/FoxieClock/BLEClock.cs:171-175 | sends set-time with hour, minute and second |
| BleClockApp.ToggleTwice | app/FoxieClock/BLEClock.cs:157-162 | two toggles restore the flag, having sent the opposite flag and then the original one |
| Protocol.IdsAgree | app/FoxieClock/BLEClock.cs:22-35 | the app numbers settings and commands as the firmware does |
| Protocol.AppFrameIsFrame | app/FoxieClock/BLEClock.cs:190-193 | the app's frame is the length byte the decoder expects, followed by the command and the payload |
| Protocol.ParseSettingData | firmware/cmd_handler.hpp:55-57 | the app's change-setting payload decodes to that setting and its one-byte value |
| Protocol.ChangeSettingRoundTrip | firmware/cmd_handler.hpp:78-82 | an app change-setting frame fed byte by byte yields exactly that command, sets exactly that setting to that value, forces a redraw and ends waiting |
| Protocol.SetTimeRoundTrip | firmware/cmd_handler.hpp:47-53 | an app set-time frame fed byte by byte sets the RTC to (h, m, s+1) after clamping, asks for no clock call, and ends waiting |
| Protocol.AlertTakesAppSetTime | firmware/ble_funcs.cpp:81-131 | the app's set-time frame fed to `alert`: the length byte is ignored, 0x10 starts the sequence, and only the last byte sets the RTC, to (h, m, s+1); both machines end waiting |
| Protocol.AlertOnChangeSetting | firmware/ble_funcs.cpp:81-100 | the app's change-setting frame fed to `alert` never sets the time and changes no setting; it leaves the machine as it was unless the value byte is 0x10, which leaves it in set-time state |
| Protocol.AlertMisreadsAfterValue16 | firmware/ble_funcs.cpp:81-131 | after a change-setting frame with value 0x10, `alert` takes the next set-time frame's length byte and command byte as hour 4 and minute 16, and sets (4, 16, h+1) on its third byte |
| Protocol.SetTimeAtLastSecond | firmware/cmd_handler.hpp:47-52 | as written, a time sent at second 59 sets hh:mm:00, a minute short of the intended time |
| Protocol.NextSecond | firmware/cmd_handler.hpp:51 | the time one second later, with carries, is (t + 1) mod 86400 seconds of the day |
| Protocol.RtcAfterCarried | firmware/cmd_handler.hpp:51 | the corrected set-time lands one second after the sent time, with carries |
| Protocol.CarriedAgreesBelowLastSecond | firmware/cmd_handler.hpp:51 | below second 59 the corrected and the as-written set-time agree |
| FlipStrips.LastPixelNum | firmware/reversible_neopixels.hpp:26 | the last mirrored pixel is numPixels - 3 |
| FlipStrips.FlipIndex | firmware/reversible_neopixels.hpp:24-35 | flip off keeps n; flip on with n ≤ last maps n to last - n; above last nothing moves |
| FlipStrips.FlipIndexRange | firmware/reversible_neopixels.hpp:27-34 | mirrored indices stay in 0..last, and indices above last are never remapped |
| FlipStrips.FlipInvolution | firmware/reversible_neopixels.hpp:27-30 | mirroring twice is the identity |
| FlipStrips.FlipInjective | firmware/reversible_neopixels.hpp:27-30 | distinct pixels are written to distinct places |
| FlipStrips.FadeStepsShape | firmware/reversible_neopixels.hpp:39-43 | from b ≥ 0 the loop runs b/3 + 1 times, setting b - 3i, never negative, and its last value is b mod 3 |
| FlipStrips.FadeEndsDark | firmware/reversible_neopixels.hpp:37-46 | the fade never asks for a negative brightness and ends at 0 |
| FlipStrips.FadeNeverBrightens | firmware/reversible_neopixels.hpp:37-46 | for a setting below 256 every shown brightness is at most the setting, and the brightness never rises |
| FlipStrips.FadeFromNegative | firmware/reversible_neopixels.hpp:39 | a setting of 2^31 or more is negative as an `int`, so the strip goes dark at once |
| FlipStrips.FadeFrames | firmware/reversible_neopixels.hpp:41-42 | one shown frame per brightness, in the order set, with the byte-truncated brightness |
| FlipStrips.Fade | firmware/reversible_neopixels.hpp:37-46 | the frames shown are exactly `FadeFrames(FadeLevels(setting))`, and the brightness ends at 0 |
| FlipStrips.ReversibleNeopixels.constructor | firmware/reversible_neopixels.hpp:19-22 | keeps the settings, the strip and the flip slot, and establishes the class invariant for a valid store and a strip separate from it |
| FlipStrips.ReversibleNeopixels.SetPixelColor | firmware/reversible_neopixels.hpp:24-35 | writes the pixel at `FlipIndex` of n and nothing else |
| FlipStrips.ReversibleNeopixels.FadeToOff | firmware/reversible_neopixels.hpp:37-46 | `Fade` from the current-brightness setting |
| FlipStrips.ReversibleNeopixels.SetToCurrentBrightness | firmware/reversible_neopixels.hpp:48-52 | brightness set to the current-brightness setting (as a byte), then one frame shown |
| FlipStrips.FlippableLedStrip.constructor | firmware/flippable_led_strip.hpp:9 | keeps the settings, the strip and the flip slot, and establishes the class invariant for a valid store and a strip separate from it |
| FlipStrips.FlippableLedStrip.SetPixelColor | firmware/flippable_led_strip.hpp:17-28 | writes the pixel at `FlipIndex` of n and nothing else |
| FlipStrips.FlippableLedStrip.FadeToOff | firmware/flippable_led_strip.hpp:30-39 | `Fade` from the current-brightness setting |
| FlipStrips.FlippableLedStrip.SetToCurrentBrightness | firmware/flippable_led_strip.hpp:41-46 | brightness set to the current-brightness setting, then one frame shown |
| AdvName.NameLen | firmware/nus_main.c:188-198 | the copy length is at most 29, every character copied is non-NUL, and a copy shorter than 29 stops at the NUL |
| AdvName.AdvAfterLayout | firmware/nus_main.c:188-200 | byte 0 is 30 and byte 1 the name type whatever the name; character k lands at 2+k; nothing is written past index 30; the bytes after the name keep their contents |
| AdvName.LongNameTruncated | firmware/nus_main.c:194-196 | a name of 29 characters or more is cut to its first 29 |
| AdvName.AdvData.constructor | firmware/nus_main.c:183 | the 31-byte advertising buffer starts all zero |
| AdvName.AdvData.SetAdvName | firmware/nus_main.c:185-203 | after the do-while copy the buffer is exactly `AdvAfter` of its old contents |

## Left out

- Adafruit NeoPixel is not part of this model. It is modelled as the
  `NeoPixel.Strip` class: `setPixelColor` drops writes past the end (as that
  library does), `setBrightness` stores a byte, and `show()` appends a frame
  to a log. Colour output and timing are not modelled.
- The digits write straight to the strip's pixel buffer. The flip mapping of
  `ReversibleNeopixels` / `FlippableLEDStrip` is modelled and proved on its
  own (`FlipStrips`). It is not composed under digit drawing.
- `SETTING_FLIP_DISPLAY`, `DT_EDGE_LIT`, `DT_PIXELS`, `Clock::ChangeDigitType`,
  `Clock::UseAnimation` and `updateClock` are not defined in the files
  modelled here.
  - The flip-setting slot is a constructor parameter of the strip classes.
  - `DT_EDGE_LIT` = 1 and `DT_PIXELS` = 2 follow the app's `DisplayMode_e`.
  - `CmdHandler` returns which clock calls it makes (`ClockCalls`), not what
    they do.
  - `handleSetTimeState` returns whether it requested `updateClock(true)`.
- `DigitManager(leds, settings)` at firmware/clock.hpp:35 does not match the
  one-argument constructor at firmware/digit_manager.hpp:34. The model
  follows the call: the manager keeps the settings it reads from.
- `DM_ADV_TYPE_LOCAL_NAME` is not defined in the files modelled here. It is
  taken as 0x09, the "Complete Local Name" AD type of the Bluetooth Core
  Specification Supplement, part A, section 1.2.
- The EEPROM is a sequence of 32-bit words. Its byte layout, wear and
  `writeBlockToEEPROM` errors are not modelled.
- The `Protocol` round trips through `CmdHandlers` assume the app's bytes
  reach `CmdHandler::ReceiveByte`. No file modelled here makes that call:
  the write callback at firmware/nus_main.c:418 hands each byte to `alert`
  (`BleFuncs`). What `alert` does with the app's frames is stated
  separately (`Protocol.AlertTakesAppSetTime`,
  `Protocol.AlertOnChangeSetting`, `Protocol.AlertMisreadsAfterValue16`).
- `CmdHandlers.Process` on a known command whose payload is too short to hold
  its arguments: the source reads past the buffer, which is undefined
  behaviour. The model decodes such a payload as `Truncated`, and that
  command does nothing.
- `CmdHandlers.Parse`: `m_rx[2] << 24` is a signed `int` shift, which is
  undefined when the byte is 0x80 or more. The model takes the bit pattern
  every common compiler produces: the unsigned big-endian value.
- Button and ElapsedTime call `millis()` more than once per method. The model
  takes one `now` per call, as if the calls happened in the same millisecond.
- `Stopwatch.ElapsedTime.Ms` follows the code: signed `int` subtraction,
  modelled as a two's-complement wrap. It is not the unsigned difference one
  might expect.
- `rtc_hal_setTime` and `rtc_hal_update` latch the running hardware clock.
  The read-back after `setTime` is modelled as returning exactly the time
  just set.
- `ScaleBrightness` (floating point) is not modelled.
- `BleFuncs`: `WsfTimerUpdate`, `wsfOsDispatcher`, `set_next_wakeup` and the
  CTIMER are not modelled. The timer reading is a parameter, and `Update`
  returns the ticks it would hand to the WSF timers.
- The BLE stack and advertising setup of nus_main.c (other than
  `set_adv_name`) are not modelled.
- The app's scanning, connecting, asynchronous writes and the 25 ms pause
  between bytes are not modelled. `DeviceFound` is the success path of
  `DiscoverDevice`, and `SetTime` takes the phone's time of day as
  parameters.
- The app's UI pages are not modelled.

## Findings

| source | as written | input that shows it | evidently intended | confidence | as-written member | corrected member |
|---|---|---|---|---|---|---|
| firmware/cmd_handler.hpp:51 | set-time passes `s + 1` to `rtc_hal_setTime`, which clamps a second of 60 to 0 with no carry into the minute (firmware/rtc_hal_apollo3.cpp:68); firmware/ble_funcs.cpp:122 does the same | `SetTime(12, 34, 59)` | the clock is set to 12:35:00, one second after the sent time | not executed | Protocol.SetTimeAtLastSecond | Protocol.RtcAfterCarried |

The command handler and the `alert` state machine keep the as-written
behaviour (`RtcAfter`, `SetTimeStep`), as the firmware runs.
`Protocol.RtcAfterCarried` is the corrected definition: it is proved to land
exactly one second later, and `Protocol.CarriedAgreesBelowLastSecond` shows
that it differs only at second 59.
