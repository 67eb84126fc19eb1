/**
 * The app-to-clock protocol end to end: the frames BLEClock.cs writes, fed
 * byte by byte to the firmware's CmdHandler (ReceiveByte is `Step`, a
 * stream of bytes is `Run`), and what they do to the settings and the RTC;
 * then the same frames fed to the BLE `alert` callback, which is the
 * consumer nus_main.c's write callback calls.
 */
module Protocol {
  import opened Ints
  import opened SettingsStore
  import opened RtcHal
  import opened CmdHandlers
  import opened BleClockApp
  import BleFuncs

  /** The app and the firmware number the settings and the commands alike. */
  lemma IdsAgree()
    ensures APP_SETTING_DIGIT_TYPE == SETTING_DIGIT_TYPE
    ensures APP_SETTING_CUR_BRIGHTNESS == SETTING_CUR_BRIGHTNESS
    ensures APP_SETTING_MIN_BRIGHTNESS == SETTING_MIN_BRIGHTNESS
    ensures APP_SETTING_MAX_BRIGHTNESS == SETTING_MAX_BRIGHTNESS
    ensures APP_SETTING_BLINKING_SEPARATORS == SETTING_BLINKING_SEPARATORS
    ensures APP_SETTING_COLOR == SETTING_COLOR
    ensures APP_SETTING_ANIMATION_TYPE == SETTING_ANIMATION_TYPE
    ensures APP_SETTING_24_HOUR_MODE == SETTING_24_HOUR_MODE
    ensures APP_CMD_SET_TIME == CMD_SET_TIME && APP_CMD_CHANGE_SETTING == CMD_CHANGE_SETTING
  {
  }

  /** The app's frame is the firmware's frame around the command byte and its data. */
  lemma AppFrameIsFrame(cmd: uint8, data: seq<uint8>)
    requires |data| < 0xff
    ensures AppFrame(cmd, data) == Frame([cmd] + data)
  {
    assert |[cmd] + data| == |data| + 1;
  }

  /** A change-setting payload from the app parses to that setting and its one-byte value. */
  lemma ParseSettingData(id: uint8, value: uint8)
    ensures Parse([CMD_CHANGE_SETTING] + SettingData(id, value)) == ChangeSetting(id, value)
  {
    var p := [CMD_CHANGE_SETTING] + SettingData(id, value);
    assert p[2..6] == [0, 0, 0, value];
  }

  /**
   * A change-setting frame from the app, received by a waiting handler,
   * yields exactly its command, leaves the handler waiting, sets exactly
   * that setting to that value, and forces a redraw.
   */
  lemma ChangeSettingRoundTrip(d: Decoder, store: seq<uint32>, id: uint8, value: uint8)
    requires d.state == Wait && d.rx == []
    requires |store| == SETTINGS_SIZE
    ensures var (d1, cmds) := Run(d, AppFrame(APP_CMD_CHANGE_SETTING, SettingData(id, value)));
      d1.state == Wait && d1.rx == [] && cmds == [ChangeSetting(id, value)] &&
      StoreAfter(store, Some(cmds[0])) == store[id := value] &&
      CallsFor(Some(cmds[0])).redraw
  {
    var payload := [CMD_CHANGE_SETTING] + SettingData(id, value);
    AppFrameIsFrame(APP_CMD_CHANGE_SETTING, SettingData(id, value));
    FrameDelivers(d, payload);
    ParseSettingData(id, value);
  }

  /**
   * A set-time frame from the app yields exactly its command, and the RTC
   * is then set to (h, m, s + 1) as rtc_hal_setTime clamps it; the clock
   * is not asked to redraw.
   */
  lemma SetTimeRoundTrip(d: Decoder, g: RtcRecord, h: uint8, m: uint8, s: uint8)
    requires d.state == Wait && d.rx == []
    ensures var (d1, cmds) := Run(d, AppFrame(APP_CMD_SET_TIME, [h, m, s]));
      d1.state == Wait && d1.rx == [] && cmds == [SetTime(h, m, s)] &&
      RtcAfter(g, Some(cmds[0])) == WithTime(g, h, m, s as int + 1) &&
      CallsFor(Some(cmds[0])) == NO_CALLS
  {
    AppFrameIsFrame(APP_CMD_SET_TIME, [h, m, s]);
    assert [CMD_SET_TIME] + [h, m, s] == [CMD_SET_TIME, h, m, s];
    FrameDelivers(d, [CMD_SET_TIME, h, m, s]);
  }

  /** Seconds since midnight of a time of day. */
  function SecondOfDay(h: nat, m: nat, s: nat): nat
  {
    h * 3600 + m * 60 + s
  }

  /**
   * As written, a time sent at second 59 sets the clock to second 0 of the
   * same minute: the extra second meant to cover the transfer is clamped
   * away with no carry, so the clock is set a whole minute short of the
   * intended time (12:34:59 is set as 12:34:00 rather than 12:35:00).
   */
  lemma SetTimeAtLastSecond(g: RtcRecord, h: uint8, m: uint8)
    requires h < 24 && m < 60
    ensures var r := RtcAfter(g, Some(SetTime(h, m, 59)));
      r.hour == h && r.minute == m && r.seconds == 0 &&
      SecondOfDay(r.hour, r.minute, r.seconds) + 60 == SecondOfDay(h, m, 59) + 1
  {
  }

  /** The time of day one second after h:m:s, with carries into the minute, the hour and the day. */
  function NextSecond(h: nat, m: nat, s: nat): (r: (nat, nat, nat))
    requires h < 24 && m < 60 && s < 60
    ensures r.0 < 24 && r.1 < 60 && r.2 < 60
    ensures SecondOfDay(r.0, r.1, r.2) == (SecondOfDay(h, m, s) + 1) % 86400
  {
    if s < 59 then (h, m, s + 1)
    else if m < 59 then (h, m + 1, 0)
    else if h < 23 then (h + 1, 0, 0)
    else (0, 0, 0)
  }

  /** The RTC after a set-time command whose extra second carries. */
  function RtcAfterCarried(g: RtcRecord, h: uint8, m: uint8, s: uint8): (r: RtcRecord)
    ensures h < 24 && m < 60 && s < 60 ==>
      SecondOfDay(r.hour, r.minute, r.seconds) == (SecondOfDay(h, m, s) + 1) % 86400
    ensures r.hundredths == 0 && r.dayOfMonth == g.dayOfMonth && r.month == g.month && r.year == g.year
  {
    if h < 24 && m < 60 && s < 60 then
      var t := NextSecond(h, m, s);
      WithTime(g, t.0, t.1, t.2)
    else WithTime(g, h, m, s as int + 1)
  }

  /** Below second 59 the firmware's setting and the carried one agree. */
  lemma CarriedAgreesBelowLastSecond(g: RtcRecord, h: uint8, m: uint8, s: uint8)
    requires h < 24 && m < 60 && s < 59
    ensures RtcAfterCarried(g, h, m, s) == RtcAfter(g, Some(SetTime(h, m, s)))
  {
  }

  /**
   * The same set-time frame fed to the BLE `alert` callback instead: the
   * length byte 4 is ignored, 0x10 starts a set-time sequence, and the
   * last byte sets the RTC to (h, m, s + 1) and leaves both state
   * machines waiting. No other byte sets the time.
   */
  lemma AlertTakesAppSetTime(a: BleFuncs.AlertMachine, h: uint8, m: uint8, s: uint8)
    requires BleFuncs.AlertGood(a) && a.alert == BleFuncs.AlertWait
    ensures var (a1, es) := BleFuncs.AlertRun(a, AppFrame(APP_CMD_SET_TIME, [h, m, s]));
      a1.alert == BleFuncs.AlertWait && a1.cs == BleFuncs.CsHour &&
      es[4] == BleFuncs.AlertEffect(true, h as int, m as int, s as int + 1, true) &&
      forall i :: 0 <= i < 4 ==> !es[i].setTime
  {
    var frame := AppFrame(APP_CMD_SET_TIME, [h, m, s]);
    assert frame == [4] + ([0x10] + ([h] + ([m] + ([s] + []))));
    BleFuncs.SetTimeSequence(a, h, m, s);
    var a1 := a.(alert := BleFuncs.AlertSetTime);
    var a2 := a1.(cs := BleFuncs.CsMinute, h := h as nat);
    var a3 := a2.(cs := BleFuncs.CsSecond, m := m as nat);
    BleFuncs.AlertRunCons(a, 4, [0x10, h, m, s]);
    BleFuncs.AlertRunCons(a, 0x10, [h, m, s]);
    BleFuncs.AlertRunCons(a1, h, [m, s]);
    BleFuncs.AlertRunCons(a2, m, [s]);
    BleFuncs.AlertRunCons(a3, s, []);
  }

  /**
   * A change-setting frame fed to `alert`: it never sets the time or
   * changes a setting. A value byte other than 0x10 leaves the state
   * machine as it was; a value of 0x10 leaves it in set-time state, so
   * the bytes of the next frame are taken as hour, minute and second.
   */
  lemma AlertOnChangeSetting(a: BleFuncs.AlertMachine, id: uint8, value: uint8)
    requires BleFuncs.AlertGood(a) && a.alert == BleFuncs.AlertWait && id != 0x10
    ensures var (a1, es) := BleFuncs.AlertRun(a, AppFrame(APP_CMD_CHANGE_SETTING, SettingData(id, value)));
      (forall i :: 0 <= i < |es| ==> !es[i].setTime) &&
      (value != 0x10 ==> a1 == a) &&
      (value == 0x10 ==> a1 == a.(alert := BleFuncs.AlertSetTime))
  {
    var frame := AppFrame(APP_CMD_CHANGE_SETTING, SettingData(id, value));
    assert frame == [6, 0x11, id, 0, 0, 0, value];
    BleFuncs.AlertRunCons(a, 6, [0x11, id, 0, 0, 0, value]);
    BleFuncs.AlertRunCons(a, 0x11, [id, 0, 0, 0, value]);
    BleFuncs.AlertRunCons(a, id, [0, 0, 0, value]);
    BleFuncs.AlertRunCons(a, 0, [0, 0, value]);
    BleFuncs.AlertRunCons(a, 0, [0, value]);
    BleFuncs.AlertRunCons(a, 0, [value]);
    BleFuncs.AlertRunCons(a, value, []);
  }

  /**
   * A change-setting frame with value 0x10 (a colour or animation setting
   * of 16, say) followed by a set-time frame: `alert` takes the set-time
   * frame's length byte 4 as the hour and its command byte 0x10 as the
   * minute, and sets the RTC to (4, 16, h + 1) on the frame's third byte.
   */
  lemma AlertMisreadsAfterValue16(a: BleFuncs.AlertMachine, id: uint8, h: uint8, m: uint8, s: uint8)
    requires BleFuncs.AlertGood(a) && a.alert == BleFuncs.AlertWait && id != 0x10
    ensures var first := AppFrame(APP_CMD_CHANGE_SETTING, SettingData(id, 0x10));
      var (a1, es) := BleFuncs.AlertRun(a, first + AppFrame(APP_CMD_SET_TIME, [h, m, s]));
      es[|first| + 2] == BleFuncs.AlertEffect(true, 4, 16, h as int + 1, true) &&
      forall i :: 0 <= i < |first| + 2 ==> !es[i].setTime
  {
    var first := AppFrame(APP_CMD_CHANGE_SETTING, SettingData(id, 0x10));
    var second := AppFrame(APP_CMD_SET_TIME, [h, m, s]);
    assert first == [6, 0x11, id, 0, 0, 0, 0x10];
    assert second == [4] + ([0x10] + ([h] + [m, s]));
    AlertOnChangeSetting(a, id, 0x10);
    BleFuncs.AlertRunAppend(a, first, second);
    var a1 := a.(alert := BleFuncs.AlertSetTime);
    var a2 := a1.(cs := BleFuncs.CsMinute, h := 4);
    var a3 := a2.(cs := BleFuncs.CsSecond, m := 16);
    BleFuncs.AlertRunCons(a1, 4, [0x10, h, m, s]);
    BleFuncs.AlertRunCons(a2, 0x10, [h, m, s]);
    BleFuncs.AlertRunCons(a3, h, [m, s]);
  }

}
