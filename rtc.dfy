/**
 * firmware/rtc_hal_apollo3.cpp: the clock's view of the Apollo3 real-time
 * clock. The library object `g_rtc` is a record of its latched fields;
 * reading the running hardware clock (`getTime`) is an input.
 */
module RtcHal {
  datatype RtcRecord = RtcRecord(
    hour: nat, minute: nat, seconds: nat, hundredths: nat,
    dayOfMonth: nat, month: nat, year: nat)

  /** rtc_hal_hourFormat12 on a 24-hour value: the same hour of the 12-hour dial. */
  function To12Hour(hour: nat): (h: nat)
    ensures hour <= 23 ==> 1 <= h <= 12 && h % 12 == hour % 12
    ensures hour > 12 ==> h == hour - 12
  {
    var h12 := if hour == 0 then 12 else hour;
    if h12 > 12 then h12 - 12 else h12
  }

  /** The input clamp of rtc_hal_setTime: an out-of-range field becomes 0, with no carry. */
  function Clamp(v: nat, limit: nat): (r: nat)
    ensures r < limit || limit == 0
    ensures v < limit ==> r == v
    ensures v >= limit ==> r == 0
  {
    if v >= limit then 0 else v
  }

  /** g_rtc after rtc_hal_setTime(h, m, s) and the read-back that follows it. */
  function WithTime(g: RtcRecord, h: nat, m: nat, s: nat): (r: RtcRecord)
    ensures r.hour < 24 && r.minute < 60 && r.seconds < 60 && r.hundredths == 0
    ensures (h < 24 ==> r.hour == h) && (m < 60 ==> r.minute == m) && (s < 60 ==> r.seconds == s)
    ensures (h >= 24 ==> r.hour == 0) && (m >= 60 ==> r.minute == 0) && (s >= 60 ==> r.seconds == 0)
    ensures r.dayOfMonth == g.dayOfMonth && r.month == g.month && r.year == g.year
  {
    RtcRecord(Clamp(h, 24), Clamp(m, 60), Clamp(s, 60), 0, g.dayOfMonth, g.month, g.year)
  }

  /** g_rtc after rtc_hal_setDate(d, m, y): the time of day is kept, the hundredths restart. */
  function WithDate(g: RtcRecord, d: nat, m: nat, y: nat): (r: RtcRecord)
    ensures r.hour == g.hour && r.minute == g.minute && r.seconds == g.seconds
    ensures r.hundredths == 0 && r.dayOfMonth == d && r.month == m && r.year == y
  {
    RtcRecord(g.hour, g.minute, g.seconds, 0, d, m, y)
  }

  class Rtc {
    var g: RtcRecord

    constructor (hw: RtcRecord)
      ensures g == hw
    {
      g := hw;
    }

    /** rtc_hal_update: latch the running hardware clock. */
    method Update(hw: RtcRecord)
      modifies this
      ensures g == hw
    {
      g := hw;
    }

    /** rtc_hal_hour, rtc_hal_minute and rtc_hal_second: the fields latched by the last Update or SetTime. */
    function Hour(): (h: nat)
      reads this
      ensures h == g.hour
    {
      g.hour
    }

    function Minute(): (m: nat)
      reads this
      ensures m == g.minute
    {
      g.minute
    }

    function Second(): (s: nat)
      reads this
      ensures s == g.seconds
    {
      g.seconds
    }

    function HourFormat12(): (h: nat)
      reads this
      ensures g.hour <= 23 ==> 1 <= h <= 12
    {
      To12Hour(g.hour)
    }

    /** rtc_hal_millis: milliseconds into the current second, in steps of ten. */
    function Millis(): (ms: nat)
      reads this
      ensures ms % 10 == 0 && ms / 10 == g.hundredths
      ensures g.hundredths < 100 ==> ms < 1000
    {
      g.hundredths * 10
    }

    /** Out-of-range inputs are replaced by 0; the date survives and the hundredths restart. */
    method SetTime(h: nat, m: nat, s: nat)
      modifies this
      ensures g == WithTime(old(g), h, m, s)
      ensures Hour() == Clamp(h, 24) && Minute() == Clamp(m, 60) && Second() == Clamp(s, 60)
    {
      var hh := if h >= 24 then 0 else h;
      var mm := if m >= 60 then 0 else m;
      var ss := if s >= 60 then 0 else s;
      g := RtcRecord(hh, mm, ss, 0, g.dayOfMonth, g.month, g.year);
    }

    method SetDate(d: nat, m: nat, y: nat)
      modifies this
      ensures g == WithDate(old(g), d, m, y)
    {
      g := RtcRecord(g.hour, g.minute, g.seconds, 0, d, m, y);
    }
  }
}
