/**
 * firmware/ble_funcs.cpp: the byte-wise set-time protocol behind the BLE
 * `alert` callback, and the tick arithmetic of the scheduler timer update.
 * The BLE stack, the CTIMER hardware and the WSF timer service are not
 * modelled: the timer reading is a parameter and the ticks handed to the
 * WSF service are returned.
 */
module BleFuncs {
  import opened Ints
  import opened RtcHal

  const ALERT_CMD_SET_TIME: uint8 := 0x10

  datatype AlertState = AlertWait | AlertSetTime
  datatype ClockSetState = CsHour | CsMinute | CsSecond

  /**
   * g_alertState, together with the function-static variables of
   * handleSetTimeState (its state and the hour and minute received so far;
   * those are `int`s that only ever hold a byte, hence `nat`).
   */
  datatype AlertMachine = AlertMachine(alert: AlertState, cs: ClockSetState, h: nat, m: nat)

  /** Program start: both state machines at their first state, h and m zero-initialised. */
  const ALERT_START: AlertMachine := AlertMachine(AlertWait, CsHour, 0, 0)

  /** What a received byte does besides changing the state machine. */
  datatype AlertEffect = AlertEffect(setTime: bool, hour: nat, minute: nat, second: nat, forceUpdate: bool)

  const NO_EFFECT: AlertEffect := AlertEffect(false, 0, 0, 0, false)

  /** The inner state is only away from CS_HOUR while a set-time sequence is being received. */
  predicate AlertGood(a: AlertMachine)
  {
    a.alert == AlertWait ==> a.cs == CsHour
  }

  /** handleSetTimeState: take the byte as hour, minute or second; a forced clock update follows every byte. */
  function SetTimeStep(a: AlertMachine, val: uint8): (AlertMachine, AlertEffect)
  {
    match a.cs
    case CsHour => (a.(cs := CsMinute, h := val), AlertEffect(false, 0, 0, 0, true))
    case CsMinute => (a.(cs := CsSecond, m := val), AlertEffect(false, 0, 0, 0, true))
    case CsSecond =>
      (a.(cs := CsHour, alert := AlertWait), AlertEffect(true, a.h, a.m, val as int + 1, true))
  }

  /** alert: waiting, only 0x10 is acted on; in set-time state the byte goes to handleSetTimeState. */
  function AlertStep(a: AlertMachine, val: uint8): (AlertMachine, AlertEffect)
  {
    match a.alert
    case AlertWait => (if val == ALERT_CMD_SET_TIME then a.(alert := AlertSetTime) else a, NO_EFFECT)
    case AlertSetTime => SetTimeStep(a, val)
  }

  /** Waiting, every byte but 0x10 is ignored, and 0x10 starts a set-time sequence. */
  lemma WaitIgnoresOtherBytes(a: AlertMachine, val: uint8)
    requires AlertGood(a) && a.alert == AlertWait
    ensures val != ALERT_CMD_SET_TIME ==> AlertStep(a, val) == (a, NO_EFFECT)
    ensures val == ALERT_CMD_SET_TIME ==>
      AlertStep(a, val).0 == a.(alert := AlertSetTime) && AlertStep(a, val).0.cs == CsHour
  {
  }

  /** Every byte keeps the inner state at CS_HOUR whenever the outer state waits. */
  lemma AlertStepKeepsGood(a: AlertMachine, val: uint8)
    requires AlertGood(a)
    ensures AlertGood(AlertStep(a, val).0)
  {
  }

  /** Every byte handled in set-time state requests a forced clock update; a byte handled while waiting does not. */
  lemma ForcedUpdateIffSetTimeState(a: AlertMachine, val: uint8)
    ensures AlertStep(a, val).1.forceUpdate <==> a.alert == AlertSetTime
  {
  }

  /**
   * From a waiting state, 0x10 followed by h, m and s sets the RTC to
   * (h, m, s + 1) on the last byte, and only there, and leaves both
   * state machines back at their initial states.
   */
  lemma SetTimeSequence(a: AlertMachine, h: uint8, m: uint8, s: uint8)
    requires AlertGood(a) && a.alert == AlertWait
    ensures var (a1, e1) := AlertStep(a, ALERT_CMD_SET_TIME);
      var (a2, e2) := AlertStep(a1, h);
      var (a3, e3) := AlertStep(a2, m);
      var (a4, e4) := AlertStep(a3, s);
      !e1.setTime && !e2.setTime && !e3.setTime &&
      e4 == AlertEffect(true, h as int, m as int, s as int + 1, true) &&
      a4.alert == AlertWait && a4.cs == CsHour
  {
  }

  /** The RTC after a byte: rtc_hal_setTime on the third byte of a set-time sequence. */
  function RtcAfterAlert(g: RtcRecord, e: AlertEffect): RtcRecord
  {
    if e.setTime then WithTime(g, e.hour, e.minute, e.second)
    else g
  }

  /** alert applied to each byte of a stream in turn: the final state and the effect of every byte. */
  function AlertRun(a: AlertMachine, bytes: seq<uint8>): (r: (AlertMachine, seq<AlertEffect>))
    ensures |r.1| == |bytes|
    decreases |bytes|
  {
    if bytes == [] then (a, [])
    else
      var first := AlertStep(a, bytes[0]);
      var rest := AlertRun(first.0, bytes[1..]);
      (rest.0, [first.1] + rest.1)
  }

  /** The first byte of a stream is handled first, then the rest from the state it leaves. */
  lemma AlertRunCons(a: AlertMachine, b: uint8, rest: seq<uint8>)
    ensures AlertRun(a, [b] + rest) ==
      (AlertRun(AlertStep(a, b).0, rest).0, [AlertStep(a, b).1] + AlertRun(AlertStep(a, b).0, rest).1)
  {
    assert ([b] + rest)[1..] == rest;
  }

  /** A stream split in two: the second part is handled from the state the first leaves. */
  lemma {:induction false} AlertRunAppend(a: AlertMachine, xs: seq<uint8>, ys: seq<uint8>)
    ensures AlertRun(a, xs + ys) ==
      (AlertRun(AlertRun(a, xs).0, ys).0, AlertRun(a, xs).1 + AlertRun(AlertRun(a, xs).0, ys).1)
    decreases |xs|
  {
    if xs != [] {
      AlertRunCons(a, xs[0], xs[1..] + ys);
      assert xs + ys == [xs[0]] + (xs[1..] + ys);
      AlertRunAppend(AlertStep(a, xs[0]).0, xs[1..], ys);
      AlertRunCons(a, xs[0], xs[1..]);
      assert xs == [xs[0]] + xs[1..];
      var (a1, e1) := AlertStep(a, xs[0]);
      var (m, ps) := AlertRun(a1, xs[1..]);
      var qs := AlertRun(m, ys).1;
      assert [e1] + (ps + qs) == ([e1] + ps) + qs;
    } else {
      assert xs + ys == ys;
      assert AlertRun(a, xs) == (a, []);
      assert [] + AlertRun(a, ys).1 == AlertRun(a, ys).1;
    }
  }

  /**
   * The alert state machine as global state. `updateClock(true)` is a call
   * into code outside this file: the method returns whether it was made.
   */
  class AlertHandler {
    const rtc: Rtc
    var alert: AlertState
    var cs: ClockSetState
    var h: nat
    var m: nat

    function Current(): AlertMachine
      reads this
    {
      AlertMachine(alert, cs, h, m)
    }

    constructor (rtc: Rtc)
      ensures this.rtc == rtc && Current() == ALERT_START
    {
      this.rtc := rtc;
      alert := AlertWait;
      cs := CsHour;
      h := 0;
      m := 0;
    }

    /** alert(val). */
    method Alert(val: uint8) returns (forceUpdate: bool)
      requires AlertGood(Current())
      modifies this, rtc
      ensures var (a, e) := AlertStep(old(Current()), val);
        Current() == a && forceUpdate == e.forceUpdate && rtc.g == RtcAfterAlert(old(rtc.g), e)
      ensures AlertGood(Current())
    {
      forceUpdate := false;
      match alert
      case AlertWait =>
        if val == ALERT_CMD_SET_TIME {
          alert := AlertSetTime;
        }
      case AlertSetTime =>
        forceUpdate := HandleSetTimeState(val);
    }

    /** handleSetTimeState(val). */
    method HandleSetTimeState(val: uint8) returns (forceUpdate: bool)
      modifies this, rtc
      ensures var (a, e) := SetTimeStep(old(Current()), val);
        Current() == a && forceUpdate == e.forceUpdate && rtc.g == RtcAfterAlert(old(rtc.g), e)
    {
      match cs {
        case CsHour =>
          h := val;
          cs := CsMinute;
        case CsMinute =>
          m := val;
          cs := CsSecond;
        case CsSecond =>
          rtc.SetTime(h, m, val as int + 1);
          cs := CsHour;
          alert := AlertWait;
      }
      forceUpdate := true;
    }
  }

  // ---------------------------------------------------------------------
  // Scheduler timer arithmetic (ble_update_scheduler_timers)
  // ---------------------------------------------------------------------

  const CLK_TICKS_PER_WSF_TICKS: nat := 5
  const TIMER_WRAP: nat := 0x1_0000

  /**
   * Counts elapsed between two readings of the 16-bit continuous timer,
   * in the firmware's unsigned 32-bit arithmetic: a reading below the last
   * one is taken as one overflow of the timer.
   */
  function ElapsedCounts(last: uint32, current: uint32): (r: uint32)
    ensures last < TIMER_WRAP && current < TIMER_WRAP ==>
      r < TIMER_WRAP && r == (current - last) % TIMER_WRAP as int
  {
    if current >= last then current - last else U32(TIMER_WRAP + current - last)
  }

  /**
   * As long as fewer than 0x10000 counts pass between two readings (at
   * most one overflow), the computed count is the true one.
   */
  lemma ElapsedCountsExact(last: uint32, counts: nat)
    requires last < TIMER_WRAP && counts < TIMER_WRAP
    ensures ElapsedCounts(last, (last + counts) % TIMER_WRAP as int) == counts
  {
    var current := (last + counts) % TIMER_WRAP as int;
    if last + counts < TIMER_WRAP {
      assert current == last + counts;
    } else {
      assert current == last + counts - TIMER_WRAP;
    }
  }

  /** The WSF ticks handed to WsfTimerUpdate: whole ticks of five counts, 0 when none. */
  function Ticks(elapsed: uint32): (t: nat)
    ensures t * CLK_TICKS_PER_WSF_TICKS <= elapsed < (t + 1) * CLK_TICKS_PER_WSF_TICKS
  {
    elapsed / CLK_TICKS_PER_WSF_TICKS
  }

  /** The timer bookkeeping of ble_update_scheduler_timers: g_ui32LastTime and the ticks it reports. */
  function SchedulerStep(last: uint32, current: uint32): (uint32, nat)
  {
    var t := Ticks(ElapsedCounts(last, current));
    if t > 0 then (current, t) else (last, 0)
  }

  /** The last time advances to the reading exactly when at least one tick (five counts) has elapsed. */
  lemma LastTimeAdvancesOnTick(last: uint32, current: uint32)
    ensures ElapsedCounts(last, current) >= CLK_TICKS_PER_WSF_TICKS ==>
      SchedulerStep(last, current) == (current, ElapsedCounts(last, current) / CLK_TICKS_PER_WSF_TICKS)
    ensures ElapsedCounts(last, current) < CLK_TICKS_PER_WSF_TICKS ==>
      SchedulerStep(last, current) == (last, 0)
  {
  }

  /**
   * Counts short of a whole tick are never reported: when the last time
   * moves on to the reading, the ticks cover the elapsed counts less their
   * remainder modulo 5, and the next update counts from the reading.
   */
  lemma RemainderDropped(last: uint32, current: uint32)
    ensures var (next, ticks) := SchedulerStep(last, current);
      var elapsed := ElapsedCounts(last, current);
      (ticks > 0 <==> next == current && elapsed >= CLK_TICKS_PER_WSF_TICKS) &&
      ticks * CLK_TICKS_PER_WSF_TICKS == elapsed - elapsed % CLK_TICKS_PER_WSF_TICKS
  {
    LastTimeAdvancesOnTick(last, current);
  }

  /** Two updates nine counts apart report two ticks for eighteen counts, one short of the three they span. */
  lemma RemainderDroppedTwice()
    ensures SchedulerStep(0, 9) == (9, 1)
    ensures SchedulerStep(9, 18) == (18, 1)
    ensures Ticks(ElapsedCounts(0, 18)) == 3
  {
  }

  class SchedulerTimers {
    var lastTime: uint32

    constructor ()
      ensures lastTime == 0
    {
      lastTime := 0;
    }

    /** Given the reading of the continuous timer, returns the ticks passed to WsfTimerUpdate (0: no call). */
    method Update(current: uint32) returns (ticks: nat)
      modifies this
      ensures (lastTime, ticks) == SchedulerStep(old(lastTime), current)
    {
      var elapsed: uint32;
      if current >= lastTime {
        elapsed := current - lastTime;
      } else {
        elapsed := U32(TIMER_WRAP + current - lastTime);
      }
      ticks := 0;
      if elapsed / CLK_TICKS_PER_WSF_TICKS > 0 {
        ticks := elapsed / CLK_TICKS_PER_WSF_TICKS;
        lastTime := current;
      }
    }
  }
}
