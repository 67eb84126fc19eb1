/**
 * firmware/button.hpp: a polled push button (active low) with a 10 ms
 * debounce, a press reported when a held button is let go, and
 * auto-repeat every 200 ms while it stays held. The pin level and
 * `millis()` are inputs to each call.
 */
module Buttons {
  import opened Ints

  const DEBOUNCE_MS: int := 10
  const REPEAT_MS: int := 200

  /** m_start (0 while not pressed), m_held and m_released. */
  datatype ButtonState = ButtonState(start: int, held: bool, released: bool)

  /** The state of a button nobody has touched. */
  const IDLE: ButtonState := ButtonState(0, false, false)

  /**
   * Check: a press starts the timer (reading the unsigned `millis()` into
   * the signed `m_start`); letting go clears it and turns a hold into a
   * pending release; a press older than DEBOUNCE_MS, measured in unsigned
   * 32-bit time, becomes a hold.
   */
  function CheckStep(b: ButtonState, now: uint32, pressed: bool): (r: ButtonState)
    ensures !pressed ==> r.start == 0 && !r.held && r.released == (b.released || b.held)
    ensures pressed ==> r.released == b.released && (b.held ==> r.held)
    ensures pressed ==> r.start == if b.start == 0 then Int32(now) else b.start
    ensures r.held <==> pressed && (b.held || U32(now - r.start) > DEBOUNCE_MS)
  {
    var b1 :=
      if pressed then
        if b.start == 0 then b.(start := Int32(now)) else b
      else if b.held then ButtonState(0, false, true)
      else b.(start := 0);
    if pressed && U32(now - b1.start) > DEBOUNCE_MS then b1.(held := true) else b1
  }

  /**
   * WasPressed: reports (and clears) a pending release, or an auto-repeat
   * when held for at least REPEAT_MS since the timer last started; a report
   * restarts the timer.
   */
  function WasPressedStep(b: ButtonState, now: uint32): (ButtonState, bool)
  {
    var duration := Int32(U32(now - b.start));
    var reported := b.released || (b.held && duration >= REPEAT_MS);
    (ButtonState(if reported then Int32(now) else b.start, b.held, false), reported)
  }

  /** Holding starts only after more than DEBOUNCE_MS of being pressed; a fresh press is never held. */
  lemma FreshPressNotHeld(b: ButtonState, now: uint32)
    requires b.start == 0 && !b.held
    ensures !CheckStep(b, now, true).held
    ensures CheckStep(b, now, true).start == Int32(now)
  {
    Int32Diff(now, now);
  }

  /** A contact bounce: pressed for two samples no more than DEBOUNCE_MS apart, then let go, reports nothing. */
  lemma BounceIgnored(t0: uint32, t1: uint32, t2: uint32, t3: uint32)
    requires U32(t1 - t0) <= DEBOUNCE_MS
    ensures var b := CheckStep(CheckStep(CheckStep(IDLE, t0, true), t1, true), t2, false);
      b == IDLE && !WasPressedStep(b, t3).1
  {
    var b0 := CheckStep(IDLE, t0, true);
    FreshPressNotHeld(IDLE, t0);
    if t0 == 0 {
      FreshPressNotHeld(b0, t1);
    } else {
      assert Int32(t0) != 0;
      Int32Diff(t1, t0);
    }
  }

  /**
   * A press sampled again more than DEBOUNCE_MS after it started becomes a
   * hold. A press that starts when `millis()` reads 0 is excluded: it leaves
   * `m_start` at 0, the "not pressed" mark, so each pressed sample restarts
   * the timer.
   */
  lemma LongPressHeld(t0: uint32, t1: uint32)
    requires t0 != 0 && U32(t1 - t0) > DEBOUNCE_MS
    ensures CheckStep(CheckStep(IDLE, t0, true), t1, true).held
  {
    Int32Diff(t1, t0);
  }

  /** Letting go of a held button reports exactly one press, then nothing more. */
  lemma ReleaseReportedOnce(b: ButtonState, now: uint32, t1: uint32, t2: uint32)
    requires b.held
    ensures var b1 := CheckStep(b, now, false);
      var (b2, first) := WasPressedStep(b1, t1);
      first && b2 == IDLE.(start := Int32(t1)) && !WasPressedStep(b2, t2).1
  {
  }

  /**
   * While held, a press is reported once REPEAT_MS have passed since the
   * timer started, and asking again at the same moment reports nothing.
   */
  lemma AutoRepeat(b: ButtonState, now: uint32)
    requires b.held && !b.released && REPEAT_MS <= U32(now - b.start) < 0x8000_0000
    ensures var (b1, reported) := WasPressedStep(b, now);
      reported && b1.held && b1.start == Int32(now) && !WasPressedStep(b1, now).1
  {
    Int32Diff(now, now);
  }

  /** Without a pending release or a hold, WasPressed never reports and changes nothing. */
  lemma QuietWhenNotHeld(b: ButtonState, now: uint32)
    requires !b.held && !b.released
    ensures WasPressedStep(b, now) == (b, false)
  {
  }

  class Button {
    const pin: uint8
    var start: int
    var held: bool
    var released: bool

    function State(): ButtonState
      reads this
    {
      ButtonState(start, held, released)
    }

    constructor (pin: uint8)
      ensures this.pin == pin && State() == IDLE
    {
      this.pin := pin;
      start := 0;
      held := false;
      released := false;
    }

    /** `pinLevel` is the digitalRead sample, `now` the millis() reading. */
    method Check(pinLevel: int, now: uint32)
      modifies this
      ensures State() == CheckStep(old(State()), now, pinLevel == 0)
    {
      var pressed := pinLevel == 0;
      if pressed {
        if start == 0 {
          start := Int32(now);
        }
      } else {
        start := 0;
        if held {
          held := false;
          released := true;
        }
      }
      if pressed && U32(now - start) > DEBOUNCE_MS {
        held := true;
      }
    }

    method WasPressed(now: uint32) returns (wasPressed: bool)
      modifies this
      ensures (State(), wasPressed) == WasPressedStep(old(State()), now)
    {
      var duration := Int32(U32(now - start));
      wasPressed := released;
      released := false;
      if held && duration >= REPEAT_MS {
        wasPressed := true;
      }
      if wasPressed {
        start := Int32(now);
      }
    }
  }
}
