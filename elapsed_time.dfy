/**
 * firmware/elapsed_time.hpp: a stopwatch on `millis()`. The mark is kept in
 * a signed `int` and the elapsed time is a signed subtraction, which wraps
 * as two's complement on the target; `millis()` is an input.
 */
module Stopwatch {
  import opened Ints

  /** `(int)millis() - m_millis` on 32-bit ints, as an unsigned distance modulo 2^32. */
  function Elapsed(mark: int, now: uint32): (r: int)
    ensures -0x8000_0000 <= r < 0x8000_0000
    ensures U32(r) == U32(now - mark)
  {
    Int32Add(now, -mark);
    Int32(Int32(now) - mark)
  }

  /**
   * Ms after Reset at t0 is the true elapsed time, across the 32-bit wrap
   * of `millis()`, for as long as that time fits in a signed int (about
   * 24.8 days).
   */
  lemma ElapsedSinceReset(t0: uint32, now: uint32)
    requires U32(now - t0) < 0x8000_0000
    ensures Elapsed(Int32(t0), now) == U32(now - t0)
  {
    Int32Diff(now, t0);
  }

  /** Immediately after Reset the stopwatch reads 0. */
  lemma ElapsedAtReset(t0: uint32)
    ensures Elapsed(Int32(t0), t0) == 0
  {
    ElapsedSinceReset(t0, t0);
  }

  class ElapsedTime {
    /** m_millis: the `millis()` reading of the last Reset, as a signed int. */
    var mark: int

    constructor (now: uint32)
      ensures mark == Int32(now)
    {
      mark := Int32(now);
    }

    method Reset(now: uint32)
      modifies this
      ensures mark == Int32(now)
    {
      mark := Int32(now);
    }

    function Ms(now: uint32): (r: int)
      reads this
      ensures -0x8000_0000 <= r < 0x8000_0000
      ensures U32(r) == U32(now - mark)
    {
      Elapsed(mark, now)
    }
  }
}
