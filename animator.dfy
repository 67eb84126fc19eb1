/**
 * firmware/animator.hpp: the per-frame colour assignment. The base animator
 * paints every digit with the wheel colour of the colour setting; the
 * cycling animator walks a byte counter around the wheel, 16 steps a digit.
 */
module Animators {
  import opened Ints
  import opened Color
  import opened SettingsStore
  import opened DigitMgr

  /** The two animator classes: Animator and AnimatorCycleAll. */
  datatype AnimKind = Static | CycleAll

  /** Hue step between neighbouring digits of AnimatorCycleAll. */
  const CYCLE_STEP: nat := 16

  /** The colours the base animator gives the six digits. */
  function StaticColors(colorSetting: uint32): seq<uint32>
  {
    seq(NUM_DIGITS, _ => ColorWheel(U8(colorSetting)))
  }

  /** The colours AnimatorCycleAll::Go gives the six digits when its counter was `c`. */
  function CycleColors(c: uint8): seq<uint32>
  {
    seq(NUM_DIGITS, i => ColorWheel(U8(c + CYCLE_STEP * (i + 1))))
  }

  /** The counter after one AnimatorCycleAll::Go: six byte-wide steps of 16. */
  function NextCounter(c: uint8): uint8
  {
    U8(c + CYCLE_STEP * NUM_DIGITS)
  }

  /** The counter after `k` calls of AnimatorCycleAll::Go. */
  function Iterate(c: uint8, k: nat): uint8
  {
    if k == 0 then c else NextCounter(Iterate(c, k - 1))
  }

  /** After k calls the counter has moved 96*k hue steps around the byte. */
  lemma {:induction false} IterateAdvances(c: uint8, k: nat)
    ensures Iterate(c, k) == U8(c + 96 * k)
  {
    if k > 0 {
      IterateAdvances(c, k - 1);
      U8Add(c + 96 * (k - 1), 96);
    }
  }

  /** The counter is back where it started exactly after a multiple of 8 calls. */
  lemma CounterPeriod(c: uint8, k: nat)
    ensures Iterate(c, k) == c <==> k % 8 == 0
  {
    IterateAdvances(c, k);
    EightCallsTurnThrice(c, k);
    OffsetWithinTurn(c, k % 8);
  }

  /** Eight calls move the counter 768 = 3 * 256 steps: whole turns. */
  lemma EightCallsTurnThrice(c: uint8, k: nat)
    ensures U8(c + 96 * k) == U8(c + 96 * (k % 8))
  {
    var q, r := k / 8, k % 8;
    assert c + 96 * k == (c + 96 * r) + 0x100 * (3 * q);
    U8Shift(c + 96 * r, 3 * q);
  }

  /** Fewer than eight calls never bring the counter back. */
  lemma OffsetWithinTurn(c: uint8, r: nat)
    requires r < 8
    ensures U8(c + 96 * r) == c <==> r == 0
  {
    var d := U8(96 * r);
    assert d == [0, 96, 192, 32, 128, 224, 64, 160][r];
    U8Add(96 * r, c);
    assert U8(c + 96 * r) == U8(d + c);
  }

  /** AnimatorFactory's switch: ANIM_CYCLE_COLORS picks the cycling animator, anything else the base one. */
  function KindFor(animType: uint32): AnimKind
  {
    if animType == ANIM_CYCLE_COLORS then CycleAll else Static
  }

  /** AnimatorCycleAll's counter after i steps of its loop from `c`. */
  function CounterAt(c: uint8, i: nat): uint8
  {
    U8(c + CYCLE_STEP * i)
  }

  /** One step of the loop moves the counter 16 further round the byte. */
  lemma CounterStep(c: uint8, i: nat)
    ensures CounterAt(c, i + 1) == U8(CounterAt(c, i) + CYCLE_STEP)
  {
    U8Add(c + CYCLE_STEP * i, CYCLE_STEP);
  }

  /** The colours Go gives the six digits, by animator kind. */
  function GoColors(kind: AnimKind, colorSetting: uint32, c: uint8): seq<uint32>
  {
    match kind
    case Static => StaticColors(colorSetting)
    case CycleAll => CycleColors(c)
  }

  /** The counter after i passes of Go's loop: it only moves in the cycling animator. */
  function CounterAfter(kind: AnimKind, c: uint8, i: nat): uint8
  {
    if kind == CycleAll then CounterAt(c, i) else c
  }

  /** The colour Go gives digit i. */
  lemma GoColorAt(kind: AnimKind, colorSetting: uint32, c: uint8, i: nat)
    requires i < NUM_DIGITS
    ensures GoColors(kind, colorSetting, c)[i] ==
      if kind == Static then ColorWheel(U8(colorSetting)) else ColorWheel(CounterAt(c, i + 1))
  {
  }

  class Animator {
    const digitMgr: DigitManager
    const settings: Settings
    const kind: AnimKind
    /** AnimatorCycleAll's `uint8_t color`; the base animator does not use it. */
    var color: uint8

    constructor (digitMgr: DigitManager, settings: Settings, kind: AnimKind)
      ensures this.digitMgr == digitMgr && this.settings == settings && this.kind == kind
      ensures color == 0
    {
      this.digitMgr := digitMgr;
      this.settings := settings;
      this.kind := kind;
      color := 0;
    }

    /**
     * Sets the six digit colours and nothing else: no pixel is drawn and the
     * settings are only read. The base animator keeps no state, so calling it
     * again gives the same colours.
     */
    method Go()
      requires digitMgr.Valid() && settings.Valid()
      modifies this, digitMgr.digits
      ensures digitMgr.Valid()
      ensures digitMgr.Colors() == GoColors(kind, settings.Get(SETTING_COLOR), old(color))
      ensures color == if kind == CycleAll then NextCounter(old(color)) else old(color)
    {
      ghost var c0 := color;
      ghost var setting := settings.Get(SETTING_COLOR);
      ghost var target := GoColors(kind, setting, c0);
      ghost var colors0 := digitMgr.Colors();
      var i := 0;
      while i < NUM_DIGITS
        invariant 0 <= i <= NUM_DIGITS && digitMgr.Valid()
        invariant settings.Valid() && settings.Get(SETTING_COLOR) == setting
        invariant color == CounterAfter(kind, c0, i)
        invariant digitMgr.Colors() == target[..i] + colors0[i..]
      {
        GoOne(i, c0, target);
        PrefixStep(target, colors0, i);
        i := i + 1;
      }
      assert target[..NUM_DIGITS] + colors0[NUM_DIGITS..] == target;
      assert CounterAt(c0, NUM_DIGITS) == NextCounter(c0);
    }

    /** One pass of Go's loop: digit i gets its colour, after one counter step when cycling. */
    method GoOne(i: nat, ghost c0: uint8, ghost target: seq<uint32>)
      requires digitMgr.Valid() && settings.Valid() && i < NUM_DIGITS
      requires target == GoColors(kind, settings.Get(SETTING_COLOR), c0)
      requires color == CounterAfter(kind, c0, i)
      modifies this, digitMgr.digits
      ensures digitMgr.Valid()
      ensures color == CounterAfter(kind, c0, i + 1)
      ensures digitMgr.Colors() == old(digitMgr.Colors())[i := target[i]]
    {
      CounterStep(c0, i);
      GoColorAt(kind, settings.Get(SETTING_COLOR), c0, i);
      match kind {
        case Static =>
          digitMgr.SetDigitColor(i, ColorWheel(U8(settings.Get(SETTING_COLOR))));
        case CycleAll =>
          color := U8(color + CYCLE_STEP);
          digitMgr.SetDigitColor(i, ColorWheel(color));
      }
    }
  }

  /** AnimatorFactory: a fresh animator of the kind the animation type selects, counter at 0. */
  method AnimatorFactory(digitMgr: DigitManager, settings: Settings, animType: uint32)
    returns (a: Animator)
    ensures fresh(a) && a.digitMgr == digitMgr && a.settings == settings
    ensures a.kind == (if animType == ANIM_CYCLE_COLORS then CycleAll else Static)
    ensures a.color == 0
  {
    a := new Animator(digitMgr, settings, KindFor(animType));
  }
}
