/**
 * firmware/cmd_handler.hpp: the byte-stream decoder behind the BLE UART.
 * A frame is a length byte followed by that many payload bytes; the first
 * payload byte is the command. Set-time goes to the RTC, change-setting to
 * the settings store and then to the clock.
 */
module CmdHandlers {
  import opened Ints
  import opened SettingsStore
  import opened RtcHal

  datatype Option<T> = None | Some(value: T)

  const CMD_SET_TIME: uint8 := 0x10
  const CMD_CHANGE_SETTING: uint8 := 0x11

  /** State_e */
  datatype RxState = Wait | Rx

  /** m_state, m_rx and m_expectingBytes. */
  datatype Decoder = Decoder(state: RxState, rx: seq<uint8>, expecting: uint8)

  const START: Decoder := Decoder(Wait, [], 0)

  /**
   * What a complete payload asks for. A known command whose payload is too
   * short to hold its arguments is `Truncated`: the firmware would read past
   * the received bytes, and the model does nothing for it.
   */
  datatype Command =
    | SetTime(h: uint8, m: uint8, s: uint8)
    | ChangeSetting(id: uint8, value: uint32)
    | Unknown(code: uint8)
    | Truncated(code: uint8)

  /** `b[0] << 24 | b[1] << 16 | b[2] << 8 | b[3]`, as the uint32_t it is stored in. */
  function BigEndian32(b: seq<uint8>): uint32
    requires |b| == 4
  {
    b[0] as int * 0x100_0000 + b[1] as int * 0x1_0000 + b[2] as int * 0x100 + b[3] as int
  }

  /** The four bytes of `v`, most significant first. */
  function Bytes32(v: uint32): (b: seq<uint8>)
    ensures |b| == 4 && BigEndian32(b) == v
  {
    var b0, r0 := v / 0x100_0000, v % 0x100_0000;
    var b1, r1 := r0 / 0x1_0000, r0 % 0x1_0000;
    var b2, b3 := r1 / 0x100, r1 % 0x100;
    assert v == b0 * 0x100_0000 + r0 && r0 == b1 * 0x1_0000 + r1 && r1 == b2 * 0x100 + b3;
    [b0, b1, b2, b3]
  }

  /** The other direction: four bytes survive a trip through their value. */
  lemma Bytes32OfBigEndian(b: seq<uint8>)
    requires |b| == 4
    ensures Bytes32(BigEndian32(b)) == b
  {
    var v := BigEndian32(b);
    var r0 := b[1] as int * 0x1_0000 + b[2] as int * 0x100 + b[3] as int;
    var r1 := b[2] as int * 0x100 + b[3] as int;
    assert v / 0x100_0000 == b[0] && v % 0x100_0000 == r0;
    assert r0 / 0x1_0000 == b[1] && r0 % 0x1_0000 == r1;
    assert r1 / 0x100 == b[2] && r1 % 0x100 == b[3];
  }

  /** The switch on m_rx[0] once m_expectingBytes bytes have arrived. */
  function Parse(payload: seq<uint8>): Command
    requires |payload| >= 1
  {
    if payload[0] == CMD_SET_TIME then
      if |payload| >= 4 then SetTime(payload[1], payload[2], payload[3]) else Truncated(payload[0])
    else if payload[0] == CMD_CHANGE_SETTING then
      if |payload| >= 6 then ChangeSetting(payload[1], BigEndian32(payload[2..6])) else Truncated(payload[0])
    else Unknown(payload[0])
  }

  /** The payload a sender builds for a command that carries arguments. */
  function Encode(c: Command): (p: seq<uint8>)
    requires c.SetTime? || c.ChangeSetting?
    ensures 1 <= |p| <= 6
  {
    match c
    case SetTime(h, m, s) => [CMD_SET_TIME, h, m, s]
    case ChangeSetting(id, value) => [CMD_CHANGE_SETTING, id] + Bytes32(value)
  }

  /** Every set-time and change-setting command is decoded from its payload unchanged. */
  lemma ParseEncode(c: Command)
    requires c.SetTime? || c.ChangeSetting?
    ensures Parse(Encode(c)) == c
  {
    if c.ChangeSetting? {
      assert Encode(c)[2..6] == Bytes32(c.value);
    }
  }

  /** A length byte followed by the payload. */
  function Frame(payload: seq<uint8>): seq<uint8>
    requires |payload| < 0x100
  {
    [|payload| as uint8] + payload
  }

  /** Process, on a buffer that already holds the newly received byte. */
  function ProcessStep(d: Decoder): (Decoder, Option<Command>)
    requires |d.rx| >= 1
  {
    if d.state == Wait then (Decoder(Rx, [], d.rx[0]), None)
    else if |d.rx| == d.expecting as int then (Decoder(Wait, [], d.expecting), Some(Parse(d.rx)))
    else (d, None)
  }

  /** ReceiveByte: append, then Process. */
  function Step(d: Decoder, b: uint8): (Decoder, Option<Command>)
  {
    ProcessStep(d.(rx := d.rx + [b]))
  }

  function Run(d: Decoder, bytes: seq<uint8>): (r: (Decoder, seq<Command>))
    decreases |bytes|
  {
    if bytes == [] then (d, [])
    else
      var first := Step(d, bytes[0]);
      var rest := Run(first.0, bytes[1..]);
      (rest.0, Emitted(first.1) + rest.1)
  }

  function Emitted(c: Option<Command>): seq<Command>
  {
    if c.Some? then [c.value] else []
  }

  /**
   * The decoder's invariant: waiting means an empty buffer, and a buffer
   * being filled is shorter than the announced length, unless that length is 0.
   */
  predicate Good(d: Decoder)
  {
    (d.state == Wait ==> d.rx == []) &&
    (d.state == Rx && d.expecting != 0 ==> |d.rx| < d.expecting as int)
  }

  lemma StepKeepsGood(d: Decoder, b: uint8)
    requires Good(d)
    ensures Good(Step(d, b).0)
  {
  }

  /** Running over a concatenation is running over each part in turn. */
  lemma {:induction false} RunAppend(d: Decoder, a: seq<uint8>, b: seq<uint8>)
    ensures Run(d, a + b) == (Run(Run(d, a).0, b).0, Run(d, a).1 + Run(Run(d, a).0, b).1)
    decreases |a|
  {
    if a != [] {
      var first := Step(d, a[0]);
      assert (a + b)[0] == a[0] && (a + b)[1..] == a[1..] + b;
      RunAppend(first.0, a[1..], b);
      var mid := Run(first.0, a[1..]);
      assert Run(d, a) == (mid.0, Emitted(first.1) + mid.1);
      assert Run(d, a + b) == (Run(mid.0, b).0, Emitted(first.1) + (mid.1 + Run(mid.0, b).1));
      assert Emitted(first.1) + (mid.1 + Run(mid.0, b).1) == (Emitted(first.1) + mid.1) + Run(mid.0, b).1;
    } else {
      assert a + b == b && [] + Run(d, b).1 == Run(d, b).1;
    }
  }

  /** Payload bytes that do not complete the frame are only collected. */
  lemma {:induction false} Collect(r: seq<uint8>, e: uint8, bs: seq<uint8>)
    requires |r| + |bs| < e as int
    ensures Run(Decoder(Rx, r, e), bs) == (Decoder(Rx, r + bs, e), [])
    decreases |bs|
  {
    if bs != [] {
      assert r + [bs[0]] + bs[1..] == r + bs;
      assert Step(Decoder(Rx, r, e), bs[0]) == (Decoder(Rx, r + [bs[0]], e), None);
      Collect(r + [bs[0]], e, bs[1..]);
      var rest := Run(Decoder(Rx, r + [bs[0]], e), bs[1..]);
      assert rest.0 == Decoder(Rx, r + bs, e);
      assert rest.1 == [];
      assert Emitted(None) == [];
      assert Run(Decoder(Rx, r, e), bs) == (rest.0, Emitted(None) + rest.1);
      assert Emitted(None) + rest.1 == [];
    } else {
      assert r + bs == r;
    }
  }

  /**
   * From a waiting decoder, a frame of 1..255 payload bytes yields exactly
   * its parsed command, on its last byte, and leaves the decoder waiting.
   */
  lemma FrameDelivers(d: Decoder, payload: seq<uint8>)
    requires d.state == Wait && d.rx == []
    requires 1 <= |payload| < 0x100
    ensures Run(d, Frame(payload)) == (Decoder(Wait, [], |payload| as uint8), [Parse(payload)])
  {
    var n := |payload|;
    var e := n as uint8;
    var d1 := Decoder(Rx, [], e);
    var init, last := payload[..n - 1], payload[n - 1];
    assert init + [last] == payload;
    // the length byte
    assert Step(d, e) == (d1, None);
    assert [e][0] == e && [e][1..] == [];
    assert Run(d, [e]) == (d1, Emitted(None) + Run(d1, []).1);
    assert Emitted(None) + [] == [];
    assert Run(d, [e]) == (d1, []);
    // all payload bytes but the last are collected
    Collect([], e, init);
    assert [] + init == init;
    // the last one completes the frame
    var done := Decoder(Wait, [], e);
    assert Step(Decoder(Rx, init, e), last) == (done, Some(Parse(payload)));
    assert [last][0] == last && [last][1..] == [];
    assert Run(Decoder(Rx, init, e), [last]) == (done, Emitted(Some(Parse(payload))) + Run(done, []).1);
    assert Emitted(Some(Parse(payload))) + [] == [Parse(payload)];
    assert Run(Decoder(Rx, init, e), [last]) == (done, [Parse(payload)]);
    RunAppend(d1, init, [last]);
    assert Run(d1, payload) == (done, [] + [Parse(payload)]);
    RunAppend(d, [e], payload);
    assert [] + [Parse(payload)] == [Parse(payload)];
  }

  /** A stream of frames yields their commands in order and ends waiting. */
  lemma {:induction false} FramesDeliver(d: Decoder, payloads: seq<seq<uint8>>)
    requires d.state == Wait && d.rx == []
    requires forall i :: 0 <= i < |payloads| ==> 1 <= |payloads[i]| < 0x100
    ensures Run(d, Concat(payloads)).0.state == Wait && Run(d, Concat(payloads)).0.rx == []
    ensures Run(d, Concat(payloads)).1 == ParseAll(payloads)
    decreases |payloads|
  {
    if payloads != [] {
      var head, tail := payloads[0], payloads[1..];
      assert Concat(payloads) == Frame(head) + Concat(tail);
      assert ParseAll(payloads) == [Parse(head)] + ParseAll(tail);
      FrameDelivers(d, head);
      var d1 := Decoder(Wait, [], |head| as uint8);
      RunAppend(d, Frame(head), Concat(tail));
      FramesDeliver(d1, tail);
    } else {
      assert Concat(payloads) == [] && ParseAll(payloads) == [];
    }
  }

  function Concat(payloads: seq<seq<uint8>>): seq<uint8>
    requires forall i :: 0 <= i < |payloads| ==> |payloads[i]| < 0x100
  {
    if payloads == [] then [] else Frame(payloads[0]) + Concat(payloads[1..])
  }

  function ParseAll(payloads: seq<seq<uint8>>): seq<Command>
    requires forall i :: 0 <= i < |payloads| ==> 1 <= |payloads[i]|
  {
    if payloads == [] then [] else [Parse(payloads[0])] + ParseAll(payloads[1..])
  }

  /**
   * A zero length byte wedges the decoder: it waits for a buffer of size 0,
   * which a buffer that has just received a byte never is, so no later
   * byte is ever decoded.
   */
  lemma {:induction false} ZeroLengthWedges(d: Decoder, bs: seq<uint8>)
    requires d.state == Wait && d.rx == []
    ensures Run(d, [0] + bs).1 == []
    ensures Run(d, [0] + bs).0.state == Rx
  {
    var d1 := Decoder(Rx, [], 0);
    assert Step(d, 0) == (d1, None);
    var z: seq<uint8> := [0];
    assert z[0] == 0 && z[1..] == [];
    assert Emitted(None) + [] == [];
    assert Run(d, z) == (d1, []);
    RunAppend(d, z, bs);
    Stuck([], bs);
    assert [] + bs == bs;
  }

  lemma {:induction false} Stuck(r: seq<uint8>, bs: seq<uint8>)
    ensures Run(Decoder(Rx, r, 0), bs) == (Decoder(Rx, r + bs, 0), [])
    decreases |bs|
  {
    if bs != [] {
      assert r + [bs[0]] + bs[1..] == r + bs;
      assert Step(Decoder(Rx, r, 0), bs[0]) == (Decoder(Rx, r + [bs[0]], 0), None);
      Stuck(r + [bs[0]], bs[1..]);
      var rest := Run(Decoder(Rx, r + [bs[0]], 0), bs[1..]);
      assert Run(Decoder(Rx, r, 0), bs) == (rest.0, Emitted(None) + rest.1);
      assert Emitted(None) + rest.1 == [];
    } else {
      assert r + bs == r;
    }
  }

  /** The calls into Clock a command makes (their effect is modelled with the clock). */
  datatype ClockCalls = ClockCalls(changeDigitType: bool, useAnimation: Option<uint32>, redraw: bool)

  const NO_CALLS: ClockCalls := ClockCalls(false, None, false)

  /** The settings after a command: only change-setting writes, and only its one slot. */
  function StoreAfter(store: seq<uint32>, c: Option<Command>): (r: seq<uint32>)
    requires |store| == SETTINGS_SIZE
    ensures |r| == SETTINGS_SIZE
  {
    if c.Some? && c.value.ChangeSetting? then store[c.value.id := c.value.value] else store
  }

  /** The RTC after a command: set-time passes the seconds on one higher, to the clamping setter. */
  function RtcAfter(g: RtcRecord, c: Option<Command>): RtcRecord
  {
    if c.Some? && c.value.SetTime? then WithTime(g, c.value.h, c.value.m, c.value.s + 1) else g
  }

  /** A change of the digit type rebuilds the digits, of the animation type picks the animator; every change forces a redraw. */
  function CallsFor(c: Option<Command>): ClockCalls
  {
    if c.Some? && c.value.ChangeSetting? then
      ClockCalls(c.value.id == SETTING_DIGIT_TYPE,
                 if c.value.id == SETTING_ANIMATION_TYPE then Some(c.value.value) else None,
                 true)
    else NO_CALLS
  }

  class CmdHandler {
    const settings: Settings
    const rtc: Rtc
    var state: RxState
    var rx: seq<uint8>
    var expecting: uint8

    function Current(): Decoder
      reads this
    {
      Decoder(state, rx, expecting)
    }

    constructor (settings: Settings, rtc: Rtc)
      ensures this.settings == settings && this.rtc == rtc && Current() == START
    {
      this.settings := settings;
      this.rtc := rtc;
      state := Wait;
      rx := [];
      expecting := 0;
    }

    /** Appends the byte and processes the buffer; returns the clock calls made. */
    method ReceiveByte(val: uint8) returns (calls: ClockCalls)
      requires settings.Valid()
      modifies this, settings.storage, rtc
      ensures var (d, c) := Step(old(Current()), val);
        Current() == d && calls == CallsFor(c) &&
        settings.storage[..] == StoreAfter(old(settings.storage[..]), c) &&
        rtc.g == RtcAfter(old(rtc.g), c)
    {
      rx := rx + [val];
      calls := Process();
    }

    method Process() returns (calls: ClockCalls)
      requires settings.Valid() && |rx| >= 1
      modifies this, settings.storage, rtc
      ensures var (d, c) := ProcessStep(old(Current()));
        Current() == d && calls == CallsFor(c) &&
        settings.storage[..] == StoreAfter(old(settings.storage[..]), c) &&
        rtc.g == RtcAfter(old(rtc.g), c)
    {
      calls := NO_CALLS;
      if state == Wait {
        expecting := rx[0];
        state := Rx;
        rx := [];
      } else if state == Rx && |rx| == expecting as int {
        if rx[0] == CMD_SET_TIME {
          if |rx| >= 4 {
            rtc.SetTime(rx[1], rx[2], rx[3] as int + 1);
          }
        } else if rx[0] == CMD_CHANGE_SETTING {
          if |rx| >= 6 {
            var id := rx[1];
            var value := BigEndian32(rx[2..6]);
            settings.Set(id, value);
            var changeDigitType := false;
            var useAnimation := None;
            if id == SETTING_DIGIT_TYPE {
              changeDigitType := true;
            } else if id == SETTING_ANIMATION_TYPE {
              useAnimation := Some(settings.Get(SETTING_ANIMATION_TYPE));
            }
            calls := ClockCalls(changeDigitType, useAnimation, true);
          }
        }
        state := Wait;
        rx := [];
      }
    }
  }
}
