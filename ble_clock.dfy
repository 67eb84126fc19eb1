/**
 * app/FoxieClock/BLEClock.cs: the phone app's side of the protocol. Each
 * user action becomes a command frame written to the clock's "Immediate
 * Alert" characteristic one byte at a time. The BLE plugin (scanning,
 * connecting, the asynchronous writes, the 25 ms pauses) is not modelled:
 * the characteristic is the log `written` of every byte sent, in order.
 */
module BleClockApp {
  import opened Ints

  // SettingNames_e of the app
  const APP_SETTING_DIGIT_TYPE: uint8 := 0
  const APP_SETTING_CUR_BRIGHTNESS: uint8 := 1
  const APP_SETTING_MIN_BRIGHTNESS: uint8 := 2
  const APP_SETTING_MAX_BRIGHTNESS: uint8 := 3
  const APP_SETTING_BLINKING_SEPARATORS: uint8 := 4
  const APP_SETTING_COLOR: uint8 := 5
  const APP_SETTING_ANIMATION_TYPE: uint8 := 6
  const APP_SETTING_24_HOUR_MODE: uint8 := 7

  // Command_e of the app
  const APP_CMD_SET_TIME: uint8 := 0x10
  const APP_CMD_CHANGE_SETTING: uint8 := 0x11

  /** The lowest brightness the app sends. */
  const MIN_SENT_BRIGHTNESS: uint8 := 4

  datatype DisplayMode = EdgeLit | Pixel

  function DisplayModeCode(mode: DisplayMode): (code: uint8)
    ensures code == 1 <==> mode == EdgeLit
    ensures code == 2 <==> mode == Pixel
  {
    match mode
    case EdgeLit => 1
    case Pixel => 2
  }

  /** A change-setting payload: the setting id, then the value as four big-endian bytes of which only the last can be nonzero. */
  function SettingData(id: uint8, value: uint8): (data: seq<uint8>)
    ensures |data| == 5 && data[0] == id && data[1] == 0 && data[2] == 0 && data[3] == 0 && data[4] == value
  {
    [id, 0, 0, 0, value]
  }

  /** SetBrightness: values below 4 are raised to 4. */
  function SentBrightness(brightness: uint8): (b: uint8)
    ensures b >= MIN_SENT_BRIGHTNESS
    ensures brightness >= MIN_SENT_BRIGHTNESS ==> b == brightness
    ensures brightness < MIN_SENT_BRIGHTNESS ==> b == MIN_SENT_BRIGHTNESS
  {
    if brightness < 4 then 4 else brightness
  }

  /** The value byte of a flag: 1 for true, 0 for false. */
  function FlagByte(flag: bool): (v: uint8)
    ensures v == 1 <==> flag
    ensures v == 0 <==> !flag
  {
    if flag then 1 else 0
  }

  /** The bytes SendCommand writes: payload length + 1, the command, the payload; the length is cast to a byte. */
  function AppFrame(cmd: uint8, data: seq<uint8>): (bytes: seq<uint8>)
    ensures |bytes| == |data| + 2 && bytes[1] == cmd && bytes[2..] == data
    ensures |data| < 0xff ==> bytes[0] as int == |data| + 1
  {
    [U8(|data| + 1), cmd] + data
  }

  /** What reaches the characteristic: the frame when connected, nothing otherwise. */
  function Sent(connected: bool, cmd: uint8, data: seq<uint8>): (bytes: seq<uint8>)
    ensures !connected ==> bytes == []
    ensures connected ==> bytes == AppFrame(cmd, data)
  {
    if connected then AppFrame(cmd, data) else []
  }

  class BleClock {
    var connected: bool
    var isConnecting: bool
    var is24HTime: bool
    var isBlinking: bool
    /** Every byte written to the alert-level characteristic so far. */
    var written: seq<uint8>

    constructor ()
      ensures !connected && !isConnecting && !is24HTime && isBlinking && written == []
    {
      connected := false;
      isConnecting := false;
      is24HTime := false;
      isBlinking := true;
      written := [];
    }

    /** The success path of DiscoverDevice: the clock's alert service was found. */
    method DeviceFound()
      modifies this
      ensures connected && !isConnecting
      ensures is24HTime == old(is24HTime) && isBlinking == old(isBlinking) && written == old(written)
    {
      isConnecting := false;
      connected := true;
    }

    method Disconnect()
      modifies this
      ensures !connected && !isConnecting
      ensures is24HTime == old(is24HTime) && isBlinking == old(isBlinking) && written == old(written)
    {
      isConnecting := false;
      connected := false;
    }

    /** SendCommand: build the frame in a buffer, then write it byte by byte. */
    method SendCommand(cmd: uint8, data: seq<uint8>)
      modifies this
      ensures written == old(written) + Sent(old(connected), cmd, data)
      ensures connected == old(connected) && isConnecting == old(isConnecting)
      ensures is24HTime == old(is24HTime) && isBlinking == old(isBlinking)
    {
      if !connected {
        assert written + [] == written;
        return;
      }
      var bytes := new uint8[|data| + 2];
      bytes[0] := U8(|data| + 1);
      bytes[1] := cmd;
      for k := 0 to |data|
        modifies bytes
        invariant bytes[0] == U8(|data| + 1) && bytes[1] == cmd
        invariant forall j :: 0 <= j < k ==> bytes[j + 2] == data[j]
      {
        bytes[k + 2] := data[k];
      }
      assert bytes[..] == AppFrame(cmd, data);
      var w0 := written;
      for i := 0 to bytes.Length
        modifies this
        invariant written == w0 + bytes[..i]
        invariant connected && isConnecting == old(isConnecting)
        invariant is24HTime == old(is24HTime) && isBlinking == old(isBlinking)
      {
        written := written + [bytes[i]];
        assert bytes[..i + 1] == bytes[..i] + [bytes[i]];
      }
      assert bytes[..bytes.Length] == bytes[..];
    }

    method SetColorWheel(colorWheelValue: uint8)
      modifies this
      ensures written == old(written) + Sent(connected, APP_CMD_CHANGE_SETTING, SettingData(APP_SETTING_COLOR, colorWheelValue))
      ensures connected == old(connected) && is24HTime == old(is24HTime) && isBlinking == old(isBlinking)
    {
      SendCommand(APP_CMD_CHANGE_SETTING, [APP_SETTING_COLOR, 0, 0, 0, colorWheelValue]);
    }

    method SetBrightness(brightness: uint8)
      modifies this
      ensures written == old(written) +
        Sent(connected, APP_CMD_CHANGE_SETTING, SettingData(APP_SETTING_CUR_BRIGHTNESS, SentBrightness(brightness)))
      ensures connected == old(connected) && is24HTime == old(is24HTime) && isBlinking == old(isBlinking)
    {
      var b := brightness;
      if b < 4 {
        b := 4;
      }
      SendCommand(APP_CMD_CHANGE_SETTING, [APP_SETTING_CUR_BRIGHTNESS, 0, 0, 0, b]);
    }

    method SetDisplayMode(mode: DisplayMode)
      modifies this
      ensures written == old(written) +
        Sent(connected, APP_CMD_CHANGE_SETTING, SettingData(APP_SETTING_DIGIT_TYPE, DisplayModeCode(mode)))
      ensures connected == old(connected) && is24HTime == old(is24HTime) && isBlinking == old(isBlinking)
    {
      SendCommand(APP_CMD_CHANGE_SETTING, [APP_SETTING_DIGIT_TYPE, 0, 0, 0, DisplayModeCode(mode)]);
    }

    method SetAnimation(mode: uint8)
      modifies this
      ensures written == old(written) + Sent(connected, APP_CMD_CHANGE_SETTING, SettingData(APP_SETTING_ANIMATION_TYPE, mode))
      ensures connected == old(connected) && is24HTime == old(is24HTime) && isBlinking == old(isBlinking)
    {
      SendCommand(APP_CMD_CHANGE_SETTING, [APP_SETTING_ANIMATION_TYPE, 0, 0, 0, mode]);
    }

    /** Flips the app's 24-hour flag and sends the new flag; the flag flips even when nothing can be sent. */
    method Toggle24hTime()
      modifies this
      ensures is24HTime == !old(is24HTime)
      ensures written == old(written) +
        Sent(connected, APP_CMD_CHANGE_SETTING, SettingData(APP_SETTING_24_HOUR_MODE, FlagByte(is24HTime)))
      ensures connected == old(connected) && isBlinking == old(isBlinking)
    {
      is24HTime := !is24HTime;
      SendCommand(APP_CMD_CHANGE_SETTING, [APP_SETTING_24_HOUR_MODE, 0, 0, 0, if is24HTime then 1 else 0]);
    }

    /** Flips the app's blinking flag and sends the new flag. */
    method ToggleBlinkers()
      modifies this
      ensures isBlinking == !old(isBlinking)
      ensures written == old(written) +
        Sent(connected, APP_CMD_CHANGE_SETTING, SettingData(APP_SETTING_BLINKING_SEPARATORS, FlagByte(isBlinking)))
      ensures connected == old(connected) && is24HTime == old(is24HTime)
    {
      isBlinking := !isBlinking;
      SendCommand(APP_CMD_CHANGE_SETTING, [APP_SETTING_BLINKING_SEPARATORS, 0, 0, 0, if isBlinking then 1 else 0]);
    }

    /** SetTime with the phone's local time of day (an input here). */
    method SetTime(hour: uint8, minute: uint8, second: uint8)
      modifies this
      ensures written == old(written) + Sent(connected, APP_CMD_SET_TIME, [hour, minute, second])
      ensures connected == old(connected) && is24HTime == old(is24HTime) && isBlinking == old(isBlinking)
    {
      SendCommand(APP_CMD_SET_TIME, [hour, minute, second]);
    }
  }

  /** Toggling twice restores the flag and sends the original flag last. */
  method ToggleTwice(app: BleClock)
    modifies app
    ensures app.is24HTime == old(app.is24HTime)
    ensures app.written == old(app.written) +
      Sent(app.connected, APP_CMD_CHANGE_SETTING, SettingData(APP_SETTING_24_HOUR_MODE, FlagByte(!old(app.is24HTime)))) +
      Sent(app.connected, APP_CMD_CHANGE_SETTING, SettingData(APP_SETTING_24_HOUR_MODE, FlagByte(old(app.is24HTime))))
  {
    app.Toggle24hTime();
    app.Toggle24hTime();
  }
}
