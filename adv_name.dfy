/**
 * firmware/nus_main.c, set_adv_name: copies the device name into the
 * discoverable-mode advertising data, a 31-byte buffer holding one
 * "complete local name" AD structure (length byte, type byte, name).
 */
module AdvName {
  import opened Ints

  const MAX_ADV_DATA_LEN: nat := 31
  /** At most this many name characters fit after the length and type bytes. */
  const MAX_NAME_LEN: nat := MAX_ADV_DATA_LEN - 2
  /** The AD type "Complete Local Name" of the Bluetooth Core Specification Supplement, section 1.2. */
  const DM_ADV_TYPE_LOCAL_NAME: uint8 := 0x09
  /** The length byte set_adv_name writes, whatever the name. */
  const ADV_NAME_FIELD_LEN: uint8 := 30

  /** The number of characters copied: up to the NUL, and at most `cap`. */
  function NameLen(str: seq<uint8>, cap: nat): (n: nat)
    requires 0 in str
    ensures n <= cap && n < |str|
    ensures forall k :: 0 <= k < n ==> str[k] != 0
    ensures n < cap ==> str[n] == 0
    decreases cap
  {
    if cap == 0 || str[0] == 0 then 0
    else
      assert 0 in str[1..] by {
        var z :| 0 <= z < |str| && str[z] == 0;
        assert z != 0 && str[1..][z - 1] == 0;
      }
      1 + NameLen(str[1..], cap - 1)
  }

  /** The advertising data after set_adv_name: length 30, the name type, the copied characters, the rest untouched. */
  function AdvAfter(buf: seq<uint8>, str: seq<uint8>): (r: seq<uint8>)
    requires |buf| == MAX_ADV_DATA_LEN && 0 in str
    ensures |r| == MAX_ADV_DATA_LEN
  {
    var n := NameLen(str, MAX_NAME_LEN);
    [ADV_NAME_FIELD_LEN, DM_ADV_TYPE_LOCAL_NAME] + str[..n] + buf[2 + n..]
  }

  /**
   * Byte 0 is 30 and byte 1 the name type for every name; character k
   * of the name lands at 2 + k; the bytes after the copied name keep
   * their contents; and the copy stops at the NUL or after 29 characters.
   */
  lemma AdvAfterLayout(buf: seq<uint8>, str: seq<uint8>)
    requires |buf| == MAX_ADV_DATA_LEN && 0 in str
    ensures var r, n := AdvAfter(buf, str), NameLen(str, MAX_NAME_LEN);
      r[0] == 30 && r[1] == DM_ADV_TYPE_LOCAL_NAME &&
      2 + n <= MAX_ADV_DATA_LEN &&
      (forall k :: 0 <= k < n ==> r[2 + k] == str[k] != 0) &&
      (forall k :: 2 + n <= k < MAX_ADV_DATA_LEN ==> r[k] == buf[k]) &&
      (n == MAX_NAME_LEN || str[n] == 0)
  {
  }

  /** A name of 29 characters or more is cut to its first 29. */
  lemma LongNameTruncated(str: seq<uint8>)
    requires 0 in str
    requires forall k :: 0 <= k < MAX_NAME_LEN && k < |str| ==> str[k] != 0
    ensures NameLen(str, MAX_NAME_LEN) == MAX_NAME_LEN
  {
  }

  /** tagAdvDataDisc, zero-initialised. */
  class AdvData {
    const data: array<uint8>

    constructor ()
      ensures fresh(data) && data.Length == MAX_ADV_DATA_LEN
      ensures forall k :: 0 <= k < MAX_ADV_DATA_LEN ==> data[k] == 0
    {
      data := new uint8[MAX_ADV_DATA_LEN](_ => 0);
    }

    /** set_adv_name(str); `str` is a C string, so it holds a NUL. */
    method SetAdvName(str: seq<uint8>)
      requires data.Length == MAX_ADV_DATA_LEN && 0 in str
      modifies data
      ensures data[..] == AdvAfter(old(data[..]), str)
    {
      var indi: uint8 := 0;
      var done := false;
      while !done
        invariant indi as nat <= NameLen(str, MAX_NAME_LEN)
        invariant done ==> indi as nat == NameLen(str, MAX_NAME_LEN)
        invariant !done ==> indi as nat < MAX_NAME_LEN
        invariant forall k :: 0 <= k < indi as nat ==> data[2 + k] == str[k]
        invariant forall k :: 0 <= k < MAX_ADV_DATA_LEN && !(2 <= k < 2 + indi as nat) ==> data[k] == old(data[k])
        decreases MAX_NAME_LEN - indi as nat, !done
      {
        NameLenPrefix(str, indi as nat);
        if str[indi] == 0 {
          done := true;
        } else {
          data[2 + indi] := str[indi];
          indi := indi + 1;
          if indi as nat >= MAX_ADV_DATA_LEN - 2 {
            done := true;
          }
        }
      }
      data[0] := ADV_NAME_FIELD_LEN;
      data[1] := DM_ADV_TYPE_LOCAL_NAME;
      assert forall k :: 0 <= k < MAX_ADV_DATA_LEN ==> data[k] == AdvAfter(old(data[..]), str)[k];
    }
  }

  /** The loop's test at position i decides whether the name ends there. */
  lemma {:induction false} NameLenPrefix(str: seq<uint8>, i: nat)
    requires 0 in str && i <= NameLen(str, MAX_NAME_LEN) && i < MAX_NAME_LEN
    ensures i < |str|
    ensures str[i] == 0 <==> i == NameLen(str, MAX_NAME_LEN)
  {
  }
}
