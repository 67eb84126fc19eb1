/**
 * firmware/settings.hpp: 256 uint32 slots, indexed by setting name, of which
 * the first TOTAL_SETTINGS are in use. The EEPROM is a sequence of 32-bit
 * words: Load reads its first TOTAL_SETTINGS words, Save writes the whole
 * block of SETTINGS_SIZE words from word 0.
 */
module SettingsStore {
  import opened Ints

  const SETTINGS_SIZE: nat := 256
  const TOTAL_SETTINGS: nat := 8

  // SettingNames_e
  const SETTING_DIGIT_TYPE: uint8 := 0
  const SETTING_CUR_BRIGHTNESS: uint8 := 1
  const SETTING_MIN_BRIGHTNESS: uint8 := 2
  const SETTING_MAX_BRIGHTNESS: uint8 := 3
  const SETTING_BLINKING_SEPARATORS: uint8 := 4
  const SETTING_COLOR: uint8 := 5
  const SETTING_ANIMATION_TYPE: uint8 := 6
  const SETTING_24_HOUR_MODE: uint8 := 7

  // AnimationType_e
  const ANIM_NONE: uint32 := 0
  const ANIM_CYCLE_COLORS: uint32 := 1

  /** The values ResetToDefaults writes, slot by slot from SETTING_DIGIT_TYPE. */
  const DEFAULTS: seq<uint32> := [2, 64, 4, 192, 1, 192, 1, 0]

  /** The store right after construction: zero-initialised, then Load. */
  function Loaded(eeprom: seq<uint32>): (r: seq<uint32>)
    requires |eeprom| >= TOTAL_SETTINGS
    ensures |r| == SETTINGS_SIZE
  {
    eeprom[..TOTAL_SETTINGS] + seq(SETTINGS_SIZE - TOTAL_SETTINGS, _ => 0)
  }

  /** The EEPROM after writing `block` at word 0; words past the block are kept. */
  function Written(eeprom: seq<uint32>, block: seq<uint32>): (r: seq<uint32>)
    ensures |r| >= |block| && r[..|block|] == block
  {
    block + (if |eeprom| > |block| then eeprom[|block|..] else [])
  }

  /**
   * Saving and restarting restores the settings in use; the whole store
   * comes back exactly when nothing is kept beyond slot TOTAL_SETTINGS.
   */
  lemma SaveThenLoad(eeprom: seq<uint32>, store: seq<uint32>)
    requires |store| == SETTINGS_SIZE
    ensures Loaded(Written(eeprom, store))[..TOTAL_SETTINGS] == store[..TOTAL_SETTINGS]
    ensures Loaded(Written(eeprom, store)) == store <==>
      forall k :: TOTAL_SETTINGS <= k < SETTINGS_SIZE ==> store[k] == 0
  {
    var r := Loaded(Written(eeprom, store));
    assert Written(eeprom, store)[..TOTAL_SETTINGS] == store[..TOTAL_SETTINGS];
    assert forall k :: TOTAL_SETTINGS <= k < SETTINGS_SIZE ==> r[k] == 0;
    assert forall k :: 0 <= k < TOTAL_SETTINGS ==> r[k] == store[k];
  }

  class Settings {
    const storage: array<uint32>
    /** The EEPROM, as 32-bit words. */
    var eeprom: seq<uint32>

    ghost predicate Valid()
    {
      storage.Length == SETTINGS_SIZE
    }

    /** Storage starts all zero; Load then fills the slots in use from the EEPROM. */
    constructor (eeprom: seq<uint32>)
      requires |eeprom| >= TOTAL_SETTINGS
      ensures Valid() && fresh(storage)
      ensures storage[..] == Loaded(eeprom) && this.eeprom == eeprom
    {
      storage := new uint32[SETTINGS_SIZE](_ => 0);
      this.eeprom := eeprom;
      new;
      Load();
    }

    /** The value of setting `name`: slot `name` of the store, as Set, Load and ResetToDefaults leave it. */
    function Get(name: uint8): (v: uint32)
      requires Valid()
      reads storage
      ensures v == storage[..][name]
    {
      storage[name]
    }

    method Set(name: uint8, value: uint32)
      requires Valid()
      modifies storage
      ensures storage[..] == old(storage[..])[name := value]
      ensures Get(name) == value
    {
      storage[name] := value;
    }

    method ResetToDefaults()
      requires Valid()
      modifies this, storage
      ensures storage[..] == DEFAULTS + old(storage[..])[TOTAL_SETTINGS..]
      ensures eeprom == Written(old(eeprom), storage[..])
    {
      Set(SETTING_DIGIT_TYPE, 2);
      Set(SETTING_CUR_BRIGHTNESS, 64);
      Set(SETTING_MIN_BRIGHTNESS, 4);
      Set(SETTING_MAX_BRIGHTNESS, 192);
      Set(SETTING_BLINKING_SEPARATORS, 1);
      Set(SETTING_COLOR, 192);
      Set(SETTING_ANIMATION_TYPE, 1);
      Set(SETTING_24_HOUR_MODE, 0);
      assert storage[..] == DEFAULTS + old(storage[..])[TOTAL_SETTINGS..];
      Save();
    }

    /** The whole store is written to the EEPROM in one block. */
    method Save()
      requires Valid()
      modifies this
      ensures eeprom == Written(old(eeprom), storage[..])
    {
      eeprom := storage[..] + (if |eeprom| > storage.Length then eeprom[storage.Length..] else []);
    }

    /** Only the first TOTAL_SETTINGS slots come from the EEPROM. */
    method Load()
      requires Valid() && |eeprom| >= TOTAL_SETTINGS
      modifies storage
      ensures storage[..] == eeprom[..TOTAL_SETTINGS] + old(storage[..])[TOTAL_SETTINGS..]
    {
      var i := 0;
      while i < TOTAL_SETTINGS
        invariant 0 <= i <= TOTAL_SETTINGS
        invariant forall k :: 0 <= k < i ==> storage[k] == eeprom[k]
        invariant forall k :: i <= k < SETTINGS_SIZE ==> storage[k] == old(storage[k])
      {
        storage[i] := eeprom[i];
        i := i + 1;
      }
      assert forall k :: 0 <= k < SETTINGS_SIZE ==>
        storage[..][k] == (eeprom[..TOTAL_SETTINGS] + old(storage[..])[TOTAL_SETTINGS..])[k];
    }
  }
}
