/**
 * `PreferenceFlags`: the device's packed preference integer and its four
 * decoded settings. Bit layout (bit values):
 *   carpetBoost     bits 16 and 64   0 auto, 16 eco, 80 performance
 *   edgeClean       bit 2            clear means on
 *   cleaningPasses  bits 1 and 1024  0 auto, 1024 one, 1025 two
 *   alwaysFinish    bit 32           clear means on
 */
module Flags {
  import opened Failures

  /** The packed field; every mask the setters apply is a 16-bit constant. */
  type Raw = bv16

  /** `CARPET_BOOST_OPTIONS`: table key to mode name. */
  function CarpetBoostOption(key: Raw): (r: Option<string>)
    ensures r.Some? <==> key == 0 || key == 16 || key == 80
  {
    if key == 0 then Some("auto")
    else if key == 16 then Some("eco")
    else if key == 80 then Some("performance")
    else None
  }

  /** `CLEANING_PASSES_OPTIONS`: table key to mode name. */
  function CleaningPassesOption(key: Raw): (r: Option<string>)
    ensures r.Some? <==> key == 0 || key == 1024 || key == 1025
  {
    if key == 0 then Some("auto")
    else if key == 1024 then Some("one")
    else if key == 1025 then Some("two")
    else None
  }

  const CarpetBoostMask: Raw := 80
  const EdgeCleanBit: Raw := 2
  const CleaningPassesMask: Raw := 1025
  const AlwaysFinishBit: Raw := 32

  datatype Settings = Settings(carpetBoost: string, edgeClean: bool, cleaningPasses: string, alwaysFinish: bool)

  /** The table key of a carpet boost mode: the bits it stands for. */
  function CarpetBoostKey(mode: string): (k: Option<Raw>)
    ensures k.Some? ==> CarpetBoostOption(k.value) == Some(mode)
    ensures forall key :: CarpetBoostOption(key) == Some(mode) ==> k == Some(key)
    ensures k.Some? ==> k.value & !CarpetBoostMask == 0
  {
    if mode == "auto" then Some(0)
    else if mode == "eco" then Some(16)
    else if mode == "performance" then Some(80)
    else None
  }

  /** The table key of a cleaning passes mode. */
  function CleaningPassesKey(mode: string): (k: Option<Raw>)
    ensures k.Some? ==> CleaningPassesOption(k.value) == Some(mode)
    ensures forall key :: CleaningPassesOption(key) == Some(mode) ==> k == Some(key)
    ensures k.Some? ==> k.value & !CleaningPassesMask == 0
  {
    if mode == "auto" then Some(0)
    else if mode == "one" then Some(1024)
    else if mode == "two" then Some(1025)
    else None
  }

  /**
   * `PreferenceFlags::decode`: both table lookups must find their key, which
   * rules out bit 64 without bit 16 and bit 1 without bit 1024.
   */
  function DecodeSettings(raw: Raw): (r: Option<Settings>)
    ensures r.Some? <==> (raw & 64 == 0 || raw & 16 != 0) && (raw & 1 == 0 || raw & 1024 != 0)
    ensures r.Some? ==> CarpetBoostKey(r.value.carpetBoost) == Some(raw & CarpetBoostMask)
    ensures r.Some? ==> CleaningPassesKey(r.value.cleaningPasses) == Some(raw & CleaningPassesMask)
    ensures r.Some? ==> (r.value.edgeClean <==> raw & EdgeCleanBit == 0)
    ensures r.Some? ==> (r.value.alwaysFinish <==> raw & AlwaysFinishBit == 0)
  {
    var carpet := CarpetBoostOption(raw & 80);
    var passes := CleaningPassesOption(raw & 1025);
    if carpet.Some? && passes.Some? then
      Some(Settings(carpet.value, raw & 2 == 0, passes.value, raw & 32 == 0))
    else
      None
  }

  /** The masks `setCarpetBoost` applies; None for a mode outside the table. */
  function WithCarpetBoost(raw: Raw, mode: string): (r: Option<Raw>)
    ensures r.Some? <==> CarpetBoostKey(mode).Some?
    ensures r.Some? ==> r.value & CarpetBoostMask == CarpetBoostKey(mode).value
    ensures r.Some? ==> r.value & !CarpetBoostMask == raw & !CarpetBoostMask
  {
    if mode == "auto" then Some(raw & 65455)
    else if mode == "performance" then Some(raw | 80)
    else if mode == "eco" then Some((raw & 65471) | 16)
    else None
  }

  /** The masks `setEdgeClean` applies. */
  function WithEdgeClean(raw: Raw, on: bool): (r: Raw)
    ensures (r & EdgeCleanBit == 0) == on
    ensures r & !EdgeCleanBit == raw & !EdgeCleanBit
  {
    if on then raw & 65533 else raw | 2
  }

  /** The masks `setCleaningPasses` applies; None for a mode outside the table. */
  function WithCleaningPasses(raw: Raw, mode: string): (r: Option<Raw>)
    ensures r.Some? <==> CleaningPassesKey(mode).Some?
    ensures r.Some? ==> r.value & CleaningPassesMask == CleaningPassesKey(mode).value
    ensures r.Some? ==> r.value & !CleaningPassesMask == raw & !CleaningPassesMask
  {
    if mode == "auto" then Some(raw & 64510)
    else if mode == "one" then Some((raw & 65534) | 1024)
    else if mode == "two" then Some(raw | 1025)
    else None
  }

  /** The masks `setAlwaysFinish` applies. */
  function WithAlwaysFinish(raw: Raw, on: bool): (r: Raw)
    ensures (r & AlwaysFinishBit == 0) == on
    ensures r & !AlwaysFinishBit == raw & !AlwaysFinishBit
  {
    if on then raw & 65503 else raw | 32
  }

  /** Re-decoding after a setter yields the value just set and leaves the other settings alone. */
  lemma DecodeWithCarpetBoost(raw: Raw, mode: string)
    requires DecodeSettings(raw).Some? && CarpetBoostKey(mode).Some?
    ensures DecodeSettings(WithCarpetBoost(raw, mode).value) == Some(DecodeSettings(raw).value.(carpetBoost := mode))
  {
  }

  lemma DecodeWithEdgeClean(raw: Raw, on: bool)
    requires DecodeSettings(raw).Some?
    ensures DecodeSettings(WithEdgeClean(raw, on)) == Some(DecodeSettings(raw).value.(edgeClean := on))
  {
  }

  lemma DecodeWithCleaningPasses(raw: Raw, mode: string)
    requires DecodeSettings(raw).Some? && CleaningPassesKey(mode).Some?
    ensures DecodeSettings(WithCleaningPasses(raw, mode).value) == Some(DecodeSettings(raw).value.(cleaningPasses := mode))
  {
  }

  lemma DecodeWithAlwaysFinish(raw: Raw, on: bool)
    requires DecodeSettings(raw).Some?
    ensures DecodeSettings(WithAlwaysFinish(raw, on)) == Some(DecodeSettings(raw).value.(alwaysFinish := on))
  {
  }

  /** The all-clear field decodes to every default, and asking for performance carpet boost sets 80. */
  lemma ZeroFlags()
    ensures DecodeSettings(0) == Some(Settings("auto", true, "auto", true))
    ensures WithCarpetBoost(0, "performance") == Some(80)
  {
  }

  class PreferenceFlags {
    var rawFlags: Raw
    var carpetBoost: string
    var edgeClean: bool
    var cleaningPasses: string
    var alwaysFinish: bool

    function Current(): Settings
      reads this
    {
      Settings(carpetBoost, edgeClean, cleaningPasses, alwaysFinish)
    }

    /** The decoded fields are the interpretation of the packed field. */
    ghost predicate Valid()
      reads this
    {
      DecodeSettings(rawFlags) == Some(Current())
    }

    constructor (raw: Raw, s: Settings)
      ensures rawFlags == raw && Current() == s
    {
      rawFlags := raw;
      carpetBoost := s.carpetBoost;
      edgeClean := s.edgeClean;
      cleaningPasses := s.cleaningPasses;
      alwaysFinish := s.alwaysFinish;
    }

    /** `PreferenceFlags::decode`; a missing table key ends in PHP's type error. */
    static method Decode(raw: Raw) returns (r: Result<PreferenceFlags>)
      ensures r.Err? <==> DecodeSettings(raw).None?
      ensures r.Err? ==> r.error == TypeError
      ensures r.Ok? ==> fresh(r.value) && r.value.Valid() && r.value.Encode() == raw
    {
      var s := DecodeSettings(raw);
      if s.None? {
        return Err(TypeError);
      }
      var f := new PreferenceFlags(raw, s.value);
      return Ok(f);
    }

    /** `encode()`: the packed field, whose decoding is the current settings. */
    function Encode(): (raw: Raw)
      reads this
      requires Valid()
      ensures DecodeSettings(raw) == Some(Current())
    {
      rawFlags
    }

    method SetCarpetBoost(mode: string) returns (r: Result<PreferenceFlags>)
      requires Valid()
      modifies this
      ensures Valid()
      ensures r == if CarpetBoostKey(mode).Some? then Ok(this) else Err(InvalidParameter(mode))
      ensures r.Ok? ==> Some(rawFlags) == WithCarpetBoost(old(rawFlags), mode)
      ensures r.Ok? ==> Current() == old(Current()).(carpetBoost := mode)
      ensures r.Err? ==> rawFlags == old(rawFlags) && Current() == old(Current())
    {
      var next := WithCarpetBoost(rawFlags, mode);
      if next.None? {
        return Err(InvalidParameter(mode));
      }
      DecodeWithCarpetBoost(rawFlags, mode);
      rawFlags := next.value;
      carpetBoost := mode;
      return Ok(this);
    }

    method SetEdgeClean(mode: bool := true) returns (r: PreferenceFlags)
      requires Valid()
      modifies this
      ensures Valid() && r == this
      ensures rawFlags == WithEdgeClean(old(rawFlags), mode)
      ensures Current() == old(Current()).(edgeClean := mode)
    {
      DecodeWithEdgeClean(rawFlags, mode);
      rawFlags := WithEdgeClean(rawFlags, mode);
      edgeClean := mode;
      return this;
    }

    method SetCleaningPasses(mode: string) returns (r: Result<PreferenceFlags>)
      requires Valid()
      modifies this
      ensures Valid()
      ensures r == if CleaningPassesKey(mode).Some? then Ok(this) else Err(InvalidParameter(mode))
      ensures r.Ok? ==> Some(rawFlags) == WithCleaningPasses(old(rawFlags), mode)
      ensures r.Ok? ==> Current() == old(Current()).(cleaningPasses := mode)
      ensures r.Err? ==> rawFlags == old(rawFlags) && Current() == old(Current())
    {
      var next := WithCleaningPasses(rawFlags, mode);
      if next.None? {
        return Err(InvalidParameter(mode));
      }
      DecodeWithCleaningPasses(rawFlags, mode);
      rawFlags := next.value;
      cleaningPasses := mode;
      return Ok(this);
    }

    method SetAlwaysFinish(mode: bool := true) returns (r: PreferenceFlags)
      requires Valid()
      modifies this
      ensures Valid() && r == this
      ensures rawFlags == WithAlwaysFinish(old(rawFlags), mode)
      ensures Current() == old(Current()).(alwaysFinish := mode)
    {
      DecodeWithAlwaysFinish(rawFlags, mode);
      rawFlags := WithAlwaysFinish(rawFlags, mode);
      alwaysFinish := mode;
      return this;
    }
  }
}
