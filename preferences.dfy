/**
 * `Preferences`: the device's preference record, whose packed `flags`
 * integer is held as a `PreferenceFlags` object and whose other fields are
 * carried through untouched.
 */
module Prefs {
  import opened Failures
  import opened Flags

  /** The preference response as the device sends it; `flags` is None where it is absent or null. */
  datatype PrefsResponse = PrefsResponse(flags: Option<Raw>, lang: int, timezone: string, name: string)

  /** The array `encode()` returns, the arguments of the `set prefs` request. */
  datatype PrefsArgs = PrefsArgs(flags: Raw, lang: int, timezone: string, name: string)

  /** A decoded preference record; the flags object is shared, as in PHP. */
  datatype Preferences = Preferences(flags: PreferenceFlags, lang: int, timezone: string, name: string)

  /** The settings a response decodes to, or the exception `decode` raises. */
  function DecodedSettings(resp: PrefsResponse): (r: Result<Settings>)
    ensures resp.flags.None? ==> r == Err(InvalidResponse)
    ensures resp.flags.Some? && DecodeSettings(resp.flags.value).None? ==> r == Err(TypeError)
    ensures r.Ok? ==> resp.flags.Some? && DecodeSettings(resp.flags.value) == Some(r.value)
    ensures resp.flags.Some? && DecodeSettings(resp.flags.value).Some? ==> r.Ok?
  {
    match resp.flags
    case None => Err(InvalidResponse)
    case Some(raw) =>
      match DecodeSettings(raw)
      case None => Err(TypeError)
      case Some(s) => Ok(s)
  }

  /**
   * `Preferences::decode`: a response without `flags` is rejected before
   * anything else happens; otherwise the flags are decoded and the other
   * fields copied.
   */
  method Decode(resp: PrefsResponse) returns (r: Result<Preferences>)
    ensures r.Err? <==> DecodedSettings(resp).Err?
    ensures r.Err? ==> r.error == DecodedSettings(resp).error
    ensures r.Ok? ==> fresh(r.value.flags) && r.value.flags.Valid()
    ensures r.Ok? ==> r.value.flags.Current() == DecodedSettings(resp).value
    ensures r.Ok? ==> Encode(r.value) == PrefsArgs(resp.flags.value, resp.lang, resp.timezone, resp.name)
  {
    if resp.flags.None? {
      return Err(InvalidResponse);
    }
    var f := PreferenceFlags.Decode(resp.flags.value);
    if f.Err? {
      return Err(f.error);
    }
    return Ok(Preferences(f.value, resp.lang, resp.timezone, resp.name));
  }

  /** `encode()`: the current packed flags, which decode to the current settings, and the other fields as held. */
  function Encode(p: Preferences): (a: PrefsArgs)
    reads p.flags
    requires p.flags.Valid()
    ensures DecodeSettings(a.flags) == Some(p.flags.Current())
    ensures a.lang == p.lang && a.timezone == p.timezone && a.name == p.name
  {
    PrefsArgs(p.flags.Encode(), p.lang, p.timezone, p.name)
  }

  /** Re-reading what `encode()` sends gives back the same settings and fields. */
  lemma ResponseOfArgs(a: PrefsArgs)
    requires DecodeSettings(a.flags).Some?
    ensures DecodedSettings(PrefsResponse(Some(a.flags), a.lang, a.timezone, a.name)) == Ok(DecodeSettings(a.flags).value)
  {
  }

  /** The encoded record as the JSON arguments of the `set prefs` request. */
  function ArgsToJson(a: PrefsArgs): (j: Json)
    ensures j.JObject? && j.fields.Keys == {"flags", "lang", "timezone", "name"}
    ensures j.fields["flags"] == JInt(a.flags as int) && j.fields["lang"] == JInt(a.lang)
    ensures j.fields["timezone"] == JString(a.timezone) && j.fields["name"] == JString(a.name)
  {
    JObject(map[
      "flags" := JInt(a.flags as int),
      "lang" := JInt(a.lang),
      "timezone" := JString(a.timezone),
      "name" := JString(a.name)])
  }
}
