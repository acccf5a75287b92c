/**
 * The stored user preferences (src/main/preferences.js): a fixed set of
 * defaults, overridden by whatever object was stored. Reading and writing
 * the preferences file are taken as given results: the value the file
 * parsed to, or None where reading or parsing failed, and the error the
 * write raised, if any.
 */
module Preferences {
  import opened Wrappers
  import opened Js

  type Prefs = map<string, Value>

  /** DEFAULT_PREFERENCES. */
  const Defaults: Prefs := map[
    "profile" := Str("balanced"),
    "captureType" := Str("single"),
    "url" := Str(""),
    "urlList" := Str(""),
    "multiSizeEnabled" := Bool(false),
    "multiSizePresetIds" := Str("1,4"),
    "presetIndex" := Num(1),
    "width" := Num(1280),
    "height" := Num(900),
    "scale" := Num(2),
    "mode" := Str("fold"),
    "format" := Str("jpg"),
    "quality" := Num(90),
    "waitUntil" := Str("domcontentloaded"),
    "timeoutMs" := Num(30000),
    "delayMs" := Num(0),
    "queueConcurrency" := Num(2),
    "consistencyMode" := Bool(false),
    "consistencyDelayMs" := Num(800),
    "cookieHandling" := Str("hide"),
    "cookieSelectors" := Str(""),
    "suppressAnimations" := Bool(true),
    "appendTimestamp" := Bool(false),
    "outputDir" := Str("")
  ]

  /** The properties of `raw` that the merge copies over the defaults. */
  function Stored(raw: Value): Prefs {
    if IsObject(raw) then OwnFields(raw) else map[]
  }

  /**
   * `normalizePreferences`: a copy of the defaults for anything that is not
   * an object, otherwise the defaults overridden by the stored properties.
   */
  function Normalize(raw: Value): (r: Prefs)
    ensures !IsObject(raw) ==> r == Defaults
    ensures r.Keys == Defaults.Keys + Stored(raw).Keys
    ensures forall k :: k in Stored(raw) ==> r[k] == Stored(raw)[k]
    ensures forall k :: k in Defaults && k !in Stored(raw) ==> r[k] == Defaults[k]
  {
    Spread(Defaults, Stored(raw))
  }

  /** Normalising an already normalised object gives it back unchanged. */
  lemma NormalizeIdempotent(raw: Value)
    ensures Normalize(Obj(Normalize(raw))) == Normalize(raw)
  {
    var once := Normalize(raw);
    assert Stored(Obj(once)) == once;
    SpreadCovered(Defaults, once);
  }

  /** A stored object whose values are all defaults normalises to the defaults. */
  lemma NormalizeDefaults()
    ensures Normalize(Obj(Defaults)) == Defaults
  {
    assert Stored(Obj(Defaults)) == Defaults;
  }

  /**
   * `getPreferences`. `file` is what the preferences file parsed to, or None
   * when reading or parsing it threw, in which case the defaults are returned.
   */
  function GetPreferences(file: Option<Value>): (r: Prefs)
    ensures Defaults.Keys <= r.Keys
    ensures file.None? ==> r == Defaults
    ensures file.Some? ==> r == Normalize(file.value)
  {
    match file
    case None => Defaults
    case Some(v) => Normalize(v)
  }

  /** What `savePreferences` writes, and the promise it settles with. */
  datatype SaveOutcome = SaveOutcome(written: Prefs, returned: Result<Prefs, string>)

  /**
   * `savePreferences`: the normalised object is written, and returned unless
   * the write failed with `writeError`.
   */
  function SavePreferences(raw: Value, writeError: Option<string>): (r: SaveOutcome)
    ensures r.written == Normalize(raw)
    ensures writeError.None? ==> r.returned == Ok(r.written)
    ensures writeError.Some? ==> r.returned == Err(writeError.value)
  {
    var normalized := Normalize(raw);
    SaveOutcome(normalized, if writeError.Some? then Err(writeError.value) else Ok(normalized))
  }

  /** The fields `JSON.stringify` keeps: those whose value is not undefined. */
  function Serialized(p: Prefs): (r: Prefs)
    ensures r.Keys <= p.Keys
    ensures forall k :: k in p && !p[k].Undefined? ==> k in r && r[k] == p[k]
    ensures forall k :: k in r ==> !r[k].Undefined?
  {
    map k | k in p && !p[k].Undefined? :: p[k]
  }

  /**
   * Saving and then reading the file back returns every field that was saved
   * with a value; a field saved as undefined is dropped from the file and
   * reads back as its default, or as absent when it has none.
   */
  lemma SaveThenGet(raw: Value, writeError: Option<string>)
    ensures var saved := SavePreferences(raw, writeError).written;
            var loaded := GetPreferences(Some(Obj(Serialized(saved))));
            Defaults.Keys <= loaded.Keys &&
            (forall k :: k in saved && !saved[k].Undefined? ==> k in loaded && loaded[k] == saved[k]) &&
            (forall k :: k in saved && saved[k].Undefined? && k in Defaults ==> k in loaded && loaded[k] == Defaults[k]) &&
            (forall k :: k in loaded ==> k in saved)
  {
  }

  /** When nothing saved is undefined, reading back gives exactly what was saved. */
  lemma SaveThenGetExact(raw: Value, writeError: Option<string>)
    requires forall k :: k in Normalize(raw) ==> !Normalize(raw)[k].Undefined?
    ensures GetPreferences(Some(Obj(Serialized(SavePreferences(raw, writeError).written))))
            == SavePreferences(raw, writeError).written
  {
    var saved := Normalize(raw);
    assert Serialized(saved) == saved;
    NormalizeIdempotent(raw);
  }
}
