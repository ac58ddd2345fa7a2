/**
 * Already-parsed JSON values, and the ways the game's Java code reads them:
 * the org.json getters used while loading, and the Java casts applied to the
 * `Map<String, Object>` values a blue card keeps.  A getter or cast that would
 * throw yields `None`.
 */
module Json {
  import opened Wrappers
  import opened Text

  datatype Json =
    | JInt(i: int)
    | JReal(r: real)
    | JText(s: string)
    | JBool(b: bool)
    | JNull
    | JArray(items: seq<Json>)
    | JObject(fields: map<string, Json>)

  /** A JSON object, or the `Map<String, Object>` copied from one. */
  type Fields = map<string, Json>

  /** A configuration file: unreadable, or read and then parsed (`None` when the text is not JSON). */
  datatype JsonFile = Unreadable | Contents(root: Option<Json>)

  /** The two fatal loading errors: an I/O failure and a structural JSON error. */
  datatype LoadError = FileUnreadable | FileMalformed

  /** `Number.intValue()` of a decimal: the fraction is dropped, rounding toward zero. */
  function TruncateTowardZero(r: real): (n: int)
    ensures r >= 0.0 ==> 0 <= n && n as real <= r < n as real + 1.0
    ensures r < 0.0 ==> n <= 0 && n as real - 1.0 < r <= n as real
  {
    if r >= 0.0 then r.Floor else -((-r).Floor)
  }

  // ---- org.json getters (a missing key or a wrong type throws a JSONException) ----

  /** `JSONObject.getString`: the text stored under the key; a missing key or a non-text value throws. */
  function GetString(f: Fields, key: string): (r: Option<string>)
    ensures r.Some? <==> key in f && f[key].JText?
    ensures r.Some? ==> f[key] == JText(r.value)
  {
    if key in f && f[key].JText? then Some(f[key].s) else None
  }

  /** `getInt` on one value: a number, with a decimal truncated. */
  function IntOf(v: Json): Option<int>
  {
    match v
    case JInt(n) => Some(n)
    case JReal(r) => Some(TruncateTowardZero(r))
    case _ => None
  }

  /** `JSONObject.getInt`: a number stored under the key, a decimal truncated toward zero; anything else throws. */
  function GetInt(f: Fields, key: string): (r: Option<int>)
    ensures r.Some? <==> key in f && (f[key].JInt? || f[key].JReal?)
    ensures r.Some? && f[key].JInt? ==> r.value == f[key].i
    ensures r.Some? && f[key].JReal? ==> r.value == TruncateTowardZero(f[key].r)
  {
    if key in f then IntOf(f[key]) else None
  }

  /** `JSONObject.getJSONArray`; `optJSONArray` is the same lookup with `null` for `None`. */
  function GetArray(f: Fields, key: string): (r: Option<seq<Json>>)
    ensures r.Some? <==> key in f && f[key].JArray?
    ensures r.Some? ==> f[key] == JArray(r.value)
  {
    if key in f && f[key].JArray? then Some(f[key].items) else None
  }

  /** `JSONObject.getBoolean`: a boolean, or the text "true"/"false" in any case; anything else throws. */
  function GetBoolean(f: Fields, key: string): (r: Option<bool>)
    ensures key !in f ==> r.None?
    ensures r == Some(true) ==> f[key] == JBool(true) || (f[key].JText? && EqualsIgnoreCase(f[key].s, "true"))
    ensures r == Some(false) ==> f[key] == JBool(false) || (f[key].JText? && EqualsIgnoreCase(f[key].s, "false"))
    ensures key in f && f[key].JBool? ==> r == Some(f[key].b)
  {
    if key !in f then None
    else match f[key]
      case JBool(b) => Some(b)
      case JText(s) =>
        if EqualsIgnoreCase(s, "true") then Some(true)
        else if EqualsIgnoreCase(s, "false") then Some(false)
        else None
      case _ => None
  }

  /** `JSONObject.optString(key, default)`: `getString` with the default in place of the exception. */
  function OptString(f: Fields, key: string, default: string): (r: string)
    ensures GetString(f, key).Some? ==> r == GetString(f, key).value
    ensures GetString(f, key).None? ==> r == default
  {
    if key in f && f[key].JText? then f[key].s else default
  }

  // ---- Java casts on values taken out of a Map<String, Object> ----

  /** `(int) map.get(key)`: only a JSON integer unboxes, and then as `getInt` reads it; `null` or another type throws. */
  function IntCast(f: Fields, key: string): (r: Option<int>)
    ensures r.Some? <==> key in f && f[key].JInt?
    ensures r.Some? ==> r == GetInt(f, key)
  {
    if key in f && f[key].JInt? then Some(f[key].i) else None
  }

  /** `(int) map.getOrDefault(key, default)`: the default for a missing key, the cast otherwise. */
  function IntCastOr(f: Fields, key: string, default: int): (r: Option<int>)
    ensures key !in f ==> r == Some(default)
    ensures key in f ==> r == IntCast(f, key)
  {
    if key !in f then Some(default) else IntCast(f, key)
  }

  /** `(String) map.get(key)`: `Some(None)` stands for Java's `null`, which only a missing key gives; text reads as `getString` does. */
  function StringCast(f: Fields, key: string): (r: Option<Option<string>>)
    ensures r == Some(None) <==> key !in f
    ensures key in f ==> (r.Some? <==> GetString(f, key).Some?)
    ensures key in f && r.Some? ==> r.value == GetString(f, key)
  {
    if key !in f then Some(None)
    else if f[key].JText? then Some(Some(f[key].s))
    else None
  }

  /**
   * `(Number) map.get(key)` then `intValue()`, with 0 for a missing key: a
   * stored number reads as `getInt` reads it, the truncation of `doubleValue()`.
   */
  function NumberAsInt(f: Fields, key: string): (r: Option<int>)
    ensures key !in f ==> r == Some(0)
    ensures key in f ==> r == GetInt(f, key)
    ensures r.Some? <==> NumberAsReal(f, key).Some?
    ensures r.Some? ==> r.value == TruncateTowardZero(NumberAsReal(f, key).value)
  {
    if key in f then IntOf(f[key]) else Some(0)
  }

  /** `(Number) map.get(key)` then `doubleValue()`, with 0.0 for a missing key; a non-number throws. */
  function NumberAsReal(f: Fields, key: string): (r: Option<real>)
    ensures key !in f ==> r == Some(0.0)
    ensures key in f ==> (r.Some? <==> f[key].JInt? || f[key].JReal?)
  {
    if key !in f then Some(0.0)
    else match f[key]
      case JInt(n) => Some(n as real)
      case JReal(r) => Some(r)
      case _ => None
  }
}
