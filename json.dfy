/**
 * The JSON values the upstream API returns, and the Python operations the
 * order gate applies to them: truthiness, dict.get, str() and int().
 * Floating-point numbers are not part of this model.
 */
module JsonValue {
  import opened Wrappers
  import Text

  datatype Json =
    | JNull
    | JBool(b: bool)
    | JInt(i: int)
    | JStr(s: string)
    | JArray(items: seq<Json>)
    | JObject(fields: map<string, Json>)

  /** Python's bool() on a decoded JSON value. */
  predicate Truthy(j: Json) {
    match j
    case JNull => false
    case JBool(b) => b
    case JInt(i) => i != 0
    case JStr(s) => s != ""
    case JArray(items) => items != []
    case JObject(fields) => fields != map[]
  }

  /** dict.get(key, default). */
  function GetOr(fields: map<string, Json>, key: string, default: Json): Json {
    if key in fields then fields[key] else default
  }

  /** dict.get(key): a missing key reads as None. */
  function Get(fields: map<string, Json>, key: string): Json {
    GetOr(fields, key, JNull)
  }

  /**
   * Whether str(j) == text. An empty array prints as "[]" and an empty
   * object as "{}"; the printed form of a non-empty array or object is not
   * modelled, and such a value is taken never to equal `text`.
   */
  predicate StrEquals(j: Json, text: string) {
    match j
    case JNull => text == "None"
    case JBool(b) => text == (if b then "True" else "False")
    case JInt(i) => text == Text.IntToString(i)
    case JStr(s) => text == s
    case JArray(items) => items == [] && text == "[]"
    case JObject(fields) => fields == map[] && text == "{}"
  }

  /** Python's int() on a decoded JSON value; None where int() raises. */
  function ToInt(j: Json): Option<int> {
    match j
    case JInt(i) => Some(i)
    case JBool(b) => Some(if b then 1 else 0)
    case JStr(s) => Text.ParseInt(s)
    case _ => None
  }

  /** Python's `item in j` for a string item; None where `in` raises TypeError. */
  function Contains(j: Json, item: string): Option<bool> {
    match j
    case JObject(fields) => Some(item in fields)
    case JArray(items) => Some(JStr(item) in items)
    case JStr(s) => Some(IsSubstring(item, s))
    case _ => None
  }

  predicate IsSubstring(w: string, s: string) {
    exists i :: 0 <= i <= |s| && w <= s[i..]
  }

  /** A JSON integer equals a decimal id under str() exactly when the id is the integer's canonical spelling. */
  lemma StrEqualsInt(i: int, text: string)
    requires Text.IsDigits(text)
    ensures StrEquals(JInt(i), text) <==> i >= 0 && Text.IsCanonicalDecimal(text) && Text.DigitsValue(text) == i
  {
    if i < 0 {
      assert Text.IsDigit(text[0]);
      assert text[0] != Text.IntToString(i)[0];
    } else if Text.IsCanonicalDecimal(text) && Text.DigitsValue(text) == i {
      Text.CanonicalDecimalUnique(text);
    }
  }

  /** A leading zero keeps a numeric id from matching the integer it denotes: "027243" is not str(27243). */
  lemma LeadingZeroNeverEqualsInt(i: int, text: string)
    requires Text.IsDigits(text) && |text| > 1 && text[0] == '0'
    ensures !StrEquals(JInt(i), text)
  {
    StrEqualsInt(i, text);
  }
}
