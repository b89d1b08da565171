/** The slice of PHP's runtime that the checkout handler relies on: values as
    `json_decode($text, true)` produces them, `isset` and offset reads on
    them, the truthiness of strings, and `strpos`. */
module Php {

  datatype Option<+T> = None | Some(value: T)

  /** A decoded JSON document. An object becomes a string-keyed array of
      fields; numbers are restricted to integers. Malformed text decodes to
      `JNull`. */
  datatype Json =
    | JNull
    | JBool(b: bool)
    | JInt(i: int)
    | JStr(s: string)
    | JList(items: seq<Json>)
    | JObject(fields: map<string, Json>)

  /** `isset($v[$key])`: the key is present and its value is not null. */
  predicate Isset(v: Json, key: string)
    ensures Isset(v, key) ==> v.JObject? && key in v.fields
    ensures v.JObject? && key in v.fields ==> (Isset(v, key) <==> !v.fields[key].JNull?)
  {
    v.JObject? && key in v.fields && v.fields[key] != JNull
  }

  /** `$v[$key]` as a read: the stored value, or null when there is none. */
  function Offset(v: Json, key: string): (r: Json)
    ensures Isset(v, key) <==> r != JNull
    ensures r != JNull ==> v.JObject? && key in v.fields && v.fields[key] == r
  {
    if v.JObject? && key in v.fields then v.fields[key] else JNull
  }

  /** A string used as a condition: only "" and "0" are false, and
      `empty($s)` is the negation. */
  predicate Truthy(s: string)
    ensures |s| != 1 ==> (Truthy(s) <==> s != "")
    ensures |s| == 1 ==> (Truthy(s) <==> s[0] != '0')
  {
    s != "" && s != "0"
  }

  /** `needle` occurs in `haystack` at offset `i`. */
  predicate OccursAt(haystack: string, needle: string, i: nat) {
    i + |needle| <= |haystack| && haystack[i..i + |needle|] == needle
  }

  /** `strpos($haystack, $needle, $from)`: the first offset at or after
      `from` where `needle` occurs; None stands for PHP's `false`. */
  function StrPosFrom(haystack: string, needle: string, from: nat): (r: Option<nat>)
    requires from <= |haystack|
    ensures r.Some? ==> from <= r.value && OccursAt(haystack, needle, r.value)
    ensures r.Some? ==> forall i: nat :: from <= i < r.value ==> !OccursAt(haystack, needle, i)
    ensures r.None? ==> forall i: nat :: from <= i ==> !OccursAt(haystack, needle, i)
    decreases |haystack| - from
  {
    if OccursAt(haystack, needle, from) then Some(from)
    else if from == |haystack| then None
    else StrPosFrom(haystack, needle, from + 1)
  }

  /** `strpos($haystack, $needle)`. The idiom `strpos($h, $p) === 0` is
      exactly the prefix test. */
  function StrPos(haystack: string, needle: string): (r: Option<nat>)
    ensures r == Some(0) <==> |needle| <= |haystack| && haystack[..|needle|] == needle
    ensures r.None? <==> forall i: nat :: !OccursAt(haystack, needle, i)
  {
    StrPosFrom(haystack, needle, 0)
  }
}
