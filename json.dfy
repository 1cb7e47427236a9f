/**
 * Decoded JSON as PHP sees it after `json_decode($text, true)`: both JSON lists
 * and JSON objects become PHP arrays.  The helpers below give the PHP operations
 * the core applies to such values: `is_array`, `foreach`, `$a['k'] ?? default`
 * (and `isset`), `empty()` and the string conversion of `(string)`, `.` and `%s`.
 */
module Json {
  import opened Wrappers

  datatype Json =
    | JNull
    | JBool(b: bool)
    | JInt(n: int)
    | JStr(s: string)
    | JArr(items: seq<Json>)
    | JObj(fields: seq<(string, Json)>)

  /** PHP `is_array`: true for decoded lists and decoded objects alike. */
  predicate IsArray(j: Json) {
    j.JArr? || j.JObj?
  }

  /** The values a PHP `foreach` visits, in order; nothing for a non-array. */
  function Elements(j: Json): (r: seq<Json>)
    ensures IsArray(j) || r == []
    ensures j.JArr? ==> r == j.items
    ensures j.JObj? ==> |r| == |j.fields| && forall i :: 0 <= i < |r| ==> r[i] == j.fields[i].1
    ensures forall x | x in r :: x < j
  {
    match j
    case JArr(items) => items
    case JObj(fields) => seq(|fields|, i requires 0 <= i < |fields| => fields[i].1)
    case _ => []
  }

  /** The value of the last member named `key` (json_decode keeps the last of repeated keys). */
  function Lookup(fields: seq<(string, Json)>, key: string): (r: Option<Json>)
    ensures r.Some? ==> (key, r.value) in fields
    ensures r.None? ==> forall i :: 0 <= i < |fields| ==> fields[i].0 != key
    decreases |fields|
  {
    if fields == [] then None
    else if fields[|fields| - 1].0 == key then Some(fields[|fields| - 1].1)
    else Lookup(fields[..|fields| - 1], key)
  }

  /**
   * `$j[key]` read with `??` or `isset`: `None` when `j` is not an array, has no
   * such key, or maps it to null.  A decoded list has only integer keys, so no
   * string key is ever set in it.
   */
  function Get(j: Json, key: string): (r: Option<Json>)
    ensures r.Some? ==> IsArray(j) && r.value != JNull && r.value < j
  {
    match j
    case JObj(fields) =>
      var v := Lookup(fields, key);
      if v.Some? && v.value != JNull then v else None
    case _ => None
  }

  /** `$j[key] ?? default`. */
  function GetOr(j: Json, key: string, default: Json): Json {
    match Get(j, key)
    case Some(v) => v
    case None => default
  }

  /** The truth value PHP gives a decoded value; `empty($x)` is its negation. */
  predicate Truthy(j: Json) {
    match j
    case JNull => false
    case JBool(b) => b
    case JInt(n) => n != 0
    case JStr(s) => s != "" && s != "0"
    case JArr(items) => items != []
    case JObj(fields) => fields != []
  }

  /** `!empty($j[key])`: the key is set to a value PHP considers true. */
  predicate Filled(j: Json, key: string) {
    Get(j, key).Some? && Truthy(Get(j, key).value)
  }

  function Digit(d: nat): (c: char)
    requires d < 10
  {
    "0123456789"[d]
  }

  function NatToString(n: nat): (r: string)
    ensures |r| > 0
    ensures forall i :: 0 <= i < |r| ==> '0' <= r[i] <= '9'
  {
    if n < 10 then [Digit(n)] else NatToString(n / 10) + [Digit(n % 10)]
  }

  /** PHP's decimal rendering of an integer, as by `%d` or a string cast. */
  function IntToString(n: int): (r: string)
    ensures |r| > 0
    ensures n >= 0 ==> forall i :: 0 <= i < |r| ==> '0' <= r[i] <= '9'
    ensures n < 0 ==> r[0] == '-'
  {
    if n < 0 then "-" + NatToString(-n) else NatToString(n)
  }

  /**
   * The string PHP makes of a value under `(string)`, `.` and `sprintf('%s')`.
   * An array becomes "Array" (PHP 8 warns but carries on).
   */
  function ToPhpString(j: Json): (r: string)
    ensures j.JStr? ==> r == j.s
    ensures j == JNull || j == JBool(false) ==> r == ""
  {
    match j
    case JNull => ""
    case JBool(b) => if b then "1" else ""
    case JInt(n) => IntToString(n)
    case JStr(s) => s
    case JArr(_) => "Array"
    case JObj(_) => "Array"
  }
}
