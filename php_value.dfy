/**
 * Values as `json_decode($text, true)` hands them to the adapter, and the
 * parts of PHP's semantics the adapter applies to them: `isset` on an
 * offset, reading an offset, conversion to boolean and to string.
 */
module PhpValue {
  import opened Wrappers
  import opened PhpString

  /** A decoded JSON value; objects and lists both become PHP arrays. */
  datatype Json =
    | JNull
    | JBool(b: bool)
    | JInt(i: int)
    | JStr(s: string)
    | JList(items: seq<Json>)
    | JObject(entries: map<string, Json>)

  /** `$v[$key]` without isset: a missing entry reads as null (PHP warns). */
  function Offset(v: Json, key: string): (r: Json)
    ensures r != JNull ==> v.JObject? && key in v.entries && v.entries[key] == r
  {
    if v.JObject? && key in v.entries then v.entries[key] else JNull
  }

  /**
   * `isset($v[$key])` for a non-numeric string key, with the value it
   * guards: set exactly when the plain read is not null, and then it is
   * that read. A list has no such key and a scalar has no string offset.
   */
  function Isset(v: Json, key: string): (r: Option<Json>)
    ensures r.Some? <==> Offset(v, key) != JNull
    ensures r.Some? ==> r.value == Offset(v, key)
  {
    if v.JObject? && key in v.entries && v.entries[key] != JNull then Some(v.entries[key]) else None
  }

  /** `isset($v[$key]) ? $v[$key] : $default`: PHP's null coalescing on the plain read. */
  function IssetOr(v: Json, key: string, default: Json): (r: Json)
    ensures r == if Offset(v, key) == JNull then default else Offset(v, key)
  {
    match Isset(v, key)
    case Some(x) => x
    case None => default
  }

  /** PHP's conversion to boolean (`if ($v)`, `!$v`). */
  predicate Truthy(v: Json) {
    match v
    case JNull => false
    case JBool(b) => b
    case JInt(i) => i != 0
    case JStr(s) => IsTruthyString(s)
    case JList(items) => |items| > 0
    case JObject(entries) => |entries| > 0
  }

  /** The PHP-false values are exactly null, false, 0, "", "0" and the empty array. */
  lemma FalsyValuesExactly(v: Json)
    ensures !Truthy(v) <==> v in {JNull, JBool(false), JInt(0), JStr(""), JStr("0"), JList([]), JObject(map[])}
  {
    if v.JObject? && |v.entries| == 0 {
      assert v.entries == map[];
    }
  }

  /**
   * PHP's conversion to string in a `.` concatenation; an array becomes
   * "Array". For a scalar it keeps truthiness: a true scalar gives a true
   * string, a false one gives "" or "0".
   */
  function ConcatString(v: Json): (r: string)
    ensures !(v.JList? || v.JObject?) ==> (IsTruthyString(r) <==> Truthy(v))
    ensures v.JInt? ==> |r| >= 1 && (r[0] == '-' <==> v.i < 0)
  {
    match v
    case JNull => ""
    case JBool(b) => if b then "1" else ""
    case JInt(i) => IntToString(i)
    case JStr(s) => s
    case JList(_) => "Array"
    case JObject(_) => "Array"
  }

  /**
   * Coercion of a value passed to a string parameter of a built-in such as
   * `explode`, without strict types: scalars convert, an array is a
   * TypeError (None). A PHP-true value that converts gives a PHP-true,
   * non-empty string.
   */
  function StringArgument(v: Json): (r: Option<string>)
    ensures Truthy(v) ==> (r.None? <==> v.JList? || v.JObject?)
    ensures Truthy(v) && r.Some? ==> IsTruthyString(r.value) && |r.value| >= 1
  {
    match v
    case JList(_) => None
    case JObject(_) => None
    case _ => Some(ConcatString(v))
  }

  /** A missing configuration value is null; `null . $s` reads it as "". */
  function OrEmpty(s: Option<string>): (r: string)
    ensures r == "" <==> s.None? || s == Some("")
    ensures r != "" ==> s == Some(r)
  {
    match s
    case Some(x) => x
    case None => ""
  }
}
