/** PHP values as the package sees them: decoded JSON, associative arrays, ASCII case mapping. */
module Values {
  import opened Wrappers

  /** A point in time, in seconds. Carbon instances are modelled by their timestamp. */
  type Time = int

  /** One day in seconds; Carbon's addDays(n) adds n of these. */
  const DAY: int := 86400

  /** A decoded JSON value or a PHP scalar/array. */
  datatype Json =
    | JNull
    | JBool(b: bool)
    | JInt(i: int)
    | JStr(s: string)
    | JObj(fields: map<string, Json>)
    | JList(items: seq<Json>)

  /** A PHP array with string keys, such as an options or payload array. */
  type Fields = map<string, Json>

  /** The polymorphic owner of a customer or subscription row: billable_id and billable_type. */
  datatype Owner = Owner(id: int, kind: string)

  /** PHP truthiness (`if ($x)`, `$x ?: $y`, `! $x`). */
  predicate Truthy(j: Json)
    ensures !Truthy(j) <==> j in {JNull, JBool(false), JInt(0), JStr(""), JStr("0"), JObj(map[]), JList([])}
  {
    match j
    case JNull => false
    case JBool(b) => b
    case JInt(i) => i != 0
    case JStr(s) => s != "" && s != "0"
    case JObj(m) => |m| != 0
    case JList(l) => |l| != 0
  }

  /** PHP truthiness of a string. */
  predicate TruthyString(s: string) {
    Truthy(JStr(s))
  }

  /** `array_merge($defaults, $overrides)` on string keys: every key of both, the overriding value wins. */
  function Merge(defaults: Fields, overrides: Fields): (r: Fields)
    ensures r.Keys == defaults.Keys + overrides.Keys
    ensures forall k :: k in overrides ==> r[k] == overrides[k]
    ensures forall k :: k in defaults && k !in overrides ==> r[k] == defaults[k]
  {
    defaults + overrides
  }

  /**
   * `$j[$key]` for the non-numeric keys the package reads: the value under the key; on a string
   * the TypeError PHP 8 throws for a non-numeric string offset; on anything else the warning PHP
   * raises for a missing key or a non-array.
   */
  function Index(j: Json, key: string): (r: Result<Json>)
    ensures r.Ok? <==> j.JObj? && key in j.fields
    ensures r.Ok? ==> r.value == j.fields[key]
    ensures r.Err? ==> (r.error.TypeError? <==> j.JStr?)
    ensures r.Err? && !j.JStr? ==> r.error.Warning?
  {
    if j.JStr? then Err(TypeError("Cannot access offset of type string on string"))
    else if j.JObj? && key in j.fields then Ok(j.fields[key])
    else Err(Warning("Undefined array key " + key))
  }

  /** `$j[$k1][$k2]...[$kn] ?? null`: the value if every step exists and is not null. */
  function Path(j: Json, keys: seq<string>): (p: Option<Json>)
    ensures p.Some? ==> p.value != JNull
    ensures |keys| == 1 ==>
      p == if Index(j, keys[0]).Ok? && Index(j, keys[0]).value != JNull then Some(Index(j, keys[0]).value) else None
    decreases |keys|
  {
    if j.JNull? then None
    else if keys == [] then Some(j)
    else if j.JObj? && keys[0] in j.fields then Path(j.fields[keys[0]], keys[1..])
    else None
  }

  function LowerChar(c: char): char {
    if 'A' <= c <= 'Z' then (c as int + 32) as char else c
  }

  function UpperChar(c: char): char {
    if 'a' <= c <= 'z' then (c as int - 32) as char else c
  }

  /** `strtolower`, which maps ASCII letters only. */
  function Lower(s: string): (r: string)
    ensures |r| == |s|
    ensures forall i :: 0 <= i < |s| ==> r[i] == LowerChar(s[i])
  {
    if s == [] then [] else [LowerChar(s[0])] + Lower(s[1..])
  }

  /** `strtoupper`, which maps ASCII letters only. */
  function Upper(s: string): (r: string)
    ensures |r| == |s|
    ensures forall i :: 0 <= i < |s| ==> r[i] == UpperChar(s[i])
  {
    if s == [] then [] else [UpperChar(s[0])] + Upper(s[1..])
  }

  lemma LowerAppend(s: string, t: string)
    ensures Lower(s + t) == Lower(s) + Lower(t)
  {
    assert forall i :: 0 <= i < |s + t| ==> Lower(s + t)[i] == (Lower(s) + Lower(t))[i];
  }

  function DigitChar(d: int): char
    requires 0 <= d < 10
  {
    "0123456789"[d]
  }

  /** The decimal text of a natural number, without leading zeros. */
  function NatText(n: nat): (r: string)
    ensures |r| >= 1
    ensures forall i :: 0 <= i < |r| ==> '0' <= r[i] <= '9'
  {
    if n < 10 then [DigitChar(n)] else NatText(n / 10) + [DigitChar(n % 10)]
  }

  /** Distinct numbers have distinct decimal texts. */
  lemma {:induction false} NatTextInjective(a: nat, b: nat)
    requires NatText(a) == NatText(b)
    ensures a == b
  {
    assert forall i | 0 <= i < 10 :: "0123456789"[i] as int == '0' as int + i;
    if a >= 10 && b >= 10 {
      var s, t := NatText(a), NatText(b);
      assert s[..|s| - 1] == NatText(a / 10) && s[|s| - 1] == DigitChar(a % 10);
      assert t[..|t| - 1] == NatText(b / 10) && t[|t| - 1] == DigitChar(b % 10);
      NatTextInjective(a / 10, b / 10);
    }
  }

  /** PHP's string conversion of an integer. */
  function IntText(i: int): string {
    if i < 0 then "-" + NatText(-i) else NatText(i)
  }
}
