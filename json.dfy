/** JSON documents as the SDK handles them after `response.json()`, together with
    the two Python built-ins the SDK applies to them: `bool(v)` and `str(v)`. */
module Json {
  datatype Value =
    | Null                                // None / JSON null
    | Bool(b: bool)
    | Int(i: int)
    | Str(s: string)
    | List(items: seq<Value>)
    | Object(fields: map<string, Value>)

  /** Python truthiness: None, False, 0, "", [] and {} are false. */
  predicate Truthy(v: Value) {
    match v
    case Null => false
    case Bool(b) => b
    case Int(i) => i != 0
    case Str(s) => s != ""
    case List(items) => items != []
    case Object(fields) => fields != map[]
  }

  /** `d.get(key, default)`. */
  function Get(d: map<string, Value>, key: string, default: Value): Value {
    if key in d then d[key] else default
  }

  /** `key in body` for a response body that is a JSON object. */
  predicate HasKey(body: Value, key: string) {
    body.Object? && key in body.fields
  }

  /** t occurs in s starting at offset i. */
  predicate OccursAt(t: string, s: string, i: int) {
    0 <= i && i + |t| <= |s| && s[i..i + |t|] == t
  }

  /** Dropping the first character of s moves every occurrence one place
      to the left. */
  lemma OccursShift(t: string, s: string)
    requires |s| > 0
    ensures forall j :: OccursAt(t, s[1..], j) ==> OccursAt(t, s, j + 1)
    ensures forall i :: 0 < i && OccursAt(t, s, i) ==> OccursAt(t, s[1..], i - 1)
  {
    forall j | OccursAt(t, s[1..], j)
      ensures OccursAt(t, s, j + 1)
    {
      assert s[1..][j..j + |t|] == s[j + 1..j + 1 + |t|];
    }
    forall i | 0 < i && OccursAt(t, s, i)
      ensures OccursAt(t, s[1..], i - 1)
    {
      assert s[1..][i - 1..i - 1 + |t|] == s[i..i + |t|];
    }
  }

  /** `t in s` for two strings: t occurs in s at some offset. */
  function Occurs(t: string, s: string): (r: bool)
    ensures r <==> exists i :: OccursAt(t, s, i)
    decreases |s|
  {
    if |t| > |s| then false
    else if s[..|t|] == t then
      assert OccursAt(t, s, 0);
      true
    else
      OccursShift(t, s);
      Occurs(t, s[1..])
  }

  /** Python's `str(v)`; lists and dicts get a fixed rendering. */
  function PyStr(v: Value): string {
    match v
    case Null => "None"
    case Bool(b) => if b then "True" else "False"
    case Int(i) => IntToString(i)
    case Str(s) => s
    case List(_) => "[...]"
    case Object(_) => "{...}"
  }

  function IntToString(i: int): string {
    if i < 0 then "-" + NatToString(-i) else NatToString(i)
  }

  function NatToString(n: nat): string {
    if n < 10 then [DigitChar(n)] else NatToString(n / 10) + [DigitChar(n % 10)]
  }

  function DigitChar(d: nat): char
    requires d < 10
  {
    "0123456789"[d]
  }
}
