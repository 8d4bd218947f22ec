/** Parsed JSON values as Ruby sees them after `response.parse`, and the few Ruby operations
    the handlers apply to them. A JSON object is a Ruby Hash, an array an Array, null is nil. */
module Json {
  import opened Outcome
  import Decimal

  datatype Json =
    | JNull
    | JBool(b: bool)
    | JNum(n: int)
    | JStr(s: string)
    | JArr(items: seq<Json>)
    | JObj(fields: map<string, Json>)

  /** Ruby truthiness: everything except nil and false. */
  predicate Truthy(v: Json) {
    v != JNull && v != JBool(false)
  }

  /** Hash#[]: a missing key reads as nil. */
  function Field(m: map<string, Json>, key: string): Json {
    if key in m then m[key] else JNull
  }

  predicate IsPrefix(t: string, s: string) {
    |t| <= |s| && s[..|t|] == t
  }

  /** `t` occurs somewhere in `s`. */
  predicate Contains(s: string, t: string)
    decreases |s|
  {
    IsPrefix(t, s) || (|s| > 0 && Contains(s[1..], t))
  }

  /** `v[key]` with a String argument, for every kind of value: a Hash looks the key up,
      a String returns the argument when it occurs in it and nil otherwise, Array and
      Integer refuse a String index, and nil, true and false have no `[]` at all. */
  function Index(v: Json, key: string): (r: Result<Json>)
    ensures v.JObj? ==> r == Ok(Field(v.fields, key))
    ensures r.Ok? ==> v.JObj? || v.JStr?
  {
    match v
    case JObj(m) => Ok(Field(m, key))
    case JStr(s) => Ok(if Contains(s, key) then JStr(key) else JNull)
    case JArr(_) => Err(TypeError)
    case JNum(_) => Err(TypeError)
    case JBool(_) => Err(NoMethodError)
    case JNull => Err(NoMethodError)
  }

  /** `h.dig(outer, inner)` on a Hash: nil when `outer` is absent or nil, the inner Hash's
      entry when it is a Hash, and a TypeError for any other value (Array#dig wants an
      Integer; strings, numbers and booleans have no #dig). */
  function Dig(m: map<string, Json>, outer: string, inner: string): (r: Result<Json>)
    ensures Field(m, outer) == JNull ==> r == Ok(JNull)
    ensures Field(m, outer).JObj? ==> r == Ok(Field(Field(m, outer).fields, inner))
    ensures r.Err? <==> Field(m, outer) != JNull && !Field(m, outer).JObj?
  {
    match Field(m, outer)
    case JNull => Ok(JNull)
    case JObj(f) => Ok(Field(f, inner))
    case _ => Err(TypeError)
  }

  /** The elements of `xs` other than `x`, in order (Array#delete). */
  function Without(xs: seq<Json>, x: Json): (r: seq<Json>)
    ensures x !in r
    ensures multiset(r) == multiset(xs)[x := 0]
    ensures |r| <= |xs|
  {
    if xs == [] then []
    else
      assert xs == [xs[0]] + xs[1..];
      if xs[0] == x then Without(xs[1..], x)
      else [xs[0]] + Without(xs[1..], x)
  }

  /** `v.delete(key)` followed by reading `v`: Hash#delete removes the key, Array#delete
      removes every element equal to the string, String#delete returns a copy and leaves
      the receiver as it was, and the other values have no #delete. */
  function Delete(v: Json, key: string): (r: Result<Json>)
    ensures v.JObj? ==> r == Ok(JObj(v.fields - {key}))
    ensures v.JArr? ==> r == Ok(JArr(Without(v.items, JStr(key))))
    ensures v.JStr? ==> r == Ok(v)
    ensures r.Ok? && r.value.JObj? ==> key !in r.value.fields
    ensures r.Ok? <==> v.JObj? || v.JArr? || v.JStr?
  {
    match v
    case JObj(m) => Ok(JObj(m - {key}))
    case JArr(xs) => Ok(JArr(Without(xs, JStr(key))))
    case JStr(_) => Ok(v)
    case _ => Err(NoMethodError)
  }

  /** `v.to_s`, as Redis and string interpolation apply it. Ruby's rendering of an Array
      or a Hash (its `inspect`) is an uninterpreted function supplied by the caller. */
  function ToS(v: Json, inspect: Json -> string): string {
    match v
    case JNull => ""
    case JBool(b) => if b then "true" else "false"
    case JNum(n) => Decimal.Render(n)
    case JStr(s) => s
    case _ => inspect(v)
  }
}
