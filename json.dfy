/** JavaScript values as the gateway and the client see them once a body has been
    parsed, and the handful of JavaScript evaluation rules the handlers rely on:
    truthiness, property reads (which throw on `null` and `undefined`), optional
    chaining and the nullish-coalescing operator `??`. */
module Json {

  /** A JSON value, plus `Absent` for JavaScript's `undefined`. An `Absent` value
      stored under a key of an `Obj` is a property whose value is `undefined`;
      serialising the object omits that key. */
  datatype Json =
    | Absent
    | Null
    | Bool(b: bool)
    | Num(n: real)
    | Str(s: string)
    | Arr(items: seq<Json>)
    | Obj(fields: map<string, Json>)

  /** The outcome of evaluating a JavaScript expression: a value, or an exception
      carrying its message. */
  datatype Eval<+T> = Value(value: T) | Throw(message: string)

  datatype Option<+T> = None | Some(value: T)

  /** `null` or `undefined`: the values `??` and `?.` react to. */
  predicate Nullish(v: Json) {
    v.Absent? || v.Null?
  }

  /** JavaScript truthiness. `NaN` is not a value of this model. */
  predicate Truthy(v: Json) {
    match v
    case Absent => false
    case Null => false
    case Bool(b) => b
    case Num(n) => n != 0.0
    case Str(s) => s != ""
    case Arr(_) => true
    case Obj(_) => true
  }

  /** The message of the TypeError V8 raises when a property is read from `null`
      or `undefined`. */
  function ReadError(base: Json, key: string): (m: string)
    requires Nullish(base)
    ensures |m| > |key|
  {
    "Cannot read properties of " + (if base.Null? then "null" else "undefined")
      + " (reading '" + key + "')"
  }

  /** The falsy values are exactly `undefined`, `null`, `false`, `0` and `""`. */
  lemma FalsyValues(v: Json)
    ensures !Truthy(v) <==> v == Absent || v == Null || v == Bool(false) || v == Num(0.0) || v == Str("")
  {
  }

  /** `base.key`: throws on a nullish base; an own property of an object is found;
      every other read yields `undefined` (none of the keys the handlers read is
      an inherited property). */
  function Prop(base: Json, key: string): (r: Eval<Json>)
    ensures r.Throw? <==> Nullish(base)
    ensures r.Value? && base.Obj? ==> r.value == (if key in base.fields then base.fields[key] else Absent)
    ensures r.Value? && !base.Obj? ==> r.value == Absent
  {
    match base
    case Absent => Throw(ReadError(base, key))
    case Null => Throw(ReadError(base, key))
    case Obj(m) => Value(if key in m then m[key] else Absent)
    case _ => Value(Absent)
  }

  /** A property of a value that is known not to be nullish (such a read never
      throws). */
  function Field(v: Json, key: string): (r: Json)
    requires !Nullish(v)
    ensures Prop(v, key) == Value(r)
  {
    Prop(v, key).value
  }

  /** `base?.key`: never throws; a nullish base short-circuits to `undefined`. */
  function OptProp(base: Json, key: string): (r: Json)
    ensures Nullish(base) ==> r == Absent
    ensures !Nullish(base) ==> Prop(base, key) == Value(r)
  {
    if Nullish(base) then Absent else Prop(base, key).value
  }

  /** `base[0]`: throws on a nullish base; an array or string yields its first
      element (`undefined` when empty), an object its property "0". */
  function Index0(base: Json): (r: Eval<Json>)
    ensures r.Throw? <==> Nullish(base)
    ensures base.Arr? && |base.items| > 0 ==> r == Value(base.items[0])
    ensures base.Arr? && |base.items| == 0 ==> r == Value(Absent)
    ensures base.Str? && |base.s| > 0 ==> r == Value(Str([base.s[0]]))
    ensures base.Str? && |base.s| == 0 ==> r == Value(Absent)
    ensures base.Obj? && "0" in base.fields ==> r == Value(base.fields["0"])
    ensures base.Obj? && "0" !in base.fields ==> r == Value(Absent)
    ensures base.Bool? || base.Num? ==> r == Value(Absent)
  {
    match base
    case Absent => Throw(ReadError(base, "0"))
    case Null => Throw(ReadError(base, "0"))
    case Arr(s) => Value(if |s| > 0 then s[0] else Absent)
    case Str(s) => Value(if |s| > 0 then Str([s[0]]) else Absent)
    case Obj(m) => Value(if "0" in m then m["0"] else Absent)
    case _ => Value(Absent)
  }

  /** `a ?? b`: only `null` and `undefined` are replaced; `""`, `0` and `false`
      pass through. */
  function Coalesce(a: Json, b: Json): (r: Json)
    ensures !Nullish(a) ==> r == a
    ensures Nullish(a) ==> r == b
  {
    if Nullish(a) then b else a
  }

  /** An object literal with one property. */
  function Single(key: string, v: Json): (r: Json)
    ensures r.Obj? && r.fields.Keys == {key} && r.fields[key] == v
  {
    Obj(map[key := v])
  }
}
