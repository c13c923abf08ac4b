/**
 * JavaScript/JSON values as the services see them: rows, request bodies,
 * VARIANT columns and response objects.
 */
module Json {
  import opened Wrappers

  datatype Json =
    | Null
    | Bool(b: bool)
    | Num(n: real)
    | Str(s: string)
    | Arr(items: seq<Json>)
    | Obj(fields: map<string, Json>)

  /** A property that may be missing: `None` is `undefined`. */
  type Prop = Option<Json>

  /** `j.key`: the property of an object, `undefined` on anything else. */
  function Get(j: Json, key: string): (r: Prop)
    ensures r.Some? <==> j.Obj? && key in j.fields
    ensures r.Some? ==> r.value == j.fields[key]
  {
    if j.Obj? && key in j.fields then Some(j.fields[key]) else None
  }

  /** `o[key]` on a plain object given as a map. */
  function At(o: map<string, Json>, key: string): (r: Prop)
    ensures r.Some? <==> key in o
    ensures r.Some? ==> r.value == o[key]
  {
    if key in o then Some(o[key]) else None
  }

  /** JavaScript truthiness. */
  predicate Truthy(v: Prop) {
    match v
    case None => false
    case Some(j) =>
      match j
      case Null => false
      case Bool(b) => b
      case Num(n) => n != 0.0
      case Str(s) => s != ""
      case Arr(_) => true
      case Obj(_) => true
  }

  /** `v == null` (loose): null or undefined. */
  predicate IsNullish(v: Prop) {
    v.None? || v.value.Null?
  }

  /** `a ?? b`. */
  function Coalesce(a: Prop, b: Prop): (r: Prop)
    ensures !IsNullish(a) ==> r == a
    ensures IsNullish(a) ==> r == b
  {
    if IsNullish(a) then b else a
  }

  /** `a ?? null`: a property that is always present, null when nullish. */
  function OrNull(a: Prop): (r: Json)
    ensures !IsNullish(a) ==> r == a.value
    ensures IsNullish(a) ==> r == Null
  {
    OrDefault(a, Null)
  }

  /** `row.UPPER ?? row.lower`: the column read used by every row mapper. */
  function Col(row: map<string, Json>, upper: string, lower: string): (r: Prop)
    ensures upper in row && !row[upper].Null? ==> r == Some(row[upper])
    ensures (upper !in row || row[upper].Null?) ==> r == At(row, lower)
  {
    Coalesce(At(row, upper), At(row, lower))
  }

  /** `a || b`: the first value when truthy, else the second. */
  function Or(a: Prop, b: Json): (r: Json)
    ensures Truthy(a) ==> r == a.value
    ensures !Truthy(a) ==> r == b
  {
    if Truthy(a) then a.value else b
  }

  /** `a || b` between two properties, either possibly `undefined`. */
  function Either(a: Prop, b: Prop): (r: Prop)
    ensures Truthy(a) ==> r == a
    ensures !Truthy(a) ==> r == b
  {
    if Truthy(a) then a else b
  }

  /** `a ?? d` for a default that is itself defined. */
  function OrDefault(a: Prop, d: Json): (r: Json)
    ensures !IsNullish(a) ==> r == a.value
    ensures IsNullish(a) ==> r == d
  {
    if IsNullish(a) then d else a.value
  }

  /**
   * `o[key] = v` on an object literal: a property whose value is `undefined`
   * is left out, as `JSON.stringify` leaves it out of a response.
   */
  function Put(o: map<string, Json>, key: string, v: Prop): (r: map<string, Json>)
    ensures At(r, key) == v
    ensures forall k :: k != key ==> At(r, k) == At(o, k)
    ensures r.Keys <= o.Keys + {key}
  {
    if v.Some? then o[key := v.value] else o - {key}
  }

  /** `v === true`. */
  predicate IsTrue(v: Prop) {
    v == Some(Bool(true))
  }

  /** `v !== false`. */
  predicate NotFalse(v: Prop) {
    v != Some(Bool(false))
  }

  /** A JSON string value, or none. */
  function OptStr(s: Option<string>): (r: Json)
    ensures s.None? <==> r == Null
  {
    if s.Some? then Str(s.value) else Null
  }

  /**
   * A driver row keyed by column: `(c, true)` is the upper-case name
   * Snowflake returns, `(c, false)` the lower-case one.
   */
  type Row<C(==)> = map<(C, bool), Json>

  /** `row.UPPER ?? row.lower` for column `c`. */
  function Cell<C(==)>(row: Row<C>, c: C): Prop {
    if (c, true) in row && !row[(c, true)].Null? then Some(row[(c, true)])
    else if (c, false) in row then Some(row[(c, false)])
    else None
  }
}
