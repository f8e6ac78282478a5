/** JSON values as the front end sees them, with the small part of JavaScript's
    semantics the pages rely on: truthiness, `typeof v === "object"`, optional
    property access (`v?.key`), `Object.entries` / object spread, `||`, `&&`,
    `??` and `String(v)` of a primitive. */
module JsonValue {

  datatype Option<T> = None | Some(value: T)

  /** A JSON value. Numbers are integers; an object is the sequence of its
      fields in the order `Object.entries` reports them. */
  datatype Json =
    | Null
    | Bool(b: bool)
    | Num(n: int)
    | Str(s: string)
    | Arr(items: seq<Json>)
    | Obj(fields: seq<Field>)

  datatype Field = Field(key: string, value: Json)

  /** JavaScript truthiness of a defined value. */
  predicate Truthy(v: Json) {
    match v
    case Null => false
    case Bool(b) => b
    case Num(n) => n != 0
    case Str(s) => s != ""
    case Arr(_) => true
    case Obj(_) => true
  }

  /** Truthiness of a possibly `undefined` value (None is `undefined`). */
  predicate IsTruthy(v: Option<Json>) {
    v.Some? && Truthy(v.value)
  }

  /** `typeof v === "object"`: true for null, arrays and objects. */
  predicate IsObjectType(v: Json) {
    v.Null? || v.Arr? || v.Obj?
  }

  predicate IsPrimitive(v: Json) {
    v.Bool? || v.Num? || v.Str?
  }

  /** The value of the first field named `key`, if any. */
  function Lookup(fields: seq<Field>, key: string): (r: Option<Json>)
    ensures r.Some? <==> exists i :: 0 <= i < |fields| && fields[i].key == key
    ensures r.Some? ==> exists i :: 0 <= i < |fields| && fields[i] == Field(key, r.value)
  {
    if fields == [] then None
    else if fields[0].key == key then Some(fields[0].value)
    else
      var r := Lookup(fields[1..], key);
      assert forall i :: 0 <= i < |fields[1..]| ==> fields[1..][i] == fields[i + 1];
      r
  }

  /** `v.key` on a value that is not null: only objects carry the keys this
      front end reads. */
  function Get(v: Json, key: string): Option<Json> {
    if v.Obj? then Lookup(v.fields, key) else None
  }

  /** `v?.key`: undefined when `v` is undefined or null. */
  function Member(v: Option<Json>, key: string): Option<Json> {
    if v.None? then None else Get(v.value, key)
  }

  /** `a || b` */
  function Or(a: Option<Json>, b: Option<Json>): (r: Option<Json>)
    ensures IsTruthy(a) ==> r == a
    ensures !IsTruthy(a) ==> r == b
  {
    if IsTruthy(a) then a else b
  }

  /** `a && b` */
  function And(a: Option<Json>, b: Option<Json>): (r: Option<Json>)
    ensures IsTruthy(a) ==> r == b
    ensures !IsTruthy(a) ==> r == a
  {
    if IsTruthy(a) then b else a
  }

  /** `a ?? b` */
  function Nullish(a: Option<Json>, b: Option<Json>): (r: Option<Json>)
    ensures (a.None? || a == Some(Null)) ==> r == b
    ensures a.Some? && a.value != Null ==> r == a
  {
    if a.None? || a.value.Null? then b else a
  }

  /** `a || fallback` where the fallback is always truthy: a defined value. */
  function OrElse(a: Option<Json>, fallback: Json): (r: Json)
    requires Truthy(fallback)
    ensures Truthy(r)
    ensures IsTruthy(a) ==> r == a.value
    ensures !IsTruthy(a) ==> r == fallback
  {
    if IsTruthy(a) then a.value else fallback
  }

  function DigitChar(d: nat): char
    requires d < 10
  {
    "0123456789"[d]
  }

  /** The decimal numeral of a natural number, as `String(n)` writes it. */
  function NatToString(n: nat): (r: string)
    ensures |r| > 0
    ensures forall i :: 0 <= i < |r| ==> '0' <= r[i] <= '9'
    decreases n
  {
    if n < 10 then [DigitChar(n)] else NatToString(n / 10) + [DigitChar(n % 10)]
  }

  /** The value of a string of decimal digits. */
  function DigitsValue(s: string): int
    decreases |s|
  {
    if s == [] then 0 else 10 * DigitsValue(s[..|s| - 1]) + (s[|s| - 1] as int - '0' as int)
  }

  lemma {:induction false} NatToStringRoundTrip(n: nat)
    ensures DigitsValue(NatToString(n)) == n
    decreases n
  {
    var r := NatToString(n);
    if n < 10 {
      assert r[..|r| - 1] == [];
    } else {
      NatToStringRoundTrip(n / 10);
      assert r[..|r| - 1] == NatToString(n / 10);
    }
  }

  function IntToString(n: int): (r: string)
    ensures |r| > 0
  {
    if n < 0 then "-" + NatToString(-n) else NatToString(n)
  }

  /** `String(v)` of a primitive. */
  function Display(v: Json): string
    requires IsPrimitive(v)
  {
    match v
    case Bool(b) => if b then "true" else "false"
    case Num(n) => IntToString(n)
    case Str(s) => s
  }

  /** Fields `"0"`, `"1"`, ... for the given values, starting at index `from`. */
  function IndexedFields(values: seq<Json>, from: nat): (r: seq<Field>)
    ensures |r| == |values|
    ensures forall i :: 0 <= i < |r| ==> r[i] == Field(NatToString(from + i), values[i])
    decreases |values|
  {
    if values == [] then [] else [Field(NatToString(from), values[0])] + IndexedFields(values[1..], from + 1)
  }

  /** The own enumerable entries of a value, as `Object.entries(v)` lists them
      and as `{ ...v }` copies them: an object's fields, an array's or a
      string's elements under their indices, nothing for the other
      primitives (and, for spread, for null). */
  function OwnEntries(v: Json): (r: seq<Field>)
    ensures v.Obj? ==> r == v.fields
    ensures v.Arr? ==> |r| == |v.items| && forall i :: 0 <= i < |r| ==> r[i] == Field(NatToString(i), v.items[i])
    ensures v.Str? ==> |r| == |v.s| && forall i :: 0 <= i < |r| ==> r[i] == Field(NatToString(i), Str([v.s[i]]))
    ensures v.Null? || v.Bool? || v.Num? ==> r == []
  {
    match v
    case Obj(fields) => fields
    case Arr(items) => IndexedFields(items, 0)
    case Str(s) => IndexedFields(seq(|s|, i requires 0 <= i < |s| => Str([s[i]])), 0)
    case _ => []
  }

  /** The fields left after removing every field named `key`
      (`delete o[key]`). */
  function RemoveKey(fields: seq<Field>, key: string): (r: seq<Field>)
    ensures Lookup(r, key) == None
    ensures forall k :: k != key ==> Lookup(r, k) == Lookup(fields, k)
    ensures forall f :: f in r <==> f in fields && f.key != key
    ensures |r| <= |fields|
  {
    if fields == [] then []
    else if fields[0].key == key then RemoveKey(fields[1..], key)
    else [fields[0]] + RemoveKey(fields[1..], key)
  }

  /** What a render produces: its value, or the TypeError that aborts it
      (`.map` of a non-array, a property read on null). */
  datatype Outcome<T> = Shown(value: T) | Crash

  /** The outcomes of a list of renders, crashing when any one crashes. */
  function Collect<T>(xs: seq<Outcome<T>>): (r: Outcome<seq<T>>)
    ensures r.Shown? <==> forall i :: 0 <= i < |xs| ==> xs[i].Shown?
    ensures r.Shown? ==> |r.value| == |xs| && forall i :: 0 <= i < |xs| ==> r.value[i] == xs[i].value
  {
    if xs == [] then Shown([])
    else if xs[0].Crash? then Crash
    else
      match Collect(xs[1..])
      case Crash => Crash
      case Shown(rest) => Shown([xs[0].value] + rest)
  }

  /** `(v || []).map(...)`: no items for a falsy value, the elements of an
      array, and a TypeError for any other truthy value. */
  function ListOr(v: Option<Json>): (r: Outcome<seq<Json>>)
    ensures !IsTruthy(v) ==> r == Shown([])
    ensures IsTruthy(v) && v.value.Arr? ==> r == Shown(v.value.items)
    ensures IsTruthy(v) && !v.value.Arr? ==> r == Crash
  {
    if !IsTruthy(v) then Shown([]) else if v.value.Arr? then Shown(v.value.items) else Crash
  }
}
