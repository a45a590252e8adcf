/** Parsed JSON values as the renderer receives them, and the Ruby operations
    it applies to them: Hash#[], Hash#keys, Hash#values.first, truthiness,
    `x || default` and string interpolation. */
module Json {
  import Text

  /** A JSON value. An object is the Hash JSON.parse builds: its members in
      document order, each key once. A key that is absent reads as Null,
      as Ruby's nil. */
  datatype Value =
    | Null
    | Bool(b: bool)
    | Number(n: int)
    | Str(s: string)
    | Array(items: seq<Value>)
    | Object(members: seq<(string, Value)>)

  /** Ruby truthiness: only nil and false are falsy. */
  predicate Truthy(v: Value)
  {
    !v.Null? && v != Bool(false)
  }

  /** A value that string interpolation renders without Ruby's inspect. */
  predicate IsScalar(v: Value)
  {
    !v.Array? && !v.Object?
  }

  /** A value the script reads through `v || {}`: a Hash, or falsy. */
  predicate HashOrFalsy(v: Value)
  {
    v.Object? || !Truthy(v)
  }

  /** A value the script reads through `&.` or `dig`: a Hash, or nil. */
  predicate HashOrNull(v: Value)
  {
    v.Object? || v.Null?
  }

  /** Hash#[] on a member list: the value of the first member named key,
      Null when there is none. */
  function Lookup(ms: seq<(string, Value)>, key: string): Value
  {
    if ms == [] then Null
    else if ms[0].0 == key then ms[0].1
    else Lookup(ms[1..], key)
  }

  /** Lookup is Null when no member has the key, and otherwise the value of
      the first member that has it. */
  lemma {:induction false} LookupFirst(ms: seq<(string, Value)>, key: string)
    ensures (forall i :: 0 <= i < |ms| ==> ms[i].0 != key) ==> Lookup(ms, key) == Null
    ensures forall i :: 0 <= i < |ms| && ms[i].0 == key && (forall j :: 0 <= j < i ==> ms[j].0 != key) ==>
              Lookup(ms, key) == ms[i].1
  {
    if ms != [] {
      LookupFirst(ms[1..], key);
      forall i | 0 < i < |ms| && ms[i].0 == key && (forall j :: 0 <= j < i ==> ms[j].0 != key)
        ensures Lookup(ms, key) == ms[i].1
      {
        assert ms[1..][i - 1] == ms[i];
        assert forall j :: 0 <= j < i - 1 ==> ms[1..][j] == ms[j + 1];
      }
    }
  }

  /** `v[key]` on a Hash; nil for a value that is not one (as `&.` and `dig`
      give on nil). */
  function Get(v: Value, key: string): Value
  {
    if v.Object? then Lookup(v.members, key) else Null
  }

  /** The members iterated by `(v || {}).each`. */
  function Members(v: Value): seq<(string, Value)>
  {
    if v.Object? then v.members else []
  }

  /** Hash#keys. */
  function Keys(ms: seq<(string, Value)>): seq<string>
  {
    seq(|ms|, i requires 0 <= i < |ms| => ms[i].0)
  }

  /** The value of the first member of a Hash; nil for an empty Hash. */
  function FirstValue(v: Value): Value
  {
    if v.Object? && |v.members| > 0 then v.members[0].1 else Null
  }

  /** to_s of a scalar as string interpolation and Array#join apply it:
      nil gives the empty string. Arrays and objects would go through Ruby's
      inspect, which is not modelled; the renderers exclude them by their
      preconditions, and they give the empty string here. */
  function ToS(v: Value): string
  {
    match v
    case Null => ""
    case Bool(b) => if b then "true" else "false"
    case Number(n) => Text.IntToString(n)
    case Str(s) => s
    case Array(_) => ""
    case Object(_) => ""
  }

  /** The value as text when it is truthy, and the default otherwise. */
  function OrDefault(v: Value, default: string): (r: string)
    ensures !Truthy(v) ==> r == default
    ensures v.Str? ==> r == v.s
  {
    if Truthy(v) then ToS(v) else default
  }

  /** to_s of each element, as Array#join applies it to scalars. */
  function Strings(items: seq<Value>): seq<string>
  {
    seq(|items|, i requires 0 <= i < |items| => ToS(items[i]))
  }
}
