/**
 * The host engine's structured values: what a Godot `Dictionary` or array
 * holds once the plugin hands it to the scripting layer, and the small
 * readers the scripting side uses to take such a value apart again.
 */
module GodotValues {

  /** A Java/Kotlin reference that may be null. */
  datatype Option<+T> = None | Some(value: T) {
    predicate IsFailure() { None? }

    function PropagateFailure<U>(): Option<U>
      requires None?
    {
      None
    }

    function Extract(): T
      requires Some?
    {
      value
    }
  }

  /**
   * A Godot Variant as the plugin produces it. Java `int` and `long` are both
   * `I`; a `Dictionary` is a map from key to value (its insertion order is not
   * modelled); an `Object[]` is `Arr`.
   */
  datatype Value =
    | Null
    | I(i: int)
    | B(b: bool)
    | S(s: string)
    | Arr(elems: seq<Value>)
    | D(entries: map<string, Value>)

  /** A nullable string field stored as it is: `null` becomes `Null`. */
  function OrNull(o: Option<string>): Value
  {
    match o
    case None => Null
    case Some(s) => S(s)
  }

  /** An array with one converted entry per input element, in order. */
  function ArrayOf<T>(xs: seq<T>, convert: T -> Value): (v: Value)
  {
    Arr(seq(|xs|, i requires 0 <= i < |xs| => convert(xs[i])))
  }

  /** `list.toTypedArray()` of a list of strings. */
  function Strings(ss: seq<string>): Value
  {
    ArrayOf(ss, (s: string) => S(s))
  }

  // Readers: how the scripting side takes a value apart.

  function AsDict(v: Value): Option<map<string, Value>>
  {
    if v.D? then Some(v.entries) else None
  }

  function AsString(v: Value): Option<string>
  {
    if v.S? then Some(v.s) else None
  }

  function AsInt(v: Value): Option<int>
  {
    if v.I? then Some(v.i) else None
  }

  function AsBool(v: Value): Option<bool>
  {
    if v.B? then Some(v.b) else None
  }

  /** Reads back a value written by `OrNull`. */
  function AsNullableString(v: Value): Option<Option<string>>
  {
    match v
    case Null => Some(None)
    case S(s) => Some(Some(s))
    case _ => None
  }

  function ValueAt(m: map<string, Value>, key: string): Option<Value>
  {
    if key in m then Some(m[key]) else None
  }

  function StringAt(m: map<string, Value>, key: string): Option<string>
  {
    var v :- ValueAt(m, key);
    AsString(v)
  }

  function IntAt(m: map<string, Value>, key: string): Option<int>
  {
    var v :- ValueAt(m, key);
    AsInt(v)
  }

  function BoolAt(m: map<string, Value>, key: string): Option<bool>
  {
    var v :- ValueAt(m, key);
    AsBool(v)
  }

  function NullableStringAt(m: map<string, Value>, key: string): Option<Option<string>>
  {
    var v :- ValueAt(m, key);
    AsNullableString(v)
  }

  /** Decodes every element of an array, failing if any element fails. */
  function DecodeAll<T>(vs: seq<Value>, decode: Value -> Option<T>): Option<seq<T>>
    decreases |vs|
  {
    if vs == [] then Some([])
    else
      var x :- decode(vs[0]);
      var xs :- DecodeAll(vs[1..], decode);
      Some([x] + xs)
  }

  function AsArrayOf<T>(v: Value, decode: Value -> Option<T>): Option<seq<T>>
  {
    if v.Arr? then DecodeAll(v.elems, decode) else None
  }

  function StringsAt(m: map<string, Value>, key: string): Option<seq<string>>
  {
    var v :- ValueAt(m, key);
    AsArrayOf(v, AsString)
  }

  /** Decoding an array element by element inverts converting it element by element. */
  lemma {:induction false} DecodeAllInverts<T>(xs: seq<T>, vs: seq<Value>, decode: Value -> Option<T>)
    requires |vs| == |xs|
    requires forall i :: 0 <= i < |xs| ==> decode(vs[i]) == Some(xs[i])
    ensures DecodeAll(vs, decode) == Some(xs)
  {
    if xs != [] {
      DecodeAllInverts(xs[1..], vs[1..], decode);
      assert [xs[0]] + xs[1..] == xs;
    }
  }

  /**
   * An array built by `ArrayOf` keeps length and order: whenever each element
   * can be read back, the whole list can be read back, unchanged.
   */
  lemma ArrayOfRoundTrip<T>(xs: seq<T>, convert: T -> Value, decode: Value -> Option<T>)
    requires forall i :: 0 <= i < |xs| ==> decode(convert(xs[i])) == Some(xs[i])
    ensures AsArrayOf(ArrayOf(xs, convert), decode) == Some(xs)
  {
    DecodeAllInverts(xs, ArrayOf(xs, convert).elems, decode);
  }

  /** A string array reads back as the list it was made from. */
  lemma StringsRoundTrip(ss: seq<string>)
    ensures AsArrayOf(Strings(ss), AsString) == Some(ss)
  {
    ArrayOfRoundTrip(ss, (s: string) => S(s), AsString);
  }
}
