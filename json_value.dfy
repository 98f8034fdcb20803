/**
 * The polymorphic JSON value of the iOS runtime: a closed seven-variant tagged
 * union with exact-match accessors, a total object subscript and the untagging
 * projection used at the legacy bridge boundary.
 */
module JsonValue {
  import opened Base

  const MinInt64: int := -0x8000_0000_0000_0000
  const MaxInt64: int := 0x7FFF_FFFF_FFFF_FFFF

  /** Swift's `Int`, 64 bits wide on every supported device. */
  type Int64 = x: int | -0x8000_0000_0000_0000 <= x <= 0x7FFF_FFFF_FFFF_FFFF

  /** Swift's `Double`, kept as its IEEE-754 bit pattern and never interpreted. */
  type Float64 = bv64

  /** `JSONValue`: exactly seven variants; objects are unordered maps with unique keys. */
  datatype Value =
    | Null
    | Bool(b: bool)
    | Int(i: Int64)
    | Double(d: Float64)
    | String(s: string)
    | Array(items: seq<Value>)
    | Object(fields: map<string, Value>)

  /** The variant tag of a value, for stating which accessor answers. */
  datatype Kind = NullKind | BoolKind | IntKind | DoubleKind | StringKind | ArrayKind | ObjectKind

  function KindOf(v: Value): Kind {
    match v
    case Null => NullKind
    case Bool(_) => BoolKind
    case Int(_) => IntKind
    case Double(_) => DoubleKind
    case String(_) => StringKind
    case Array(_) => ArrayKind
    case Object(_) => ObjectKind
  }

  /** `stringValue`: the payload of a `.string`, nil for every other variant. */
  function StringValue(v: Value): (r: Option<string>)
    ensures r.Some? <==> KindOf(v) == StringKind
    ensures r.Some? ==> v == String(r.value)
  {
    if v.String? then Some(v.s) else None
  }

  /** `intValue`: the payload of an `.int`, nil for every other variant. */
  function IntValue(v: Value): (r: Option<Int64>)
    ensures r.Some? <==> KindOf(v) == IntKind
    ensures r.Some? ==> v == Int(r.value)
  {
    if v.Int? then Some(v.i) else None
  }

  /** `doubleValue`: the payload of a `.double`, nil for every other variant. */
  function DoubleValue(v: Value): (r: Option<Float64>)
    ensures r.Some? <==> KindOf(v) == DoubleKind
    ensures r.Some? ==> v == Double(r.value)
  {
    if v.Double? then Some(v.d) else None
  }

  /** `boolValue`: the payload of a `.bool`, nil for every other variant. */
  function BoolValue(v: Value): (r: Option<bool>)
    ensures r.Some? <==> KindOf(v) == BoolKind
    ensures r.Some? ==> v == Bool(r.value)
  {
    if v.Bool? then Some(v.b) else None
  }

  /** `arrayValue`: the elements of an `.array`, nil for every other variant. */
  function ArrayValue(v: Value): (r: Option<seq<Value>>)
    ensures r.Some? <==> KindOf(v) == ArrayKind
    ensures r.Some? ==> v == Array(r.value)
  {
    if v.Array? then Some(v.items) else None
  }

  /** `objectValue`: the dictionary of an `.object`, nil for every other variant. */
  function ObjectValue(v: Value): (r: Option<map<string, Value>>)
    ensures r.Some? <==> KindOf(v) == ObjectKind
    ensures r.Some? ==> v == Object(r.value)
  {
    if v.Object? then Some(v.fields) else None
  }

  /**
   * No accessor coerces: at most one of the six answers for any value, a `.null`
   * answers none of them, and each answers only for its own variant.
   */
  lemma AccessorsExclusive(v: Value)
    ensures v.Null? ==> StringValue(v).None? && IntValue(v).None? && DoubleValue(v).None?
                        && BoolValue(v).None? && ArrayValue(v).None? && ObjectValue(v).None?
    ensures IntValue(v).Some? ==> DoubleValue(v).None? && StringValue(v).None? && BoolValue(v).None?
    ensures DoubleValue(v).Some? ==> IntValue(v).None? && StringValue(v).None? && BoolValue(v).None?
    ensures StringValue(v).Some? ==> IntValue(v).None? && DoubleValue(v).None? && BoolValue(v).None?
    ensures ArrayValue(v).Some? ==> ObjectValue(v).None? && StringValue(v).None?
  {
  }

  /** No coercion between kinds: `.int(5)` has no double, `.double` has no int, `.string("5")` has no int. */
  lemma NoCoercion(n: Int64, d: Float64)
    ensures IntValue(Int(n)) == Some(n) && DoubleValue(Int(n)).None?
    ensures IntValue(Double(d)).None? && DoubleValue(Double(d)) == Some(d)
    ensures IntValue(String("5")).None? && StringValue(String("5")) == Some("5")
  {
  }

  /** `subscript(key:)`: total; a field of an object, nil for a missing key and for every non-object. */
  function Subscript(v: Value, key: string): (r: Option<Value>)
    ensures r.Some? <==> ObjectValue(v).Some? && key in ObjectValue(v).value
    ensures r.Some? ==> r.value == ObjectValue(v).value[key]
  {
    match v
    case Object(fields) => if key in fields then Some(fields[key]) else None
    case _ => None
  }

  /** The host-native, untagged form that `toAny` hands to legacy code (`NSNull`, `Bool`, `[Any]`, `[String: Any]`, ...). */
  datatype AnyValue =
    | NSNull
    | AnyBool(b: bool)
    | AnyInt(i: Int64)
    | AnyDouble(d: Float64)
    | AnyString(s: string)
    | AnyList(elements: seq<AnyValue>)
    | AnyDictionary(entries: map<string, AnyValue>)

  /**
   * `toAny`: null becomes the null marker, scalars stand for themselves, arrays are
   * mapped element by element and objects value by value over the same key set.
   */
  function ToAny(v: Value): (r: AnyValue)
    ensures v.Null? <==> r.NSNull?
    ensures v.Array? <==> r.AnyList?
    ensures v.Object? <==> r.AnyDictionary?
    ensures v.Array? ==> |r.elements| == |v.items|
    ensures v.Object? ==> r.entries.Keys == v.fields.Keys
  {
    match v
    case Null => NSNull
    case Bool(b) => AnyBool(b)
    case Int(i) => AnyInt(i)
    case Double(d) => AnyDouble(d)
    case String(s) => AnyString(s)
    case Array(items) => AnyList(seq(|items|, k requires 0 <= k < |items| => ToAny(items[k])))
    case Object(fields) => AnyDictionary(map key | key in fields :: ToAny(fields[key]))
  }

  /** Reading a host-native value back into the tagged union: the reference inverse of `toAny`. */
  function FromAny(a: AnyValue): Value {
    match a
    case NSNull => Null
    case AnyBool(b) => Bool(b)
    case AnyInt(i) => Int(i)
    case AnyDouble(d) => Double(d)
    case AnyString(s) => String(s)
    case AnyList(elements) => Array(seq(|elements|, k requires 0 <= k < |elements| => FromAny(elements[k])))
    case AnyDictionary(entries) => Object(map key | key in entries :: FromAny(entries[key]))
  }

  /** `toAny` loses the static tag but no data: reading its result back gives the original value. */
  lemma {:induction false} ToAnyRoundTrip(v: Value)
    ensures FromAny(ToAny(v)) == v
  {
    match v
    case Array(items) =>
      forall k | 0 <= k < |items| ensures FromAny(ToAny(items[k])) == items[k] {
        ToAnyRoundTrip(items[k]);
      }
    case Object(fields) =>
      forall key | key in fields ensures FromAny(ToAny(fields[key])) == fields[key] {
        ToAnyRoundTrip(fields[key]);
      }
    case _ =>
  }

  /** Hence distinct values never project to the same host-native value. */
  lemma ToAnyInjective(v: Value, w: Value)
    requires ToAny(v) == ToAny(w)
    ensures v == w
  {
    ToAnyRoundTrip(v);
    ToAnyRoundTrip(w);
  }

  /** Looking a key up commutes with `toAny`: the projected dictionary has the same fields, each projected. */
  lemma ToAnySubscript(v: Value, key: string)
    requires v.Object?
    ensures Subscript(v, key).Some? <==> key in ToAny(v).entries
    ensures Subscript(v, key).Some? ==> ToAny(v).entries[key] == ToAny(Subscript(v, key).value)
  {
  }
}
