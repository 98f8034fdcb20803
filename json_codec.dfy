/**
 * The `Codable` conformance of `JSONValue`. Text-level parsing belongs to
 * Foundation's `JSONDecoder`; here a document arrives already tokenised as a
 * `Token`, and decoding is the classifier that `init(from:)` runs over one
 * token: seven attempts in a fixed order, the first that succeeds wins.
 */
module JsonCodec {
  import opened Base
  import opened JsonValue

  /**
   * A raw JSON node as Foundation's parser sees it. A number keeps its literal as
   * `mantissa * 10^exponent` (`2.5` is `TNumber(25, -1)`, `3e2` is `TNumber(3, 2)`).
   * Object members are already merged into a map by the text parser.
   */
  datatype Token =
    | TNull
    | TBool(b: bool)
    | TNumber(mantissa: int, exponent: int)
    | TString(s: string)
    | TArray(items: seq<Token>)
    | TObject(members: map<string, Token>)

  /** Foundation's conversion of a number literal to the nearest `Double`; `None` when it does not fit. */
  type DoubleParser = (int, int) -> Option<Float64>

  /**
   * Foundation's rendering of a `Double` as a number literal `(mantissa, exponent)`;
   * `None` for NaN and the infinities, which `JSONEncoder` refuses by default.
   */
  type DoubleRenderer = Float64 -> Option<(int, int)>

  /** `DecodingError.dataCorrupted`: no attempt accepted the token. */
  datatype DecodeError = CannotDecode

  /** `EncodingError.invalidValue`: a double the encoder cannot render. */
  datatype EncodeError = InvalidFloatingPointValue

  function Pow10(n: nat): (r: nat)
    ensures r >= 1
  {
    if n == 0 then 1 else 10 * Pow10(n - 1)
  }

  /** The literal's value when it is a whole number (whatever its spelling), else `None`. */
  function ExactInteger(mantissa: int, exponent: int): (r: Option<int>)
    ensures exponent >= 0 ==> r == Some(mantissa * Pow10(exponent))
    ensures exponent < 0 ==> (r.Some? <==> mantissa % Pow10(-exponent) == 0)
    ensures exponent < 0 && r.Some? ==> r.value * Pow10(-exponent) == mantissa
  {
    if exponent >= 0 then Some(mantissa * Pow10(exponent))
    else if mantissa % Pow10(-exponent) == 0 then Some(mantissa / Pow10(-exponent))
    else None
  }

  /** `container.decodeNil()`. */
  predicate DecodeNil(t: Token) {
    t.TNull?
  }

  /** `try? container.decode(Bool.self)`: only `true` and `false`, never a number. */
  function DecodeBool(t: Token): Option<bool> {
    if t.TBool? then Some(t.b) else None
  }

  /** `try? container.decode(Int.self)`: a number whose value is a whole number within `Int`'s range. */
  function DecodeInt(t: Token): (r: Option<Int64>)
    ensures r.Some? ==> t.TNumber? && ExactInteger(t.mantissa, t.exponent) == Some(r.value as int)
  {
    if t.TNumber? then
      match ExactInteger(t.mantissa, t.exponent)
      case Some(n) => if MinInt64 <= n <= MaxInt64 then Some(n) else None
      case None => None
    else None
  }

  /** `try? container.decode(Double.self)`: any number Foundation can convert. */
  function DecodeDouble(t: Token, parse: DoubleParser): Option<Float64> {
    if t.TNumber? then parse(t.mantissa, t.exponent) else None
  }

  /** `try? container.decode(String.self)`. */
  function DecodeString(t: Token): Option<string> {
    if t.TString? then Some(t.s) else None
  }

  /**
   * `init(from:)`: null, bool, int, double, string, array, object, in that order;
   * an array or object is accepted only when every element decodes.
   */
  function Decode(t: Token, parse: DoubleParser): (r: Result<Value, DecodeError>)
    decreases t
    ensures r.Err? <==> !Decodable(t, parse)
    ensures r.Ok? ==> SameShape(t, r.value)
    ensures t.TNumber? && DecodeInt(t).Some? ==> r == Ok(Int(DecodeInt(t).value))
  {
    if DecodeNil(t) then Ok(Null)
    else if DecodeBool(t).Some? then Ok(Bool(DecodeBool(t).value))
    else if DecodeInt(t).Some? then Ok(Int(DecodeInt(t).value))
    else if DecodeDouble(t, parse).Some? then Ok(Double(DecodeDouble(t, parse).value))
    else if DecodeString(t).Some? then Ok(String(DecodeString(t).value))
    else if t.TArray? && forall k | 0 <= k < |t.items| :: Decode(t.items[k], parse).Ok? then
      Ok(Array(seq(|t.items|, k requires 0 <= k < |t.items| => Decode(t.items[k], parse).value)))
    else if t.TObject? && forall key | key in t.members :: Decode(t.members[key], parse).Ok? then
      Ok(Object(map key | key in t.members :: Decode(t.members[key], parse).value))
    else Err(CannotDecode)
  }

  /**
   * Which tokens decode, stated independently of the attempt order: every null,
   * bool and string; a number that is a whole `Int` or that Foundation can convert
   * to a `Double`; an array or object all of whose children decode.
   */
  predicate Decodable(t: Token, parse: DoubleParser) {
    match t
    case TNull => true
    case TBool(_) => true
    case TNumber(m, e) => DecodeInt(t).Some? || parse(m, e).Some?
    case TString(_) => true
    case TArray(items) => forall k | 0 <= k < |items| :: Decodable(items[k], parse)
    case TObject(members) => forall key | key in members :: Decodable(members[key], parse)
  }

  /** A value has the JSON kind of a token: numbers become `.int` or `.double`, arrays keep their length, objects their keys. */
  predicate SameShape(t: Token, v: Value) {
    match t
    case TNull => v.Null?
    case TBool(b) => v == Bool(b)
    case TNumber(_, _) => v.Int? || v.Double?
    case TString(s) => v == String(s)
    case TArray(items) => v.Array? && |v.items| == |items|
    case TObject(members) => v.Object? && v.fields.Keys == members.Keys
  }

  /** The precedence of `init(from:)`: a number that fits `Int` is never decoded as `.double`. */
  lemma IntBeforeDouble(mantissa: int, exponent: int, n: Int64, parse: DoubleParser)
    requires ExactInteger(mantissa, exponent) == Some(n as int)
    ensures Decode(TNumber(mantissa, exponent), parse) == Ok(Int(n))
  {
  }

  /** `.double` only ever comes from a number that is not a whole `Int`. */
  lemma DoubleOnlyWhenNotInt(t: Token, parse: DoubleParser, d: Float64)
    requires Decode(t, parse) == Ok(Double(d))
    ensures t.TNumber? && DecodeInt(t).None? && parse(t.mantissa, t.exponent) == Some(d)
  {
  }

  /** Which values encode: those whose every double the renderer accepts. */
  predicate Encodable(v: Value, render: DoubleRenderer) {
    match v
    case Double(d) => render(d).Some?
    case Array(items) => forall k | 0 <= k < |items| :: Encodable(items[k], render)
    case Object(fields) => forall key | key in fields :: Encodable(fields[key], render)
    case _ => true
  }

  /**
   * `encode(to:)`: each variant as its own JSON kind; a `Double` is rendered by
   * Foundation, and a double it refuses makes the whole encoding throw.
   */
  function Encode(v: Value, render: DoubleRenderer): (r: Result<Token, EncodeError>)
    ensures r.Ok? <==> Encodable(v, render)
    ensures r.Ok? ==> (v.Null? <==> r.value.TNull?)
    ensures r.Ok? ==> (v.Bool? <==> r.value.TBool?)
    ensures r.Ok? ==> (v.Int? || v.Double? <==> r.value.TNumber?)
    ensures r.Ok? ==> (v.String? <==> r.value.TString?)
    ensures r.Ok? ==> (v.Array? <==> r.value.TArray?)
    ensures r.Ok? ==> (v.Object? <==> r.value.TObject?)
    ensures r.Ok? && v.Array? ==> |r.value.items| == |v.items|
    ensures r.Ok? && v.Object? ==> r.value.members.Keys == v.fields.Keys
  {
    match v
    case Null => Ok(TNull)
    case Bool(b) => Ok(TBool(b))
    case Int(i) => Ok(TNumber(i, 0))
    case Double(d) =>
      if render(d).Some? then Ok(TNumber(render(d).value.0, render(d).value.1))
      else Err(InvalidFloatingPointValue)
    case String(s) => Ok(TString(s))
    case Array(items) =>
      if forall k | 0 <= k < |items| :: Encode(items[k], render).Ok? then
        Ok(TArray(seq(|items|, k requires 0 <= k < |items| => Encode(items[k], render).value)))
      else Err(InvalidFloatingPointValue)
    case Object(fields) =>
      if forall key | key in fields :: Encode(fields[key], render).Ok? then
        Ok(TObject(map key | key in fields :: Encode(fields[key], render).value))
      else Err(InvalidFloatingPointValue)
  }

  /** A value with no `.double` anywhere inside it. */
  predicate NoDoubles(v: Value) {
    match v
    case Double(_) => false
    case Array(items) => forall k | 0 <= k < |items| :: NoDoubles(items[k])
    case Object(fields) => forall key | key in fields :: NoDoubles(fields[key])
    case _ => true
  }

  /** Decoding the encoding of a value without doubles gives the value back, whatever Foundation does with doubles. */
  lemma {:induction false} DecodeEncodeRoundTrip(v: Value, render: DoubleRenderer, parse: DoubleParser)
    requires NoDoubles(v)
    ensures Encode(v, render).Ok? && Decode(Encode(v, render).value, parse) == Ok(v)
  {
    match v
    case Int(i) =>
      assert ExactInteger(i, 0) == Some(i as int);
    case Array(items) =>
      forall k | 0 <= k < |items| ensures RoundTrips(items[k], render, parse) {
        DecodeEncodeRoundTrip(items[k], render, parse);
      }
      ArrayRoundTrip(items, render, parse);
    case Object(fields) =>
      forall key | key in fields ensures RoundTrips(fields[key], render, parse) {
        DecodeEncodeRoundTrip(fields[key], render, parse);
      }
      ObjectRoundTrip(fields, render, parse);
    case _ =>
  }

  /** Encoding succeeds and decoding the result gives `v` back. */
  predicate RoundTrips(v: Value, render: DoubleRenderer, parse: DoubleParser) {
    Encode(v, render).Ok? && Decode(Encode(v, render).value, parse) == Ok(v)
  }

  /** The array step of the round trip: elements that round-trip make an array that does. */
  lemma ArrayRoundTrip(items: seq<Value>, render: DoubleRenderer, parse: DoubleParser)
    requires forall k | 0 <= k < |items| :: RoundTrips(items[k], render, parse)
    ensures RoundTrips(Array(items), render, parse)
  {
    var t := Encode(Array(items), render).value;
    assert forall k | 0 <= k < |items| :: t.items[k] == Encode(items[k], render).value;
    assert seq(|t.items|, k requires 0 <= k < |t.items| => Decode(t.items[k], parse).value) == items;
  }

  /** The object step of the round trip: fields that round-trip make an object that does. */
  lemma ObjectRoundTrip(fields: map<string, Value>, render: DoubleRenderer, parse: DoubleParser)
    requires forall key | key in fields :: RoundTrips(fields[key], render, parse)
    ensures RoundTrips(Object(fields), render, parse)
  {
    var t := Encode(Object(fields), render).value;
    assert forall key | key in t.members :: t.members[key] == Encode(fields[key], render).value;
    assert forall key | key in t.members :: Decode(t.members[key], parse).Ok?;
    var decoded := map key | key in t.members :: Decode(t.members[key], parse).value;
    assert decoded == fields;
    assert Decode(t, parse) == Ok(Object(decoded));
  }

  /**
   * A `.double` whose rendering is a whole number within `Int`'s range comes back
   * as `.int`: the Int-first precedence does not see the original tag.
   */
  lemma WholeDoubleComesBackAsInt(d: Float64, render: DoubleRenderer, parse: DoubleParser, n: Int64)
    requires render(d).Some? && ExactInteger(render(d).value.0, render(d).value.1) == Some(n as int)
    ensures Encode(Double(d), render).Ok? && Decode(Encode(Double(d), render).value, parse) == Ok(Int(n))
  {
  }

  /** A double the renderer refuses makes the encoding of any array holding it throw. */
  lemma RefusedDoubleFailsEncoding(d: Float64, render: DoubleRenderer, before: seq<Value>, after: seq<Value>)
    requires render(d).None?
    ensures Encode(Array(before + [Double(d)] + after), render) == Err(InvalidFloatingPointValue)
  {
    var items := before + [Double(d)] + after;
    assert items[|before|] == Double(d);
  }
}
