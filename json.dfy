// JSON as the controllers see it after `encoding/json` has decoded it.
// A raw document (`json.RawMessage`, or a string holding JSON) is modelled by
// its text together with the outcome of decoding that text: `None` when the
// text is not valid JSON.  The decoder itself is not modelled.
module Json {
  import opened Wrappers

  /**
   * A JSON value.  A number keeps its value and whether its literal was
   * written as an integer (no fraction, no exponent): decoding into
   * `interface{}` forgets the spelling, but an integer struct field accepts
   * only an integer literal.
   */
  datatype Json =
    | JNull
    | JBool(b: bool)
    | JNum(n: real, integral: bool)
    | JStr(s: string)
    | JArr(items: seq<Json>)
    | JObj(fields: map<string, Json>)

  /** A raw JSON document and what decoding it yields (`None` for invalid JSON). */
  datatype JsonText = JsonText(text: string, decoded: Option<Json>)

  /** `json.Valid`. */
  predicate Valid(t: JsonText)
  {
    t.decoded.Some?
  }

  /** A value as decoding into `interface{}` holds it: every number is a plain `float64`, whatever its literal. */
  function Generic(j: Json): (g: Json)
    ensures g.JNum? <==> j.JNum?
    ensures j.JNum? ==> g == JNum(j.n, false)
  {
    match j
    case JNum(n, _) => JNum(n, false)
    case JArr(items) => JArr(seq(|items|, i requires 0 <= i < |items| => Generic(items[i])))
    case JObj(fields) => JObj(map k | k in fields :: Generic(fields[k]))
    case _ => j
  }

  /**
   * `jsonEquals` from the IAM controllers: both documents are decoded into
   * `interface{}` and compared with `reflect.DeepEqual`; a document that does
   * not decode makes the comparison false.
   */
  function JsonEquals(a: JsonText, b: JsonText): (r: bool)
  {
    match (a.decoded, b.decoded)
    case (Some(x), Some(y)) => Generic(x) == Generic(y)
    case _ => false
  }

  lemma JsonEqualsMeaning(a: JsonText, b: JsonText)
    ensures JsonEquals(a, b) <==> Valid(a) && Valid(b) && Generic(a.decoded.value) == Generic(b.decoded.value)
  {
  }

  /** `3` and `3.0` decode to the same `float64`, so documents differing only in a number's spelling are equal. */
  lemma JsonEqualsIgnoresNumberSpelling(a: JsonText, b: JsonText, n: real)
    requires a.decoded == Some(JObj(map["Version" := JNum(n, true)]))
    requires b.decoded == Some(JObj(map["Version" := JNum(n, false)]))
    ensures JsonEquals(a, b)
  {
    assert Generic(a.decoded.value).fields == Generic(b.decoded.value).fields;
  }

  lemma JsonEqualsSymmetric(a: JsonText, b: JsonText)
    ensures JsonEquals(a, b) == JsonEquals(b, a)
  {
  }

  lemma JsonEqualsInvalid(a: JsonText, b: JsonText)
    requires !Valid(a) || !Valid(b)
    ensures !JsonEquals(a, b)
  {
  }

  /** Two texts with the same decoded value are equal even when spelled differently. */
  lemma JsonEqualsIgnoresSpelling(a: JsonText, text: string)
    requires Valid(a)
    ensures JsonEquals(a, JsonText(text, a.decoded))
  {
  }

  lemma JsonEqualsTransitive(a: JsonText, b: JsonText, c: JsonText)
    requires JsonEquals(a, b) && JsonEquals(b, c)
    ensures JsonEquals(a, c)
  {
  }

  // ---------------------------------------------------------------------
  // What `json.Unmarshal` does with a decoded value when the target is a Go
  // struct, a map or a string field.  Absent keys and `null` leave the Go
  // zero value; a value of the wrong JSON type is a decoding error.

  const TypeMismatch := "json: cannot unmarshal value into Go value of the target type"

  /** Unmarshalling into a struct or a `map[string]json.RawMessage`. */
  function ObjectOf(j: Json): (r: Result<map<string, Json>>)
    ensures r.Ok? <==> j.JObj? || j.JNull?
    ensures j.JObj? ==> r == Ok(j.fields)
    ensures j.JNull? ==> r == Ok(map[])
  {
    match j
    case JObj(m) => Ok(m)
    case JNull => Ok(map[])
    case _ => Err(TypeMismatch)
  }

  /** Unmarshalling a document whose text may not be valid JSON. */
  function DecodeObject(t: JsonText): (r: Result<map<string, Json>>)
    ensures t.decoded.None? ==> r.Err?
    ensures t.decoded.Some? ==> r == ObjectOf(t.decoded.value)
  {
    match t.decoded
    case None => Err("invalid character in JSON input")
    case Some(j) => ObjectOf(j)
  }

  /** Reading a `string` struct field named `key`. */
  function StringField(m: map<string, Json>, key: string): (r: Result<string>)
    ensures key !in m ==> r == Ok("")
    ensures key in m && m[key].JStr? ==> r == Ok(m[key].s)
    ensures r.Err? <==> key in m && !m[key].JStr? && !m[key].JNull?
  {
    if key !in m then Ok("")
    else match m[key]
      case JStr(s) => Ok(s)
      case JNull => Ok("")
      case _ => Err(TypeMismatch)
  }

  /** Reading a pointer-to-struct field (`*T`) named `key`: absent or null is nil. */
  function OptionalObjectField(m: map<string, Json>, key: string): (r: Result<Option<map<string, Json>>>)
    ensures key !in m ==> r == Ok(None)
    ensures key in m && m[key].JObj? ==> r == Ok(Some(m[key].fields))
    ensures r.Err? <==> key in m && !m[key].JObj? && !m[key].JNull?
  {
    if key !in m then Ok(None)
    else match m[key]
      case JObj(f) => Ok(Some(f))
      case JNull => Ok(None)
      case _ => Err(TypeMismatch)
  }

  /** Reading a struct-valued field (`T`) named `key`: absent or null is the zero struct. */
  function ObjectField(m: map<string, Json>, key: string): (r: Result<map<string, Json>>)
    ensures key !in m ==> r == Ok(map[])
    ensures key in m ==> r == ObjectOf(m[key])
  {
    if key !in m then Ok(map[]) else ObjectOf(m[key])
  }

  /** Reading a `map[string]string` field: absent or null is empty; every value must be a string (null reads as ""). */
  function StringMapField(m: map<string, Json>, key: string): (r: Result<map<string, string>>)
    ensures key !in m ==> r == Ok(map[])
    ensures r.Ok? && key in m && m[key].JObj? ==>
              r.value.Keys == m[key].fields.Keys &&
              forall k :: k in m[key].fields && m[key].fields[k].JStr? ==> r.value[k] == m[key].fields[k].s
    ensures r.Err? <==>
              key in m && !m[key].JNull? && (!m[key].JObj? || exists k :: k in m[key].fields && !m[key].fields[k].JStr? && !m[key].fields[k].JNull?)
  {
    if key !in m then Ok(map[])
    else match m[key]
      case JNull => Ok(map[])
      case JObj(fs) =>
        if forall k :: k in fs ==> fs[k].JStr? || fs[k].JNull? then
          Ok(map k | k in fs :: if fs[k].JStr? then fs[k].s else "")
        else Err(TypeMismatch)
      case _ => Err(TypeMismatch)
  }

  /** Reading a `[]string` field: absent or null is empty; every item must be a string (null reads as ""). */
  function StringListField(m: map<string, Json>, key: string): (r: Result<seq<string>>)
    ensures key !in m ==> r == Ok([])
    ensures r.Ok? && key in m && m[key].JArr? ==>
              |r.value| == |m[key].items| &&
              forall i :: 0 <= i < |r.value| && m[key].items[i].JStr? ==> r.value[i] == m[key].items[i].s
    ensures r.Err? <==>
              key in m && !m[key].JNull? && (!m[key].JArr? || exists i :: 0 <= i < |m[key].items| && !m[key].items[i].JStr? && !m[key].items[i].JNull?)
  {
    if key !in m then Ok([])
    else match m[key]
      case JNull => Ok([])
      case JArr(items) =>
        if forall i :: 0 <= i < |items| ==> items[i].JStr? || items[i].JNull? then
          Ok(seq(|items|, i requires 0 <= i < |items| => if items[i].JStr? then items[i].s else ""))
        else Err(TypeMismatch)
      case _ => Err(TypeMismatch)
  }

  /** Reading a slice-of-struct field: absent or null is empty; every item must be an object (null reads as the zero struct). */
  function ObjectListField(m: map<string, Json>, key: string): (r: Result<seq<map<string, Json>>>)
    ensures key !in m ==> r == Ok([])
    ensures r.Ok? && key in m && m[key].JArr? ==>
              |r.value| == |m[key].items| &&
              forall i :: 0 <= i < |r.value| ==> ObjectOf(m[key].items[i]) == Ok(r.value[i])
    ensures r.Err? <==>
              key in m && !m[key].JNull? && (!m[key].JArr? || exists i :: 0 <= i < |m[key].items| && ObjectOf(m[key].items[i]).Err?)
  {
    if key !in m then Ok([])
    else match m[key]
      case JNull => Ok([])
      case JArr(items) =>
        if forall i :: 0 <= i < |items| ==> ObjectOf(items[i]).Ok? then
          Ok(seq(|items|, i requires 0 <= i < |items| => ObjectOf(items[i]).value))
        else Err(TypeMismatch)
      case _ => Err(TypeMismatch)
  }

  /** Decoding every object of a JSON array with `f`; the first failure wins. */
  function DecodeEach<T>(items: seq<map<string, Json>>, f: map<string, Json> -> Result<T>): (r: Result<seq<T>>)
    ensures r.Ok? <==> forall i :: 0 <= i < |items| ==> f(items[i]).Ok?
    ensures r.Ok? ==> |r.value| == |items| && forall i :: 0 <= i < |items| ==> f(items[i]) == Ok(r.value[i])
  {
    if |items| == 0 then Ok([])
    else
      match f(items[0])
      case Err(e) => Err(e)
      case Ok(x) =>
        match DecodeEach(items[1..], f)
        case Err(e) => Err(e)
        case Ok(xs) =>
          assert forall i :: 1 <= i < |items| ==> items[i] == items[1..][i - 1];
          Ok([x] + xs)
  }

  /** Reading a `*bool` field: absent or null is nil. */
  function OptionalBoolField(m: map<string, Json>, key: string): (r: Result<Option<bool>>)
    ensures key !in m ==> r == Ok(None)
    ensures key in m && m[key].JBool? ==> r == Ok(Some(m[key].b))
    ensures r.Err? <==> key in m && !m[key].JBool? && !m[key].JNull?
  {
    if key !in m then Ok(None)
    else match m[key]
      case JBool(b) => Ok(Some(b))
      case JNull => Ok(None)
      case _ => Err(TypeMismatch)
  }

  /** Reading a `bool` field: absent or null is false. */
  function BoolField(m: map<string, Json>, key: string): (r: Result<bool>)
    ensures r.Ok? <==> OptionalBoolField(m, key).Ok?
    ensures r.Ok? ==> r.value == OptionalBoolField(m, key).value.UnwrapOr(false)
  {
    var b :- OptionalBoolField(m, key);
    Ok(b.UnwrapOr(false))
  }

  /** A JSON number that is a whole number. */
  predicate IsWhole(n: real)
  {
    n.Floor as real == n
  }

  /** A number `strconv.ParseInt` reads: written as an integer literal, hence whole. */
  predicate IsIntegerLiteral(j: Json)
  {
    j.JNum? && j.integral && IsWhole(j.n)
  }

  /** The range of a Go signed integer type whose values lie in [-half, half). */
  predicate InSigned(n: int, half: nat)
  {
    -(half as int) <= n < half
  }

  const Int32Half := 0x8000_0000
  const Int64Half := 0x8000_0000_0000_0000

  /** The error `encoding/json` reports for a number an integer field of type `goType` cannot hold. */
  function NumberError(goType: string): string
  {
    "json: cannot unmarshal number into Go value of type " + goType
  }

  /**
   * Reading a signed integer field of a type with range [-half, half): absent
   * or null is 0; a number must be an integer literal (no fraction, no
   * exponent) within the range, otherwise it is a decoding error.
   */
  function SignedField(m: map<string, Json>, key: string, half: nat, goType: string): (r: Result<int>)
    requires half > 0
    ensures key !in m || m[key].JNull? ==> r == Ok(0)
    ensures r.Ok? ==> InSigned(r.value, half)
    ensures key in m && IsIntegerLiteral(m[key]) && InSigned(m[key].n.Floor, half) ==> r == Ok(m[key].n.Floor)
    ensures r.Err? <==> key in m && !m[key].JNull? && !(IsIntegerLiteral(m[key]) && InSigned(m[key].n.Floor, half))
  {
    if key !in m then Ok(0)
    else match m[key]
      case JNull => Ok(0)
      case JNum(n, integral) =>
        if integral && IsWhole(n) && InSigned(n.Floor, half) then Ok(n.Floor) else Err(NumberError(goType))
      case _ => Err(TypeMismatch)
  }

  /** Reading an `int` field (64 bits). */
  function IntField(m: map<string, Json>, key: string): Result<int>
  {
    SignedField(m, key, Int64Half, "int")
  }

  /** Reading a `*string` field: absent or null is nil. */
  function OptionalStringField(m: map<string, Json>, key: string): (r: Result<Option<string>>)
    ensures key !in m ==> r == Ok(None)
    ensures key in m && m[key].JStr? ==> r == Ok(Some(m[key].s))
    ensures r.Err? <==> key in m && !m[key].JStr? && !m[key].JNull?
  {
    if key !in m then Ok(None)
    else match m[key]
      case JStr(s) => Ok(Some(s))
      case JNull => Ok(None)
      case _ => Err(TypeMismatch)
  }

  predicate InInt32(n: int)
  {
    InSigned(n, Int32Half)
  }

  /** Reading an `int32` field. */
  function Int32Field(m: map<string, Json>, key: string): Result<int>
  {
    SignedField(m, key, Int32Half, "int32")
  }

  /** `3600.0` and `1e3` are not integer literals, so an integer field rejects them, as `strconv.ParseInt` does. */
  lemma FractionalLiteralRejected(m: map<string, Json>, key: string, n: real)
    requires key in m && m[key] == JNum(n, false)
    ensures Int32Field(m, key).Err? && IntField(m, key).Err?
  {
  }

  /** A number beyond 64 bits fails an `int` field; one beyond 32 bits fails an `int32` field. */
  lemma OutOfRangeRejected(m: map<string, Json>, key: string)
    requires key in m && m[key] == JNum(0x8000_0000 as real, true)
    ensures Int32Field(m, key).Err? && IntField(m, key) == Ok(0x8000_0000)
    ensures IntField(m[key := JNum(Int64Half as real, true)], key).Err?
  {
  }
}
