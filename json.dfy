/** The JSON vocabulary shared by both code generations: the type tags of
    the JsonStream library and an abstract parsed JSON value, with the
    conversions assumed for ArduinoJson when a variant is read as a number,
    a boolean or a C string (the library is not part of this model). */
module Json {
  import opened Strings

  /** `JsonStream::JsonTypes`. `ValueType` is the older library's catch-all
      tag (set by `Parameter::setTypeValue`), `AnyType` the newer one's
      (matched in `Property::setValue(JsonArray)`). */
  datatype JsonType =
    | LongType | DoubleType | BoolType | NullType | StringType
    | ObjectType | ArrayType | ValueType | AnyType

  /** A parsed JSON value. Doubles are represented by reals; a parsed
      double also keeps the text it was written as, which is what reading
      it as a C string gives back. */
  datatype JsonVal =
    | JNull
    | JBool(b: bool)
    | JLong(l: int)
    | JDouble(d: real, text: string)
    | JString(s: string)
    | JArray(items: seq<JsonVal>)
    | JObject(members: seq<(string, JsonVal)>)

  /** The C conversion from `double` to an integer type: toward zero. */
  function Truncate(d: real): (r: int)
    ensures d >= 0.0 ==> r as real <= d < r as real + 1.0
    ensures d < 0.0 ==> r as real - 1.0 < d <= r as real
  {
    if d >= 0.0 then d.Floor else -((-d).Floor)
  }

  /** `(long)variant` */
  function AsLong(v: JsonVal): int
  {
    match v
    case JLong(l) => l
    case JDouble(d, _) => Truncate(d)
    case JBool(b) => if b then 1 else 0
    case _ => 0
  }

  /** `(double)variant` */
  function AsDouble(v: JsonVal): real
  {
    match v
    case JLong(l) => l as real
    case JDouble(d, _) => d
    case JBool(b) => if b then 1.0 else 0.0
    case _ => 0.0
  }

  /** `(bool)variant` */
  function AsBool(v: JsonVal): bool
  {
    match v
    case JBool(b) => b
    case JLong(l) => l != 0
    case _ => false
  }

  /** `(const char *)variant`: a string gives its characters, a double the
      text it was written as, a long its decimal text, a boolean or `null`
      its literal, and an array or an object no text, represented by the
      empty string. */
  function AsText(v: JsonVal): string
  {
    match v
    case JString(s) => s
    case JLong(l) => DecimalText(l)
    case JBool(b) => if b then "true" else "false"
    case JDouble(_, t) => t
    case JNull => "null"
    case _ => ""
  }

  /** `array[i]`: subscripting past the end gives an undefined variant,
      which reads like `null`. */
  function Element(a: seq<JsonVal>, i: int): (r: JsonVal)
    ensures 0 <= i < |a| ==> r == a[i]
  {
    if 0 <= i < |a| then a[i] else JNull
  }
}
