/** utility/Parameter.cpp: the schema of one argument. A parameter is a
    small state machine over its type, its array element type, an optional
    numeric range and an optional array length range. The transitions are
    the pure functions on `ParameterState`; class `Parameter` applies them
    in place, as the source's setters do. */
module Parameter {
  import opened Strings
  import opened Json

  /** `unsigned char` */
  type Byte = x: int | 0 <= x < 256

  /** The tags the `setType*` family assigns to a scalar or to an element. */
  predicate IsElementKind(t: JsonType)
  {
    t == LongType || t == DoubleType || t == BoolType || t == StringType || t == ValueType
  }

  /** All of a parameter's fields. The `long` and `double` halves of the
      `min_`/`max_` unions are kept apart. */
  datatype ParameterState = ParameterState(
    name: ConstantString,
    units: ConstantString,
    valueType: JsonType,
    arrayElementType: JsonType,
    minL: int,
    maxL: int,
    minD: real,
    maxD: real,
    rangeIsSet: bool,
    arrayLengthMin: Byte,
    arrayLengthMax: Byte,
    arrayLengthRangeIsSet: bool)

  /** `setTypeLong`, `setTypeDouble`, `setTypeBool`, `setTypeString` and
      `setTypeValue`: an array keeps its type and changes its element type;
      anything else changes its type. */
  function WithScalarType(s: ParameterState, t: JsonType): ParameterState
    requires IsElementKind(t)
  {
    if s.valueType != ArrayType then s.(valueType := t) else s.(arrayElementType := t)
  }

  /** `setTypeObject` */
  function WithTypeObject(s: ParameterState): ParameterState
  {
    s.(valueType := ObjectType)
  }

  /** `setTypeArray`: the former type becomes the element type. */
  function WithTypeArray(s: ParameterState): ParameterState
  {
    if s.valueType != ArrayType then s.(arrayElementType := s.valueType, valueType := ArrayType) else s
  }

  /** `setRange(double, double)` and `setRange(float, float)` */
  function WithDoubleRange(s: ParameterState, min: real, max: real): ParameterState
  {
    WithScalarType(s.(minD := min, maxD := max), DoubleType).(rangeIsSet := true)
  }

  /** `setRange(long, long)`, called by `Field::setRange`. */
  function WithLongRange(s: ParameterState, min: int, max: int): ParameterState
  {
    s.(minL := min, maxL := max, rangeIsSet := true)
  }

  /** `removeRange` */
  function WithoutRange(s: ParameterState): ParameterState
  {
    s.(rangeIsSet := false)
  }

  /** `setArrayLengthRange` */
  function WithArrayLengthRange(s: ParameterState, lo: Byte, hi: Byte): ParameterState
  {
    WithTypeArray(s).(arrayLengthMin := lo, arrayLengthMax := hi, arrayLengthRangeIsSet := true)
  }

  /** `removeArrayLengthRange` */
  function WithoutArrayLengthRange(s: ParameterState): ParameterState
  {
    s.(arrayLengthRangeIsSet := false)
  }

  /** A scalar type setter changes exactly one of the two type tags: the
      element type of an array, the type of anything else. */
  lemma ScalarTypeChangesOneTag(s: ParameterState, t: JsonType)
    requires IsElementKind(t)
    ensures var r := WithScalarType(s, t);
      && (r.valueType == ArrayType <==> s.valueType == ArrayType)
      && (s.valueType == ArrayType ==> r.arrayElementType == t && r.valueType == s.valueType)
      && (s.valueType != ArrayType ==> r.valueType == t && r.arrayElementType == s.arrayElementType)
      && r.(valueType := s.valueType, arrayElementType := s.arrayElementType) == s
  {
  }

  /** The last scalar type setter wins. */
  lemma ScalarTypeLastWins(s: ParameterState, t1: JsonType, t2: JsonType)
    requires IsElementKind(t1) && IsElementKind(t2)
    ensures WithScalarType(WithScalarType(s, t1), t2) == WithScalarType(s, t2)
  {
    if s.valueType != ArrayType {
      assert WithScalarType(s, t1) == s.(valueType := t1);
      assert WithScalarType(s, t1).valueType != ArrayType;
    } else {
      assert WithScalarType(s, t1) == s.(arrayElementType := t1);
    }
  }

  /** `setTypeArray` is idempotent. */
  lemma TypeArrayIdempotent(s: ParameterState)
    ensures WithTypeArray(WithTypeArray(s)) == WithTypeArray(s)
  {
  }

  /** `setTypeArray` followed by a scalar setter and the other order both
      declare an array whose elements have that type. */
  lemma TypeArrayCommutesWithScalarType(s: ParameterState, t: JsonType)
    requires IsElementKind(t)
    ensures WithScalarType(WithTypeArray(s), t) == WithTypeArray(WithScalarType(s, t))
    ensures WithTypeArray(WithScalarType(s, t)).valueType == ArrayType
    ensures WithTypeArray(WithScalarType(s, t)).arrayElementType == t
  {
  }

  /** `setTypeObject` overrides an array declaration, and a later
      `setTypeArray` makes an array of objects. */
  lemma TypeObjectOverridesArray(s: ParameterState)
    ensures WithTypeObject(WithTypeArray(s)).valueType == ObjectType
    ensures WithTypeArray(WithTypeObject(s)).valueType == ArrayType
    ensures WithTypeArray(WithTypeObject(s)).arrayElementType == ObjectType
  {
  }

  /** A double range makes the parameter (or its elements) double, stores
      both bounds and sets the flag; the length range and the name are
      untouched. */
  lemma DoubleRangeEffect(s: ParameterState, min: real, max: real)
    ensures var r := WithDoubleRange(s, min, max);
      && r.rangeIsSet && r.minD == min && r.maxD == max
      && (s.valueType == ArrayType ==> r.valueType == ArrayType && r.arrayElementType == DoubleType)
      && (s.valueType != ArrayType ==> r.valueType == DoubleType)
      && r.arrayLengthRangeIsSet == s.arrayLengthRangeIsSet
      && r.name == s.name && r.units == s.units
  {
  }

  /** Declaring a double range and an array length range gives an array of
      doubles with both ranges, in either order. */
  lemma RangesCommute(s: ParameterState, min: real, max: real, lo: Byte, hi: Byte)
    ensures WithArrayLengthRange(WithDoubleRange(s, min, max), lo, hi)
         == WithDoubleRange(WithArrayLengthRange(s, lo, hi), min, max)
    ensures var r := WithArrayLengthRange(WithDoubleRange(s, min, max), lo, hi);
      r.valueType == ArrayType && r.arrayElementType == DoubleType
      && r.rangeIsSet && r.arrayLengthRangeIsSet
  {
  }

  /** `setArrayLengthRange` forces an array and stores both bounds. */
  lemma ArrayLengthRangeForcesArray(s: ParameterState, lo: Byte, hi: Byte)
    ensures var r := WithArrayLengthRange(s, lo, hi);
      && r.valueType == ArrayType && r.arrayLengthRangeIsSet
      && r.arrayLengthMin == lo && r.arrayLengthMax == hi
      && r.rangeIsSet == s.rangeIsSet
      && (s.valueType != ArrayType ==> r.arrayElementType == s.valueType)
  {
  }

  /** Each remover clears its own flag and nothing else. */
  lemma RemoversClearOnlyTheirFlag(s: ParameterState)
    ensures !WithoutRange(s).rangeIsSet
    ensures WithoutRange(s).(rangeIsSet := s.rangeIsSet) == s
    ensures !WithoutArrayLengthRange(s).arrayLengthRangeIsSet
    ensures WithoutArrayLengthRange(s).(arrayLengthRangeIsSet := s.arrayLengthRangeIsSet) == s
  {
  }

  class Parameter {
    var name: ConstantString
    var units: ConstantString
    var valueType: JsonType
    var arrayElementType: JsonType
    var minL: int
    var maxL: int
    var minD: real
    var maxD: real
    var rangeIsSet: bool
    var arrayLengthMin: Byte
    var arrayLengthMax: Byte
    var arrayLengthRangeIsSet: bool

    function State(): ParameterState
      reads this
    {
      ParameterState(name, units, valueType, arrayElementType, minL, maxL, minD, maxD,
                     rangeIsSet, arrayLengthMin, arrayLengthMax, arrayLengthRangeIsSet)
    }

    /** The state every constructor establishes; the bounds are left as
        they were (uninitialised). */
    ghost predicate Fresh(n: ConstantString)
      reads this
    {
      name == n && units == EmptyConstantString
      && valueType == LongType && arrayElementType == LongType
      && !rangeIsSet && !arrayLengthRangeIsSet
    }

    /** `Parameter()` */
    constructor ()
      ensures Fresh(EmptyConstantString)
    {
      name := EmptyConstantString;
      units := EmptyConstantString;
      valueType := LongType;
      arrayElementType := LongType;
      rangeIsSet := false;
      arrayLengthRangeIsSet := false;
    }

    /** `Parameter(name)` */
    constructor Named(n: ConstantString)
      ensures Fresh(n)
    {
      name := n;
      units := EmptyConstantString;
      valueType := LongType;
      arrayElementType := LongType;
      rangeIsSet := false;
      arrayLengthRangeIsSet := false;
    }

    /** Assigning a freshly constructed `Parameter(name)` over this one, as
        `parameter_array_[i] = Parameter(name)` does; the bounds become
        indeterminate. */
    method Reset(n: ConstantString)
      modifies this
      ensures Fresh(n)
    {
      name := n;
      units := EmptyConstantString;
      valueType := LongType;
      arrayElementType := LongType;
      minL, maxL, minD, maxD := *, *, *, *;
      arrayLengthMin, arrayLengthMax := *, *;
      rangeIsSet := false;
      arrayLengthRangeIsSet := false;
    }

    method SetName(n: ConstantString)
      modifies this
      ensures State() == old(State()).(name := n)
    {
      name := n;
    }

    method SetUnits(u: ConstantString)
      modifies this
      ensures State() == old(State()).(units := u)
    {
      units := u;
    }

    /** The common body of `setTypeLong`, `setTypeDouble`, `setTypeBool`,
        `setTypeString` and `setTypeValue`. */
    method SetScalarType(t: JsonType)
      requires IsElementKind(t)
      modifies this
      ensures State() == WithScalarType(old(State()), t)
    {
      if valueType != ArrayType {
        valueType := t;
      } else {
        arrayElementType := t;
      }
    }

    method SetTypeLong()
      modifies this
      ensures State() == WithScalarType(old(State()), LongType)
    {
      SetScalarType(LongType);
    }

    method SetTypeDouble()
      modifies this
      ensures State() == WithScalarType(old(State()), DoubleType)
    {
      SetScalarType(DoubleType);
    }

    method SetTypeBool()
      modifies this
      ensures State() == WithScalarType(old(State()), BoolType)
    {
      SetScalarType(BoolType);
    }

    method SetTypeString()
      modifies this
      ensures State() == WithScalarType(old(State()), StringType)
    {
      SetScalarType(StringType);
    }

    method SetTypeValue()
      modifies this
      ensures State() == WithScalarType(old(State()), ValueType)
    {
      SetScalarType(ValueType);
    }

    method SetTypeObject()
      modifies this
      ensures State() == WithTypeObject(old(State()))
    {
      valueType := ObjectType;
    }

    method SetTypeArray()
      modifies this
      ensures State() == WithTypeArray(old(State()))
    {
      if valueType != ArrayType {
        arrayElementType := valueType;
        valueType := ArrayType;
      }
    }

    /** `setRange(double, double)`; the `float` overload widens its
        arguments first and otherwise does the same. */
    method SetRange(min: real, max: real)
      modifies this
      ensures State() == WithDoubleRange(old(State()), min, max)
    {
      minD := min;
      maxD := max;
      SetTypeDouble();
      rangeIsSet := true;
    }

    method SetRangeLong(min: int, max: int)
      modifies this
      ensures State() == WithLongRange(old(State()), min, max)
    {
      minL := min;
      maxL := max;
      rangeIsSet := true;
    }

    method RemoveRange()
      modifies this
      ensures State() == WithoutRange(old(State()))
    {
      rangeIsSet := false;
    }

    method SetArrayLengthRange(lo: Byte, hi: Byte)
      modifies this
      ensures State() == WithArrayLengthRange(old(State()), lo, hi)
    {
      SetTypeArray();
      arrayLengthMin := lo;
      arrayLengthMax := hi;
      arrayLengthRangeIsSet := true;
    }

    method RemoveArrayLengthRange()
      modifies this
      ensures State() == WithoutArrayLengthRange(old(State()))
    {
      arrayLengthRangeIsSet := false;
    }

    /** `compareName(const char *)`: case-insensitive equality of text. */
    predicate CompareNameText(t: string)
      reads this
    {
      Matches(name, ByText(t))
    }

    /** `compareName(const ConstantString &)`: the same object. */
    predicate CompareName(c: ConstantString)
      reads this
    {
      Matches(name, ByConstant(c))
    }

    /** Both overloads, by the kind of name at hand. */
    predicate CompareNameQuery(q: NameQuery)
      reads this
    {
      Matches(name, q)
    }
  }

  /** The two overloads of `compareName`: identity for a constant string,
      case-insensitive text equality for a C string. */
  lemma CompareNameOverloads(p: Parameter, c: ConstantString, t: string)
    ensures p.CompareName(c) <==> p.name.addr == c.addr
    ensures p.CompareNameText(t) <==> Lowered(p.name.text) == Lowered(t)
  {
    EqualsIgnoreCaseMeansLoweredEqual(p.name.text, t);
  }
}
