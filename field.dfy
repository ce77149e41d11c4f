/** utility/Field.cpp: a named, typed saved value. The schema lives in the
    field's own `Parameter`; the value lives in its storage slot. Writes of
    longs are checked against the parameter's bounds. */
module Field {
  import opened Strings
  import opened Wrappers
  import opened SavedVariable
  import opened Json
  import P = Parameter

  /** The check `Field::setValue<long>` and `Field::setElementValue<long>`
      apply: the inclusive bounds, whether or not a range was set. */
  predicate FieldAcceptsLong(p: P.ParameterState, v: int)
  {
    p.minL <= v <= p.maxL
  }

  /** The slot after `setValue<T>(v)` for the two value types a field
      supports: a long outside the bounds leaves the slot as it was. */
  function SlotAfterSetValue(p: P.ParameterState, s: Slot, v: Scalar): (r: Slot)
    requires v.SLong? || v.SBool?
    ensures r == s || r == s.Set(v).1
    ensures v.SLong? && !FieldAcceptsLong(p, v.l) ==> r == s
    ensures r.GetDefault() == s.GetDefault() && r.ArrayLength() == s.ArrayLength()
    ensures s.ArrayLength() > 0 && (v.SBool? || FieldAcceptsLong(p, v.l)) ==> r.Get() == Some(v)
  {
    if v.SLong? && !FieldAcceptsLong(p, v.l) then s else s.Set(v).1
  }

  /** The slot after `setElementValue<T>(v, i)`. */
  function SlotAfterSetElementValue(p: P.ParameterState, s: Slot, i: nat, v: Scalar): (r: Slot)
    requires v.SLong? || v.SBool?
    ensures r == s || r == s.SetElement(i, v).1
    ensures v.SLong? && !FieldAcceptsLong(p, v.l) ==> r == s
    ensures r.defaults == s.defaults && r.ArrayLength() == s.ArrayLength()
    ensures i < s.ArrayLength() && (v.SBool? || FieldAcceptsLong(p, v.l)) ==> r.GetElement(i) == Some(v)
  {
    if v.SLong? && !FieldAcceptsLong(p, v.l) then s else s.SetElement(i, v).1
  }

  class Field {
    const parameter: P.Parameter
    var savedVariable: Slot

    /** `Field()`: a default parameter; the slot is left as the storage
        library's default constructor leaves it. */
    constructor ()
      ensures fresh(parameter) && parameter.Fresh(EmptyConstantString)
    {
      parameter := new P.Parameter();
    }

    /** `Field<long>(name, default)` */
    constructor OfLong(n: ConstantString, d: int)
      ensures fresh(parameter)
      ensures parameter.name == n && parameter.valueType == LongType
      ensures !parameter.rangeIsSet && !parameter.arrayLengthRangeIsSet
      ensures savedVariable == ScalarSlot(SLong(d))
    {
      var p := new P.Parameter.Named(n);
      p.SetTypeLong();
      parameter := p;
      savedVariable := ScalarSlot(SLong(d));
    }

    /** `Field<bool>(name, default)` */
    constructor OfBool(n: ConstantString, d: bool)
      ensures fresh(parameter)
      ensures parameter.name == n && parameter.valueType == BoolType
      ensures !parameter.rangeIsSet && !parameter.arrayLengthRangeIsSet
      ensures savedVariable == ScalarSlot(SBool(d))
    {
      var p := new P.Parameter.Named(n);
      p.SetTypeBool();
      parameter := p;
      savedVariable := ScalarSlot(SBool(d));
    }

    /** `setRange(long, long)` */
    method SetRange(min: int, max: int)
      modifies parameter
      ensures parameter.State() == P.WithLongRange(old(parameter.State()), min, max)
    {
      parameter.SetRangeLong(min, max);
    }

    function GetValue(): Option<Scalar>
      reads this
    {
      savedVariable.Get()
    }

    function GetElementValue(i: nat): Option<Scalar>
      reads this
    {
      savedVariable.GetElement(i)
    }

    function GetDefaultValue(): Option<Scalar>
      reads this
    {
      savedVariable.GetDefault()
    }

    function GetDefaultElementValue(i: nat): Option<Scalar>
      reads this
    {
      savedVariable.GetDefaultElement(i)
    }

    function GetArrayLength(): nat
      reads this
    {
      savedVariable.ArrayLength()
    }

    predicate IsDefaultValue()
      reads this
    {
      savedVariable.IsDefault()
    }

    /** `setValue<long>`: a value outside `[min, max]` is refused without a
        write; otherwise the slot decides. */
    method SetValueLong(v: int) returns (ok: bool)
      modifies this
      ensures ok <==> FieldAcceptsLong(parameter.State(), v) && old(savedVariable.ArrayLength()) > 0
      ensures ok ==> GetValue() == Some(SLong(v))
      ensures savedVariable == if FieldAcceptsLong(parameter.State(), v)
                               then old(savedVariable.Set(SLong(v)).1) else old(savedVariable)
    {
      if v < parameter.minL || v > parameter.maxL {
        return false;
      }
      var r := savedVariable.Set(SLong(v));
      ok, savedVariable := r.0, r.1;
    }

    /** `setValue<bool>`: no check. */
    method SetValueBool(v: bool) returns (ok: bool)
      modifies this
      ensures ok <==> old(savedVariable.ArrayLength()) > 0
      ensures ok ==> GetValue() == Some(SBool(v))
      ensures savedVariable == old(savedVariable.Set(SBool(v)).1)
    {
      var r := savedVariable.Set(SBool(v));
      ok, savedVariable := r.0, r.1;
    }

    /** `setElementValue<long>`: the same bounds as a scalar write, then a
        bounds-checked element write. */
    method SetElementValueLong(v: int, i: nat) returns (ok: bool)
      modifies this
      ensures ok <==> FieldAcceptsLong(parameter.State(), v) && i < old(savedVariable.ArrayLength())
      ensures ok ==> GetElementValue(i) == Some(SLong(v))
      ensures savedVariable == if FieldAcceptsLong(parameter.State(), v)
                               then old(savedVariable.SetElement(i, SLong(v)).1) else old(savedVariable)
    {
      if v < parameter.minL || v > parameter.maxL {
        return false;
      }
      var r := savedVariable.SetElement(i, SLong(v));
      ok, savedVariable := r.0, r.1;
    }

    /** `setElementValue<bool>`: no check beyond the slot's bounds. */
    method SetElementValueBool(v: bool, i: nat) returns (ok: bool)
      modifies this
      ensures ok <==> i < old(savedVariable.ArrayLength())
      ensures ok ==> GetElementValue(i) == Some(SBool(v))
      ensures savedVariable == old(savedVariable.SetElement(i, SBool(v)).1)
    {
      var r := savedVariable.SetElement(i, SBool(v));
      ok, savedVariable := r.0, r.1;
    }

    /** `setDefaultValue`: afterwards the value is the default. */
    method SetDefaultValue()
      modifies this
      ensures IsDefaultValue()
      ensures savedVariable == old(savedVariable).SetToDefault()
    {
      savedVariable := savedVariable.SetToDefault();
    }
  }

  /** The range check of a field does not consult `rangeIsSet`: removing a
      range leaves the old bounds in force. */
  lemma RemovedRangeStillChecked(s: P.ParameterState, min: int, max: int, v: int)
    requires v > max
    ensures !FieldAcceptsLong(P.WithoutRange(P.WithLongRange(s, min, max)), v)
    ensures !P.WithoutRange(P.WithLongRange(s, min, max)).rangeIsSet
  {
  }

  /** A field written through `SetValueLong` or `SetValueBool` keeps its
      defaults, so `SetDefaultValue` restores what it was constructed with. */
  method WriteThenRestore(n: ConstantString, d: int, v: int) returns (restored: Option<Scalar>)
    ensures restored == Some(SLong(d))
  {
    var f := new Field.OfLong(n, d);
    var _ := f.SetValueLong(v);
    f.SetDefaultValue();
    restored := f.GetValue();
  }
}
