/** utility/Property.cpp: a typed saved value whose every write is
    bracketed by optional pre- and post-write hooks, and the static
    registries of the parameters and methods that all properties share.
    The hooks are user functors; a call of an attached hook is recorded as
    an event in `hookTrace`. The schema fields of the property's parameter
    (type, element type, range) are assumed to behave as in
    utility/Parameter.cpp; the Parameter class this file builds on is not
    part of this model. */
module Property {
  import opened Strings
  import opened Wrappers
  import opened Json
  import opened SavedVariable
  import P = Parameter

  datatype HookEvent =
    | PreSetValue
    | PostSetValue
    | PreSetElementValue(index: nat)
    | PostSetElementValue(index: nat)

  /** A hook call: an event when a functor is attached, nothing otherwise. */
  function Hook(attached: bool, e: HookEvent): seq<HookEvent>
  {
    if attached then [e] else []
  }

  /** The events of `n` element writes at indices `0 .. n-1`, in order. */
  function ElementHooks(pre: bool, post: bool, n: nat): seq<HookEvent>
  {
    if n == 0 then []
    else ElementHooks(pre, post, n - 1)
         + Hook(pre, PreSetElementValue(n - 1)) + Hook(post, PostSetElementValue(n - 1))
  }

  lemma ElementHooksAppend(h: seq<HookEvent>, pre: bool, post: bool, n: nat)
    ensures h + ElementHooks(pre, post, n) + Hook(pre, PreSetElementValue(n)) + Hook(post, PostSetElementValue(n))
            == h + ElementHooks(pre, post, n + 1)
  {
  }

  /** The C++ type a getter is instantiated with. */
  datatype Kind = LongKind | DoubleKind | BoolKind | CharKind | ConstantStringKind

  function KindOf(v: Scalar): Kind
  {
    match v
    case SLong(_) => LongKind
    case SDouble(_) => DoubleKind
    case SBool(_) => BoolKind
    case SChar(_) => CharKind
    case SConstantString(_) => ConstantStringKind
  }

  const NUL: char := 0 as char

  /** The declared type that `getValue<T>`/`getDefaultValue<T>` demand. */
  predicate ValueKindMatches(p: P.ParameterState, charArray: bool, k: Kind)
  {
    match k
    case LongKind => p.valueType == LongType
    case DoubleKind => p.valueType == DoubleType
    case BoolKind => p.valueType == BoolType
    case ConstantStringKind => p.valueType == StringType && !charArray
    case CharKind => false
  }

  /** The declared type that `getElementValue<T>` and
      `getDefaultElementValue<T>` demand. */
  predicate ElementKindMatches(p: P.ParameterState, k: Kind)
  {
    match k
    case LongKind => p.valueType == ArrayType && p.arrayElementType == LongType
    case DoubleKind => p.valueType == ArrayType && p.arrayElementType == DoubleType
    case BoolKind => p.valueType == ArrayType && p.arrayElementType == BoolType
    case CharKind => p.valueType == StringType
    case ConstantStringKind => false
  }

  /** The check of `setValue<T>`: the declared type, and for numbers the
      inclusive range when one is set. */
  predicate AcceptsValue(p: P.ParameterState, charArray: bool, v: Scalar)
  {
    match v
    case SLong(l) => p.valueType == LongType && (!p.rangeIsSet || p.minL <= l <= p.maxL)
    case SDouble(d) => p.valueType == DoubleType && (!p.rangeIsSet || p.minD <= d <= p.maxD)
    case SBool(_) => p.valueType == BoolType
    case SConstantString(_) => p.valueType == StringType && !charArray
    case SChar(_) => false
  }

  /** The check of `setElementValue<T>`. */
  predicate AcceptsElement(p: P.ParameterState, charArray: bool, v: Scalar)
  {
    match v
    case SLong(l) =>
      p.valueType == ArrayType && p.arrayElementType == LongType
      && (!p.rangeIsSet || p.minL <= l <= p.maxL)
    case SDouble(d) =>
      p.valueType == ArrayType && p.arrayElementType == DoubleType
      && (!p.rangeIsSet || p.minD <= d <= p.maxD)
    case SBool(_) => p.valueType == ArrayType && p.arrayElementType == BoolType
    case SChar(_) => p.valueType == StringType && charArray
    case SConstantString(_) => false
  }

  /** A long write succeeds exactly for a LONG property whose range, if
      any, holds the value at both ends inclusive. */
  lemma LongWriteCondition(p: P.ParameterState, charArray: bool, l: int)
    ensures AcceptsValue(p, charArray, SLong(l)) <==>
              p.valueType == LongType && (!p.rangeIsSet || (p.minL <= l && l <= p.maxL))
    ensures AcceptsElement(p, charArray, SLong(l)) <==>
              p.valueType == ArrayType && p.arrayElementType == LongType
              && (!p.rangeIsSet || (p.minL <= l && l <= p.maxL))
  {
  }

  /** A write the setter accepts is one the matching getter reads back:
      the type checks of setters and getters agree. */
  lemma AcceptedKindIsReadable(p: P.ParameterState, charArray: bool, v: Scalar)
    ensures AcceptsValue(p, charArray, v) ==> ValueKindMatches(p, charArray, KindOf(v))
    ensures AcceptsElement(p, charArray, v) ==> ElementKindMatches(p, KindOf(v))
  {
  }

  /** The character `getElementValue<char>` reads from a constant string:
      its characters, then its terminating NUL. */
  function ConstantStringChar(cs: ConstantString, i: nat): (r: Option<Scalar>)
    ensures r.Some? <==> i <= |cs.text|
    ensures i == |cs.text| ==> r == Some(SChar(NUL))
  {
    if i < |cs.text| then Some(SChar(cs.text[i]))
    else if i == |cs.text| then Some(SChar(NUL))
    else None
  }

  /** A view of the stored scalar holding a constant string. */
  predicate HoldsConstantString(o: Option<Scalar>)
  {
    o.Some? && o.value.SConstantString?
  }

  /** The element types a bulk write handles. */
  predicate IsBulkElementType(t: JsonType)
  {
    t == LongType || t == DoubleType || t == BoolType
  }

  /** `long v = value[i]`, `double v = value[i]` or `bool v = value[i]`. */
  function BulkElement(t: JsonType, v: JsonVal): Scalar
    requires IsBulkElementType(t)
  {
    if t == LongType then SLong(AsLong(v))
    else if t == DoubleType then SDouble(AsDouble(v))
    else SBool(AsBool(v))
  }

  function BulkValues(t: JsonType, a: seq<JsonVal>): (vs: seq<Scalar>)
    requires IsBulkElementType(t)
    ensures |vs| == |a|
    ensures forall j :: 0 <= j < |a| ==> vs[j] == BulkElement(t, a[j])
    ensures forall j :: 0 <= j < |a| ==> !vs[j].SConstantString? && !vs[j].SChar?
  {
    seq(|a|, j requires 0 <= j < |a| => BulkElement(t, a[j]))
  }

  /** The slot after writing `vals[0 .. k-1]` one element at a time. */
  function WritePrefix(s: Slot, vals: seq<Scalar>, k: nat): (r: Slot)
    requires k <= |vals|
    ensures |r.values| == |s.values| && r.defaults == s.defaults
    ensures forall j :: 0 <= j < k && j < |s.values| ==> r.values[j] == vals[j]
    ensures forall j :: k <= j < |s.values| ==> r.values[j] == s.values[j]
  {
    if k == 0 then s else WritePrefix(s, vals, k - 1).SetElement(k - 1, vals[k - 1]).1
  }

  /** The index of the first element write the property refuses, or the
      number of values when it refuses none. */
  function FirstRejected(p: P.ParameterState, charArray: bool, vals: seq<Scalar>): (r: nat)
    ensures r <= |vals|
    ensures forall j :: 0 <= j < r ==> AcceptsElement(p, charArray, vals[j])
    ensures r < |vals| ==> !AcceptsElement(p, charArray, vals[r])
  {
    if |vals| == 0 then 0
    else if !AcceptsElement(p, charArray, vals[0]) then 0
    else 1 + FirstRejected(p, charArray, vals[1..])
  }

  /** The number of `setElementValue` calls a bulk write of `m` values
      makes when the `k`-th is the first refused one. */
  function BulkCalls(k: nat, m: nat): nat
  {
    if k < m then k + 1 else m
  }

  class Property {
    const parameter: P.Parameter
    var savedVariable: Slot
    var stringSavedAsCharArray: bool
    var preSetValueAttached: bool
    var preSetElementValueAttached: bool
    var postSetValueAttached: bool
    var postSetElementValueAttached: bool
    var hookTrace: seq<HookEvent>

    /** The configuration no write changes. */
    twostate predicate ConfigUnchanged()
      reads this
    {
      && stringSavedAsCharArray == old(stringSavedAsCharArray)
      && preSetValueAttached == old(preSetValueAttached)
      && preSetElementValueAttached == old(preSetElementValueAttached)
      && postSetValueAttached == old(postSetValueAttached)
      && postSetElementValueAttached == old(postSetElementValueAttached)
    }

    ghost predicate NoHooks()
      reads this
    {
      !preSetValueAttached && !preSetElementValueAttached
      && !postSetValueAttached && !postSetElementValueAttached && hookTrace == []
    }

    /** A constant-string property stores constant strings, as its value
        and as its default. */
    predicate StringSlotConsistent()
      reads this, parameter
    {
      parameter.valueType == StringType && !stringSavedAsCharArray ==>
        HoldsConstantString(savedVariable.Get()) && HoldsConstantString(savedVariable.GetDefault())
    }

    /** `Property()` */
    constructor ()
      ensures fresh(parameter) && parameter.Fresh(EmptyConstantString) && NoHooks()
    {
      parameter := new P.Parameter();
      preSetValueAttached, preSetElementValueAttached := false, false;
      postSetValueAttached, postSetElementValueAttached := false, false;
      hookTrace := [];
    }

    /** `Property<long>(name, default)` */
    constructor OfLong(n: ConstantString, d: int)
      ensures fresh(parameter) && parameter.name == n && parameter.valueType == LongType
      ensures !parameter.rangeIsSet && savedVariable == ScalarSlot(SLong(d)) && NoHooks()
    {
      var p := new P.Parameter.Named(n);
      p.SetTypeLong();
      parameter := p;
      savedVariable := ScalarSlot(SLong(d));
      preSetValueAttached, preSetElementValueAttached := false, false;
      postSetValueAttached, postSetElementValueAttached := false, false;
      hookTrace := [];
    }

    /** `Property<double>(name, default)` */
    constructor OfDouble(n: ConstantString, d: real)
      ensures fresh(parameter) && parameter.name == n && parameter.valueType == DoubleType
      ensures !parameter.rangeIsSet && savedVariable == ScalarSlot(SDouble(d)) && NoHooks()
    {
      var p := new P.Parameter.Named(n);
      p.SetTypeDouble();
      parameter := p;
      savedVariable := ScalarSlot(SDouble(d));
      preSetValueAttached, preSetElementValueAttached := false, false;
      postSetValueAttached, postSetElementValueAttached := false, false;
      hookTrace := [];
    }

    /** `Property<bool>(name, default)` */
    constructor OfBool(n: ConstantString, d: bool)
      ensures fresh(parameter) && parameter.name == n && parameter.valueType == BoolType
      ensures !parameter.rangeIsSet && savedVariable == ScalarSlot(SBool(d)) && NoHooks()
    {
      var p := new P.Parameter.Named(n);
      p.SetTypeBool();
      parameter := p;
      savedVariable := ScalarSlot(SBool(d));
      preSetValueAttached, preSetElementValueAttached := false, false;
      postSetValueAttached, postSetElementValueAttached := false, false;
      hookTrace := [];
    }

    /** `Property<const ConstantString *>(name, default)` */
    constructor OfConstantString(n: ConstantString, d: ConstantString)
      ensures fresh(parameter) && parameter.name == n && parameter.valueType == StringType
      ensures !stringSavedAsCharArray && savedVariable == ScalarSlot(SConstantString(d))
      ensures StringSlotConsistent() && NoHooks()
    {
      var p := new P.Parameter.Named(n);
      p.SetTypeString();
      parameter := p;
      savedVariable := ScalarSlot(SConstantString(d));
      stringSavedAsCharArray := false;
      preSetValueAttached, preSetElementValueAttached := false, false;
      postSetValueAttached, postSetElementValueAttached := false, false;
      hookTrace := [];
    }

    method SetUnits(u: ConstantString)
      modifies parameter
      ensures parameter.State() == old(parameter.State()).(units := u)
    {
      parameter.SetUnits(u);
    }

    /** `setRange(long, long)` */
    method SetRangeLong(min: int, max: int)
      modifies parameter
      ensures parameter.State() == P.WithLongRange(old(parameter.State()), min, max)
    {
      parameter.SetRangeLong(min, max);
    }

    /** `setRange(double, double)` */
    method SetRange(min: real, max: real)
      modifies parameter
      ensures parameter.State() == P.WithDoubleRange(old(parameter.State()), min, max)
    {
      parameter.SetRange(min, max);
    }

    method AttachPreSetValueFunctor()
      modifies this
      ensures preSetValueAttached && preSetElementValueAttached == old(preSetElementValueAttached)
      ensures postSetValueAttached == old(postSetValueAttached)
      ensures postSetElementValueAttached == old(postSetElementValueAttached)
      ensures savedVariable == old(savedVariable) && hookTrace == old(hookTrace)
      ensures stringSavedAsCharArray == old(stringSavedAsCharArray)
    {
      preSetValueAttached := true;
    }

    method AttachPreSetElementValueFunctor()
      modifies this
      ensures preSetElementValueAttached && preSetValueAttached == old(preSetValueAttached)
      ensures postSetValueAttached == old(postSetValueAttached)
      ensures postSetElementValueAttached == old(postSetElementValueAttached)
      ensures savedVariable == old(savedVariable) && hookTrace == old(hookTrace)
      ensures stringSavedAsCharArray == old(stringSavedAsCharArray)
    {
      preSetElementValueAttached := true;
    }

    method AttachPostSetValueFunctor()
      modifies this
      ensures postSetValueAttached && preSetValueAttached == old(preSetValueAttached)
      ensures preSetElementValueAttached == old(preSetElementValueAttached)
      ensures postSetElementValueAttached == old(postSetElementValueAttached)
      ensures savedVariable == old(savedVariable) && hookTrace == old(hookTrace)
      ensures stringSavedAsCharArray == old(stringSavedAsCharArray)
    {
      postSetValueAttached := true;
    }

    method AttachPostSetElementValueFunctor()
      modifies this
      ensures postSetElementValueAttached && preSetValueAttached == old(preSetValueAttached)
      ensures preSetElementValueAttached == old(preSetElementValueAttached)
      ensures postSetValueAttached == old(postSetValueAttached)
      ensures savedVariable == old(savedVariable) && hookTrace == old(hookTrace)
      ensures stringSavedAsCharArray == old(stringSavedAsCharArray)
    {
      postSetElementValueAttached := true;
    }

    /** `preSetValueFunctor` */
    method PreSetValueFunctor()
      modifies this
      ensures hookTrace == old(hookTrace) + Hook(preSetValueAttached, PreSetValue)
      ensures savedVariable == old(savedVariable) && ConfigUnchanged()
    {
      if preSetValueAttached {
        hookTrace := hookTrace + [PreSetValue];
      }
    }

    /** `postSetValueFunctor` */
    method PostSetValueFunctor()
      modifies this
      ensures hookTrace == old(hookTrace) + Hook(postSetValueAttached, PostSetValue)
      ensures savedVariable == old(savedVariable) && ConfigUnchanged()
    {
      if postSetValueAttached {
        hookTrace := hookTrace + [PostSetValue];
      }
    }

    /** `preSetElementValueFunctor` */
    method PreSetElementValueFunctor(i: nat)
      modifies this
      ensures hookTrace == old(hookTrace) + Hook(preSetElementValueAttached, PreSetElementValue(i))
      ensures savedVariable == old(savedVariable) && ConfigUnchanged()
    {
      if preSetElementValueAttached {
        hookTrace := hookTrace + [PreSetElementValue(i)];
      }
    }

    /** `postSetElementValueFunctor` */
    method PostSetElementValueFunctor(i: nat)
      modifies this
      ensures hookTrace == old(hookTrace) + Hook(postSetElementValueAttached, PostSetElementValue(i))
      ensures savedVariable == old(savedVariable) && ConfigUnchanged()
    {
      if postSetElementValueAttached {
        hookTrace := hookTrace + [PostSetElementValue(i)];
      }
    }

    /** `getValue<T>` for `long`, `double`, `bool` and `const ConstantString *`:
        nothing unless the declared type is the requested one. */
    function GetValue(k: Kind): (r: Option<Scalar>)
      requires k != CharKind
      reads this, parameter
      ensures r.Some? ==> ValueKindMatches(parameter.State(), stringSavedAsCharArray, k)
      ensures ValueKindMatches(parameter.State(), stringSavedAsCharArray, k) ==> r == savedVariable.Get()
    {
      if ValueKindMatches(parameter.State(), stringSavedAsCharArray, k) then savedVariable.Get() else None
    }

    /** `getDefaultValue<T>` */
    function GetDefaultValue(k: Kind): (r: Option<Scalar>)
      requires k != CharKind
      reads this, parameter
      ensures r.Some? ==> ValueKindMatches(parameter.State(), stringSavedAsCharArray, k)
      ensures ValueKindMatches(parameter.State(), stringSavedAsCharArray, k) ==> r == savedVariable.GetDefault()
    {
      if ValueKindMatches(parameter.State(), stringSavedAsCharArray, k) then savedVariable.GetDefault() else None
    }

    /** `getElementValue<T>` for `long`, `double`, `bool` and `char`. A
        string kept as a constant string is read through its characters,
        the terminating NUL included. */
    function GetElementValue(i: nat, k: Kind): (r: Option<Scalar>)
      requires k != ConstantStringKind && StringSlotConsistent()
      reads this, parameter
      ensures r.Some? ==> ElementKindMatches(parameter.State(), k)
      ensures ElementKindMatches(parameter.State(), k) && (k != CharKind || stringSavedAsCharArray) ==>
                r == savedVariable.GetElement(i)
      ensures k == CharKind && parameter.valueType == StringType && !stringSavedAsCharArray ==>
                r == ConstantStringChar(savedVariable.Get().value.s, i)
    {
      if !ElementKindMatches(parameter.State(), k) then None
      else if k == CharKind && !stringSavedAsCharArray then ConstantStringChar(savedVariable.Get().value.s, i)
      else savedVariable.GetElement(i)
    }

    /** `getDefaultElementValue<T>` */
    function GetDefaultElementValue(i: nat, k: Kind): (r: Option<Scalar>)
      requires k != ConstantStringKind && StringSlotConsistent()
      reads this, parameter
      ensures r.Some? ==> ElementKindMatches(parameter.State(), k)
      ensures ElementKindMatches(parameter.State(), k) && (k != CharKind || stringSavedAsCharArray) ==>
                r == savedVariable.GetDefaultElement(i)
      ensures k == CharKind && parameter.valueType == StringType && !stringSavedAsCharArray ==>
                r == ConstantStringChar(savedVariable.GetDefault().value.s, i)
    {
      if !ElementKindMatches(parameter.State(), k) then None
      else if k == CharKind && !stringSavedAsCharArray then ConstantStringChar(savedVariable.GetDefault().value.s, i)
      else savedVariable.GetDefaultElement(i)
    }

    /** `getArrayLength`: a constant string counts its terminating NUL. */
    function GetArrayLength(): (n: nat)
      requires StringSlotConsistent()
      reads this, parameter
      ensures parameter.valueType == StringType && !stringSavedAsCharArray ==>
                n == |savedVariable.Get().value.s.text| + 1
      ensures !(parameter.valueType == StringType && !stringSavedAsCharArray) ==>
                n == savedVariable.ArrayLength()
    {
      if parameter.valueType == StringType && !stringSavedAsCharArray
      then |savedVariable.Get().value.s.text| + 1
      else savedVariable.ArrayLength()
    }

    /** `valueIsDefault` */
    predicate ValueIsDefault()
      reads this
    {
      savedVariable.IsDefault()
    }

    /** `setValue<T>` for `long`, `double`, `bool` and both constant-string
        pointer types: the pre hook, the checked write, the post hook. A
        refused write leaves the slot as it was. */
    method SetValue(v: Scalar) returns (ok: bool)
      requires !v.SChar?
      modifies this
      ensures ok <==> AcceptsValue(parameter.State(), stringSavedAsCharArray, v)
                      && old(savedVariable.ArrayLength()) > 0
      ensures savedVariable == if AcceptsValue(parameter.State(), stringSavedAsCharArray, v)
                               then old(savedVariable.Set(v).1) else old(savedVariable)
      ensures ok ==> GetValue(KindOf(v)) == Some(v)
      ensures hookTrace == old(hookTrace) + Hook(preSetValueAttached, PreSetValue)
                           + Hook(postSetValueAttached, PostSetValue)
      ensures ConfigUnchanged()
    {
      ok := false;
      PreSetValueFunctor();
      if AcceptsValue(parameter.State(), stringSavedAsCharArray, v) {
        var r := savedVariable.Set(v);
        ok, savedVariable := r.0, r.1;
      }
      PostSetValueFunctor();
      AcceptedKindIsReadable(parameter.State(), stringSavedAsCharArray, v);
    }

    /** `setElementValue<T>` for `long`, `double`, `bool` and `char`. */
    method SetElementValue(i: nat, v: Scalar) returns (ok: bool)
      requires !v.SConstantString?
      modifies this
      ensures ok <==> AcceptsElement(parameter.State(), stringSavedAsCharArray, v)
                      && i < old(savedVariable.ArrayLength())
      ensures savedVariable == if AcceptsElement(parameter.State(), stringSavedAsCharArray, v)
                               then old(savedVariable.SetElement(i, v).1) else old(savedVariable)
      ensures ok ==> savedVariable.GetElement(i) == Some(v) && ElementKindMatches(parameter.State(), KindOf(v))
      ensures hookTrace == old(hookTrace) + Hook(preSetElementValueAttached, PreSetElementValue(i))
                           + Hook(postSetElementValueAttached, PostSetElementValue(i))
      ensures ConfigUnchanged()
    {
      ok := false;
      PreSetElementValueFunctor(i);
      if AcceptsElement(parameter.State(), stringSavedAsCharArray, v) {
        var r := savedVariable.SetElement(i, v);
        ok, savedVariable := r.0, r.1;
      }
      PostSetElementValueFunctor(i);
      AcceptedKindIsReadable(parameter.State(), stringSavedAsCharArray, v);
    }

    /** The writing loop of `setValue(JsonArray &)`: `setElementValue` of
        the converted elements `vals[0 .. |vals|-1]` in order, stopping at
        the first refused write. */
    method WriteElements(vals: seq<Scalar>) returns (success: bool)
      requires |vals| <= savedVariable.ArrayLength()
      requires forall j :: 0 <= j < |vals| ==> !vals[j].SConstantString?
      modifies this
      ensures ConfigUnchanged()
      ensures var k := FirstRejected(parameter.State(), stringSavedAsCharArray, vals);
              && savedVariable == WritePrefix(old(savedVariable), vals, k)
              && (success <==> k == |vals| && |vals| > 0)
              && hookTrace == old(hookTrace) + ElementHooks(preSetElementValueAttached, postSetElementValueAttached,
                                                            BulkCalls(k, |vals|))
    {
      ghost var k := FirstRejected(parameter.State(), stringSavedAsCharArray, vals);
      ghost var s0 := savedVariable;
      ghost var h0 := hookTrace;
      ghost var pre, post := preSetElementValueAttached, postSetElementValueAttached;
      success := false;
      var i := 0;
      while i < |vals|
        invariant i <= k && i <= |vals|
        invariant ConfigUnchanged()
        invariant savedVariable == WritePrefix(s0, vals, i)
        invariant hookTrace == h0 + ElementHooks(pre, post, i)
        invariant success <==> i > 0
      {
        success := SetElementValue(i, vals[i]);
        ElementHooksAppend(h0, pre, post, i);
        if !success {
          assert i == k && BulkCalls(k, |vals|) == i + 1;
          assert hookTrace == h0 + ElementHooks(pre, post, BulkCalls(k, |vals|));
          break;
        }
        assert i < k;
        assert savedVariable == WritePrefix(s0, vals, i + 1);
        i := i + 1;
      }
    }

    /** `setValue(JsonArray &)`: for an array of longs, doubles or bools
        the elements `0 .. min(length, N)-1` are written in order until the
        first refused one; earlier writes stay. Success means every one of
        at least one write succeeded. */
    method SetValueArray(a: seq<JsonVal>) returns (success: bool)
      requires StringSlotConsistent()
      modifies this
      ensures ConfigUnchanged()
      ensures parameter.valueType != ArrayType ==>
                !success && savedVariable == old(savedVariable) && hookTrace == old(hookTrace)
      ensures parameter.valueType == ArrayType && !IsBulkElementType(parameter.arrayElementType) ==>
                && !success && savedVariable == old(savedVariable)
                && hookTrace == old(hookTrace) + Hook(preSetValueAttached, PreSetValue)
                                + Hook(postSetValueAttached, PostSetValue)
      ensures parameter.valueType == ArrayType && IsBulkElementType(parameter.arrayElementType) ==>
                var m := if old(savedVariable.ArrayLength()) < |a| then old(savedVariable.ArrayLength()) else |a|;
                var vals := BulkValues(parameter.arrayElementType, a)[..m];
                var k := FirstRejected(parameter.State(), stringSavedAsCharArray, vals);
                && savedVariable == WritePrefix(old(savedVariable), vals, k)
                && (success <==> k == m && m > 0)
                && hookTrace == old(hookTrace) + Hook(preSetValueAttached, PreSetValue)
                                + ElementHooks(preSetElementValueAttached, postSetElementValueAttached, BulkCalls(k, m))
                                + Hook(postSetValueAttached, PostSetValue)
    {
      success := false;
      var length := GetArrayLength();
      if parameter.valueType == ArrayType {
        var n := |a|;
        var m := if length < n then length else n;
        var t := parameter.arrayElementType;
        PreSetValueFunctor();
        if IsBulkElementType(t) {
          success := WriteElements(BulkValues(t, a)[..m]);
        }
        PostSetValueFunctor();
      }
    }

    /** `setValueToDefault` */
    method SetValueToDefault()
      modifies this
      ensures ValueIsDefault() && savedVariable == old(savedVariable).SetToDefault()
      ensures hookTrace == old(hookTrace) + Hook(preSetValueAttached, PreSetValue)
                           + Hook(postSetValueAttached, PostSetValue)
      ensures ConfigUnchanged()
    {
      PreSetValueFunctor();
      savedVariable := savedVariable.SetToDefault();
      PostSetValueFunctor();
    }

    /** `setElementValueToDefault` */
    method SetElementValueToDefault(i: nat)
      modifies this
      ensures savedVariable == old(savedVariable).SetElementToDefault(i).1
      ensures hookTrace == old(hookTrace) + Hook(preSetElementValueAttached, PreSetElementValue(i))
                           + Hook(postSetElementValueAttached, PostSetElementValue(i))
      ensures ConfigUnchanged()
    {
      PreSetElementValueFunctor(i);
      savedVariable := savedVariable.SetElementToDefault(i).1;
      PostSetElementValueFunctor(i);
    }

    /** `getStringLength` as written: 0 for a non-string; otherwise the
        index of the first NUL among positions `0 .. max-2`, or `max`. */
    method GetStringLength() returns (length: nat)
      requires StringSlotConsistent()
      requires parameter.valueType == StringType && stringSavedAsCharArray ==>
                 forall j :: 0 <= j < |savedVariable.values| ==> savedVariable.values[j].SChar?
      ensures length == StringLengthAsWritten(parameter.valueType == StringType, StringChars())
    {
      if parameter.valueType != StringType {
        return 0;
      }
      var max := GetArrayLength();
      ghost var cs := StringChars();
      assert |cs| == max;
      var arrayLength := 1;
      while arrayLength < max
        invariant 1 <= arrayLength
        invariant arrayLength <= max || arrayLength == 1
        invariant forall j :: 0 <= j < arrayLength - 1 ==> cs[j] != NUL
      {
        var value := GetElementValue(arrayLength - 1, CharKind);
        assert value == Some(SChar(cs[arrayLength - 1]));
        if value.value.c == NUL {
          FirstNulBelow(cs, arrayLength - 1);
          return arrayLength - 1;
        }
        arrayLength := arrayLength + 1;
      }
      NoNulBelow(cs, arrayLength - 1);
      return max;
    }

    /** The characters `getElementValue<char>` reads at positions
        `0 .. getArrayLength()-1`. */
    function StringChars(): (cs: seq<char>)
      requires StringSlotConsistent()
      requires parameter.valueType == StringType && stringSavedAsCharArray ==>
                 forall j :: 0 <= j < |savedVariable.values| ==> savedVariable.values[j].SChar?
      reads this, parameter
      ensures parameter.valueType == StringType ==> |cs| == GetArrayLength()
      ensures parameter.valueType == StringType ==>
                forall j :: 0 <= j < |cs| ==> GetElementValue(j, CharKind) == Some(SChar(cs[j]))
    {
      if parameter.valueType != StringType then []
      else if !stringSavedAsCharArray then savedVariable.Get().value.s.text + [NUL]
      else
        var vs := savedVariable.values;
        seq(|vs|, j requires 0 <= j < |vs| => vs[j].c)
    }
  }

  /** The index of the first NUL in `cs[..bound]`, or `|cs|` when there is
      none there. */
  function FirstNul(cs: seq<char>, bound: nat): (r: nat)
    ensures r == |cs| || (r < bound && r < |cs| && cs[r] == NUL)
    ensures forall j :: 0 <= j < r && j < bound && j < |cs| ==> cs[j] != NUL
  {
    if bound == 0 || |cs| == 0 then |cs|
    else if cs[0] == NUL then 0
    else
      var r := FirstNul(cs[1..], bound - 1);
      if r == |cs| - 1 then |cs| else 1 + r
  }

  /** `getStringLength` as written scans one position short of the end. */
  function StringLengthAsWritten(isString: bool, cs: seq<char>): nat
  {
    if !isString then 0
    else if |cs| == 0 then 0
    else FirstNul(cs, |cs| - 1)
  }

  /** The intended string length: the index of the first NUL among all
      positions, or the whole length when there is none. */
  function StringLength(isString: bool, cs: seq<char>): (n: nat)
    ensures isString ==> n <= |cs|
    ensures isString && n < |cs| ==> cs[n] == NUL
    ensures isString ==> forall j :: 0 <= j < n ==> cs[j] != NUL
  {
    if !isString then 0 else FirstNul(cs, |cs|)
  }

  lemma FirstNulBelow(cs: seq<char>, i: nat)
    requires i < |cs| && cs[i] == NUL
    requires forall j :: 0 <= j < i ==> cs[j] != NUL
    ensures FirstNul(cs, |cs| - 1) == i || i == |cs| - 1
    ensures i < |cs| - 1 ==> StringLengthAsWritten(true, cs) == i
  {
    var r := FirstNul(cs, |cs| - 1);
    if i < |cs| - 1 {
      assert r <= i;
    }
  }

  lemma NoNulBelow(cs: seq<char>, k: nat)
    requires |cs| > 0 ==> k == |cs| - 1
    requires forall j :: 0 <= j < k && j < |cs| ==> cs[j] != NUL
    ensures StringLengthAsWritten(true, cs) == |cs|
  {
  }

  /** A constant string without NUL characters is `|text| + 1` long by
      `getStringLength` as written, one more than its length. */
  lemma AsWrittenOvercountsConstantString(text: string)
    requires forall j :: 0 <= j < |text| ==> text[j] != NUL
    ensures StringLengthAsWritten(true, text + [NUL]) == |text| + 1
    ensures StringLength(true, text + [NUL]) == |text|
  {
    var cs := text + [NUL];
    NoNulBelow(cs, |text|);
    assert cs[|text|] == NUL;
  }

  /** The corrected length of a NUL-terminated constant string is the
      length of its text. */
  lemma StringLengthOfConstantString(text: string)
    requires forall j :: 0 <= j < |text| ==> text[j] != NUL
    ensures StringLength(true, text + [NUL]) == |text|
  {
    var cs := text + [NUL];
    assert cs[|text|] == NUL;
  }

  // ----- The static registries -----

  /** An entry of the parameter or method registry: its name and the
      firmware that declared it. */
  datatype Entry = Entry(name: ConstantString, firmwareName: ConstantString)

  function Names(es: seq<Entry>): (ns: seq<ConstantString>)
    ensures |ns| == |es| && forall i :: 0 <= i < |es| ==> ns[i] == es[i].name
  {
    seq(|es|, i requires 0 <= i < |es| => es[i].name)
  }

  /** The lookup of `findParameterIndex` and `findMethodIndex`: the first
      scalar match, else the first array match offset by the number of
      scalar entries, else -1. */
  function TwoSpaceFind(scalars: seq<Entry>, arrays: seq<Entry>, c: ConstantString): (r: int)
    ensures -1 <= r < |scalars| + |arrays|
    ensures 0 <= r < |scalars| ==>
              SameObject(scalars[r].name, c) && forall j :: 0 <= j < r ==> !SameObject(scalars[j].name, c)
    ensures r >= |scalars| ==>
              && (forall j :: 0 <= j < |scalars| ==> !SameObject(scalars[j].name, c))
              && SameObject(arrays[r - |scalars|].name, c)
              && (forall j :: 0 <= j < r - |scalars| ==> !SameObject(arrays[j].name, c))
    ensures r == -1 <==> (forall j :: 0 <= j < |scalars| ==> !SameObject(scalars[j].name, c))
                         && (forall j :: 0 <= j < |arrays| ==> !SameObject(arrays[j].name, c))
  {
    var i := IndexOfName(Names(scalars), ByConstant(c));
    if i >= 0 then i
    else
      var j := IndexOfName(Names(arrays), ByConstant(c));
      if j >= 0 then j + |scalars| else -1
  }

  /** The entry an index from `TwoSpaceFind` designates. */
  function TwoSpaceEntry(scalars: seq<Entry>, arrays: seq<Entry>, r: int): Entry
    requires 0 <= r < |scalars| + |arrays|
  {
    if r < |scalars| then scalars[r] else arrays[r - |scalars|]
  }

  /** An appended entry is found where it was appended, when its name was
      absent before. */
  lemma AppendedEntryIsFound(scalars: seq<Entry>, arrays: seq<Entry>, e: Entry)
    requires TwoSpaceFind(scalars, arrays, e.name) == -1
    ensures TwoSpaceFind(scalars + [e], arrays, e.name) == |scalars|
    ensures TwoSpaceFind(scalars, arrays + [e], e.name) == |scalars| + |arrays|
  {
    assert (scalars + [e])[|scalars|] == e;
    assert (arrays + [e])[|arrays|] == e;
  }

  /** Because array indices are offset by the current number of scalar
      entries, adding a scalar entry moves every array index up by one. */
  lemma ScalarAppendShiftsArrayIndices(scalars: seq<Entry>, arrays: seq<Entry>, e: Entry, c: ConstantString)
    requires TwoSpaceFind(scalars, arrays, c) >= |scalars|
    requires !SameObject(e.name, c)
    ensures TwoSpaceFind(scalars + [e], arrays, c) == TwoSpaceFind(scalars, arrays, c) + 1
  {
    var r := TwoSpaceFind(scalars, arrays, c);
    var r1 := TwoSpaceFind(scalars + [e], arrays, c);
    assert forall j :: 0 <= j < |scalars| ==> (scalars + [e])[j] == scalars[j];
    assert (scalars + [e])[|scalars|] == e;
    assert r1 != -1 by {
      assert SameObject(arrays[r - |scalars|].name, c);
    }
    assert r1 >= |scalars| + 1;
  }

  /** The static `parameters_`, `array_parameters_`, `methods_` and
      `array_methods_` arrays with their capacities. */
  class Registry {
    var parameters: seq<Entry>
    var arrayParameters: seq<Entry>
    var methods: seq<Entry>
    var arrayMethods: seq<Entry>
    const parameterCountMax: nat
    const arrayParameterCountMax: nat
    const methodCountMax: nat
    const arrayMethodCountMax: nat
    /** `constants::firmware_name` */
    const firmwareName: ConstantString

    constructor (pMax: nat, apMax: nat, mMax: nat, amMax: nat, fw: ConstantString)
      ensures parameters == [] && arrayParameters == [] && methods == [] && arrayMethods == []
      ensures parameterCountMax == pMax && arrayParameterCountMax == apMax
      ensures methodCountMax == mMax && arrayMethodCountMax == amMax && firmwareName == fw
    {
      parameters, arrayParameters, methods, arrayMethods := [], [], [], [];
      parameterCountMax, arrayParameterCountMax := pMax, apMax;
      methodCountMax, arrayMethodCountMax := mMax, amMax;
      firmwareName := fw;
    }

    /** `Property::findParameterIndex` */
    function FindParameterIndex(c: ConstantString): int
      reads this
    {
      TwoSpaceFind(parameters, arrayParameters, c)
    }

    /** `Property::findMethodIndex` */
    function FindMethodIndex(c: ConstantString): int
      reads this
    {
      TwoSpaceFind(methods, arrayMethods, c)
    }

    /** `Property::parameter`: the entry the index designates. An unknown
        name falls off the end of the source function, hence the
        precondition. */
    function Parameter(c: ConstantString): (e: Entry)
      requires FindParameterIndex(c) >= 0
      reads this
      ensures SameObject(e.name, c)
      ensures e in parameters || e in arrayParameters
    {
      TwoSpaceEntry(parameters, arrayParameters, FindParameterIndex(c))
    }

    /** `Property::method` */
    function Method(c: ConstantString): (e: Entry)
      requires FindMethodIndex(c) >= 0
      reads this
      ensures SameObject(e.name, c)
      ensures e in methods || e in arrayMethods
    {
      TwoSpaceEntry(methods, arrayMethods, FindMethodIndex(c))
    }

    /** `Property::createParameter`. With a name already registered the
        source function falls off its end without a return value, hence
        the first precondition; the second is the array's capacity. */
    method CreateParameter(c: ConstantString) returns (e: Entry)
      requires FindParameterIndex(c) < 0
      requires |parameters| < parameterCountMax
      modifies this
      ensures e == Entry(c, firmwareName) && parameters == old(parameters) + [e]
      ensures arrayParameters == old(arrayParameters)
      ensures methods == old(methods) && arrayMethods == old(arrayMethods)
      ensures FindParameterIndex(c) == |old(parameters)| && Parameter(c) == e
    {
      e := Entry(c, firmwareName);
      AppendedEntryIsFound(parameters, arrayParameters, e);
      parameters := parameters + [e];
    }

    /** `Property::createArrayParameter` */
    method CreateArrayParameter(c: ConstantString) returns (e: Entry)
      requires FindParameterIndex(c) < 0
      requires |arrayParameters| < arrayParameterCountMax
      modifies this
      ensures e == Entry(c, firmwareName) && arrayParameters == old(arrayParameters) + [e]
      ensures parameters == old(parameters)
      ensures methods == old(methods) && arrayMethods == old(arrayMethods)
      ensures FindParameterIndex(c) == |parameters| + |old(arrayParameters)| && Parameter(c) == e
    {
      e := Entry(c, firmwareName);
      AppendedEntryIsFound(parameters, arrayParameters, e);
      arrayParameters := arrayParameters + [e];
    }

    /** `Property::createMethod` */
    method CreateMethod(c: ConstantString) returns (e: Entry)
      requires FindMethodIndex(c) < 0
      requires |methods| < methodCountMax
      modifies this
      ensures e == Entry(c, firmwareName) && methods == old(methods) + [e]
      ensures arrayMethods == old(arrayMethods)
      ensures parameters == old(parameters) && arrayParameters == old(arrayParameters)
      ensures FindMethodIndex(c) == |old(methods)| && Method(c) == e
    {
      e := Entry(c, firmwareName);
      AppendedEntryIsFound(methods, arrayMethods, e);
      methods := methods + [e];
    }

    /** `Property::createArrayMethod` */
    method CreateArrayMethod(c: ConstantString) returns (e: Entry)
      requires FindMethodIndex(c) < 0
      requires |arrayMethods| < arrayMethodCountMax
      modifies this
      ensures e == Entry(c, firmwareName) && arrayMethods == old(arrayMethods) + [e]
      ensures methods == old(methods)
      ensures parameters == old(parameters) && arrayParameters == old(arrayParameters)
      ensures FindMethodIndex(c) == |methods| + |old(arrayMethods)| && Method(c) == e
    {
      e := Entry(c, firmwareName);
      AppendedEntryIsFound(methods, arrayMethods, e);
      arrayMethods := arrayMethods + [e];
    }
  }
}
