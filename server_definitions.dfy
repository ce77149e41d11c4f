/** utility/ServerDefinitions.h: the template members of the server that
    look up its methods, parameters and fields, access fields by name and
    guard the response writers. Each kind of element lives in two
    collections: the server's internal one and the storage the firmware
    supplies. An external element's index is offset by the capacity
    (`max_size()`) of the internal collection, not by its current size. */
module ServerDefinitions {
  import opened Strings
  import opened Wrappers
  import opened Json
  import opened SavedVariable
  import opened Response
  import opened Method
  import P = Parameter
  import F = Field

  // ---------------------------------------------------------------------
  // The two index spaces

  /** The index `findMethodIndex`, `findParameterIndex` and `findFieldIndex`
      return: the first internal match, else the first external match
      offset by the internal capacity, else -1. */
  function TwoSpaceIndex(internal: seq<ConstantString>, external: seq<ConstantString>,
                         offset: nat, q: NameQuery): (r: int)
    requires |internal| <= offset
    ensures r == -1 || 0 <= r < |internal| || offset <= r < offset + |external|
    ensures 0 <= r < |internal| ==>
              Matches(internal[r], q) && forall i :: 0 <= i < r ==> !Matches(internal[i], q)
    ensures r >= offset ==>
              Matches(external[r - offset], q)
              && (forall i :: 0 <= i < |internal| ==> !Matches(internal[i], q))
              && (forall j :: 0 <= j < r - offset ==> !Matches(external[j], q))
    ensures r == -1 <==>
              (forall i :: 0 <= i < |internal| ==> !Matches(internal[i], q))
              && (forall j :: 0 <= j < |external| ==> !Matches(external[j], q))
  {
    var i := IndexOfName(internal, q);
    if i >= 0 then i
    else
      var j := IndexOfName(external, q);
      if j >= 0 then j + offset else -1
  }

  /** Where an index of the two spaces points. */
  datatype Place = Internal(i: nat) | External(j: nat) | Nowhere

  /** How `findField` and `findMethodParameterIndex` read an index back. */
  function Locate(r: int, offset: nat): (p: Place)
    ensures r < 0 <==> p.Nowhere?
    ensures p.Internal? ==> p.i == r && r < offset
    ensures p.External? ==> p.j + offset == r
  {
    if r < 0 then Nowhere else if r < offset then Internal(r) else External(r - offset)
  }

  /** Reading back the index of a lookup lands on the element that matched. */
  lemma LocateFindsTheMatch(internal: seq<ConstantString>, external: seq<ConstantString>,
                            offset: nat, q: NameQuery)
    requires |internal| <= offset
    ensures var p := Locate(TwoSpaceIndex(internal, external, offset, q), offset);
            match p
            case Internal(i) => i < |internal| && Matches(internal[i], q)
            case External(j) =>
              j < |external| && Matches(external[j], q)
              && forall i :: 0 <= i < |internal| ==> !Matches(internal[i], q)
            case Nowhere => forall j :: 0 <= j < |external| ==> !Matches(external[j], q)
  {
  }

  /** The names of a list of fields: the names of their parameters. */
  function FieldNames(fs: seq<F.Field>): (r: seq<ConstantString>)
    reads set f | f in fs :: f.parameter
    ensures |r| == |fs|
    ensures forall i {:trigger r[i]} :: 0 <= i < |fs| ==> r[i] == fs[i].parameter.name
  {
    seq(|fs|, i requires 0 <= i < |fs| reads set f | f in fs :: f.parameter => fs[i].parameter.name)
  }

  // ---------------------------------------------------------------------
  // The guarded response writers

  /** `error_`, `result_key_in_response_` and what has been written. */
  datatype ResponseState = ResponseState(error: bool, resultKey: bool, log: seq<Token>)

  /** A response in which each flag records the single entry of its kind. */
  predicate Consistent(r: ResponseState)
  {
    ErrorCount(r.log) == (if r.error then 1 else 0)
    && ResultCount(r.log) == (if r.resultKey then 1 else 0)
  }

  /** `sendErrorResponse(data)` */
  function AfterSendError(r: ResponseState, data: JsonVal): ResponseState
  {
    if r.error then r
    else r.(error := true, log := r.log + [Error(ServerError, Data(data))])
  }

  /** `writeResultToResponse(value)`, every overload */
  function AfterWriteResult(r: ResponseState, value: JsonVal): ResponseState
  {
    if r.resultKey || r.error then r
    else r.(resultKey := true, log := r.log + [Result(value)])
  }

  /** A response holds at most one error object: the first one sent wins,
      and afterwards the error flag is set. */
  lemma ErrorWrittenOnce(r: ResponseState, data: JsonVal)
    requires Consistent(r)
    ensures Consistent(AfterSendError(r, data))
    ensures AfterSendError(r, data).error
    ensures ErrorCount(AfterSendError(r, data).log) == 1
    ensures r.error ==> AfterSendError(r, data) == r
  {
    if !r.error {
      ErrorCountAppend(r.log, Error(ServerError, Data(data)));
      ResultCountAppend(r.log, Error(ServerError, Data(data)));
    }
  }

  /** A result is written only into a response with neither a result nor
      an error, and afterwards the result flag is set. */
  lemma ResultWrittenOnce(r: ResponseState, value: JsonVal)
    requires Consistent(r)
    ensures Consistent(AfterWriteResult(r, value))
    ensures !r.error ==> AfterWriteResult(r, value).resultKey
    ensures r.error || r.resultKey ==> AfterWriteResult(r, value) == r
    ensures !r.error ==> ResultCount(AfterWriteResult(r, value).log) == 1
  {
    if !r.error && !r.resultKey {
      ErrorCountAppend(r.log, Result(value));
      ResultCountAppend(r.log, Result(value));
    }
  }

  /** The guards are one-sided: an error can still follow a result, so a
      response can hold both a result and an error. */
  lemma ErrorMayFollowResult(value: JsonVal, data: JsonVal)
    ensures var r := AfterSendError(AfterWriteResult(ResponseState(false, false, []), value), data);
            r.log == [Result(value), Error(ServerError, Data(data))] && r.error && r.resultKey
  {
  }

  // ---------------------------------------------------------------------
  // Slices filled by the array getters

  /** `values` after a copy loop that runs from `start` to the end of
      `elems`: the positions before `start` keep what they held. */
  function FilledFrom(prev: seq<Scalar>, elems: seq<Scalar>, start: nat): (r: seq<Scalar>)
    requires |prev| == |elems|
    ensures |r| == |prev|
    ensures forall k :: 0 <= k < |r| ==> r[k] == (if k < start then prev[k] else elems[k])
  {
    seq(|prev|, k requires 0 <= k < |prev| => if k < start then prev[k] else elems[k])
  }

  /** The loop counter of the array getters is never initialised: for any
      start other than 0 the first element is not copied. */
  lemma UninitialisedCounterSkipsFirst(prev: seq<Scalar>, elems: seq<Scalar>, start: nat)
    requires |prev| == |elems| && |elems| > 0
    requires start > 0 && prev[0] != elems[0]
    ensures FilledFrom(prev, elems, start)[0] == prev[0]
    ensures FilledFrom(prev, elems, start) != elems
  {
  }

  /** Counting from 0, as intended, copies every element. */
  lemma {:induction false} CounterFromZeroCopiesAll(prev: seq<Scalar>, elems: seq<Scalar>)
    requires |prev| == |elems|
    ensures FilledFrom(prev, elems, 0) == elems
  {
    assert forall k :: 0 <= k < |elems| ==> FilledFrom(prev, elems, 0)[k] == elems[k];
  }

  class Server {
    var internalMethods: seq<Method>
    var externalMethods: seq<Method>
    var internalParameters: seq<P.Parameter>
    var externalParameters: seq<P.Parameter>
    var internalFields: seq<F.Field>
    var externalFields: seq<F.Field>
    /** The capacities (`max_size()`) of the six collections. */
    const internalMethodsMax: nat
    const externalMethodsMax: nat
    const internalParametersMax: nat
    const externalParametersMax: nat
    const internalFieldsMax: nat
    const externalFieldsMax: nat
    var error: bool
    var resultKeyInResponse: bool
    var response: seq<Token>

    /** No collection holds more than its capacity, so the two index
        spaces do not overlap. */
    ghost predicate Valid()
      reads this
    {
      |internalMethods| <= internalMethodsMax && |externalMethods| <= externalMethodsMax
      && |internalParameters| <= internalParametersMax
      && |externalParameters| <= externalParametersMax
      && |internalFields| <= internalFieldsMax && |externalFields| <= externalFieldsMax
    }

    /** A server with empty collections of the given capacities. */
    constructor (methodsMax: nat, methodStorage: nat, parametersMax: nat,
                 parameterStorage: nat, fieldsMax: nat, fieldStorage: nat)
      ensures Valid()
      ensures internalMethods == [] && externalMethods == []
      ensures internalParameters == [] && externalParameters == []
      ensures internalFields == [] && externalFields == []
      ensures internalMethodsMax == methodsMax && externalMethodsMax == methodStorage
      ensures internalParametersMax == parametersMax && externalParametersMax == parameterStorage
      ensures internalFieldsMax == fieldsMax && externalFieldsMax == fieldStorage
      ensures Response() == ResponseState(false, false, [])
    {
      internalMethods, externalMethods := [], [];
      internalParameters, externalParameters := [], [];
      internalFields, externalFields := [], [];
      internalMethodsMax, externalMethodsMax := methodsMax, methodStorage;
      internalParametersMax, externalParametersMax := parametersMax, parameterStorage;
      internalFieldsMax, externalFieldsMax := fieldsMax, fieldStorage;
      error, resultKeyInResponse, response := false, false, [];
    }

    // -------------------------------------------------------------------
    // Lookups

    /** `findMethodIndex` */
    function FindMethodIndex(q: NameQuery): (r: int)
      requires |internalMethods| <= internalMethodsMax
      reads this`internalMethods, this`externalMethods
      ensures -1 <= r
      ensures 0 <= r < internalMethodsMax ==>
                r < |internalMethods| && Matches(internalMethods[r].name, q)
                && forall i :: 0 <= i < r ==> !Matches(internalMethods[i].name, q)
      ensures r >= internalMethodsMax ==>
                r - internalMethodsMax < |externalMethods|
                && Matches(externalMethods[r - internalMethodsMax].name, q)
                && (forall i :: 0 <= i < |internalMethods| ==> !Matches(internalMethods[i].name, q))
                && (forall j :: 0 <= j < r - internalMethodsMax ==> !Matches(externalMethods[j].name, q))
      ensures r == -1 <==>
                (forall i :: 0 <= i < |internalMethods| ==> !Matches(internalMethods[i].name, q))
                && (forall j :: 0 <= j < |externalMethods| ==> !Matches(externalMethods[j].name, q))
    {
      var ins, exs := MethodNames(internalMethods), MethodNames(externalMethods);
      assert forall i :: 0 <= i < |ins| ==> ins[i] == internalMethods[i].name;
      assert forall j :: 0 <= j < |exs| ==> exs[j] == externalMethods[j].name;
      TwoSpaceIndex(ins, exs, internalMethodsMax, q)
    }

    /** `findParameterIndex` */
    function FindParameterIndex(q: NameQuery): (r: int)
      requires |internalParameters| <= internalParametersMax
      reads this`internalParameters, this`externalParameters
      reads set p | p in internalParameters, set p | p in externalParameters
      ensures -1 <= r
      ensures 0 <= r < internalParametersMax ==>
                r < |internalParameters| && Matches(internalParameters[r].name, q)
                && forall i :: 0 <= i < r ==> !Matches(internalParameters[i].name, q)
      ensures r >= internalParametersMax ==>
                r - internalParametersMax < |externalParameters|
                && Matches(externalParameters[r - internalParametersMax].name, q)
                && (forall i :: 0 <= i < |internalParameters| ==> !Matches(internalParameters[i].name, q))
                && (forall j :: 0 <= j < r - internalParametersMax ==> !Matches(externalParameters[j].name, q))
      ensures r == -1 <==>
                (forall i :: 0 <= i < |internalParameters| ==> !Matches(internalParameters[i].name, q))
                && (forall j :: 0 <= j < |externalParameters| ==> !Matches(externalParameters[j].name, q))
    {
      var ins, exs := Names(internalParameters), Names(externalParameters);
      assert forall i :: 0 <= i < |ins| ==> ins[i] == internalParameters[i].name;
      assert forall j :: 0 <= j < |exs| ==> exs[j] == externalParameters[j].name;
      TwoSpaceIndex(ins, exs, internalParametersMax, q)
    }

    /** Whether a method index can be read back: the source indexes the
        selected collection without a bounds check. */
    predicate MethodIndexInRange(mi: int)
      reads this`internalMethods, this`externalMethods
    {
      mi >= 0 && (if mi < internalMethodsMax then mi < |internalMethods|
                  else mi - internalMethodsMax < |externalMethods|)
    }

    /** The method an index of the two spaces denotes. */
    function MethodAt(mi: int): (m: Method)
      requires MethodIndexInRange(mi)
      reads this`internalMethods, this`externalMethods
      ensures mi < internalMethodsMax ==> m == internalMethods[mi]
      ensures mi >= internalMethodsMax ==> m == externalMethods[mi - internalMethodsMax]
    {
      if mi < internalMethodsMax then internalMethods[mi] else externalMethods[mi - internalMethodsMax]
    }

    /** The parameters of all methods. */
    function MethodParameterObjects(): set<P.Parameter>
      reads this`internalMethods, this`externalMethods
    {
      set m, p | m in internalMethods + externalMethods && p in m.parameters :: p
    }

    /** `findMethodParameterIndex`: -1 for a negative method index;
        otherwise the position of the first matching parameter of the
        method the index denotes, or -1. */
    function FindMethodParameterIndex(mi: int, q: NameQuery): (r: int)
      requires mi < 0 || MethodIndexInRange(mi)
      reads this`internalMethods, this`externalMethods, MethodParameterObjects()
      ensures mi < 0 ==> r == -1
      ensures mi >= 0 ==>
                var ps := MethodAt(mi).parameters;
                -1 <= r < |ps|
                && (r >= 0 ==> Matches(ps[r].name, q))
                && forall j :: 0 <= j < |ps| && (r < 0 || j < r) ==> !Matches(ps[j].name, q)
    {
      if mi < 0 then -1
      else
        var m := MethodAt(mi);
        assert m in internalMethods + externalMethods;
        var ns := Names(m.parameters);
        assert forall j :: 0 <= j < |ns| ==> ns[j] == m.parameters[j].name;
        IndexOfName(ns, q)
    }

    /** Every field object of the server and the parameters naming them. */
    function FieldObjects(): set<F.Field>
      reads this`internalFields, this`externalFields
    {
      set f | f in internalFields + externalFields
    }

    function FieldParameters(): set<P.Parameter>
      reads this`internalFields, this`externalFields
    {
      set f | f in internalFields + externalFields :: f.parameter
    }

    /** `findFieldIndex` */
    function FindFieldIndex(q: NameQuery): (r: int)
      requires |internalFields| <= internalFieldsMax
      reads this`internalFields, this`externalFields, FieldParameters()
      ensures -1 <= r
      ensures 0 <= r < internalFieldsMax ==>
                r < |internalFields| && Matches(internalFields[r].parameter.name, q)
                && forall i :: 0 <= i < r ==> !Matches(internalFields[i].parameter.name, q)
      ensures r >= internalFieldsMax ==>
                r - internalFieldsMax < |externalFields|
                && Matches(externalFields[r - internalFieldsMax].parameter.name, q)
                && (forall i :: 0 <= i < |internalFields| ==> !Matches(internalFields[i].parameter.name, q))
                && (forall j :: 0 <= j < r - internalFieldsMax ==> !Matches(externalFields[j].parameter.name, q))
      ensures r == -1 <==>
                (forall i :: 0 <= i < |internalFields| ==> !Matches(internalFields[i].parameter.name, q))
                && (forall j :: 0 <= j < |externalFields| ==> !Matches(externalFields[j].parameter.name, q))
    {
      var ins, exs := FieldNames(internalFields), FieldNames(externalFields);
      assert forall i :: 0 <= i < |ins| ==> ins[i] == internalFields[i].parameter.name;
      assert forall j :: 0 <= j < |exs| ==> exs[j] == externalFields[j].parameter.name;
      TwoSpaceIndex(ins, exs, internalFieldsMax, q)
    }

    /** `findField`: the field the index denotes, together with the index
        written through `field_index_ptr`. On a miss the reference is the
        first internal field; with no internal field it is the unused
        storage slot 0, represented by `null`. */
    function FindField(q: NameQuery): (r: (F.Field?, int))
      requires |internalFields| <= internalFieldsMax
      reads this`internalFields, this`externalFields, FieldParameters()
      ensures r.1 == FindFieldIndex(q)
      ensures r.1 >= 0 ==> r.0 != null && r.0 in FieldObjects() && Matches(r.0.parameter.name, q)
      ensures 0 <= r.1 < internalFieldsMax ==> r.0 == internalFields[r.1]
      ensures r.1 >= internalFieldsMax ==> r.0 == externalFields[r.1 - internalFieldsMax]
      ensures r.1 < 0 ==> r.0 == (if |internalFields| > 0 then internalFields[0] else null)
    {
      var i := FindFieldIndex(q);
      match Locate(i, internalFieldsMax)
      case Internal(k) => (internalFields[k], i)
      case External(k) => (externalFields[k], i)
      case Nowhere => (if |internalFields| > 0 then internalFields[0] else null, i)
    }

    // -------------------------------------------------------------------
    // Fields by name

    /** `createField(name, default)` for a long or a bool: appends a new
        field to the external storage. The source returns nothing when the
        name is already taken, so a fresh name is required. */
    method CreateField(n: ConstantString, d: Scalar) returns (f: F.Field)
      requires Valid()
      requires d.SLong? || d.SBool?
      requires FindFieldIndex(ByConstant(n)) < 0
      requires |externalFields| < externalFieldsMax
      modifies this`externalFields
      ensures Valid()
      ensures fresh(f) && fresh(f.parameter)
      ensures externalFields == old(externalFields) + [f]
      ensures f.parameter.name == n && f.savedVariable == ScalarSlot(d)
      ensures f.parameter.valueType == (if d.SLong? then LongType else BoolType)
      ensures FindFieldIndex(ByConstant(n)) == internalFieldsMax + |old(externalFields)|
    {
      if d.SLong? {
        f := new F.Field.OfLong(n, d.l);
      } else {
        f := new F.Field.OfBool(n, d.b);
      }
      ghost var names := FieldNames(externalFields);
      ghost var inames := FieldNames(internalFields);
      externalFields := externalFields + [f];
      assert FieldNames(internalFields) == inames;
      assert FieldNames(externalFields) == names + [n];
      assert forall j :: 0 <= j < |names| ==> (names + [n])[j] == names[j] && !Matches(names[j], ByConstant(n));
      assert Matches((names + [n])[|names|], ByConstant(n));
      assert IndexOfName(names + [n], ByConstant(n)) == |names|;
    }

    /** `createInternalField(name, default)`: appends to the internal
        collection only when the name is new, and in every case returns
        the last internal field, which for a name already in use need not
        be the field of that name. */
    method CreateInternalField(n: ConstantString, d: Scalar) returns (f: F.Field)
      requires Valid()
      requires d.SLong? || d.SBool?
      requires FindFieldIndex(ByConstant(n)) < 0 ==> |internalFields| < internalFieldsMax
      requires FindFieldIndex(ByConstant(n)) >= 0 ==> |internalFields| > 0
      modifies this`internalFields
      ensures Valid()
      ensures old(FindFieldIndex(ByConstant(n))) < 0 ==>
                fresh(f) && internalFields == old(internalFields) + [f]
                && f.parameter.name == n && f.savedVariable == ScalarSlot(d)
      ensures old(FindFieldIndex(ByConstant(n))) >= 0 ==> internalFields == old(internalFields)
      ensures f == internalFields[|internalFields| - 1]
    {
      var i := FindFieldIndex(ByConstant(n));
      if i < 0 {
        if d.SLong? {
          f := new F.Field.OfLong(n, d.l);
        } else {
          f := new F.Field.OfBool(n, d.b);
        }
        internalFields := internalFields + [f];
      } else {
        f := internalFields[|internalFields| - 1];
      }
    }

    /** `setFieldValue(name, value)` for a long or a bool: the named field
        takes the write; an unknown name changes no field. */
    method SetFieldValue(q: NameQuery, v: Scalar)
      requires Valid()
      requires v.SLong? || v.SBool?
      modifies FieldObjects()
      ensures var (f, i) := old(FindField(q));
              i >= 0 ==> f.savedVariable == F.SlotAfterSetValue(f.parameter.State(), old(f.savedVariable), v)
      ensures var (f, i) := old(FindField(q));
              forall g :: g in FieldObjects() && (i < 0 || g != f) ==> g.savedVariable == old(g.savedVariable)
    {
      var r := FindField(q);
      if r.1 >= 0 {
        var f := r.0;
        if v.SLong? {
          var _ := f.SetValueLong(v.l);
        } else {
          var _ := f.SetValueBool(v.b);
        }
      }
    }

    /** `setFieldElementValue(name, index, value)` for a long or a bool. */
    method SetFieldElementValue(q: NameQuery, i: nat, v: Scalar)
      requires Valid()
      requires v.SLong? || v.SBool?
      modifies FieldObjects()
      ensures var (f, k) := old(FindField(q));
              k >= 0 ==> f.savedVariable == F.SlotAfterSetElementValue(f.parameter.State(), old(f.savedVariable), i, v)
      ensures var (f, k) := old(FindField(q));
              forall g :: g in FieldObjects() && (k < 0 || g != f) ==> g.savedVariable == old(g.savedVariable)
    {
      var r := FindField(q);
      if r.1 >= 0 {
        var f := r.0;
        if v.SLong? {
          var _ := f.SetElementValueLong(v.l, i);
        } else {
          var _ := f.SetElementValueBool(v.b, i);
        }
      }
    }

    /** `getFieldValue(name, value)`: the value of the named field, or
        `None` (the caller's variable is left alone) for an unknown name. */
    function GetFieldValue(q: NameQuery): (r: Option<Scalar>)
      requires Valid()
      reads this, FieldObjects(), FieldParameters()
      ensures FindFieldIndex(q) < 0 ==> r == None
      ensures FindFieldIndex(q) >= 0 ==> r == FindField(q).0.GetValue()
    {
      var (f, i) := FindField(q);
      if i >= 0 then f.GetValue() else None
    }

    /** `getFieldElementValue(name, index, value)` */
    function GetFieldElementValue(q: NameQuery, k: nat): (r: Option<Scalar>)
      requires Valid()
      reads this, FieldObjects(), FieldParameters()
      ensures FindFieldIndex(q) < 0 ==> r == None
      ensures FindFieldIndex(q) >= 0 ==> r == FindField(q).0.GetElementValue(k)
    {
      var (f, i) := FindField(q);
      if i >= 0 then f.GetElementValue(k) else None
    }

    /** `getFieldDefaultValue(name, value)` */
    function GetFieldDefaultValue(q: NameQuery): (r: Option<Scalar>)
      requires Valid()
      reads this, FieldObjects(), FieldParameters()
      ensures FindFieldIndex(q) < 0 ==> r == None
      ensures FindFieldIndex(q) >= 0 ==> r == FindField(q).0.GetDefaultValue()
    {
      var (f, i) := FindField(q);
      if i >= 0 then f.GetDefaultValue() else None
    }

    /** `getFieldDefaultElementValue(name, index, value)` */
    function GetFieldDefaultElementValue(q: NameQuery, k: nat): (r: Option<Scalar>)
      requires Valid()
      reads this, FieldObjects(), FieldParameters()
      ensures FindFieldIndex(q) < 0 ==> r == None
      ensures FindFieldIndex(q) >= 0 ==> r == FindField(q).0.GetDefaultElementValue(k)
    {
      var (f, i) := FindField(q);
      if i >= 0 then f.GetDefaultElementValue(k) else None
    }

    /** `getFieldValue(name, values, N)` as written: the loop counter starts
        wherever it happens to be, modelled by `start`. When the named
        field has exactly `N` elements, positions `start ..` of the buffer
        receive its elements; otherwise the buffer is left alone. */
    method GetFieldValuesFrom(q: NameQuery, values: array<Scalar>, start: nat)
      requires Valid()
      modifies values
      ensures var (f, i) := old(FindField(q));
              if i >= 0 && f.GetArrayLength() == values.Length
              then values[..] == FilledFrom(old(values[..]), f.savedVariable.values, start)
              else values[..] == old(values[..])
    {
      var (f, index) := FindField(q);
      if index >= 0 {
        var n := f.GetArrayLength();
        if n == values.Length {
          var i := start;
          while i < n
            invariant values.Length == n
            invariant forall k :: 0 <= k < n ==>
                        values[k] == (if start <= k < i then f.savedVariable.values[k] else old(values[k]))
          {
            var v := f.GetElementValue(i);
            values[i] := v.value;
            i := i + 1;
          }
        }
      }
    }

    /** `getFieldValue(name, values, N)` with the counter starting at 0:
        the buffer receives every element of the named field. */
    method GetFieldValues(q: NameQuery, values: array<Scalar>)
      requires Valid()
      modifies values
      ensures var (f, i) := old(FindField(q));
              if i >= 0 && f.GetArrayLength() == values.Length
              then values[..] == f.savedVariable.values
              else values[..] == old(values[..])
    {
      ghost var prev := values[..];
      var (f, i) := FindField(q);
      GetFieldValuesFrom(q, values, 0);
      if i >= 0 && f.GetArrayLength() == values.Length {
        CounterFromZeroCopiesAll(prev, f.savedVariable.values);
      }
    }

    /** `getFieldDefaultValue(name, values, N)` as written, with the same
        uninitialised counter. */
    method GetFieldDefaultValuesFrom(q: NameQuery, values: array<Scalar>, start: nat)
      requires Valid()
      requires FindFieldIndex(q) >= 0 ==> FindField(q).0.savedVariable.Valid()
      modifies values
      ensures var (f, i) := old(FindField(q));
              if i >= 0 && f.GetArrayLength() == values.Length
              then values[..] == FilledFrom(old(values[..]), f.savedVariable.defaults, start)
              else values[..] == old(values[..])
    {
      var (f, index) := FindField(q);
      if index >= 0 {
        var n := f.GetArrayLength();
        if n == values.Length {
          var i := start;
          while i < n
            invariant values.Length == n
            invariant forall k :: 0 <= k < n ==>
                        values[k] == (if start <= k < i then f.savedVariable.defaults[k] else old(values[k]))
          {
            var v := f.GetDefaultElementValue(i);
            values[i] := v.value;
            i := i + 1;
          }
        }
      }
    }

    /** `getFieldDefaultValue(name, values, N)` with the counter starting
        at 0: the buffer receives every default of the named field. */
    method GetFieldDefaultValues(q: NameQuery, values: array<Scalar>)
      requires Valid()
      requires FindFieldIndex(q) >= 0 ==> FindField(q).0.savedVariable.Valid()
      modifies values
      ensures var (f, i) := old(FindField(q));
              if i >= 0 && f.GetArrayLength() == values.Length
              then values[..] == f.savedVariable.defaults
              else values[..] == old(values[..])
    {
      ghost var prev := values[..];
      var (f, i) := FindField(q);
      GetFieldDefaultValuesFrom(q, values, 0);
      if i >= 0 && f.GetArrayLength() == values.Length {
        CounterFromZeroCopiesAll(prev, f.savedVariable.defaults);
      }
    }

    // -------------------------------------------------------------------
    // Response writers

    function Response(): ResponseState
      reads this`error, this`resultKeyInResponse, this`response
    {
      ResponseState(error, resultKeyInResponse, response)
    }

    /** `sendErrorResponse(error)`: only the first error of a response is
        written. */
    method SendErrorResponse(data: JsonVal)
      modifies this`error, this`response
      ensures Response() == AfterSendError(old(Response()), data)
    {
      if !error {
        error := true;
        response := response + [Error(ServerError, Data(data))];
      }
    }

    /** `writeResultToResponse(value)`: written only into a response with
        no result and no error yet. */
    method WriteResultToResponse(value: JsonVal)
      modifies this`resultKeyInResponse, this`response
      ensures Response() == AfterWriteResult(old(Response()), value)
    {
      if !resultKeyInResponse && !error {
        resultKeyInResponse := true;
        response := response + [Result(value)];
      }
    }
  }
}
