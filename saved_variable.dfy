/** The durable slot behind every field and property. The persistence
    library itself is not part of this model: a slot is abstracted as its
    current contents and its compiled-in defaults, one entry per element (a
    scalar slot has exactly one), with bounds-checked element access. */
module SavedVariable {
  import opened Strings
  import opened Wrappers

  /** One stored element. */
  datatype Scalar =
    | SLong(l: int)
    | SDouble(d: real)
    | SBool(b: bool)
    | SChar(c: char)
    | SConstantString(s: ConstantString)

  datatype Slot = Slot(values: seq<Scalar>, defaults: seq<Scalar>)
  {
    /** The declared length is fixed: contents and defaults agree on it. */
    predicate Valid()
    {
      |values| == |defaults|
    }

    function ArrayLength(): nat
    {
      |values|
    }

    /** Scalar access reads element 0. */
    function Get(): Option<Scalar>
    {
      if |values| > 0 then Some(values[0]) else None
    }

    function GetDefault(): Option<Scalar>
    {
      if |defaults| > 0 then Some(defaults[0]) else None
    }

    function GetElement(i: nat): Option<Scalar>
    {
      if i < |values| then Some(values[i]) else None
    }

    function GetDefaultElement(i: nat): Option<Scalar>
    {
      if i < |defaults| then Some(defaults[i]) else None
    }

    /** A bounds-checked write: it succeeds exactly for an index below the
        declared length, changes that element alone and never the defaults;
        a failed write changes nothing. */
    function SetElement(i: nat, v: Scalar): (r: (bool, Slot))
      ensures r.0 <==> i < |values|
      ensures r.0 ==> r.1.GetElement(i) == Some(v)
      ensures |r.1.values| == |values| && r.1.defaults == defaults
      ensures forall j :: 0 <= j < |values| && j != i ==> r.1.values[j] == values[j]
      ensures !r.0 ==> r.1 == this
    {
      if i < |values| then (true, this.(values := values[i := v])) else (false, this)
    }

    /** A scalar write, to element 0. */
    function Set(v: Scalar): (r: (bool, Slot))
      ensures r.0 <==> |values| > 0
      ensures r.0 ==> r.1.Get() == Some(v) && |r.1.values| == |values|
      ensures r.1.defaults == defaults
      ensures !r.0 ==> r.1 == this
    {
      SetElement(0, v)
    }

    predicate IsDefault()
    {
      values == defaults
    }

    /** Copies the defaults into the contents. */
    function SetToDefault(): (r: Slot)
      ensures r.IsDefault() && r.defaults == defaults
    {
      this.(values := defaults)
    }

    /** Restores one element, when it is in bounds. */
    function SetElementToDefault(i: nat): (r: (bool, Slot))
      ensures r.0 <==> i < |values| && i < |defaults|
      ensures r.0 ==> r.1.GetElement(i) == r.1.GetDefaultElement(i)
      ensures r.1.defaults == defaults && |r.1.values| == |values|
      ensures forall j :: 0 <= j < |values| && j != i ==> r.1.values[j] == values[j]
      ensures !r.0 ==> r.1 == this
    {
      if i < |values| && i < |defaults| then SetElement(i, defaults[i]) else (false, this)
    }
  }

  /** A slot created from one default value. */
  function ScalarSlot(d: Scalar): (s: Slot)
    ensures s.Valid() && s.IsDefault() && s.Get() == Some(d) && s.ArrayLength() == 1
  {
    Slot([d], [d])
  }

  /** A slot created from an array of defaults. */
  function ArraySlot(ds: seq<Scalar>): (s: Slot)
    ensures s.Valid() && s.IsDefault() && s.ArrayLength() == |ds|
    ensures forall i :: 0 <= i < |ds| ==> s.GetElement(i) == Some(ds[i])
  {
    Slot(ds, ds)
  }
}
