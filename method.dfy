/** utility/Method.h: the record the server keeps for each method it can
    dispatch. Only the declaration is part of this model; the operations
    below give the record the behaviour its fields and its callers imply. */
module Method {
  import opened Strings
  import P = Parameter

  /** The server's own operations that `attachReservedCallback` binds. */
  datatype ReservedOp = GetDeviceInfo | GetMethodIds | GetParameters | Help | VerboseHelp

  /** Exactly one callback: none attached yet, a user function (named by
      `id`), or one of the server's reserved operations (`reserved_`). */
  datatype Callback = NoCallback | UserCallback(id: nat) | ReservedCallback(op: ReservedOp)

  /** `name_ptr_`, `parameter_ptr_array_` (references to parameters owned
      by the server) and the callback. `parameter_count_` is the length of
      the parameter list. */
  datatype Method = Method(name: ConstantString, parameters: seq<P.Parameter>, callback: Callback)
  {
    predicate IsReserved()
    {
      callback.ReservedCallback?
    }

    function ParameterCount(): nat
    {
      |parameters|
    }
  }

  /** `Method(name)`: no parameters and no callback yet. */
  function NewMethod(n: ConstantString): (m: Method)
    ensures m.name == n && m.ParameterCount() == 0 && !m.IsReserved()
  {
    Method(n, [], NoCallback)
  }

  /** The names of a list of methods, position by position. */
  function MethodNames(ms: seq<Method>): (r: seq<ConstantString>)
    ensures |r| == |ms|
    ensures forall i {:trigger r[i]} :: 0 <= i < |ms| ==> r[i] == ms[i].name
  {
    seq(|ms|, i requires 0 <= i < |ms| => ms[i].name)
  }

  /** The current names of a list of parameter objects. */
  function Names(ps: seq<P.Parameter>): (r: seq<ConstantString>)
    reads set p | p in ps
    ensures |r| == |ps|
    ensures forall i {:trigger r[i]} :: 0 <= i < |ps| ==> r[i] == ps[i].name
  {
    seq(|ps|, i requires 0 <= i < |ps| reads set p | p in ps => ps[i].name)
  }

  /** The current schemas of a list of parameter objects. */
  function States(ps: seq<P.Parameter>): (r: seq<P.ParameterState>)
    reads set p | p in ps
    ensures |r| == |ps|
    ensures forall i {:trigger r[i]} :: 0 <= i < |ps| ==> r[i] == ps[i].State()
  {
    seq(|ps|, i requires 0 <= i < |ps| reads set p | p in ps => ps[i].State())
  }
}
