/** utility/Server.cpp: the request dispatcher. A request is a JSON array
    whose first element names a method (by position or by name) and whose
    remaining elements are the method's arguments. The server resolves the
    method, answers help requests, checks the arguments against the
    method's parameters and runs the method's callback; it also keeps the
    registry of methods and parameters, the list of streams it serves in
    turn and the sentinel that records whether the EEPROM was set up. */
module Server {
  import opened Strings
  import opened Wrappers
  import opened Json
  import opened SavedVariable
  import opened Response
  import opened Method
  import P = Parameter

  // ---------------------------------------------------------------------
  // Identifiers

  /** The index an identifier denotes before the range check of
      `processMethodString` and `processParameterString`: "0" is 0, text
      with a positive `atoi` value is that value, anything else is looked
      up by name. */
  function Identifier(s: string, names: seq<ConstantString>): int
  {
    if s == "0" then 0 else if Atoi(s) > 0 then Atoi(s) else IndexOfName(names, ByText(s))
  }

  /** The identifier after the range check: anything outside
      `[0, |names|)` becomes -1. */
  function Resolve(s: string, names: seq<ConstantString>): (r: int)
    ensures -1 <= r < |names|
    ensures r >= 0 ==> r == Identifier(s, names)
    ensures r < 0 <==> Identifier(s, names) < 0 || Identifier(s, names) >= |names|
  {
    var k := Identifier(s, names);
    if 0 <= k < |names| then k else -1
  }

  /** The decimal text of a position selects that position. */
  lemma NumericIdentifierSelectsPosition(n: nat, names: seq<ConstantString>)
    requires n < |names|
    ensures Resolve(DecimalText(n), names) == n
  {
    if n == 0 {
      assert DecimalText(0) == "0";
    } else {
      AtoiInvertsDecimalText(n);
      AtoiInvertsDecimalText(0);
      assert DecimalText(0) == "0";
      assert DecimalText(n) != "0";
    }
  }

  /** Text that is neither "0" nor a positive number selects the first
      element of that name, compared without regard to case. */
  lemma NameSelectsFirstMatch(s: string, names: seq<ConstantString>)
    requires s != "0" && Atoi(s) <= 0
    ensures Resolve(s, names) == IndexOfName(names, ByText(s))
    ensures Resolve(s, names) < 0 <==> forall i :: 0 <= i < |names| ==> !EqualsIgnoreCase(names[i].text, s)
  {
  }

  /** The `id` echoed into the response by `processMethodString`. */
  function IdEcho(s: string): JsonVal
  {
    if s == "0" then JLong(0) else if Atoi(s) > 0 then JLong(Atoi(s)) else JString(s)
  }

  // ---------------------------------------------------------------------
  // What the dispatcher sees of the registry

  /** A method as the dispatcher sees it: its name, the current schemas of
      its parameters and its callback. */
  datatype MethodView = MethodView(name: ConstantString, parameters: seq<P.ParameterState>, callback: Callback)
  {
    predicate IsReserved()
    {
      callback.ReservedCallback?
    }

    function ParameterCount(): nat
    {
      |parameters|
    }
  }

  /** The methods and the server's own parameters, as values. */
  datatype RegistryView = RegistryView(methods: seq<MethodView>, parameters: seq<P.ParameterState>)

  function MethodViewNames(ms: seq<MethodView>): (r: seq<ConstantString>)
    ensures |r| == |ms|
    ensures forall i {:trigger r[i]} :: 0 <= i < |ms| ==> r[i] == ms[i].name
  {
    seq(|ms|, i requires 0 <= i < |ms| => ms[i].name)
  }

  function SchemaNames(ss: seq<P.ParameterState>): (r: seq<ConstantString>)
    ensures |r| == |ss|
    ensures forall i {:trigger r[i]} :: 0 <= i < |ss| ==> r[i] == ss[i].name
  {
    seq(|ss|, i requires 0 <= i < |ss| => ss[i].name)
  }

  /** The view of one method record. */
  function ViewOf(m: Method): MethodView
    reads set p | p in m.parameters
  {
    MethodView(m.name, States(m.parameters), m.callback)
  }

  lemma ViewOfNames(m: Method)
    ensures SchemaNames(ViewOf(m).parameters) == Names(m.parameters)
  {
  }

  /** The views of a list of methods whose parameters all lie in `objs`. */
  function MethodViews(ms: seq<Method>, objs: set<P.Parameter>): (r: seq<MethodView>)
    requires forall i, j :: 0 <= i < |ms| && 0 <= j < |ms[i].parameters| ==> ms[i].parameters[j] in objs
    reads objs
    ensures |r| == |ms|
  {
    if ms == [] then []
    else
      var k := |ms| - 1;
      assert forall j :: 0 <= j < |ms[k].parameters| ==> ms[k].parameters[j] in objs;
      MethodViews(ms[..k], objs) + [ViewOf(ms[k])]
  }

  lemma {:induction false} MethodViewsPointwise(ms: seq<Method>, objs: set<P.Parameter>, i: nat)
    requires forall i, j :: 0 <= i < |ms| && 0 <= j < |ms[i].parameters| ==> ms[i].parameters[j] in objs
    requires i < |ms|
    ensures MethodViews(ms, objs)[i] == ViewOf(ms[i])
  {
    var k := |ms| - 1;
    if i < k {
      MethodViewsPointwise(ms[..k], objs, i);
    }
  }

  lemma {:induction false} MethodViewsNames(ms: seq<Method>, objs: set<P.Parameter>)
    requires forall i, j :: 0 <= i < |ms| && 0 <= j < |ms[i].parameters| ==> ms[i].parameters[j] in objs
    ensures MethodViewNames(MethodViews(ms, objs)) == MethodNames(ms)
  {
    if ms != [] {
      var k := |ms| - 1;
      MethodViewsNames(ms[..k], objs);
      assert MethodNames(ms) == MethodNames(ms[..k]) + [ms[k].name];
      assert MethodViewNames(MethodViews(ms, objs)) == MethodViewNames(MethodViews(ms[..k], objs)) + [ms[k].name];
    }
  }

  // ---------------------------------------------------------------------
  // Classifying a request

  datatype RequestKind =
    | MethodHelpRequest(verbose: bool)
    | ParameterHelpRequest
    | ReservedCall
    | ArityMismatch
    | CheckedCall

  /** The branch `processRequestArray` takes for a request to method `m`. */
  function Classify(items: seq<JsonVal>, m: MethodView): RequestKind
    requires |items| > 0
  {
    var count := |items| - 1;
    if count == 1 && AsText(items[1]) == "?" then MethodHelpRequest(false)
    else if count == 1 && AsText(items[1]) == "??" then MethodHelpRequest(true)
    else if count == 2 && (AsText(items[2]) == "?" || AsText(items[2]) == "??") then ParameterHelpRequest
    else if m.IsReserved() then ReservedCall
    else if count != m.ParameterCount() then ArityMismatch
    else CheckedCall
  }

  /** A trailing "?" or "??" after the method is always a help request,
      whatever the method's arity or kind, so the method is not run. */
  lemma HelpSuffixIsHelp(items: seq<JsonVal>, m: MethodView)
    requires |items| == 2 && (AsText(items[1]) == "?" || AsText(items[1]) == "??")
    ensures Classify(items, m) == MethodHelpRequest(AsText(items[1]) == "??")
  {
  }

  /** Only a user method whose argument count matches its parameter count
      reaches the argument checks. */
  lemma CheckedCallHasMatchingArity(items: seq<JsonVal>, m: MethodView)
    requires |items| > 0 && Classify(items, m) == CheckedCall
    ensures !m.IsReserved() && |items| - 1 == m.ParameterCount()
  {
  }

  // ---------------------------------------------------------------------
  // Checking arguments

  datatype Verdict = Accepted | OutOfRange | NotAnObject | NotAnArray

  predicate LongsWithin(a: seq<JsonVal>, min: int, max: int)
  {
    forall i :: 0 <= i < |a| ==> min <= AsLong(a[i]) <= max
  }

  predicate DoublesWithin(a: seq<JsonVal>, min: real, max: real)
  {
    forall i :: 0 <= i < |a| ==> min <= AsDouble(a[i]) <= max
  }

  /** What `checkParameter` decides for argument `v` of a parameter with
      schema `s`: bounds, where a range is set, are inclusive at both ends;
      an object or array parameter needs a value of that kind. */
  function Check(s: P.ParameterState, v: JsonVal): Verdict
  {
    match s.valueType
    case LongType => if s.rangeIsSet && !(s.minL <= AsLong(v) <= s.maxL) then OutOfRange else Accepted
    case DoubleType => if s.rangeIsSet && !(s.minD <= AsDouble(v) <= s.maxD) then OutOfRange else Accepted
    case ObjectType => if v.JObject? then Accepted else NotAnObject
    case ArrayType =>
      if !v.JArray? then NotAnArray
      else if s.rangeIsSet && s.arrayElementType == LongType && !LongsWithin(v.items, s.minL, s.maxL) then OutOfRange
      else if s.rangeIsSet && s.arrayElementType == DoubleType && !DoublesWithin(v.items, s.minD, s.maxD) then OutOfRange
      else Accepted
    case _ => Accepted
  }

  /** A long argument fails exactly when a range is set and the value lies
      below its minimum or above its maximum. */
  lemma LongCheckIsInclusive(s: P.ParameterState, v: JsonVal)
    requires s.valueType == LongType
    ensures Check(s, v) != Accepted <==> s.rangeIsSet && (AsLong(v) < s.minL || AsLong(v) > s.maxL)
    ensures Check(s, v) == Accepted || Check(s, v) == OutOfRange
  {
  }

  /** An array of longs fails exactly when some element lies outside the
      bounds of a set range. */
  lemma LongArrayCheck(s: P.ParameterState, a: seq<JsonVal>)
    requires s.valueType == ArrayType && s.arrayElementType == LongType
    ensures Check(s, JArray(a)) != Accepted <==>
              s.rangeIsSet && exists i :: 0 <= i < |a| && (AsLong(a[i]) < s.minL || AsLong(a[i]) > s.maxL)
  {
  }

  /** The `data` of the error `checkParameter` writes for a failed check. */
  function CheckError(s: P.ParameterState, v: Verdict): ErrorData
  {
    match v
    case OutOfRange => ParameterOutOfRange(s.name, s.valueType == ArrayType)
    case NotAnObject => InvalidJsonObject(s.name)
    case NotAnArray => InvalidJsonArray(s.name)
    case Accepted => NoData
  }

  /** The position of the first argument its parameter rejects, or the
      number of arguments when every one is accepted. */
  function FirstRejected(ss: seq<P.ParameterState>, args: seq<JsonVal>): (k: nat)
    requires |ss| == |args|
    ensures k <= |args|
    ensures forall i :: 0 <= i < k ==> Check(ss[i], args[i]) == Accepted
    ensures k < |args| ==> Check(ss[k], args[k]) != Accepted
  {
    if args == [] then 0
    else if Check(ss[0], args[0]) != Accepted then 0
    else 1 + FirstRejected(ss[1..], args[1..])
  }

  /** The element loop of `checkParameter` for an array of longs: it stops
      at the first element outside the bounds and reports it. */
  method LongElementsOutOfRange(a: seq<JsonVal>, min: int, max: int) returns (outOfRange: bool, at: nat)
    ensures outOfRange <==> !LongsWithin(a, min, max)
    ensures outOfRange ==>
              at < |a| && (AsLong(a[at]) < min || AsLong(a[at]) > max)
              && forall i :: 0 <= i < at ==> min <= AsLong(a[i]) <= max
  {
    outOfRange, at := false, 0;
    var i := 0;
    while i < |a|
      invariant 0 <= i <= |a|
      invariant forall k :: 0 <= k < i ==> min <= AsLong(a[k]) <= max
    {
      var value := AsLong(a[i]);
      if value < min || value > max {
        outOfRange, at := true, i;
        break;
      }
      i := i + 1;
    }
  }

  /** The same loop for an array of doubles. */
  method DoubleElementsOutOfRange(a: seq<JsonVal>, min: real, max: real) returns (outOfRange: bool, at: nat)
    ensures outOfRange <==> !DoublesWithin(a, min, max)
    ensures outOfRange ==>
              at < |a| && (AsDouble(a[at]) < min || AsDouble(a[at]) > max)
              && forall i :: 0 <= i < at ==> min <= AsDouble(a[i]) <= max
  {
    outOfRange, at := false, 0;
    var i := 0;
    while i < |a|
      invariant 0 <= i <= |a|
      invariant forall k :: 0 <= k < i ==> min <= AsDouble(a[k]) <= max
    {
      var value := AsDouble(a[i]);
      if value < min || value > max {
        outOfRange, at := true, i;
        break;
      }
      i := i + 1;
    }
  }

  /** An entry that is neither a result nor an error. */
  predicate Plain(t: Token)
  {
    !t.Error? && !t.ResultKey? && !t.Result? && !t.NullResult?
  }

  /** A counting step for the help replies. */
  lemma OneTokenCounts(ts: seq<Token>)
    ensures |ts| == 1 && ts[0].Error? ==> ErrorCount(ts) == 1 && ResultCount(ts) == 0
    ensures |ts| > 0 && ts[0] == ResultKey && (forall i :: 1 <= i < |ts| ==> Plain(ts[i]))
            ==> ResultCount(ts) == 1 && ErrorCount(ts) == 0
  {
    if |ts| > 0 && ts[0] == ResultKey && (forall i :: 1 <= i < |ts| ==> Plain(ts[i])) {
      TailCounts(ts);
    }
  }

  lemma {:induction false} TailCounts(ts: seq<Token>)
    requires |ts| > 0 && ts[0] == ResultKey
    requires forall i :: 1 <= i < |ts| ==> Plain(ts[i])
    ensures ResultCount(ts) == 1 && ErrorCount(ts) == 0
  {
    if |ts| > 1 {
      var init := ts[..|ts| - 1];
      TailCounts(init);
    }
  }

  /** The position `FirstRejected` finds is the first failing argument. */
  lemma FirstRejectedIsFirst(ss: seq<P.ParameterState>, args: seq<JsonVal>, i: nat)
    requires |ss| == |args| && i <= |args|
    requires forall j :: 0 <= j < i ==> Check(ss[j], args[j]) == Accepted
    requires i < |args| ==> Check(ss[i], args[i]) != Accepted
    ensures FirstRejected(ss, args) == i
  {
  }

  /** Counting distributes over concatenation. */
  lemma {:induction false} CountsConcat(a: seq<Token>, b: seq<Token>)
    ensures ErrorCount(a + b) == ErrorCount(a) + ErrorCount(b)
    ensures ResultCount(a + b) == ResultCount(a) + ResultCount(b)
  {
    if b != [] {
      var init := b[..|b| - 1];
      CountsConcat(a, init);
      assert a + b == (a + init) + [b[|b| - 1]];
      assert b == init + [b[|b| - 1]];
      ErrorCountAppend(a + init, b[|b| - 1]);
      ResultCountAppend(a + init, b[|b| - 1]);
      ErrorCountAppend(init, b[|b| - 1]);
      ResultCountAppend(init, b[|b| - 1]);
    } else {
      assert a + b == a;
    }
  }

  // ---------------------------------------------------------------------
  // Replies of the reserved methods

  /** What a reserved method writes, and whether it is an error. */
  datatype Reply = Reply(tokens: seq<Token>, isError: bool)

  /** A reply answers once: a single result, or a single error. */
  predicate AnswersOnce(r: Reply)
  {
    if r.isError then ErrorCount(r.tokens) == 1 && ResultCount(r.tokens) == 0
    else ResultCount(r.tokens) == 1 && ErrorCount(r.tokens) == 0
  }

  /** The entries of `getMethodIdsCallback`: name and position of every
      method that is not reserved, in registry order. */
  function MethodIdEntries(ms: seq<MethodView>): seq<Token>
  {
    if ms == [] then []
    else
      var k := |ms| - 1;
      MethodIdEntries(ms[..k]) + (if ms[k].IsReserved() then [] else [MethodIdEntry(ms[k].name, k)])
  }

  /** The method ids listing holds exactly the user methods, each with
      its position in the registry. */
  lemma {:induction false} MethodIdEntriesListUserMethods(ms: seq<MethodView>, n: ConstantString, i: nat)
    ensures MethodIdEntry(n, i) in MethodIdEntries(ms) <==> i < |ms| && !ms[i].IsReserved() && ms[i].name == n
  {
    if ms != [] {
      var k := |ms| - 1;
      MethodIdEntriesListUserMethods(ms[..k], n, i);
      if i < k {
        assert ms[..k][i] == ms[i];
      }
    }
  }

  /** The method ids listing holds no result or error of its own. */
  lemma {:induction false} MethodIdEntriesArePlain(ms: seq<MethodView>)
    ensures forall i :: 0 <= i < |MethodIdEntries(ms)| ==> Plain(MethodIdEntries(ms)[i])
  {
    if ms != [] {
      MethodIdEntriesArePlain(ms[..|ms| - 1]);
    }
  }

  /** The entries of `getParametersCallback`: one per parameter, in order. */
  function ParameterEntries(names: seq<ConstantString>): (r: seq<Token>)
    ensures |r| == |names|
    ensures forall i {:trigger r[i]} :: 0 <= i < |names| ==> r[i] == ParameterInfo(names[i])
  {
    seq(|names|, i requires 0 <= i < |names| => ParameterInfo(names[i]))
  }

  /** The reply of the `help` method to request `items`: with no argument
      the listing; with one, the method of that name, else the server
      parameter of that name; with two, the named parameter of the named
      method; anything else, and any name not found, is an invalid-params
      error. Help names are matched as text, first match first. */
  function HelpReply(reg: RegistryView, items: seq<JsonVal>, verbose: bool): (r: Reply)
    requires |items| > 0
    ensures AnswersOnce(r)
  {
    var count := |items| - 1;
    var fail := Reply([Error(InvalidParams, NoData)], true);
    var r :=
      if count == 0 then Reply([ResultKey, DeviceInfo, Listing(verbose)], false)
      else if count == 1 then
        var mi := IndexOfName(MethodViewNames(reg.methods), ByText(AsText(items[1])));
        if mi >= 0 then Reply([ResultKey, MethodInfo(mi, verbose)], false)
        else
          var pi := IndexOfName(SchemaNames(reg.parameters), ByText(AsText(items[1])));
          if pi >= 0 then Reply([ResultKey, ParameterInfo(reg.parameters[pi].name)], false) else fail
      else if count == 2 then
        var mi := IndexOfName(MethodViewNames(reg.methods), ByText(AsText(items[1])));
        var pi := if mi < 0 then -1 else IndexOfName(SchemaNames(reg.methods[mi].parameters), ByText(AsText(items[2])));
        if pi >= 0 then Reply([ResultKey, ParameterInfo(reg.methods[mi].parameters[pi].name)], false) else fail
      else fail;
    OneTokenCounts(r.tokens);
    r
  }

  /** `help` with one argument naming a method answers with the first
      method of that name, matched without regard to case. */
  lemma HelpNamesMethod(reg: RegistryView, items: seq<JsonVal>, verbose: bool, i: nat)
    requires |items| == 2 && i < |reg.methods|
    requires EqualsIgnoreCase(reg.methods[i].name.text, AsText(items[1]))
    requires forall j :: 0 <= j < i ==> !EqualsIgnoreCase(reg.methods[j].name.text, AsText(items[1]))
    ensures HelpReply(reg, items, verbose) == Reply([ResultKey, MethodInfo(i, verbose)], false)
  {
    var ns := MethodViewNames(reg.methods);
    assert Matches(ns[i], ByText(AsText(items[1])));
    assert IndexOfName(ns, ByText(AsText(items[1]))) == i;
  }

  /** `help` with one argument that names no method but a server
      parameter answers with the first parameter of that name. */
  lemma HelpNamesParameter(reg: RegistryView, items: seq<JsonVal>, verbose: bool, k: nat)
    requires |items| == 2 && k < |reg.parameters|
    requires forall j :: 0 <= j < |reg.methods| ==> !EqualsIgnoreCase(reg.methods[j].name.text, AsText(items[1]))
    requires EqualsIgnoreCase(reg.parameters[k].name.text, AsText(items[1]))
    requires forall j :: 0 <= j < k ==> !EqualsIgnoreCase(reg.parameters[j].name.text, AsText(items[1]))
    ensures HelpReply(reg, items, verbose) == Reply([ResultKey, ParameterInfo(reg.parameters[k].name)], false)
  {
    var q := ByText(AsText(items[1]));
    var ms := MethodViewNames(reg.methods);
    var ps := SchemaNames(reg.parameters);
    assert IndexOfName(ms, q) < 0;
    assert Matches(ps[k], q);
    assert IndexOfName(ps, q) == k;
  }

  /** `help` with one argument that names neither a method nor a server
      parameter is an invalid-params error and nothing else. */
  lemma HelpUnknownName(reg: RegistryView, items: seq<JsonVal>, verbose: bool)
    requires |items| == 2
    requires forall j :: 0 <= j < |reg.methods| ==> !EqualsIgnoreCase(reg.methods[j].name.text, AsText(items[1]))
    requires forall j :: 0 <= j < |reg.parameters| ==> !EqualsIgnoreCase(reg.parameters[j].name.text, AsText(items[1]))
    ensures HelpReply(reg, items, verbose) == Reply([Error(InvalidParams, NoData)], true)
  {
    var q := ByText(AsText(items[1]));
    var ms := MethodViewNames(reg.methods);
    var ps := SchemaNames(reg.parameters);
    assert IndexOfName(ms, q) < 0;
    assert IndexOfName(ps, q) < 0;
  }

  /** What the reserved operation `op` writes for request `items`. */
  function ReservedReply(reg: RegistryView, items: seq<JsonVal>, op: ReservedOp): Reply
    requires |items| > 0
  {
    match op
    case GetDeviceInfo => Reply([ResultKey, DeviceInfo], false)
    case GetMethodIds => Reply([ResultKey] + MethodIdEntries(reg.methods), false)
    case GetParameters => Reply([ResultKey] + ParameterEntries(SchemaNames(reg.parameters)), false)
    case Help => HelpReply(reg, items, false)
    case VerboseHelp => HelpReply(reg, items, true)
  }

  /** Every reserved reply answers once. */
  lemma ReservedReplyAnswersOnce(reg: RegistryView, items: seq<JsonVal>, op: ReservedOp)
    requires |items| > 0
    ensures AnswersOnce(ReservedReply(reg, items, op))
  {
    var ts := ReservedReply(reg, items, op).tokens;
    if op == GetMethodIds {
      MethodIdEntriesArePlain(reg.methods);
      assert forall i :: 1 <= i < |ts| ==> ts[i] == MethodIdEntries(reg.methods)[i - 1];
      OneTokenCounts(ts);
    } else if op == GetParameters {
      assert forall i :: 1 <= i < |ts| ==> ts[i] == ParameterEntries(SchemaNames(reg.parameters))[i - 1];
      OneTokenCounts(ts);
    } else if op == GetDeviceInfo {
      OneTokenCounts(ts);
    }
  }

  // ---------------------------------------------------------------------
  // Answering a request

  /** The user callback a method runs, by id. */
  function UserCalls(c: Callback): seq<nat>
  {
    if c.UserCallback? then [c.id] else []
  }

  /** What `processRequestArray` does: the entries it writes, the flags it
      raises, the user callbacks it runs and whether it sets
      `parameter_count_`. */
  datatype Outcome = Outcome(tokens: seq<Token>, setsError: bool, setsResult: bool, calls: seq<nat>,
                             countsArguments: bool)

  /** A request to method `mi` the branches of `processRequestArray` are
      defined for: a parameter help request must name a parameter the
      method has, since the source dereferences the parameter at the
      resolved index without checking it. */
  predicate Answerable(reg: RegistryView, items: seq<JsonVal>, mi: nat)
  {
    |items| > 0 && mi < |reg.methods|
    && (Classify(items, reg.methods[mi]).ParameterHelpRequest?
        ==> Resolve(AsText(items[1]), SchemaNames(reg.methods[mi].parameters)) >= 0)
  }

  /** The requests `processRequestArray` is defined for: the array is not
      empty, and the method it names, if any, can answer it. */
  predicate Dispatchable(reg: RegistryView, items: seq<JsonVal>)
  {
    |items| > 0
    && var mi := Resolve(AsText(items[0]), MethodViewNames(reg.methods));
       (mi >= 0 ==> Answerable(reg, items, mi))
  }

  /** What `processRequestArray` does for request `items` to method `mi`
      once the id is echoed: help requests and arity errors never run the
      method, a checked call runs it only when every argument passes. */
  function Answer(reg: RegistryView, items: seq<JsonVal>, mi: nat): Outcome
    requires Answerable(reg, items, mi)
  {
    var m := reg.methods[mi];
    match Classify(items, m)
    case MethodHelpRequest(verbose) =>
      Outcome([ResultKey, MethodInfo(mi, verbose)], false, true, [], false)
    case ParameterHelpRequest =>
      var pi := Resolve(AsText(items[1]), SchemaNames(m.parameters));
      Outcome([ResultKey, ParameterInfo(m.parameters[pi].name)], false, true, [], false)
    case ReservedCall =>
      var reply := ReservedReply(reg, items, m.callback.op);
      Outcome(reply.tokens, reply.isError, !reply.isError, [], false)
    case ArityMismatch =>
      Outcome([Error(InvalidParams, IncorrectParameterNumber(|items| - 1, m.ParameterCount()))], true, false, [], false)
    case CheckedCall =>
      var k := FirstRejected(m.parameters, items[1..]);
      if k == |items| - 1 then Outcome([], false, false, UserCalls(m.callback), true)
      else Outcome([Error(InvalidParams, CheckError(m.parameters[k], Check(m.parameters[k], items[k + 1])))],
                   true, false, [], false)
  }

  /** The answer to a checked call, in terms of the schemas and the
      callback of the method called. */
  lemma CheckedCallAnswer(reg: RegistryView, items: seq<JsonVal>, mi: nat, ss: seq<P.ParameterState>, c: Callback)
    requires Answerable(reg, items, mi) && Classify(items, reg.methods[mi]) == CheckedCall
    requires reg.methods[mi].parameters == ss && reg.methods[mi].callback == c
    ensures |items| - 1 == |ss| && !c.ReservedCallback?
    ensures var a := Answer(reg, items, mi);
            var k := FirstRejected(ss, items[1..]);
            if k == |items| - 1 then a == Outcome([], false, false, UserCalls(c), true)
            else k < |ss| && a == Outcome([Error(InvalidParams, CheckError(ss[k], Check(ss[k], items[k + 1])))],
                                          true, false, [], false)
  {
  }

  /** What `processRequestArray` writes after echoing the identifier: an
      error for an identifier outside the registry, otherwise the answer of
      the method it names. */
  function Expected(reg: RegistryView, items: seq<JsonVal>): Outcome
    requires Dispatchable(reg, items)
  {
    var mi := Resolve(AsText(items[0]), MethodViewNames(reg.methods));
    if mi < 0 then Outcome([Error(MethodNotFound, NoData)], true, false, [], false)
    else Answer(reg, items, mi)
  }

  /** Once the method resolved, the answer holds at most one result or
      error, flagged as such, and a callback runs only for an answer that
      wrote neither. */
  lemma AnswerAtMostOnce(reg: RegistryView, items: seq<JsonVal>, mi: nat)
    requires Answerable(reg, items, mi)
    ensures var a := Answer(reg, items, mi);
            ErrorCount(a.tokens) == (if a.setsError then 1 else 0)
            && ResultCount(a.tokens) == (if a.setsResult then 1 else 0)
            && !(a.setsError && a.setsResult)
            && (|a.calls| > 0 ==> !a.setsError && !a.setsResult)
  {
    var m := reg.methods[mi];
    var a := Answer(reg, items, mi);
    if Classify(items, m).ReservedCall? {
      ReservedReplyAnswersOnce(reg, items, m.callback.op);
    } else {
      OneTokenCounts(a.tokens);
    }
  }

  /** A request is answered at most once: it raises the error flag exactly
      when it writes one error, the result flag exactly when it writes one
      result, never both; and a callback runs only for a request that
      wrote neither, so that the callback writes the answer. */
  lemma ExpectedAtMostOnce(reg: RegistryView, items: seq<JsonVal>)
    requires Dispatchable(reg, items)
    ensures var o := Expected(reg, items);
            ErrorCount(o.tokens) == (if o.setsError then 1 else 0)
            && ResultCount(o.tokens) == (if o.setsResult then 1 else 0)
            && !(o.setsError && o.setsResult)
            && (|o.calls| > 0 ==> !o.setsError && !o.setsResult)
  {
    var mi := Resolve(AsText(items[0]), MethodViewNames(reg.methods));
    if mi >= 0 {
      AnswerAtMostOnce(reg, items, mi);
    } else {
      OneTokenCounts(Expected(reg, items).tokens);
    }
  }

  /** Every array request the server handles is answered exactly once:
      after the echoed identifier, one error, or one result (the `null`
      one when nothing else was written; a callback that writes its own
      result is not modelled). */
  lemma ArrayRequestAnsweredOnce(reg: RegistryView, items: seq<JsonVal>)
    requires Dispatchable(reg, items)
    ensures var o := Expected(reg, items);
            var final := [Id(IdEcho(AsText(items[0])))] + o.tokens
                         + (if o.setsError || o.setsResult then [] else [NullResult]);
            ErrorCount(final) + ResultCount(final) == 1
  {
    var o := Expected(reg, items);
    var echo := [Id(IdEcho(AsText(items[0])))];
    ExpectedAtMostOnce(reg, items);
    assert ErrorCount(echo) == 0 && ResultCount(echo) == 0 by {
      ErrorCountAppend([], echo[0]);
      ResultCountAppend([], echo[0]);
      assert [] + [echo[0]] == echo;
    }
    CountsConcat(echo, o.tokens);
    if !(o.setsError || o.setsResult) {
      ErrorCountAppend(echo + o.tokens, NullResult);
      ResultCountAppend(echo + o.tokens, NullResult);
    } else {
      assert echo + o.tokens + [] == echo + o.tokens;
    }
  }

  // ---------------------------------------------------------------------
  // Streams

  /** `addServerStream`: a stream already in the list leaves it as it is. */
  function WithStream(ss: seq<nat>, s: nat): seq<nat>
  {
    if s in ss then ss else ss + [s]
  }

  predicate NoDuplicates(ss: seq<nat>)
  {
    forall i, j :: 0 <= i < j < |ss| ==> ss[i] != ss[j]
  }

  lemma AddStreamKeepsNoDuplicates(ss: seq<nat>, s: nat)
    requires NoDuplicates(ss)
    ensures NoDuplicates(WithStream(ss, s))
    ensures s in WithStream(ss, s)
    ensures s in ss ==> WithStream(ss, s) == ss
    ensures s !in ss ==> WithStream(ss, s) == ss + [s]
  {
  }

  /** `incrementServerStream`: the next stream, round robin. */
  function NextStream(i: nat, n: nat): (r: nat)
    requires n > 0
    ensures r < n
    ensures i < n ==> r == if i + 1 == n then 0 else i + 1
  {
    (i + 1) % n
  }

  /** The stream index after k requests. */
  function Rotate(i: nat, n: nat, k: nat): (r: nat)
    requires n > 0
  {
    if k == 0 then i else NextStream(Rotate(i, n, k - 1), n)
  }

  /** Up to a full turn, k requests move the index k places, wrapping
      around once. */
  lemma {:induction false} RotateAdvances(i: nat, n: nat, k: nat)
    requires 0 < n && i < n && k <= n
    ensures Rotate(i, n, k) == if i + k < n then i + k else i + k - n
  {
    if k > 0 {
      RotateAdvances(i, n, k - 1);
    }
  }

  /** Every stream is served within n requests, and after n requests the
      index is back where it started. */
  lemma EveryStreamServed(i: nat, n: nat, j: nat)
    requires i < n && j < n
    ensures Rotate(i, n, n) == i
    ensures exists k: nat :: k < n && Rotate(i, n, k) == j
  {
    RotateAdvances(i, n, n);
    var k := if i <= j then j - i else j + n - i;
    RotateAdvances(i, n, k);
    assert Rotate(i, n, k) == j;
  }

  // ---------------------------------------------------------------------
  // Saved variables

  /** A saved variable: its name and its slot. */
  datatype SavedEntry = SavedEntry(name: ConstantString, slot: Slot)

  /** `initializeEeprom`: the sentinel at index 0 receives the marker. */
  function WithSentinel(svs: seq<SavedEntry>, marker: Scalar): (r: seq<SavedEntry>)
    requires |svs| > 0
    ensures |r| == |svs| && r[1..] == svs[1..] && r[0].name == svs[0].name
    ensures svs[0].slot.ArrayLength() > 0 ==> r[0].slot.Get() == Some(marker)
  {
    svs[0 := svs[0].(slot := svs[0].slot.Set(marker).1)]
  }

  /** Writing the marker a second time changes nothing. */
  lemma SentinelIdempotent(svs: seq<SavedEntry>, marker: Scalar)
    requires |svs| > 0
    ensures WithSentinel(WithSentinel(svs, marker), marker) == WithSentinel(svs, marker)
  {
    var s := svs[0].slot;
    if |s.values| > 0 {
      assert s.Set(marker).1.Set(marker).1 == s.Set(marker).1;
    }
  }

  /** `resetDefaults`: every slot gets its defaults back. */
  function AllDefaults(svs: seq<SavedEntry>): (r: seq<SavedEntry>)
    ensures |r| == |svs|
    ensures forall i :: 0 <= i < |svs| ==>
              r[i].name == svs[i].name && r[i].slot.IsDefault() && r[i].slot.defaults == svs[i].slot.defaults
  {
    seq(|svs|, i requires 0 <= i < |svs| => svs[i].(slot := svs[i].slot.SetToDefault()))
  }

  // ---------------------------------------------------------------------
  // The registry

  /** `createMethod(name)`: a method already registered under the same
      object is replaced in place by a fresh one; otherwise the new method
      is appended. */
  function WithMethod(ms: seq<Method>, n: ConstantString): (r: seq<Method>)
    ensures var k := IndexOfName(MethodNames(ms), ByConstant(n));
            (k < 0 ==> r == ms + [NewMethod(n)]) && (k >= 0 ==> |r| == |ms| && r == ms[k := NewMethod(n)])
  {
    var k := IndexOfName(MethodNames(ms), ByConstant(n));
    if k < 0 then ms + [NewMethod(n)] else ms[k := NewMethod(n)]
  }

  /** Creating a method never registers the same name object twice. */
  lemma CreateMethodKeepsNamesDistinct(ms: seq<Method>, n: ConstantString)
    requires DistinctObjects(MethodNames(ms))
    ensures DistinctObjects(MethodNames(WithMethod(ms, n)))
    ensures IndexOfName(MethodNames(WithMethod(ms, n)), ByConstant(n)) >= 0
  {
    var k := IndexOfName(MethodNames(ms), ByConstant(n));
    var r := WithMethod(ms, n);
    var names := MethodNames(r);
    if k < 0 {
      assert names == MethodNames(ms) + [n];
      assert names[|ms|] == n;
    } else {
      assert forall i :: 0 <= i < |ms| ==> names[i] == (if i == k then n else MethodNames(ms)[i]);
      assert names[k] == n;
    }
  }

  /** The replies of the server, what it runs and which request it has. */
  class Server {
    // streams
    var streams: seq<nat>
    var streamIndex: nat
    // registry
    var methods: seq<Method>
    var parameters: seq<P.Parameter>
    // saved variables and the EEPROM sentinel
    var savedVariables: seq<SavedEntry>
    const eepromInitializedValue: Scalar
    var eepromUninitialized: bool
    var running: bool
    // the request being handled and its response
    var request: seq<JsonVal>
    var requestMethodIndex: int
    var parameterCount: int
    var error: bool
    var resultInResponse: bool
    var response: seq<Token>
    /** The user callbacks run so far, by id. */
    var executed: seq<nat>

    ghost predicate Valid()
      reads this
    {
      |streams| > 0 && streamIndex < |streams| && NoDuplicates(streams)
      && |savedVariables| > 0
      && -1 <= requestMethodIndex < |methods|
      && Closed()
    }

    /** Every parameter a method refers to is one of the server's own, as
        `createParameter` hands them out. */
    predicate Closed()
      reads this`methods, this`parameters
    {
      forall i, j :: 0 <= i < |methods| && 0 <= j < |methods[i].parameters| ==> methods[i].parameters[j] in parameters
    }

    /** `Server(stream)`: serves `stream`, registers the five reserved
        methods in order and the sentinel and serial number saved
        variables; the stored contents of both are whatever the EEPROM
        holds at power-on, only their defaults are fixed. */
    constructor (stream: nat, reserved: seq<ConstantString>, sentinelName: ConstantString,
                 marker: Scalar, serialName: ConstantString, serialDefault: Scalar)
      requires |reserved| == 5 && DistinctObjects(reserved)
      ensures Valid()
      ensures streams == [stream] && streamIndex == 0 && !running && eepromUninitialized
      ensures MethodNames(methods) == reserved && parameters == []
      ensures methods[0].callback == ReservedCallback(GetDeviceInfo)
      ensures methods[1].callback == ReservedCallback(GetMethodIds)
      ensures methods[2].callback == ReservedCallback(GetParameters)
      ensures methods[3].callback == ReservedCallback(Help)
      ensures methods[4].callback == ReservedCallback(VerboseHelp)
      ensures |savedVariables| == 2 && savedVariables[0].name == sentinelName
      ensures savedVariables[0].slot.defaults == [marker] && savedVariables[0].slot.ArrayLength() == 1
      ensures savedVariables[1].name == serialName
      ensures savedVariables[1].slot.defaults == [serialDefault] && savedVariables[1].slot.ArrayLength() == 1
      ensures eepromInitializedValue == marker
      ensures requestMethodIndex == -1 && parameterCount == 0 && !error && !resultInResponse
      ensures response == [] && executed == []
    {
      streams, streamIndex := [stream], 0;
      parameters := [];
      var stored: Scalar := *;
      var serialStored: Scalar := *;
      var saved := [SavedEntry(sentinelName, Slot([stored], [marker])),
                    SavedEntry(serialName, Slot([serialStored], [serialDefault]))];
      savedVariables := saved;
      eepromInitializedValue := marker;
      eepromUninitialized, running := true, false;
      request, requestMethodIndex, parameterCount := [], -1, 0;
      error, resultInResponse, response, executed := false, false, [], [];
      methods := [];
      new;
      var ops := [GetDeviceInfo, GetMethodIds, GetParameters, Help, VerboseHelp];
      var i := 0;
      while i < 5
        invariant 0 <= i <= 5 && |methods| == i
        invariant MethodNames(methods) == reserved[..i]
        invariant forall k :: 0 <= k < i ==> methods[k].callback == ReservedCallback(ops[k]) && methods[k].parameters == []
        invariant streams == [stream] && streamIndex == 0 && requestMethodIndex == -1
        invariant parameters == [] && savedVariables == saved && eepromUninitialized && !running
        invariant parameterCount == 0 && !error && !resultInResponse && response == [] && executed == []
      {
        assert forall k :: 0 <= k < i ==> !SameObject(reserved[k], reserved[i]);
        var index := CreateMethod(reserved[i]);
        methods := methods[index := methods[index].(callback := ReservedCallback(ops[i]))];
        assert reserved[..i + 1] == reserved[..i] + [reserved[i]];
        i := i + 1;
      }
    }

    // -------------------------------------------------------------------
    // Lookups

    function ParameterObjects(): set<P.Parameter>
      reads this`parameters
    {
      set p | p in parameters
    }

    /** The registry as the dispatcher sees it. */
    function View(): (v: RegistryView)
      requires Closed()
      reads this`methods, this`parameters, ParameterObjects()
      ensures |v.methods| == |methods|
    {
      RegistryView(MethodViews(methods, ParameterObjects()), States(parameters))
    }

    /** The names the view shows are the registry's. */
    lemma ViewNames()
      requires Closed()
      ensures MethodViewNames(View().methods) == MethodNames(methods)
      ensures View().parameters == States(parameters)
      ensures SchemaNames(View().parameters) == Names(parameters)
    {
      MethodViewsNames(methods, ParameterObjects());
    }

    /** The view of method `i` is the view of its record. */
    lemma ViewOfMethod(i: nat)
      requires Closed() && i < |methods|
      ensures View().methods[i] == ViewOf(methods[i])
      ensures SchemaNames(View().methods[i].parameters) == Names(methods[i].parameters)
    {
      MethodViewsPointwise(methods, ParameterObjects(), i);
      ViewOfNames(methods[i]);
    }

    /** `findMethodIndex`: the first method of that name, or -1. Its body
        and `Method::compareName` are not part of this model; the search is
        taken to be the one `findParameterIndex` performs, by pointer
        identity for a constant string and case-insensitively for text. */
    function FindMethodIndex(q: NameQuery): (r: int)
      reads this`methods
      ensures -1 <= r < |methods|
      ensures r >= 0 ==> Matches(methods[r].name, q)
      ensures forall j :: 0 <= j < |methods| && (r < 0 || j < r) ==> !Matches(methods[j].name, q)
    {
      var ns := MethodNames(methods);
      assert forall j :: 0 <= j < |ns| ==> ns[j] == methods[j].name;
      IndexOfName(ns, q)
    }

    /** `findParameterIndex`, both overloads. */
    function FindParameterIndex(q: NameQuery): (r: int)
      reads this`parameters, ParameterObjects()
      ensures -1 <= r < |parameters|
      ensures r >= 0 ==> Matches(parameters[r].name, q)
      ensures forall j :: 0 <= j < |parameters| && (r < 0 || j < r) ==> !Matches(parameters[j].name, q)
    {
      var ns := Names(parameters);
      assert forall j :: 0 <= j < |ns| ==> ns[j] == parameters[j].name;
      IndexOfName(ns, q)
    }

    /** `findMethodParameterIndex`, both overloads: -1 for a negative
        method index; the method index itself is not bounds-checked. */
    function FindMethodParameterIndex(mi: int, q: NameQuery): (r: int)
      requires mi < |methods| && Closed()
      reads this`methods, this`parameters, ParameterObjects()
      ensures mi < 0 ==> r == -1
      ensures mi >= 0 ==>
                -1 <= r < methods[mi].ParameterCount()
                && (r >= 0 ==> Matches(methods[mi].parameters[r].name, q))
                && forall j :: 0 <= j < methods[mi].ParameterCount() && (r < 0 || j < r) ==>
                                 !Matches(methods[mi].parameters[j].name, q)
    {
      if mi < 0 then -1
      else
        var ns := Names(methods[mi].parameters);
        assert forall j :: 0 <= j < |ns| ==> ns[j] == methods[mi].parameters[j].name;
        IndexOfName(ns, q)
    }

    /** `getParameterValue(name)`: the argument at the parameter's position
        plus one. A name the method does not have gives -1 + 1 = 0, the
        method identifier itself. */
    function GetParameterValue(n: ConstantString): (r: JsonVal)
      requires requestMethodIndex < |methods| && Closed()
      reads this`requestMethodIndex, this`methods, this`request, this`parameters, ParameterObjects()
      ensures var pi := FindMethodParameterIndex(requestMethodIndex, ByConstant(n));
              r == Element(request, pi + 1)
    {
      Element(request, FindMethodParameterIndex(requestMethodIndex, ByConstant(n)) + 1)
    }

    /** With distinct parameter names, each parameter reads its own
        argument. */
    lemma ParameterReadsItsArgument(i: nat)
      requires 0 <= requestMethodIndex < |methods| && Closed()
      requires i < methods[requestMethodIndex].ParameterCount() && i + 1 < |request|
      requires DistinctObjects(Names(methods[requestMethodIndex].parameters))
      ensures GetParameterValue(methods[requestMethodIndex].parameters[i].name) == request[i + 1]
    {
      var ps := methods[requestMethodIndex].parameters;
      IndexOfOwnName(Names(ps), i);
    }

    /** A name that is not a parameter of the method reads element 0 of the
        request, the method identifier, as if it were an argument. */
    lemma UnknownParameterReadsMethodIdentifier(n: ConstantString)
      requires 0 <= requestMethodIndex < |methods| && |request| > 0 && Closed()
      requires forall p :: p in methods[requestMethodIndex].parameters ==> !SameObject(p.name, n)
      ensures GetParameterValue(n) == request[0]
    {
      var ps := methods[requestMethodIndex].parameters;
      assert forall j :: 0 <= j < |ps| ==> ps[j] in ps;
    }

    // -------------------------------------------------------------------
    // Registry operations

    /** `createMethod(name)`, returning the position of the new method. */
    method CreateMethod(n: ConstantString) returns (index: nat)
      modifies this`methods
      ensures methods == WithMethod(old(methods), n)
      ensures index < |methods| && methods[index] == NewMethod(n)
      ensures var k := old(FindMethodIndex(ByConstant(n)));
              (k < 0 ==> index == |old(methods)|) && (k >= 0 ==> index == k)
    {
      var k := FindMethodIndex(ByConstant(n));
      if k < 0 {
        methods := methods + [NewMethod(n)];
        index := |methods| - 1;
      } else {
        methods := methods[k := NewMethod(n)];
        index := k;
      }
    }

    /** `createParameter(name)`: a parameter already registered under the
        same object is reset in place, so methods that refer to it see the
        fresh schema; otherwise a new parameter is appended. */
    method CreateParameter(n: ConstantString) returns (p: P.Parameter)
      modifies this`parameters, ParameterObjects()
      ensures p.Fresh(n)
      ensures var k := old(FindParameterIndex(ByConstant(n)));
              (k < 0 ==> fresh(p) && parameters == old(parameters) + [p])
              && (k >= 0 ==> parameters == old(parameters) && p == parameters[k])
      ensures forall q :: q in old(parameters) && q != p ==> q.State() == old(q.State())
    {
      var k := FindParameterIndex(ByConstant(n));
      if k < 0 {
        p := new P.Parameter.Named(n);
        parameters := parameters + [p];
      } else {
        p := parameters[k];
        p.Reset(n);
      }
    }

    /** The setup calls of `Method` the firmware makes through the reference
        `createMethod` returns: attach a user callback, add a parameter. */
    method AttachCallback(index: nat, id: nat)
      requires index < |methods|
      modifies this`methods
      ensures methods == old(methods)[index := old(methods)[index].(callback := UserCallback(id))]
    {
      methods := methods[index := methods[index].(callback := UserCallback(id))];
    }

    method AddParameter(index: nat, p: P.Parameter)
      requires index < |methods| && p in parameters
      modifies this`methods
      ensures methods == old(methods)[index := old(methods)[index].(parameters := old(methods)[index].parameters + [p])]
    {
      methods := methods[index := methods[index].(parameters := methods[index].parameters + [p])];
    }

    // -------------------------------------------------------------------
    // Streams, saved variables, running

    /** `addServerStream(stream)` */
    method AddServerStream(s: nat)
      modifies this`streams
      ensures streams == WithStream(old(streams), s)
    {
      var found := false;
      var i := 0;
      while i < |streams|
        invariant 0 <= i <= |streams|
        invariant found <==> s in streams[..i]
      {
        if streams[i] == s {
          found := true;
        }
        assert streams[..i + 1] == streams[..i] + [streams[i]];
        i := i + 1;
      }
      assert streams[..i] == streams;
      if !found {
        streams := streams + [s];
      }
    }

    /** `incrementServerStream` */
    method IncrementServerStream()
      requires |streams| > 0
      modifies this`streamIndex
      ensures streamIndex == NextStream(old(streamIndex), |streams|)
    {
      streamIndex := (streamIndex + 1) % |streams|;
    }

    /** `resetDefaults` */
    method ResetDefaults()
      modifies this`savedVariables
      ensures savedVariables == AllDefaults(old(savedVariables))
    {
      var i := 0;
      while i < |savedVariables|
        invariant 0 <= i <= |savedVariables| == |old(savedVariables)|
        invariant forall k :: 0 <= k < |savedVariables| ==>
                    savedVariables[k] == (if k < i then AllDefaults(old(savedVariables))[k] else old(savedVariables)[k])
      {
        savedVariables := savedVariables[i := savedVariables[i].(slot := savedVariables[i].slot.SetToDefault())];
        i := i + 1;
      }
    }

    /** `initializeEeprom`: writes the marker into the sentinel and clears
        the flag; the other saved variables keep their contents. */
    method InitializeEeprom()
      requires |savedVariables| > 0
      modifies this`savedVariables, this`eepromUninitialized
      ensures savedVariables == WithSentinel(old(savedVariables), eepromInitializedValue)
      ensures !eepromUninitialized
    {
      var r := savedVariables[0].slot.Set(eepromInitializedValue);
      savedVariables := savedVariables[0 := savedVariables[0].(slot := r.1)];
      eepromUninitialized := false;
    }

    /** `startServer`: the sentinel is written on the first start only. */
    method StartServer()
      requires |savedVariables| > 0
      modifies this`savedVariables, this`eepromUninitialized, this`running
      ensures running && !eepromUninitialized
      ensures savedVariables == if old(eepromUninitialized)
                                then WithSentinel(old(savedVariables), eepromInitializedValue)
                                else old(savedVariables)
    {
      if eepromUninitialized {
        InitializeEeprom();
      }
      running := true;
    }

    method StopServer()
      modifies this`running
      ensures !running
    {
      running := false;
    }

    // -------------------------------------------------------------------
    // Answering a request

    /** The effect of one step on the response: `extra` appended, `error_`
        and `result_in_response_` raised as given. */
    twostate predicate Wrote(extra: seq<Token>, setsError: bool, setsResult: bool)
      reads this`error, this`resultInResponse, this`response
    {
      response == old(response) + extra
      && error == (old(error) || setsError)
      && resultInResponse == (old(resultInResponse) || setsResult)
    }

    /** `processMethodString(s)`: echoes the identifier and resolves it;
        an identifier outside the registry is an error and gives -1. */
    method ProcessMethodString(s: string) returns (index: int)
      modifies this`error, this`response
      ensures index == Resolve(s, MethodNames(methods))
      ensures index >= 0 ==> response == old(response) + [Id(IdEcho(s))]
      ensures index < 0 ==> response == old(response) + [Id(IdEcho(s))] + [Error(MethodNotFound, NoData)]
      ensures error == (old(error) || index < 0)
    {
      var methodIndex: int;
      var methodId := Atoi(s);
      if s == "0" {
        methodIndex := 0;
        response := response + [Id(JLong(0))];
      } else if methodId > 0 {
        methodIndex := methodId;
        response := response + [Id(JLong(methodId))];
      } else {
        methodIndex := FindMethodIndex(ByText(s));
        response := response + [Id(JString(s))];
      }
      if methodIndex < 0 || methodIndex >= |methods| {
        error := true;
        response := response + [Error(MethodNotFound, NoData)];
        methodIndex := -1;
      }
      index := methodIndex;
    }

    /** `processParameterString(s)` for the request's method: resolves a
        parameter of that method; one outside its list is an error and
        gives -1. */
    method ProcessParameterString(s: string) returns (index: int)
      requires 0 <= requestMethodIndex < |methods| && Closed()
      modifies this`error, this`response
      ensures index == Resolve(s, Names(methods[requestMethodIndex].parameters))
      ensures response == old(response) + (if index < 0 then [Error(InvalidParams, ParameterNotFound)] else [])
      ensures error == (old(error) || index < 0)
    {
      var parameterIndex: int;
      var parameterId := Atoi(s);
      if s == "0" {
        parameterIndex := 0;
      } else if parameterId > 0 {
        parameterIndex := parameterId;
      } else {
        parameterIndex := FindMethodParameterIndex(requestMethodIndex, ByText(s));
      }
      if parameterIndex < 0 || parameterIndex >= methods[requestMethodIndex].ParameterCount() {
        error := true;
        response := response + [Error(InvalidParams, ParameterNotFound)];
        parameterIndex := -1;
      }
      index := parameterIndex;
    }

    /** `checkParameter(i, value)` for parameter `i` of the request's
        method: the verdict of `Check`, and one error entry when it fails. */
    method CheckParameter(pi: nat, v: JsonVal) returns (ok: bool)
      requires 0 <= requestMethodIndex < |methods| && pi < methods[requestMethodIndex].ParameterCount()
      modifies this`error, this`response
      ensures var s := methods[requestMethodIndex].parameters[pi].State();
              (ok <==> Check(s, v) == Accepted)
              && error == (old(error) || !ok)
              && response == old(response) + (if ok then [] else [Error(InvalidParams, CheckError(s, Check(s, v)))])
    {
      var p := methods[requestMethodIndex].parameters[pi];
      var outOfRange, objectInvalid, arrayInvalid := false, false, false;
      if p.valueType == LongType {
        if p.rangeIsSet {
          var value := AsLong(v);
          if value < p.minL || value > p.maxL {
            outOfRange := true;
          }
        }
      } else if p.valueType == DoubleType {
        if p.rangeIsSet {
          var value := AsDouble(v);
          if value < p.minD || value > p.maxD {
            outOfRange := true;
          }
        }
      } else if p.valueType == ObjectType {
        if !v.JObject? {
          objectInvalid := true;
        }
      } else if p.valueType == ArrayType {
        if !v.JArray? {
          arrayInvalid := true;
        } else if p.arrayElementType == LongType {
          if p.rangeIsSet {
            var at;
            outOfRange, at := LongElementsOutOfRange(v.items, p.minL, p.maxL);
          }
        } else if p.arrayElementType == DoubleType {
          if p.rangeIsSet {
            var at;
            outOfRange, at := DoubleElementsOutOfRange(v.items, p.minD, p.maxD);
          }
        }
      }
      if outOfRange {
        error := true;
        response := response + [Error(InvalidParams, ParameterOutOfRange(p.name, p.valueType == ArrayType))];
      } else if objectInvalid {
        error := true;
        response := response + [Error(InvalidParams, InvalidJsonObject(p.name))];
      } else if arrayInvalid {
        error := true;
        response := response + [Error(InvalidParams, InvalidJsonArray(p.name))];
      }
      ok := !outOfRange && !objectInvalid && !arrayInvalid;
    }

    /** `checkParameters`: checks the arguments in order and stops at the
        first one rejected, whose error is the only one written; when all
        pass, `parameter_count_` becomes the number of arguments. */
    method CheckParameters() returns (ok: bool)
      requires 0 <= requestMethodIndex < |methods| && |request| > 0
      requires |request| - 1 == methods[requestMethodIndex].ParameterCount()
      modifies this`error, this`response, this`parameterCount
      ensures var ss := States(methods[requestMethodIndex].parameters);
              var k := FirstRejected(ss, request[1..]);
              (ok <==> k == |request| - 1)
              && (ok ==> parameterCount == |request| - 1 && response == old(response) && error == old(error))
              && (!ok ==> parameterCount == old(parameterCount) && error
                          && response == old(response) + [Error(InvalidParams, CheckError(ss[k], Check(ss[k], request[k + 1])))])
    {
      ghost var ss := States(methods[requestMethodIndex].parameters);
      ghost var args := request[1..];
      var i := 0;
      while i < |request| - 1
        invariant 0 <= i <= |request| - 1
        invariant forall j :: 0 <= j < i ==> Check(ss[j], args[j]) == Accepted
        invariant response == old(response) && error == old(error) && parameterCount == old(parameterCount)
      {
        assert args[i] == request[i + 1];
        var accepted := CheckParameter(i, request[i + 1]);
        if !accepted {
          FirstRejectedIsFirst(ss, args, i);
          return false;
        }
        i := i + 1;
      }
      FirstRejectedIsFirst(ss, args, i);
      parameterCount := i;
      ok := true;
    }

    /** `getMethodIdsCallback` */
    method GetMethodIdsCallback()
      requires Closed()
      modifies this`resultInResponse, this`response
      ensures response == old(response) + [ResultKey] + MethodIdEntries(View().methods)
      ensures resultInResponse
    {
      ghost var v := View();
      resultInResponse := true;
      response := response + [ResultKey];
      ghost var base := response;
      var i := 0;
      while i < |methods|
        invariant 0 <= i <= |methods|
        invariant response == base + MethodIdEntries(v.methods[..i]) && resultInResponse
      {
        ViewOfMethod(i);
        assert v.methods[..i + 1][..i] == v.methods[..i];
        ghost var before := MethodIdEntries(v.methods[..i]);
        if !methods[i].IsReserved() {
          response := response + [MethodIdEntry(methods[i].name, i)];
          assert base + before + [MethodIdEntry(methods[i].name, i)]
                 == base + (before + [MethodIdEntry(methods[i].name, i)]);
        } else {
          assert before + [] == before;
        }
        i := i + 1;
      }
      assert v.methods[..i] == v.methods;
    }

    /** `getParametersCallback` */
    method GetParametersCallback()
      modifies this`resultInResponse, this`response
      ensures response == old(response) + [ResultKey] + ParameterEntries(Names(parameters))
      ensures resultInResponse
    {
      resultInResponse := true;
      response := response + [ResultKey];
      ghost var base := response;
      var i := 0;
      while i < |parameters|
        invariant 0 <= i <= |parameters|
        invariant response == base + ParameterEntries(Names(parameters)[..i]) && resultInResponse
      {
        assert ParameterEntries(Names(parameters)[..i + 1])
               == ParameterEntries(Names(parameters)[..i]) + [ParameterInfo(parameters[i].name)];
        response := response + [ParameterInfo(parameters[i].name)];
        i := i + 1;
      }
      assert Names(parameters)[..i] == Names(parameters);
    }

    /** `writeResultKeyToResponse` */
    method WriteResultKey()
      modifies this`resultInResponse, this`response
      ensures response == old(response) + [ResultKey] && resultInResponse
    {
      response := response + [ResultKey];
      resultInResponse := true;
    }

    /** Writes a help reply: its entries, and the flag of its kind. */
    method ApplyReply(r: Reply)
      modifies this`error, this`resultInResponse, this`response
      ensures Wrote(r.tokens, r.isError, !r.isError)
    {
      response := response + r.tokens;
      if r.isError {
        error := true;
      } else {
        resultInResponse := true;
      }
    }

    /** The reserved callbacks bound by `attachReservedCallback`. */
    method RunReserved(op: ReservedOp)
      requires |request| > 0 && Closed()
      modifies this`error, this`resultInResponse, this`response
      ensures var reply := ReservedReply(old(View()), request, op);
              Wrote(reply.tokens, reply.isError, !reply.isError)
    {
      if op == GetMethodIds {
        GetMethodIdsCallback();
      } else if op == GetParameters {
        GetParametersCallback();
        assert Names(parameters) == SchemaNames(View().parameters);
      } else if op == GetDeviceInfo {
        WriteResultKey();
        response := response + [DeviceInfo];
      } else {
        ApplyReply(HelpReply(View(), request, op == VerboseHelp));
      }
    }

    /** `executeMethod`: a reserved method writes its reply; a user method
        runs its callback, which is recorded. */
    method ExecuteMethod()
      requires 0 <= requestMethodIndex < |methods| && |request| > 0 && Closed()
      modifies this`error, this`resultInResponse, this`response, this`executed
      ensures var m := methods[requestMethodIndex];
              if m.IsReserved() then
                var reply := ReservedReply(old(View()), request, m.callback.op);
                Wrote(reply.tokens, reply.isError, !reply.isError) && executed == old(executed)
              else Wrote([], false, false) && executed == old(executed) + UserCalls(m.callback)
    {
      var m := methods[requestMethodIndex];
      if m.IsReserved() {
        RunReserved(m.callback.op);
      } else if m.callback.UserCallback? {
        executed := executed + [m.callback.id];
      }
    }

    /** `processRequestArray`: echoes and resolves the method identifier,
        then writes what `Expected` describes of the registry `reg`. */
    method ProcessRequestArray(ghost reg: RegistryView)
      requires Closed() && reg == View() && Dispatchable(reg, request)
      modifies this`requestMethodIndex, this`parameterCount, this`error, this`resultInResponse
      modifies this`response, this`executed
      ensures requestMethodIndex == Resolve(AsText(request[0]), MethodNames(methods))
      ensures var o := Expected(reg, request);
              response == old(response) + [Id(IdEcho(AsText(request[0])))] + o.tokens
              && error == (old(error) || o.setsError)
              && resultInResponse == (old(resultInResponse) || o.setsResult)
              && executed == old(executed) + o.calls
              && parameterCount == (if o.countsArguments then |request| - 1 else old(parameterCount))
    {
      ViewNames();
      var mi := ProcessMethodString(AsText(request[0]));
      assert View() == reg;
      requestMethodIndex := mi;
      assert View() == reg;
      if mi >= 0 {
        RespondToMethod(reg);
      }
    }

    /** The branches of `processRequestArray` once the method resolved. */
    method RespondToMethod(ghost reg: RegistryView)
      requires Closed() && reg == View() && requestMethodIndex >= 0 && Answerable(reg, request, requestMethodIndex)
      modifies this`parameterCount, this`error, this`resultInResponse, this`response, this`executed
      ensures var a := Answer(reg, request, requestMethodIndex);
              Wrote(a.tokens, a.setsError, a.setsResult)
              && executed == old(executed) + a.calls
              && parameterCount == (if a.countsArguments then |request| - 1 else old(parameterCount))
    {
      var mi := requestMethodIndex;
      var count := |request| - 1;
      ViewOfMethod(mi);
      if count == 1 && AsText(request[1]) == "?" {
        response := response + [ResultKey, MethodInfo(mi, false)];
        resultInResponse := true;
      } else if count == 1 && AsText(request[1]) == "??" {
        response := response + [ResultKey, MethodInfo(mi, true)];
        resultInResponse := true;
      } else if count == 2 && (AsText(request[2]) == "?" || AsText(request[2]) == "??") {
        RespondToParameterHelp(reg);
      } else if methods[mi].IsReserved() {
        ExecuteMethod();
      } else if count != methods[mi].ParameterCount() {
        error := true;
        response := response + [Error(InvalidParams, IncorrectParameterNumber(count, methods[mi].ParameterCount()))];
      } else {
        RespondToCheckedCall(reg);
      }
    }

    /** `method parameter ?`: the parameter is resolved among the method's
        own and described. */
    method RespondToParameterHelp(ghost reg: RegistryView)
      requires Closed() && reg == View() && requestMethodIndex >= 0 && Answerable(reg, request, requestMethodIndex)
      requires Classify(request, reg.methods[requestMethodIndex]) == ParameterHelpRequest
      modifies this`error, this`resultInResponse, this`response
      ensures var a := Answer(reg, request, requestMethodIndex);
              Wrote(a.tokens, a.setsError, a.setsResult)
    {
      var mi := requestMethodIndex;
      ViewOfMethod(mi);
      var pi := ProcessParameterString(AsText(request[1]));
      var p := methods[mi].parameters[pi];
      assert p.name == reg.methods[mi].parameters[pi].name;
      response := response + [ResultKey, ParameterInfo(p.name)];
      resultInResponse := true;
    }

    /** A user method called with the right number of arguments: they are
        checked, and the callback runs only when all pass. */
    method RespondToCheckedCall(ghost reg: RegistryView)
      requires Closed() && 0 <= requestMethodIndex < |methods| && Answerable(reg, request, requestMethodIndex)
      requires reg.methods[requestMethodIndex] == ViewOf(methods[requestMethodIndex])
      requires Classify(request, reg.methods[requestMethodIndex]) == CheckedCall
      modifies this`parameterCount, this`error, this`resultInResponse, this`response, this`executed
      ensures var a := Answer(reg, request, requestMethodIndex);
              Wrote(a.tokens, a.setsError, a.setsResult)
              && executed == old(executed) + a.calls
              && parameterCount == (if a.countsArguments then |request| - 1 else old(parameterCount))
    {
      ghost var m := methods[requestMethodIndex];
      ghost var ss := States(m.parameters);
      CheckedCallAnswer(reg, request, requestMethodIndex, ss, m.callback);
      ghost var k := FirstRejected(ss, request[1..]);
      var ok := CheckParameters();
      assert States(m.parameters) == ss;
      if ok {
        assert response == old(response) && error == old(error) && parameterCount == |request| - 1;
        assert !methods[requestMethodIndex].IsReserved();
        ExecuteMethod();
        assert response == old(response) && error == old(error) && resultInResponse == old(resultInResponse)
               && executed == old(executed) + UserCalls(m.callback);
      } else {
        assert response == old(response) + [Error(InvalidParams, CheckError(ss[k], Check(ss[k], request[k + 1])))];
      }
    }

    /** The array branch of `handleRequest`: a fresh response holding the
        echoed identifier, the entries `Expected` names and, when neither a
        result nor an error was written, a `null` result. */
    method AnswerArray(items: seq<JsonVal>)
      requires Closed() && Dispatchable(View(), items)
      modifies this`request, this`requestMethodIndex, this`parameterCount, this`error
      modifies this`resultInResponse, this`response, this`executed
      ensures requestMethodIndex == Resolve(AsText(items[0]), MethodNames(methods))
      ensures var o := Expected(old(View()), items);
              request == items && error == o.setsError && resultInResponse == o.setsResult
              && executed == old(executed) + o.calls
              && response == [Id(IdEcho(AsText(items[0])))] + o.tokens
                             + (if o.setsError || o.setsResult then [] else [NullResult])
              && parameterCount == (if o.countsArguments then |items| - 1 else old(parameterCount))
    {
      ghost var reg := View();
      error, resultInResponse := false, false;
      response := [];
      request := items;
      assert View() == reg;
      ProcessRequestArray(reg);
      ghost var o := Expected(reg, items);
      assert response == [Id(IdEcho(AsText(items[0])))] + o.tokens by {
        assert [] + [Id(IdEcho(AsText(items[0])))] == [Id(IdEcho(AsText(items[0])))];
      }
      if !error && !resultInResponse {
        response := response + [NullResult];
      } else {
        assert response + [] == response;
      }
    }

    /** `handleRequest`: a running server with input available reads one
        request and writes one response; in every case the next stream is
        served next. An array request is answered as `AnswerArray`
        describes; a request framed as an object is always an error. */
    method HandleRequest(input: Input)
      requires Valid()
      requires input.ArrayText? ==> Dispatchable(View(), input.items)
      modifies this`request, this`requestMethodIndex, this`parameterCount, this`error
      modifies this`resultInResponse, this`response, this`executed, this`streamIndex
      ensures Valid()
      ensures streamIndex == NextStream(old(streamIndex), |streams|)
      ensures !running || input.NothingAvailable? || input.NothingRead? ==>
                response == old(response) && error == old(error) && executed == old(executed)
                && request == old(request) && requestMethodIndex == old(requestMethodIndex)
                && parameterCount == old(parameterCount) && resultInResponse == old(resultInResponse)
      ensures running && input.TooLong? ==>
                error && response == [Error(ServerError, RequestLength)]
                && resultInResponse == old(resultInResponse) && request == old(request)
      ensures running && input.ObjectText? ==>
                error && !resultInResponse && response == [Error(ServerError, ObjectRequest)]
                && request == old(request)
      ensures running && input.Unparsable? ==>
                error && !resultInResponse && response == [Error(ParseError, RequestText(input.text))]
      ensures running && !input.ArrayText? ==>
                executed == old(executed) && requestMethodIndex == old(requestMethodIndex)
                && parameterCount == old(parameterCount)
      ensures running && input.ArrayText? ==>
                var o := Expected(old(View()), input.items);
                request == input.items && error == o.setsError && resultInResponse == o.setsResult
                && executed == old(executed) + o.calls
                && response == [Id(IdEcho(AsText(input.items[0])))] + o.tokens
                               + (if o.setsError || o.setsResult then [] else [NullResult])
                && requestMethodIndex == Resolve(AsText(input.items[0]), MethodNames(methods))
                && parameterCount == (if o.countsArguments then |input.items| - 1 else old(parameterCount))
    {
      if running && !input.NothingAvailable? {
        if input.TooLong? {
          error := true;
          response := [Error(ServerError, RequestLength)];
        } else if input.ObjectText? {
          error, resultInResponse := true, false;
          response := [Error(ServerError, ObjectRequest)];
        } else if input.Unparsable? {
          error, resultInResponse := true, false;
          response := [Error(ParseError, RequestText(input.text))];
        } else if input.ArrayText? {
          AnswerArray(input.items);
        }
      }
      IncrementServerStream();
    }
  }

  /** What the stream delivers for one call of `handleRequest`. */
  datatype Input =
    | NothingAvailable          // `available()` is 0
    | NothingRead               // the read returned 0 bytes
    | TooLong                   // the read reported a request too long for the buffer
    | ObjectText                // the request is framed as an object
    | Unparsable(text: string)  // the text is not a JSON array
    | ArrayText(items: seq<JsonVal>)
}
