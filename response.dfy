/** The response the server writes for one request, as the sequence of
    entries it puts into the response object. The JSON text itself (keys,
    nesting, compact or pretty printing) is not modelled; each entry stands
    for one write of the source. */
module Response {
  import opened Strings
  import opened Json

  /** The message and code pair of an error object. */
  datatype ErrorKind = ServerError | ParseError | MethodNotFound | InvalidParams

  /** The `data` member of an error object. */
  datatype ErrorData =
    | NoData
    | Data(v: JsonVal)
    | ObjectRequest
    | RequestLength
    | RequestText(text: string)
    | IncorrectParameterNumber(given: int, needed: int)
    | ParameterNotFound
    | ParameterOutOfRange(name: ConstantString, element: bool)
    | InvalidJsonObject(name: ConstantString)
    | InvalidJsonArray(name: ConstantString)

  datatype Token =
    | Id(id: JsonVal)              // the request's method identifier, echoed
    | Error(kind: ErrorKind, data: ErrorData)
    | ResultKey                    // the `result` key, its value follows
    | Result(value: JsonVal)       // `result` with a value
    | NullResult                   // `result: null`
    | MethodInfo(index: nat, verbose: bool)
    | ParameterInfo(name: ConstantString)
    | MethodIdEntry(name: ConstantString, index: nat)
    | DeviceInfo
    | Listing(verbose: bool)       // help's device, method and parameter listing

  /** How many error objects a response holds. */
  function ErrorCount(log: seq<Token>): nat
  {
    if log == [] then 0
    else ErrorCount(log[..|log| - 1]) + (if log[|log| - 1].Error? then 1 else 0)
  }

  /** How many `result` members a response holds. */
  function ResultCount(log: seq<Token>): nat
  {
    if log == [] then 0
    else ResultCount(log[..|log| - 1])
         + (if log[|log| - 1].Result? || log[|log| - 1].ResultKey? || log[|log| - 1].NullResult? then 1 else 0)
  }

  lemma ErrorCountAppend(log: seq<Token>, t: Token)
    ensures ErrorCount(log + [t]) == ErrorCount(log) + (if t.Error? then 1 else 0)
  {
    assert (log + [t])[..|log + [t]| - 1] == log;
  }

  lemma ResultCountAppend(log: seq<Token>, t: Token)
    ensures ResultCount(log + [t])
            == ResultCount(log) + (if t.Result? || t.ResultKey? || t.NullResult? then 1 else 0)
  {
    assert (log + [t])[..|log + [t]| - 1] == log;
  }
}
