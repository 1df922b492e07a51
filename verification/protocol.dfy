/** The messages exchanged between the page and the worker. */
module Protocol {
  import opened Js
  import opened SqlJs

  /** The `data` of an incoming message; `verb` is its `method` property. The
      reply port travels beside it. */
  datatype Request = Request(verb: Option<string>, sql: string, params: Option<Params>)

  /** The branches the handler chooses between. */
  datatype Method = ExecuteMethod | RunMethod | QueryMethod | OtherMethod

  /** The wire name of a recognised method. */
  function MethodName(m: Method): string
    requires m != OtherMethod
  {
    match m
    case ExecuteMethod => "execute"
    case RunMethod => "run"
    case QueryMethod => "query"
  }

  /** The branch a request takes: `data.method` compared with `===` to each
      recognised name, in the handler's order. */
  function Route(verb: Option<string>): (m: Method)
    ensures m != OtherMethod ==> verb == Defined(MethodName(m))
    ensures m == OtherMethod <==>
              forall k: Method :: k != OtherMethod ==> verb != Defined(MethodName(k))
  {
    if verb == Defined("execute") then ExecuteMethod
    else if verb == Defined("run") then RunMethod
    else if verb == Defined("query") then QueryMethod
    else OtherMethod
  }

  /** `data.method` as string concatenation renders it. */
  function MethodText(verb: Option<string>): string
  {
    match verb
    case Undefined => "undefined"
    case Defined(s) => s
  }

  /** The error text of the fall-through branch. */
  function UnknownMethodMessage(verb: Option<string>): string
  {
    "Unknown method: " + MethodText(verb)
  }

  /** The error text for the method name used in the worked example of an
      unknown first message. */
  lemma UnknownDeleteEverything()
    ensures UnknownMethodMessage(Defined("delete_everything")) == "Unknown method: delete_everything"
  {
  }

  /** `data.params || []`. */
  function ParamsOrEmpty(params: Option<Params>): Params
  {
    match params
    case Undefined => Positional([])
    case Defined(ps) => ps
  }

  /** The `result` of a successful reply, per method. */
  datatype Payload =
    | ResultSets(sets: seq<ResultSet>)   // execute: what db.exec returned
    | Changes(changes: int)              // run: { changes }
    | Objects(rows: seq<Row>)            // query: the collected rows

  /** A message posted on the reply port: `{ result }` or `{ error }`. */
  datatype Reply = Result(payload: Payload) | Error(message: string)
}
