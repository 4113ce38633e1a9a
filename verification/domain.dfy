/** The entities the schema router works on: request data, schemas and handlers
    (known only by identity), route definitions, route tables, responses and the
    errors that reach the fallback stages (src/index.ts). */
module Domain {
  import opened Wrappers

  /** A JSON-like request datum: a parsed body payload, a query object or a
      path-parameter object. The router never looks inside it. */
  datatype Value =
    | Null
    | Bool(b: bool)
    | Num(n: int)
    | Str(s: string)
    | Arr(items: seq<Value>)
    | Obj(fields: seq<(string, Value)>)

  /** One problem reported by the schema engine. The router passes issues on
      untouched, so their contents are opaque to it. */
  datatype Issue = Issue(path: seq<string>, message: string)

  /** The result of a schema's safe-parse: the (possibly coerced) data on
      success, the list of issues on failure. */
  datatype ParseResult = Parsed(data: Value) | Failed(issues: seq<Issue>)

  /** A schema object, identified by name; what it accepts is given by a SafeParse. */
  datatype Schema = Schema(name: string)

  /** The behaviour of every schema: a total function from a schema and an input
      value to a parse result. Safe-parse never throws. */
  type SafeParse = (Schema, Value) -> ParseResult

  /** A user request handler, identified by name. */
  datatype Handler = Handler(name: string)

  /** One route: an optional schema per input source and the required handler. */
  datatype RouteDefinition = RouteDefinition(
    body: Option<Schema>,
    query: Option<Schema>,
    params: Option<Schema>,
    handler: Handler)

  /** A route table in its enumeration order: each "METHOD PATH" key with its
      definition, None standing for a key whose value is missing (undefined). */
  type RouteTable = seq<(string, Option<RouteDefinition>)>

  /** What a request step can read and change: the body, query and path
      parameters of the request, and `locals`, the response's per-request
      side-channel storage. */
  datatype Request = Request(
    body: Value,
    query: Value,
    params: Value,
    locals: map<string, Value>)

  /** The locals key under which the validated query is published. */
  const ValidatedQueryKey: string := "validatedQuery"

  /** The JSON payload of a response: the two error envelopes the router
      produces, or whatever a handler sends. */
  datatype Payload =
    | ErrorWithDetails(error: string, details: seq<Issue>)
    | ErrorWithDiagnostics(error: string, message: Option<string>, stack: Option<string>)
    | HandlerPayload(value: Value)

  datatype Response = Response(status: int, payload: Payload)

  /** An error propagated to the fallback stages: one raised by the schema
      engine itself (carrying its issues), or anything else. Either may lack a
      `message` or a `stack` (a thrown non-Error value has neither). */
  datatype Error =
    | ZodErr(issues: seq<Issue>, message: Option<string>, stack: Option<string>)
    | OtherErr(message: Option<string>, stack: Option<string>)
}
