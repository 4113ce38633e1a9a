/** The per-route validator chain (src/index.ts:37-71): how it is built from a
    route definition, and how it runs on one request. Each validator safe-parses
    one request datum; the first failure answers 400 with an envelope naming the
    source, and each success records the validated data and passes control on.
    The handler is the last step. */
module Chain {
  import opened Wrappers
  import opened Domain

  /** The three request data a route can declare a schema for, in chain order. */
  datatype Source = BodySource | QuerySource | ParamsSource

  /** The `error` string of the source's rejection envelope. */
  function InvalidMessage(source: Source): string {
    match source
    case BodySource => "Invalid body"
    case QuerySource => "Invalid query"
    case ParamsSource => "Invalid params"
  }

  /** Position of the source's validator in every chain. */
  function Rank(source: Source): nat {
    match source
    case BodySource => 0
    case QuerySource => 1
    case ParamsSource => 2
  }

  /** The schema a definition declares for a source, if any. */
  function Declared(def: RouteDefinition, source: Source): Option<Schema> {
    match source
    case BodySource => def.body
    case QuerySource => def.query
    case ParamsSource => def.params
  }

  /** One element of a registered chain: a validator closure, or the user handler. */
  datatype Step = Validate(source: Source, schema: Schema) | Invoke(handler: Handler)

  /** The request datum a validator hands to its schema: `req.body`, `req.query`
      or `req.params`. */
  function Input(source: Source, req: Request): Value {
    match source
    case BodySource => req.body
    case QuerySource => req.query
    case ParamsSource => req.params
  }

  /** Where a handler finds the validated datum of a source: the body and the
      params in the request itself, the query under `locals.validatedQuery`. */
  function View(source: Source, req: Request): Option<Value> {
    match source
    case BodySource => Some(req.body)
    case QuerySource =>
      if ValidatedQueryKey in req.locals then Some(req.locals[ValidatedQueryKey]) else None
    case ParamsSource => Some(req.params)
  }

  /** What a successful validator writes (src/index.ts:45, 55, 65): afterwards
      the handler's view of that source is the parsed data; the views and the
      schema inputs of the other sources are unchanged; the raw query is never
      overwritten; and no locals entry other than `validatedQuery` changes. */
  function Store(source: Source, req: Request, data: Value): (r: Request)
    ensures View(source, r) == Some(data)
    ensures forall s :: s != source ==> View(s, r) == View(s, req) && Input(s, r) == Input(s, req)
    ensures r.query == req.query
    ensures r.locals.Keys <= req.locals.Keys + {ValidatedQueryKey}
    ensures forall k :: k in req.locals && k != ValidatedQueryKey ==> k in r.locals && r.locals[k] == req.locals[k]
  {
    match source
    case BodySource => req.(body := data)
    case QuerySource => req.(locals := req.locals[ValidatedQueryKey := data])
    case ParamsSource => req.(params := data)
  }

  /** The 400 envelope `{ error: "Invalid <source>", details: issues }`. */
  function Rejection(source: Source, issues: seq<Issue>): Response {
    Response(400, ErrorWithDetails(InvalidMessage(source), issues))
  }

  datatype StepResult = Continue(request: Request) | Halt(response: Response)

  /** One validator closure: it halts exactly when its schema rejects its input,
      answering with that source's envelope and the schema's own issues, and
      otherwise continues with the parsed data in the handler's view. */
  function RunValidator(safeParse: SafeParse, source: Source, schema: Schema, req: Request): (r: StepResult)
    ensures r.Halt? <==> safeParse(schema, Input(source, req)).Failed?
    ensures r.Halt? ==> r.response == Rejection(source, safeParse(schema, Input(source, req)).issues)
    ensures r.Continue? ==> View(source, r.request) == Some(safeParse(schema, Input(source, req)).data)
  {
    match safeParse(schema, Input(source, req))
    case Failed(issues) => Halt(Rejection(source, issues))
    case Parsed(data) => Continue(Store(source, req, data))
  }

  /** The validator for one source, when the definition declares a schema for it. */
  function StepFor(def: RouteDefinition, source: Source): seq<Step> {
    match Declared(def, source)
    case Some(schema) => [Validate(source, schema)]
    case None => []
  }

  function SchemaCount(def: RouteDefinition): nat {
    (if def.body.Some? then 1 else 0)
    + (if def.query.Some? then 1 else 0)
    + (if def.params.Some? then 1 else 0)
  }

  /** The registered chain, the validators followed by the handler: one validator per
      declared schema and none for an undeclared one, in strictly increasing
      body, query, params order, followed by the handler as the last and only
      non-validator step. */
  function BuildChain(def: RouteDefinition): (chain: seq<Step>)
    ensures |chain| == SchemaCount(def) + 1
    ensures chain[|chain| - 1] == Invoke(def.handler)
    ensures forall i :: 0 <= i < |chain| - 1 ==> chain[i].Validate?
    ensures forall i, j :: 0 <= i < j < |chain| - 1 ==> Rank(chain[i].source) < Rank(chain[j].source)
    ensures forall i :: 0 <= i < |chain| - 1 ==> Declared(def, chain[i].source) == Some(chain[i].schema)
    ensures forall s :: Declared(def, s).Some? ==> Validate(s, Declared(def, s).value) in chain
  {
    StepFor(def, BodySource) + StepFor(def, QuerySource) + StepFor(def, ParamsSource) + [Invoke(def.handler)]
  }

  /** A route that declares no schema registers its handler alone. */
  lemma BuildChainNoSchemas(def: RouteDefinition)
    requires def.body.None? && def.query.None? && def.params.None?
    ensures BuildChain(def) == [Invoke(def.handler)]
  {
  }

  /** How a chain run ends: a validator answered, control reached a handler
      with the request as the validators left it, or every step called `next()`
      and control passed on beyond the chain. */
  datatype Outcome =
    | Rejected(response: Response)
    | Handled(handler: Handler, request: Request)
    | Passed(request: Request)

  /** Runs a chain on a request, step by step. A rejection is always a 400
      envelope produced by one of the chain's validators; control only reaches
      a handler that is in the chain, and only passes beyond the chain when the
      chain holds no handler; the raw query is never changed on the way. */
  function RunChain(safeParse: SafeParse, chain: seq<Step>, req: Request): (o: Outcome)
    ensures o.Rejected? ==> o.response.status == 400
    ensures o.Rejected? ==> o.response.payload.ErrorWithDetails?
    ensures o.Rejected? ==> exists i :: 0 <= i < |chain| && chain[i].Validate? && o.response.payload.error == InvalidMessage(chain[i].source)
    ensures o.Handled? ==> Invoke(o.handler) in chain
    ensures o.Passed? ==> forall i :: 0 <= i < |chain| ==> chain[i].Validate?
    ensures !o.Rejected? ==> o.request.query == req.query
    decreases |chain|
  {
    if |chain| == 0 then Passed(req)
    else
      match chain[0]
      case Invoke(handler) => Handled(handler, req)
      case Validate(source, schema) =>
        match RunValidator(safeParse, source, schema, req)
        case Halt(response) => Rejected(response)
        case Continue(next) =>
          var o := RunChain(safeParse, chain[1..], next);
          assert forall i :: 0 < i < |chain| ==> chain[i] == chain[1..][i - 1];
          o
  }

  /** Running a concatenation runs the first part, and the second part only
      when the first passed control on, starting from the request it left. */
  lemma {:induction false} RunChainAppend(safeParse: SafeParse, first: seq<Step>, second: seq<Step>, req: Request)
    ensures RunChain(safeParse, first + second, req) ==
      match RunChain(safeParse, first, req)
      case Passed(next) => RunChain(safeParse, second, next)
      case o => o
    decreases |first|
  {
    if |first| > 0 {
      assert (first + second)[0] == first[0];
      assert (first + second)[1..] == first[1..] + second;
      match first[0]
      case Invoke(_) =>
      case Validate(source, schema) =>
        match RunValidator(safeParse, source, schema, req)
        case Halt(_) =>
        case Continue(next) => RunChainAppend(safeParse, first[1..], second, next);
    } else {
      assert first + second == second;
    }
  }

  /** Short-circuit: once a prefix of a chain has rejected the request, nothing
      after it runs and the outcome is the prefix's rejection. */
  lemma RejectionShortCircuits(safeParse: SafeParse, first: seq<Step>, second: seq<Step>, req: Request)
    requires RunChain(safeParse, first, req).Rejected?
    ensures RunChain(safeParse, first + second, req) == RunChain(safeParse, first, req)
  {
    RunChainAppend(safeParse, first, second, req);
  }

  /** True when the definition declares a schema for the source and that schema
      rejects the given input. */
  predicate Fails(safeParse: SafeParse, def: RouteDefinition, source: Source, v: Value) {
    Declared(def, source).Some? && safeParse(Declared(def, source).value, v).Failed?
  }

  /** The request a handler receives after every declared validator succeeded
      on the original request: parsed body and params in place, parsed query
      under `locals.validatedQuery`, everything else as it came. */
  function Validated(safeParse: SafeParse, def: RouteDefinition, req: Request): Request
    requires !Fails(safeParse, def, BodySource, req.body)
    requires !Fails(safeParse, def, QuerySource, req.query)
    requires !Fails(safeParse, def, ParamsSource, req.params)
  {
    Request(
      if def.body.Some? then safeParse(def.body.value, req.body).data else req.body,
      req.query,
      if def.params.Some? then safeParse(def.params.value, req.params).data else req.params,
      if def.query.Some? then req.locals[ValidatedQueryKey := safeParse(def.query.value, req.query).data] else req.locals)
  }

  /** The intended per-request behaviour of a route, stated directly on the
      original request: rejection for the first declared source, in body, query,
      params order, whose schema rejects the original datum, with that schema's
      issues; otherwise the handler with every validated datum in place. */
  function Expected(safeParse: SafeParse, def: RouteDefinition, req: Request): Outcome {
    if Fails(safeParse, def, BodySource, req.body) then
      Rejected(Rejection(BodySource, safeParse(def.body.value, req.body).issues))
    else if Fails(safeParse, def, QuerySource, req.query) then
      Rejected(Rejection(QuerySource, safeParse(def.query.value, req.query).issues))
    else if Fails(safeParse, def, ParamsSource, req.params) then
      Rejected(Rejection(ParamsSource, safeParse(def.params.value, req.params).issues))
    else
      Handled(def.handler, Validated(safeParse, def, req))
  }

  /** Running one optional validator, as the first step of a longer chain. */
  lemma {:induction false} RunStepFor(safeParse: SafeParse, def: RouteDefinition, source: Source, rest: seq<Step>, req: Request)
    ensures Fails(safeParse, def, source, Input(source, req)) ==>
      RunChain(safeParse, StepFor(def, source) + rest, req) ==
        Rejected(Rejection(source, safeParse(Declared(def, source).value, Input(source, req)).issues))
    ensures !Fails(safeParse, def, source, Input(source, req)) ==>
      RunChain(safeParse, StepFor(def, source) + rest, req) ==
        RunChain(safeParse, rest, Advance(safeParse, def, source, req))
  {
    var c := StepFor(def, source) + rest;
    if Declared(def, source).None? {
      assert c == rest;
    } else {
      assert c[0] == Validate(source, Declared(def, source).value);
      assert c[1..] == rest;
    }
  }

  /** The request after the optional validator of a source succeeded. */
  function Advance(safeParse: SafeParse, def: RouteDefinition, source: Source, req: Request): Request
    requires !Fails(safeParse, def, source, Input(source, req))
  {
    match Declared(def, source)
    case Some(schema) => Store(source, req, safeParse(schema, Input(source, req)).data)
    case None => req
  }

  /** The params validator and the handler, on a request whose params are the original ones. */
  lemma ParamsStage(safeParse: SafeParse, def: RouteDefinition, r2: Request, req: Request)
    requires !Fails(safeParse, def, BodySource, req.body)
    requires !Fails(safeParse, def, QuerySource, req.query)
    requires r2 == Advance(safeParse, def, QuerySource, Advance(safeParse, def, BodySource, req))
    ensures RunChain(safeParse, StepFor(def, ParamsSource) + [Invoke(def.handler)], r2) == Expected(safeParse, def, req)
  {
    RunStepFor(safeParse, def, ParamsSource, [Invoke(def.handler)], r2);
    assert r2.params == req.params;
    if !Fails(safeParse, def, ParamsSource, req.params) {
      assert Advance(safeParse, def, ParamsSource, r2) == Validated(safeParse, def, req);
    }
  }

  /** The query validator onwards, on a request whose query and params are the original ones. */
  lemma QueryStage(safeParse: SafeParse, def: RouteDefinition, r1: Request, req: Request)
    requires !Fails(safeParse, def, BodySource, req.body)
    requires r1 == Advance(safeParse, def, BodySource, req)
    ensures RunChain(safeParse, StepFor(def, QuerySource) + (StepFor(def, ParamsSource) + [Invoke(def.handler)]), r1)
      == Expected(safeParse, def, req)
  {
    RunStepFor(safeParse, def, QuerySource, StepFor(def, ParamsSource) + [Invoke(def.handler)], r1);
    assert r1.query == req.query;
    if !Fails(safeParse, def, QuerySource, req.query) {
      ParamsStage(safeParse, def, Advance(safeParse, def, QuerySource, r1), req);
    }
  }

  /** The registered chain of a route behaves as Expected says, on every
      request and for every behaviour of the schemas. */
  lemma ChainMatchesExpected(safeParse: SafeParse, def: RouteDefinition, req: Request)
    ensures RunChain(safeParse, BuildChain(def), req) == Expected(safeParse, def, req)
  {
    var queryPart := StepFor(def, QuerySource) + (StepFor(def, ParamsSource) + [Invoke(def.handler)]);
    assert BuildChain(def) == StepFor(def, BodySource) + queryPart;
    RunStepFor(safeParse, def, BodySource, queryPart, req);
    if !Fails(safeParse, def, BodySource, req.body) {
      QueryStage(safeParse, def, Advance(safeParse, def, BodySource, req), req);
    }
  }

  /** The rejection names the earliest failing source: when a declared schema
      rejects its datum and every source before it in body, query, params order
      passes, the route answers with that source's envelope and its issues. */
  lemma EarliestFailureWins(safeParse: SafeParse, def: RouteDefinition, req: Request, source: Source)
    requires Fails(safeParse, def, source, Input(source, req))
    requires forall t :: Rank(t) < Rank(source) ==> !Fails(safeParse, def, t, Input(t, req))
    ensures RunChain(safeParse, BuildChain(def), req)
      == Rejected(Rejection(source, safeParse(Declared(def, source).value, Input(source, req)).issues))
  {
    ChainMatchesExpected(safeParse, def, req);
    assert Rank(BodySource) == 0 && Rank(QuerySource) == 1;
  }

  /** Every declared schema accepts its datum of the original request. */
  predicate AllPass(safeParse: SafeParse, def: RouteDefinition, req: Request) {
    && !Fails(safeParse, def, BodySource, req.body)
    && !Fails(safeParse, def, QuerySource, req.query)
    && !Fails(safeParse, def, ParamsSource, req.params)
  }

  /** The handler runs exactly when every declared validator accepts;
      otherwise the route rejects, and control never passes beyond the chain. */
  lemma HandlerRunsIffAllPass(safeParse: SafeParse, def: RouteDefinition, req: Request)
    ensures RunChain(safeParse, BuildChain(def), req).Handled? <==> AllPass(safeParse, def, req)
    ensures RunChain(safeParse, BuildChain(def), req).Rejected? <==> !AllPass(safeParse, def, req)
  {
    ChainMatchesExpected(safeParse, def, req);
  }

  /** When every declared validator accepts, the route's own handler receives
      the parsed data in its view of every declared source, the original data
      for every undeclared one, the raw query as it came, and every other
      locals entry untouched. */
  lemma HandlerSeesValidatedData(safeParse: SafeParse, def: RouteDefinition, req: Request)
    requires AllPass(safeParse, def, req)
    ensures RunChain(safeParse, BuildChain(def), req).Handled?
    ensures RunChain(safeParse, BuildChain(def), req).handler == def.handler
    ensures RunChain(safeParse, BuildChain(def), req).request.query == req.query
    ensures forall s :: Declared(def, s).Some? ==>
      View(s, RunChain(safeParse, BuildChain(def), req).request) == Some(safeParse(Declared(def, s).value, Input(s, req)).data)
    ensures forall s :: Declared(def, s).None? ==>
      View(s, RunChain(safeParse, BuildChain(def), req).request) == View(s, req)
    ensures forall k :: k in req.locals && k != ValidatedQueryKey ==>
      var locals := RunChain(safeParse, BuildChain(def), req).request.locals;
      k in locals && locals[k] == req.locals[k]
  {
    ChainMatchesExpected(safeParse, def, req);
    ValidatedViews(safeParse, def, req);
  }

  /** The views of the request Validated builds. */
  lemma ValidatedViews(safeParse: SafeParse, def: RouteDefinition, req: Request)
    requires AllPass(safeParse, def, req)
    ensures forall s :: Declared(def, s).Some? ==>
      View(s, Validated(safeParse, def, req)) == Some(safeParse(Declared(def, s).value, Input(s, req)).data)
    ensures forall s :: Declared(def, s).None? ==> View(s, Validated(safeParse, def, req)) == View(s, req)
  {
    var r := Validated(safeParse, def, req);
    forall s | Declared(def, s).Some?
      ensures View(s, r) == Some(safeParse(Declared(def, s).value, Input(s, req)).data)
    {
      match s
      case BodySource =>
      case QuerySource =>
      case ParamsSource =>
    }
    forall s | Declared(def, s).None?
      ensures View(s, r) == View(s, req)
    {
      match s
      case BodySource =>
      case QuerySource =>
      case ParamsSource =>
    }
  }

  /** A route that rejects answers 400 with one of the three source envelopes. */
  lemma RejectionNamesSource(safeParse: SafeParse, def: RouteDefinition, req: Request)
    requires !AllPass(safeParse, def, req)
    ensures RunChain(safeParse, BuildChain(def), req).Rejected?
    ensures RunChain(safeParse, BuildChain(def), req).response.status == 400
    ensures RunChain(safeParse, BuildChain(def), req).response.payload.error
      in {"Invalid body", "Invalid query", "Invalid params"}
  {
    ChainMatchesExpected(safeParse, def, req);
  }

  /** Short-circuit: when a source fails first, the validators after it and
      the handler never run, so changing them cannot change the outcome. */
  lemma LaterStepsNeverRun(safeParse: SafeParse, def: RouteDefinition, other: RouteDefinition, req: Request, source: Source)
    requires Fails(safeParse, def, source, Input(source, req))
    requires forall t :: Rank(t) < Rank(source) ==> !Fails(safeParse, def, t, Input(t, req))
    requires forall t :: Rank(t) <= Rank(source) ==> Declared(other, t) == Declared(def, t)
    ensures RunChain(safeParse, BuildChain(other), req) == RunChain(safeParse, BuildChain(def), req)
  {
    EarliestFailureWins(safeParse, def, req, source);
    EarliestFailureWins(safeParse, other, req, source);
  }

  /** A route without schemas hands the original request to its handler unmodified. */
  lemma NoSchemasPassThrough(safeParse: SafeParse, def: RouteDefinition, req: Request)
    requires def.body.None? && def.query.None? && def.params.None?
    ensures RunChain(safeParse, BuildChain(def), req) == Handled(def.handler, req)
  {
    BuildChainNoSchemas(def);
  }
}
