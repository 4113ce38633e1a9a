/** The route-table compiler (src/index.ts:20-88). `DefineRoutes` hands its
    table back; `SchemaRouter` registers, for every entry with a definition and
    in table order, the lower-cased method and the path parsed from the key
    together with the validator chain ending in the handler, and installs the
    two error stages after all routes. `Serve` follows one request through a
    registered route and, when the handler throws, through the error stages. */
module RouterCompiler {
  import opened Wrappers
  import opened Domain
  import opened RouteKey
  import opened Chain
  import opened Fallback

  /** `defineRoutes`: the table, unchanged. */
  function DefineRoutes(routes: RouteTable): (r: RouteTable)
    ensures r == routes
  {
    routes
  }

  /** One registration on the router: a lower-case method, a path template,
      and the steps run for a matching request. */
  datatype Registration = Registration(verb: string, path: string, chain: seq<Step>)

  /** The compiled router: its route registrations in order, then its error stages. */
  datatype Router = Router(routes: seq<Registration>, errorStages: seq<ErrorStage>)

  /** Registration of one entry: the method lower-cased, the path as parsed
      from the key, and the validators followed by the handler. */
  function CompileRoute(key: string, def: RouteDefinition): Registration {
    var k := ParseKey(key);
    Registration(ToLower(k.verb), k.path, BuildChain(def))
  }

  /** What one entry registers. The registered method is space-free; when the
      key holds a space, the method is the lower-cased text before the first
      space and the path is all the text after it, verbatim; otherwise the
      method is the whole key lower-cased and the path is empty. The chain is
      the route's validator chain. */
  lemma CompileRouteSpec(key: string, def: RouteDefinition)
    ensures ' ' !in CompileRoute(key, def).verb
    ensures ' ' in key ==>
      var reg := CompileRoute(key, def);
      && |reg.verb| < |key|
      && key[|reg.verb|] == ' '
      && reg.verb == ToLower(key[..|reg.verb|])
      && reg.path == key[|reg.verb| + 1..]
    ensures ' ' !in key ==> CompileRoute(key, def).verb == ToLower(key) && CompileRoute(key, def).path == ""
    ensures CompileRoute(key, def).chain == BuildChain(def)
  {
    var k := ParseKey(key);
    ToLowerKeepsSpaces(k.verb);
    if ' ' in key {
      assert key == k.verb + " " + k.path;
      assert key[..|k.verb|] == k.verb;
      assert key[|k.verb| + 1..] == k.path;
    }
  }

  /** The loop over the table's keys: one registration at most per
      entry, in table order, skipping entries without a definition. */
  function CompileRoutes(table: RouteTable): (regs: seq<Registration>)
    ensures |regs| <= |table|
    decreases |table|
  {
    if |table| == 0 then []
    else
      var rest := CompileRoutes(table[1..]);
      match table[0].1
      case None => rest
      case Some(def) => [CompileRoute(table[0].0, def)] + rest
  }

  /** Every entry with a definition is registered, and every registration
      comes from such an entry. */
  lemma {:induction false} CompileRoutesCorrespondence(table: RouteTable)
    ensures forall reg :: reg in CompileRoutes(table) ==>
      exists i :: 0 <= i < |table| && table[i].1.Some? && reg == CompileRoute(table[i].0, table[i].1.value)
    ensures forall i :: 0 <= i < |table| && table[i].1.Some? ==>
      CompileRoute(table[i].0, table[i].1.value) in CompileRoutes(table)
    decreases |table|
  {
    if |table| > 0 {
      var rest := table[1..];
      assert forall i :: 0 <= i < |rest| ==> rest[i] == table[i + 1];
      CompileRoutesCorrespondence(rest);
      forall reg | reg in CompileRoutes(table)
        ensures exists i :: 0 <= i < |table| && table[i].1.Some? && reg == CompileRoute(table[i].0, table[i].1.value)
      {
        if reg in CompileRoutes(rest) {
          var j :| 0 <= j < |rest| && rest[j].1.Some? && reg == CompileRoute(rest[j].0, rest[j].1.value);
          assert table[j + 1] == rest[j];
        } else {
          assert table[0].1.Some? && reg == CompileRoute(table[0].0, table[0].1.value);
        }
      }
      forall i | 0 <= i < |table| && table[i].1.Some?
        ensures CompileRoute(table[i].0, table[i].1.value) in CompileRoutes(table)
      {
        if i > 0 {
          assert table[i] == rest[i - 1];
        }
      }
    }
  }

  /** `schemaRouter`: every route of the table registered, and nothing else,
      followed by the schema-engine stage and then the catch-all stage. */
  function SchemaRouter(table: RouteTable): (router: Router)
    ensures forall i :: 0 <= i < |table| && table[i].1.Some? ==>
      CompileRoute(table[i].0, table[i].1.value) in router.routes
    ensures forall reg :: reg in router.routes ==>
      exists i :: 0 <= i < |table| && table[i].1.Some? && reg == CompileRoute(table[i].0, table[i].1.value)
    ensures router.errorStages == [ZodErrorStage, CatchAllStage]
  {
    CompileRoutesCorrespondence(table);
    Router(CompileRoutes(table), Stages)
  }

  /** Registrations follow table order, and each part of a table compiles on
      its own: compiling a concatenation concatenates the compilations. */
  lemma {:induction false} CompileRoutesAppend(first: RouteTable, second: RouteTable)
    ensures CompileRoutes(first + second) == CompileRoutes(first) + CompileRoutes(second)
    decreases |first|
  {
    if |first| == 0 {
      assert first + second == second;
    } else {
      assert (first + second)[0] == first[0];
      assert (first + second)[1..] == first[1..] + second;
      CompileRoutesAppend(first[1..], second);
    }
  }

  /** An entry without a definition registers nothing. */
  lemma AbsentEntryRegistersNothing(first: RouteTable, key: string, second: RouteTable)
    ensures CompileRoutes(first + [(key, None)] + second) == CompileRoutes(first + second)
  {
    CompileRoutesAppend(first + [(key, None)], second);
    CompileRoutesAppend(first, [(key, None)]);
    CompileRoutesAppend(first, second);
  }

  /** When every entry has a definition, there is one registration per entry,
      at the entry's own position. */
  lemma {:induction false} CompileRoutesOnePerEntry(table: RouteTable)
    requires forall i :: 0 <= i < |table| ==> table[i].1.Some?
    ensures |CompileRoutes(table)| == |table|
    ensures forall i :: 0 <= i < |table| ==> CompileRoutes(table)[i] == CompileRoute(table[i].0, table[i].1.value)
    decreases |table|
  {
    if |table| > 0 {
      var rest := table[1..];
      assert forall i :: 0 <= i < |rest| ==> rest[i] == table[i + 1];
      CompileRoutesOnePerEntry(rest);
      var regs := CompileRoutes(table);
      assert regs == [CompileRoute(table[0].0, table[0].1.value)] + CompileRoutes(rest);
      forall i | 0 <= i < |table|
        ensures regs[i] == CompileRoute(table[i].0, table[i].1.value)
      {
        if i > 0 {
          assert regs[i] == CompileRoutes(rest)[i - 1];
          assert table[i] == rest[i - 1];
        }
      }
    }
  }

  /** A key written as a space-free method, one space and a path registers the
      lower-cased method and exactly that path, spaces and all. */
  lemma CompileRouteOfFormattedKey(verb: string, path: string, def: RouteDefinition)
    requires ' ' !in verb
    ensures CompileRoute(verb + " " + path, def) == Registration(ToLower(verb), path, BuildChain(def))
  {
    ParseKeyOfFormat(verb, path);
  }

  /** What a handler does with the request it receives: it answers, or it throws. */
  datatype HandlerResult = Responds(response: Response) | Throws(error: Error)

  /** The behaviour of every handler, a total function of the handler and its request. */
  type HandlerBehaviour = (Handler, Request) -> HandlerResult

  /** One request through one registered route of a router: the chain runs;
      a rejection is the answer; a handler's own answer is the answer; an error
      the handler throws goes through the router's error stages. None when
      control passes beyond the router. */
  function Serve(safeParse: SafeParse, behaviour: HandlerBehaviour, router: Router, reg: Registration, req: Request): Option<Response> {
    match RunChain(safeParse, reg.chain, req)
    case Rejected(response) => Some(response)
    case Handled(handler, next) =>
      (match behaviour(handler, next)
       case Responds(response) => Some(response)
       case Throws(err) => RunStages(router.errorStages, err))
    case Passed(_) => None
  }

  /** The intended answer of a route to a request, stated directly: the
      envelope of the earliest failing source; else the handler's answer on the
      validated request; else, when it throws, 400 "Validation error" for a
      schema-engine error and 500 "Internal Server Error" for anything else. */
  function ExpectedResponse(safeParse: SafeParse, behaviour: HandlerBehaviour, def: RouteDefinition, req: Request): Response {
    if Fails(safeParse, def, BodySource, req.body) then
      Rejection(BodySource, safeParse(def.body.value, req.body).issues)
    else if Fails(safeParse, def, QuerySource, req.query) then
      Rejection(QuerySource, safeParse(def.query.value, req.query).issues)
    else if Fails(safeParse, def, ParamsSource, req.params) then
      Rejection(ParamsSource, safeParse(def.params.value, req.params).issues)
    else
      match behaviour(def.handler, Validated(safeParse, def, req))
      case Responds(response) => response
      case Throws(err) =>
        if err.ZodErr? then ValidationError(err.issues) else InternalError(err.message, err.stack)
  }

  /** Every route the compiled router registers answers every request, and
      answers it as ExpectedResponse says. */
  lemma ServeMatchesExpected(safeParse: SafeParse, behaviour: HandlerBehaviour, table: RouteTable, i: nat, req: Request)
    requires i < |table| && table[i].1.Some?
    ensures CompileRoute(table[i].0, table[i].1.value) in SchemaRouter(table).routes
    ensures Serve(safeParse, behaviour, SchemaRouter(table), CompileRoute(table[i].0, table[i].1.value), req)
      == Some(ExpectedResponse(safeParse, behaviour, table[i].1.value, req))
  {
    var def := table[i].1.value;
    ChainMatchesExpected(safeParse, def, req);
    if AllPass(safeParse, def, req) {
      match behaviour(def.handler, Validated(safeParse, def, req))
      case Responds(_) =>
      case Throws(err) => FallbackClassifies(err);
    }
  }

  /** A request that fails validation is answered with its source's envelope
      by the chain itself: the handler never runs, so its behaviour cannot
      matter, and the router's error stages are never reached. */
  lemma RejectionBypassesHandlerAndFallback(
    safeParse: SafeParse, behaviour: HandlerBehaviour, other: HandlerBehaviour,
    router: Router, key: string, def: RouteDefinition, req: Request)
    requires !AllPass(safeParse, def, req)
    ensures RunChain(safeParse, BuildChain(def), req).Rejected?
    ensures Serve(safeParse, behaviour, router, CompileRoute(key, def), req)
      == Serve(safeParse, other, router, CompileRoute(key, def), req)
    ensures Serve(safeParse, behaviour, router, CompileRoute(key, def), req)
      == Some(RunChain(safeParse, BuildChain(def), req).response)
    ensures RunChain(safeParse, BuildChain(def), req).response.status == 400
    ensures RunChain(safeParse, BuildChain(def), req).response.payload.error
      in {"Invalid body", "Invalid query", "Invalid params"}
  {
    RejectionNamesSource(safeParse, def, req);
  }
}
