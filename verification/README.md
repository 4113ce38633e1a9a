# express-schema-router in Dafny

A model of the route-table compiler of express-schema-router (`src/index.ts`).
`defineRoutes` returns its route table unchanged. `schemaRouter` turns a table
of `"METHOD PATH"` keys into router registrations. Each route definition may
declare a schema for the body, the query and the path parameters, and has a
handler. For every entry, the compiler:

- splits the key into a method and a path;
- lower-cases the method;
- registers a chain of validators, always in the order body, query, params, with the handler last.

Each validator safe-parses one request datum. The first failure answers 400 with
`{ error: "Invalid <source>", details: issues }` and stops the chain. A success
stores the parsed data and moves on:

- the body replaces `req.body`;
- the query goes to `res.locals.validatedQuery`, leaving `req.query` alone;
- the params replace `req.params`.

After all routes come two error stages. The first answers a thrown schema-engine
error with 400 `"Validation error"`. The second answers anything else with 500
`"Internal Server Error"`, including the error's message and stack.

Modules:

- `Wrappers` (wrappers.dfy): `Option`.
- `Domain` (domain.dfy): the entities. These are request values, issues, parse results, schemas, handlers, route definitions, route tables, requests (with `locals` standing for `res.locals`), responses and propagated errors.
- `RouteKey` (route_key.dfy): key parsing, written as JavaScript's `split(' ')` and `join(' ')`, and lower-casing.
- `Chain` (chain.dfy): how the validator chain is built and how it runs on one request. `Expected` is an independent, direct statement of what a route does. `ChainMatchesExpected` proves that the chain does exactly that.
- `Fallback` (fallback.dfy): the two error stages, in order.
- `RouterCompiler` (router_compiler.dfy): `DefineRoutes`, `CompileRoute` (one entry), `CompileRoutes` (the loop), `SchemaRouter`, and `Serve`, which follows one request through a registered route and the error stages.
- `Scenarios` (scenarios.dfy): the routes of `tests/router.test.ts`, compiled, and each of its six requests run through the matching route.

Schemas and handlers are known to the router only by identity. What they do is a
parameter of the model:

- `SafeParse`: a total function from a schema and a value to `Parsed(data)` or `Failed(issues)`;
- `HandlerBehaviour`: a total function from a handler and a request to `Responds(response)` or `Throws(error)`.

All properties hold for every choice of these functions. The route table is an
ordered sequence of (key, optional definition) pairs. This follows the order in
which `for…in` visits the object's string keys. `None` stands for a key whose
value is missing, which the loop skips.

Two behaviours of the code are worth stating plainly:

- A malformed key is not refused. A key without a space registers the whole key, lower-cased, as the method, with an empty path (`RouteKey.ParseKey`, `RouterCompiler.CompileRouteSpec`).
- Validated params replace `req.params` (`Chain.Store`).

## Model

| member | source | states |
|---|---|---|
| RouterCompiler.DefineRoutes | src/index.ts:20-22 | the route table is returned unchanged |
| RouteKey.Split | src/index.ts:31-32 | `split(' ')` never returns an empty list, no piece contains a space, and joining the pieces with spaces (`RouteKey.Join`, the `join(' ')` of line 32) gives the key back |
| RouteKey.SplitJoin | src/index.ts:31-32 | splitting undoes joining for space-free pieces (the other half of the split/join round trip) |
| RouteKey.ParseKey | src/index.ts:31-32 | the method has no space; if the key has a space, method + " " + path equals the key; otherwise the method is the key and the path is "" |
| RouteKey.ParseKeyFirstSpace | src/index.ts:31-32 | the method is exactly the text before the first space and the path is exactly the text after it, including any further spaces |
| RouteKey.ParseKeyOfFormat | src/index.ts:31-32 | parsing a space-free method, one space and any path gives back that method and that path |
| RouteKey.ToLower | src/index.ts:71 | lower-casing keeps the length, maps each upper-case ASCII letter to its lower-case letter and keeps every other character |
| RouteKey.ToLowerNormalForm | src/index.ts:71 | no upper-case letter is left after lower-casing, and a string equals its lower-cased form iff it has no upper-case letter |
| RouteKey.ToLowerIdempotent | src/index.ts:71 | lower-casing twice is the same as lower-casing once |
| RouteKey.ToLowerKeepsSpaces | src/index.ts:71 | lower-casing neither adds nor removes spaces, so the registered method stays space-free |
| Chain.Store | src/index.ts:45-65 | after a successful step, the handler finds the parsed data for that source; the other sources' inputs and views are unchanged; `req.query` is never overwritten; no other `locals` entry changes |
| Chain.RunValidator | src/index.ts:40-67 | a validator halts iff its schema rejects its datum, with status 400, "Invalid <source>" and the schema's issues; otherwise it continues with the parsed data where the handler reads it |
| Chain.BuildChain | src/index.ts:37-71 | one validator per declared schema and none per undeclared one, in strictly increasing body < query < params order; the handler is last and is the only non-validator step |
| Chain.BuildChainNoSchemas | src/index.ts:37-71 | a route with no schemas registers just its handler |
| Chain.RunChain | src/index.ts:39-71 | a run that rejects answers 400 with "Invalid <source>" for a validator in the chain; control only reaches a handler in the chain, and leaves the chain only if it has no handler; `req.query` is never changed |
| Chain.RunChainAppend | src/index.ts:39-71 | running two chains one after the other runs the second only if the first passed control on, and starts it from the request the first left |
| Chain.RejectionShortCircuits | src/index.ts:42-44 | once a prefix of the chain rejects, nothing after it runs and the outcome is that rejection |
| Chain.ChainMatchesExpected | src/index.ts:37-71 | a registered chain behaves as the direct statement `Expected` says, for every request and every schema behaviour |
| Chain.EarliestFailureWins | src/index.ts:39-68 | the rejection names the earliest failing declared source in body, query, params order and carries that schema's issues (so body and query both failing gives "Invalid body") |
| Chain.HandlerRunsIffAllPass | src/index.ts:37-71 | the handler runs iff every declared validator accepts; otherwise the route rejects |
| Chain.HandlerSeesValidatedData | src/index.ts:45-71 | when all pass, the route's own handler gets the parsed data for every declared source; undeclared sources, the raw query and the other `locals` entries are as they came |
| Chain.RejectionNamesSource | src/index.ts:42-64 | a route that does not accept everything rejects with 400 and one of "Invalid body", "Invalid query", "Invalid params" |
| Chain.LaterStepsNeverRun | src/index.ts:42-68 | when a source fails first, changing the later validators or the handler cannot change the outcome |
| Chain.NoSchemasPassThrough | src/index.ts:37-71 | with no schemas, the handler gets the original request unmodified |
| Fallback.RunStage | src/index.ts:75-85 | the first stage answers exactly the schema-engine errors, with 400 "Validation error" and their issues, and forwards every other error unchanged; the catch-all answers every error with 500, its message and its stack |
| Fallback.RunStages | src/index.ts:75-85 | a stage list with a catch-all always answers; every answer is one of the two envelopes for this error; any other error can only get the 500 answer |
| Fallback.FallbackClassifies | src/index.ts:74-85 | the installed stages answer every error: 400 with issues iff it is a schema-engine error, otherwise 500 with its message and stack |
| Fallback.ZodErrorNeverReachesCatchAll | src/index.ts:75-80 | the first stage answers a schema-engine error, whatever stages follow it |
| Fallback.CatchAllFirstWouldSwallow | src/index.ts:74-85 | with the stages swapped, a schema-engine error would get 500; this shows why the order matters |
| RouterCompiler.CompileRouteSpec | src/index.ts:31-71 | for `RouterCompiler.CompileRoute`, the registration of one entry: the registered method has no space; if the key has a space, it is the lower-cased text before the first space and the path is the exact rest; otherwise it is the lower-cased key and the path is ""; the chain is the route's validator chain |
| RouterCompiler.CompileRoutesCorrespondence | src/index.ts:30-34 | for `RouterCompiler.CompileRoutes`, the registration loop: every entry with a definition is registered, and every registration comes from such an entry |
| RouterCompiler.SchemaRouter | src/index.ts:27-88 | every route of the table is registered and nothing else is; the error stages are the schema-engine stage, then the catch-all |
| RouterCompiler.CompileRoutesAppend | src/index.ts:30-72 | registrations follow table order, and compiling a concatenation concatenates the compilations |
| RouterCompiler.AbsentEntryRegistersNothing | src/index.ts:33-34 | an entry with no definition registers nothing |
| RouterCompiler.CompileRoutesOnePerEntry | src/index.ts:30-72 | when every entry has a definition, there is one registration per entry, at that entry's position |
| RouterCompiler.CompileRouteOfFormattedKey | src/index.ts:31-71 | a key `METHOD path` registers the lower-cased method and exactly that path |
| RouterCompiler.ServeMatchesExpected | src/index.ts:37-85 | `RouterCompiler.Serve`, one request through a registered route and the error stages: every compiled route answers every request as `ExpectedResponse` says: the earliest failing source's envelope; else the handler's answer on the validated request; else, if it throws, 400 "Validation error" or 500 |
| RouterCompiler.RejectionBypassesHandlerAndFallback | src/index.ts:42-85 | a validation failure gets a 400 "Invalid body/query/params" answer from the chain itself; it does not depend on the handler and never goes through the error stages |
| Scenarios.CreateUserRegistration | tests/router.test.ts:11-16 | `POST /users` registers `post` on `/users` with a body validator and then the handler |
| Scenarios.SearchRegistration | tests/router.test.ts:17-22 | `GET /search` registers `get` on `/search` with a query validator and then the handler |
| Scenarios.GetUserRegistration | tests/router.test.ts:23-28 | `GET /users/:id` registers `get` on `/users/:id` with a params validator and then the handler |
| Scenarios.SearchWithoutQueryIsRejected | tests/router.test.ts:55-59 | a search whose query the schema rejects gets 400 "Invalid query" with the schema's issues |
| Scenarios.InvalidUserIsRejected | tests/router.test.ts:41-47 | a user whose body the schema rejects gets 400 "Invalid body" with the schema's issues |
| Scenarios.NonNumericIdIsRejected | tests/router.test.ts:67-71 | a user id the schema rejects gets 400 "Invalid params" with the schema's issues |
| Scenarios.ValidUserReachesHandler | tests/router.test.ts:33-39 | a valid user reaches the create-user handler with the parsed body as `req.body` and the rest of the request unchanged |
| Scenarios.ValidSearchReachesHandler | tests/router.test.ts:49-53 | a valid search reaches the search handler with the parsed query in `locals.validatedQuery`; `req.query` and the rest are unchanged |
| Scenarios.ValidIdReachesHandler | tests/router.test.ts:61-65 | a valid user id reaches the get-user handler with the parsed params as `req.params` and the rest of the request unchanged |

## Left out

- RouteKey.ToLower: models ASCII case mapping only. JavaScript's `toLowerCase` also maps non-ASCII letters, and some of those lower-case into ASCII: U+212A KELVIN SIGN becomes `k`, so the key `"LOC\u212A /x"` registers `lock` in the code but `loc\u212A` in the model. The model does not follow Unicode case mapping.
- Express itself is not modelled: `express.Router()`, matching a request's method and path against the registrations, `next()` plumbing and HTTP transport. `Serve` is given the registration that matched. Registration produces a `Registration` value instead of calling `router[method]`.
- A method with no router function of that name makes `router[method](…)` throw a TypeError while the router is built. The model does not model this. The set of method names the host router offers is host-framework detail.
- The order of `for…in` over a real object is not modelled. Integer-like keys come first, inherited enumerable keys are visited too, and a repeated key in an object literal keeps its first position with the last value. The model takes the table as an ordered sequence. It does not require distinct keys.
- Zod internals are not modelled: how schemas check, coerce and normalise, and the shape of issues. Each schema is an opaque `SafeParse` result. A schema that throws from inside safe-parse is not modelled.
- Handlers are reduced to "answers" or "throws". The model leaves out handlers that call `next()`, asynchronous handlers, and rejected promises.
- Error messages and stack traces are opaque optional strings.
- Concurrency across requests is not modelled. Each request is an independent, sequential run.
