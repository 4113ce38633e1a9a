/** The routes of the repository's tests (tests/router.test.ts:10-29), each
    compiled on its own: a body-validated POST route, a query-validated GET
    route and a params-validated GET route with a path parameter. */
module Scenarios {
  import opened Wrappers
  import opened Domain
  import opened RouteKey
  import opened Chain
  import opened RouterCompiler

  const UserBody := Schema("user body")
  const SearchQuery := Schema("search query")
  const UserParams := Schema("user params")

  const CreateUser := RouteDefinition(Some(UserBody), None, None, Handler("create user"))
  const Search := RouteDefinition(None, Some(SearchQuery), None, Handler("search"))
  const GetUser := RouteDefinition(None, None, Some(UserParams), Handler("get user"))

  /** The registrations the three test routes should produce. */
  const TestRegistrations: seq<Registration> := [
    Registration("post", "/users", [Validate(BodySource, UserBody), Invoke(Handler("create user"))]),
    Registration("get", "/search", [Validate(QuerySource, SearchQuery), Invoke(Handler("search"))]),
    Registration("get", "/users/:id", [Validate(ParamsSource, UserParams), Invoke(Handler("get user"))])
  ]

  /** The methods of the test routes, lower-cased for registration. */
  lemma LowerPost()
    ensures ToLower("POST") == "post"
  {
    assert "POST"[1..] == "OST" && "OST"[1..] == "ST" && "ST"[1..] == "T" && "T"[1..] == "";
  }

  lemma LowerGet()
    ensures ToLower("GET") == "get"
  {
    assert "GET"[1..] == "ET" && "ET"[1..] == "T" && "T"[1..] == "";
  }

  /** The test keys are a method, one space and a path. */
  lemma CreateUserKey()
    ensures "POST /users" == "POST" + " " + "/users"
  {
  }

  lemma SearchKey()
    ensures "GET /search" == "GET" + " " + "/search"
  {
  }

  lemma GetUserKey()
    ensures "GET /users/:id" == "GET" + " " + "/users/:id"
  {
  }

  /** `POST /users` registers `post` on `/users`, validating the body first. */
  lemma CreateUserRegistration()
    ensures CompileRoute("POST /users", CreateUser) == TestRegistrations[0]
  {
    CreateUserKey();
    CompileRouteOfFormattedKey("POST", "/users", CreateUser);
    LowerPost();
  }

  /** `GET /search` registers `get` on `/search`, validating the query first. */
  lemma SearchRegistration()
    ensures CompileRoute("GET /search", Search) == TestRegistrations[1]
  {
    SearchKey();
    CompileRouteOfFormattedKey("GET", "/search", Search);
    LowerGet();
  }

  /** `GET /users/:id` registers `get` on the path template `/users/:id`,
      validating the params first. */
  lemma GetUserRegistration()
    ensures CompileRoute("GET /users/:id", GetUser) == TestRegistrations[2]
  {
    GetUserKey();
    CompileRouteOfFormattedKey("GET", "/users/:id", GetUser);
    LowerGet();
  }

  /** A search request whose query the schema rejects (the missing `q` of
      tests/router.test.ts:55-59) is answered 400 "Invalid query" with the
      schema's issues, and the search handler never runs. */
  lemma SearchWithoutQueryIsRejected(safeParse: SafeParse, behaviour: HandlerBehaviour, router: Router, req: Request)
    requires safeParse(SearchQuery, req.query).Failed?
    ensures Serve(safeParse, behaviour, router, TestRegistrations[1], req)
      == Some(Response(400, ErrorWithDetails("Invalid query", safeParse(SearchQuery, req.query).issues)))
  {
    assert TestRegistrations[1].chain == BuildChain(Search);
    EarliestFailureWins(safeParse, Search, req, QuerySource);
  }

  /** A user whose body the schema rejects (the malformed e-mail of
      tests/router.test.ts:41-47) is answered 400 "Invalid body" with the
      schema's issues. */
  lemma InvalidUserIsRejected(safeParse: SafeParse, behaviour: HandlerBehaviour, router: Router, req: Request)
    requires safeParse(UserBody, req.body).Failed?
    ensures Serve(safeParse, behaviour, router, TestRegistrations[0], req)
      == Some(Response(400, ErrorWithDetails("Invalid body", safeParse(UserBody, req.body).issues)))
  {
    assert TestRegistrations[0].chain == BuildChain(CreateUser);
    EarliestFailureWins(safeParse, CreateUser, req, BodySource);
  }

  /** A user id the schema rejects (`/users/abc` of tests/router.test.ts:67-71)
      is answered 400 "Invalid params" with the schema's issues. */
  lemma NonNumericIdIsRejected(safeParse: SafeParse, behaviour: HandlerBehaviour, router: Router, req: Request)
    requires safeParse(UserParams, req.params).Failed?
    ensures Serve(safeParse, behaviour, router, TestRegistrations[2], req)
      == Some(Response(400, ErrorWithDetails("Invalid params", safeParse(UserParams, req.params).issues)))
  {
    assert TestRegistrations[2].chain == BuildChain(GetUser);
    EarliestFailureWins(safeParse, GetUser, req, ParamsSource);
  }

  /** A valid user (tests/router.test.ts:33-39) reaches the create-user
      handler with the parsed body in `req.body` and nothing else changed. */
  lemma ValidUserReachesHandler(safeParse: SafeParse, req: Request)
    requires safeParse(UserBody, req.body).Parsed?
    ensures RunChain(safeParse, TestRegistrations[0].chain, req)
      == Handled(Handler("create user"), req.(body := safeParse(UserBody, req.body).data))
  {
    assert TestRegistrations[0].chain == BuildChain(CreateUser);
    ChainMatchesExpected(safeParse, CreateUser, req);
  }

  /** A valid search (tests/router.test.ts:49-53) reaches the search handler
      with the parsed query under `locals.validatedQuery`; `req.query` and
      everything else stay as they came. */
  lemma ValidSearchReachesHandler(safeParse: SafeParse, req: Request)
    requires safeParse(SearchQuery, req.query).Parsed?
    ensures RunChain(safeParse, TestRegistrations[1].chain, req)
      == Handled(Handler("search"), req.(locals := req.locals[ValidatedQueryKey := safeParse(SearchQuery, req.query).data]))
  {
    assert TestRegistrations[1].chain == BuildChain(Search);
    ChainMatchesExpected(safeParse, Search, req);
  }

  /** A valid user id (tests/router.test.ts:61-65) reaches the get-user
      handler with the parsed params in `req.params` and nothing else changed. */
  lemma ValidIdReachesHandler(safeParse: SafeParse, req: Request)
    requires safeParse(UserParams, req.params).Parsed?
    ensures RunChain(safeParse, TestRegistrations[2].chain, req)
      == Handled(Handler("get user"), req.(params := safeParse(UserParams, req.params).data))
  {
    assert TestRegistrations[2].chain == BuildChain(GetUser);
    ChainMatchesExpected(safeParse, GetUser, req);
  }
}
