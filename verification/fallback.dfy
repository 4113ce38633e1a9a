/** The two error-handling stages installed after all routes (src/index.ts:74-85).
    An error propagated by a route reaches them in order: the first answers
    schema-engine errors with 400 "Validation error" and forwards everything
    else; the second answers whatever reaches it with 500 "Internal Server Error". */
module Fallback {
  import opened Wrappers
  import opened Domain

  datatype ErrorStage = ZodErrorStage | CatchAllStage

  /** The stages in the order the router installs them. */
  const Stages: seq<ErrorStage> := [ZodErrorStage, CatchAllStage]

  /** `{ error: "Validation error", details: issues }` with status 400. */
  function ValidationError(issues: seq<Issue>): Response {
    Response(400, ErrorWithDetails("Validation error", issues))
  }

  /** `{ error: "Internal Server Error", message, stack }` with status 500. */
  function InternalError(message: Option<string>, stack: Option<string>): Response {
    Response(500, ErrorWithDiagnostics("Internal Server Error", message, stack))
  }

  /** A stage either answers or calls `next(err)` with the error it received. */
  datatype StageResult = Respond(response: Response) | Forward(error: Error)

  /** One error stage. The schema-engine stage answers exactly the
      schema-engine errors, with their issues; the catch-all answers every
      error with its message and stack; neither alters an error it forwards. */
  function RunStage(stage: ErrorStage, err: Error): (r: StageResult)
    ensures stage == ZodErrorStage ==> (r.Respond? <==> err.ZodErr?)
    ensures stage == ZodErrorStage && r.Respond? ==> r.response == ValidationError(err.issues)
    ensures stage == CatchAllStage ==> r.Respond? && r.response == InternalError(err.message, err.stack)
    ensures r.Forward? ==> r.error == err
  {
    match stage
    case ZodErrorStage =>
      if err.ZodErr? then Respond(ValidationError(err.issues)) else Forward(err)
    case CatchAllStage =>
      Respond(InternalError(err.message, err.stack))
  }

  /** Delivers an error through a list of stages, in order, until one answers;
      None when every stage forwarded it (the host framework's default handler
      then takes over). A list holding a catch-all always answers; every answer
      is one of the two envelopes for this very error, and an error that is not
      the schema engine's can only be answered with its 500 diagnostics. */
  function RunStages(stages: seq<ErrorStage>, err: Error): (r: Option<Response>)
    ensures CatchAllStage in stages ==> r.Some?
    ensures r.Some? && err.OtherErr? ==> r.value == InternalError(err.message, err.stack)
    ensures r.Some? ==> (err.ZodErr? && r.value == ValidationError(err.issues)) || r.value == InternalError(err.message, err.stack)
    decreases |stages|
  {
    if |stages| == 0 then None
    else
      match RunStage(stages[0], err)
      case Respond(response) => Some(response)
      case Forward(next) =>
        assert stages == [stages[0]] + stages[1..];
        RunStages(stages[1..], next)
  }

  /** The installed stages answer every error: schema-engine errors with 400
      "Validation error" and their issues, every other error with 500 "Internal
      Server Error" and its message and stack. */
  lemma FallbackClassifies(err: Error)
    ensures RunStages(Stages, err).Some?
    ensures err.ZodErr? ==> RunStages(Stages, err).value == ValidationError(err.issues)
    ensures err.OtherErr? ==> RunStages(Stages, err).value == InternalError(err.message, err.stack)
    ensures RunStages(Stages, err).value.status == 400 <==> err.ZodErr?
  {
    assert CatchAllStage in Stages;
    assert Stages[1..] == [CatchAllStage];
  }

  /** A schema-engine error is answered by the first stage and never reaches
      the catch-all, whatever stages come after the first. */
  lemma ZodErrorNeverReachesCatchAll(err: Error, later: seq<ErrorStage>)
    requires err.ZodErr?
    ensures RunStages([ZodErrorStage] + later, err) == Some(ValidationError(err.issues))
  {
    assert ([ZodErrorStage] + later)[0] == ZodErrorStage;
  }

  /** The installation order matters: with the catch-all first, a
      schema-engine error would be answered with 500 instead of 400. */
  lemma CatchAllFirstWouldSwallow(err: Error)
    requires err.ZodErr?
    ensures RunStages([CatchAllStage, ZodErrorStage], err) == Some(InternalError(err.message, err.stack))
  {
    assert [CatchAllStage, ZodErrorStage][0] == CatchAllStage;
  }
}
