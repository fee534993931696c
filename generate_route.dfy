/** The `POST /api/generate` route handler: read the request body, refuse
    when no API key is configured, otherwise run the generator and map any
    error to a 500 response. */
module GenerateRoute {
  import opened Wrappers
  import opened RecipeTypes
  import opened ModelOracle
  import opened Http
  import opened Json
  import opened Gemini

  const KeyMissing := "Gemini API key not configured"

  /** The response for a parsed body when a key is configured. */
  function GeneratedResponse(outcome: Result<Generated, string>): Response<Generated> {
    match outcome
    case Success(g) => Ok(g)
    case Failure(_) => ServerError(GenerateFailure)
  }

  /** The handler. `body` is the result of `request.json()` (`None` when it
      throws) and `apiKey` is `GEMINI_API_KEY` (`None` when unset). */
  method Post(body: Option<RecipeGenerationRequest>, apiKey: Option<string>,
              model: GenerativeModel, parse: string -> Option<Json>)
    returns (response: Response<Generated>)
    modifies model
    ensures body.None? ==> response == ServerError(GenerateFailure) && model.prompts == old(model.prompts)
    ensures body.Some? && (apiKey.None? || apiKey.value == "") ==>
      response == ServerError(KeyMissing) && model.prompts == old(model.prompts)
    ensures body.Some? && apiKey.Some? && apiKey.value != "" ==>
      model.prompts == old(model.prompts) + [Prompt(body.value)] &&
      response == GeneratedResponse(Outcome(model.respond(Prompt(body.value)), parse))
  {
    if body.None? {
      return ServerError(GenerateFailure);
    }
    if apiKey.None? || apiKey.value == "" {
      return ServerError(KeyMissing);
    }
    var recipe := GenerateRecipe(body.value, model, parse);
    match recipe {
      case Success(g) => response := Ok(g);
      case Failure(_) => response := ServerError(GenerateFailure);
    }
  }

  /** After the key check, every response is either 200 with the
      generator's result or 500 with the generic failure message. */
  lemma ResponsesAreOkOrServerError(outcome: Result<Generated, string>)
    ensures GeneratedResponse(outcome).status == 200 <==> outcome.Success?
    ensures GeneratedResponse(outcome).status == 200 ==> GeneratedResponse(outcome).body == Payload(outcome.value)
    ensures GeneratedResponse(outcome).status != 200 ==>
      GeneratedResponse(outcome) == ServerError(GenerateFailure)
  {
  }
}
