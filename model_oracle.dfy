/** The generative model both halves of the application call, seen from the
    outside: given a prompt it either answers with text or raises. Its
    answers are a fixed but arbitrary function of the prompt; the object
    records every prompt it was sent, so a contract can count the calls. */
module ModelOracle {

  /** The exceptions the model code distinguishes. `ValueError` is Python's
      (raised for a missing key and by `int()` on bad text); the others are
      the SDK's, the database's and Django's. */
  datatype Exception =
    | ValueError(message: string)
    | IntegrityError(message: string)
    | Http404
    | DoesNotExist
    | ServiceError(message: string)

  /** The outcome of one `generateContent` / `generate_content` call,
      including reading the text out of the response. */
  datatype Reply = Completion(text: string) | Raised(error: Exception)

  class GenerativeModel {
    /** How the model answers each prompt. */
    const respond: string -> Reply
    /** The prompts sent so far, oldest first. */
    var prompts: seq<string>

    constructor (respond: string -> Reply)
      ensures this.respond == respond && prompts == []
    {
      this.respond := respond;
      prompts := [];
    }

    /** One call to the model. */
    method GenerateContent(prompt: string) returns (reply: Reply)
      modifies this
      ensures prompts == old(prompts) + [prompt]
      ensures reply == respond(prompt)
    {
      prompts := prompts + [prompt];
      reply := respond(prompt);
    }
  }
}
