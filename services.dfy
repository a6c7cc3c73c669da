/** The remote collaborators of the handlers: the Gemini SDK (listing models, generating
    content), the Hugging Face inference endpoint and the `match_jobs` database function.
    Each is an oracle: its answer is an arbitrary function of the call and of how many remote
    calls came before it, so a retry may see a different answer and every property proved
    holds whatever the services reply. */
module Services {
  import opened Wrappers
  import opened Json

  /** One row returned by `match_jobs`. */
  datatype Match = Match(title: string, similarity: real)

  /** The three kinds of conversation the finalization handler sends to the model; each
      carries the data the handler puts into it (the fixed instruction texts are opaque). */
  datatype Prompt =
    | ProfilePrompt(history: JsonValue)
    | PersonaPrompt(profile: JsonValue)
    | ReasonsPrompt(profile: JsonValue, jobs: seq<Match>)

  /** What `fetch` yields for the embedding request: a rejected promise, or a status with a
      body that `res.json()` may fail to parse (None). */
  datatype HfResponse = HfNetworkError | HfReply(status: int, body: Option<JsonValue>)

  /** One remote call, in the order the handlers issue them. */
  datatype Call =
    | ListModels
    | GenerateContent(model: string, prompt: Prompt)
    | Embed(text: string)
    | MatchJobs(vector: string, floor: real, cap: int)

  /** What a step computes from the oracles' answers, with the calls it issues in order. */
  datatype Outcome<+T> = Outcome(result: T, calls: seq<Call>)

  class Remote {
    /** `genAI.listModels()` mapped to the model names; None when it throws. */
    const listModels: nat -> Option<seq<string>>
    /** `model.generateContent(...).response.text()`; None when it throws. */
    const generate: (nat, string, Prompt) -> Option<string>
    /** The Hugging Face `fetch`. */
    const embed: (nat, string) -> HfResponse
    /** `SELECT title, similarity FROM match_jobs($1, $2, $3)`; None when the query throws. */
    const matchJobs: (nat, string, real, int) -> Option<seq<Match>>
    /** Every remote call issued so far, oldest first. */
    var log: seq<Call>

    constructor (listModels: nat -> Option<seq<string>>,
                 generate: (nat, string, Prompt) -> Option<string>,
                 embed: (nat, string) -> HfResponse,
                 matchJobs: (nat, string, real, int) -> Option<seq<Match>>)
      ensures this.listModels == listModels && this.generate == generate
      ensures this.embed == embed && this.matchJobs == matchJobs
      ensures log == []
    {
      this.listModels := listModels;
      this.generate := generate;
      this.embed := embed;
      this.matchJobs := matchJobs;
      log := [];
    }

    method ListModelNames() returns (names: Option<seq<string>>)
      modifies this
      ensures log == old(log) + [ListModels]
      ensures names == listModels(|old(log)|)
    {
      names := listModels(|log|);
      log := log + [ListModels];
    }

    method GenerateContent(model: string, prompt: Prompt) returns (reply: Option<string>)
      modifies this
      ensures log == old(log) + [Call.GenerateContent(model, prompt)]
      ensures reply == generate(|old(log)|, model, prompt)
    {
      reply := generate(|log|, model, prompt);
      log := log + [Call.GenerateContent(model, prompt)];
    }

    method Fetch(text: string) returns (response: HfResponse)
      modifies this
      ensures log == old(log) + [Embed(text)]
      ensures response == embed(|old(log)|, text)
    {
      response := embed(|log|, text);
      log := log + [Embed(text)];
    }

    method QueryMatchJobs(vector: string, floor: real, cap: int) returns (rows: Option<seq<Match>>)
      modifies this
      ensures log == old(log) + [Call.MatchJobs(vector, floor, cap)]
      ensures rows == matchJobs(|old(log)|, vector, floor, cap)
    {
      rows := matchJobs(|log|, vector, floor, cap);
      log := log + [Call.MatchJobs(vector, floor, cap)];
    }
  }
}
