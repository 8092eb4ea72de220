/** The OpenAI helpers of backend/app/services/openai.py. The SDK calls are
    inputs: `sdk(name)` is what the chat-completion call for model `name`
    returns or raises, and the embedding, moderation and token-counting calls
    are given as their results. The API key is `settings.OPENAI_API_KEY`,
    which defaults to "" (not set). */
module OpenAIService {
  import opened Wrappers
  import opened Errors
  import opened Schema

  /** An error raised by the SDK, by kind. */
  datatype SdkError = SdkRateLimit | SdkAuthFailure | SdkTimeout | SdkOther(message: string)

  /** What the chat-completion call produced: the message of a regular
      response and the chunk deltas of a streamed one, or an SDK error. */
  datatype SdkOutcome = SdkAnswer(message: string, deltas: seq<Option<string>>) | SdkRaised(error: SdkError)

  /** The text `str(e)` of an SDK error, as far as the model needs it. */
  function SdkErrorText(e: SdkError): string {
    match e
    case SdkRateLimit => "Rate limit reached"
    case SdkAuthFailure => "Incorrect API key provided"
    case SdkTimeout => "Request timed out."
    case SdkOther(m) => m
  }

  const ApiErrorPrefix := "OpenAI API error: "

  /** The `except` clauses of `get_completion`: rate limits and authentication
      failures become the application's errors, everything else a plain
      Exception with the "OpenAI API error: " prefix. */
  function TranslateSdkError(e: SdkError): (x: Exc)
    ensures e.SdkRateLimit? <==> x == App(RateLimitError("OpenAI"))
    ensures e.SdkAuthFailure? <==> x == App(APIKeyError("OpenAI"))
    ensures !e.SdkRateLimit? && !e.SdkAuthFailure? ==> x == Exception(ApiErrorPrefix + SdkErrorText(e))
  {
    match e
    case SdkRateLimit => App(RateLimitError("OpenAI"))
    case SdkAuthFailure => App(APIKeyError("OpenAI"))
    case _ => Exception(ApiErrorPrefix + SdkErrorText(e))
  }

  /** None of the translated errors is an SDK error type, so the retry
      decorator (which retries SDK rate-limit and timeout errors) never
      fires: a timeout surfaces as a plain Exception after one call. */
  lemma TranslatedErrorsAreNotRetried(e: SdkError)
    ensures TranslateSdkError(e).App? || TranslateSdkError(e).Exception?
    ensures e.SdkTimeout? ==> TranslateSdkError(e) == Exception("OpenAI API error: Request timed out.")
  {
  }

  const NoneHasNoGet := "'NoneType' object has no attribute 'get'"

  /** `model.parameters.get("model_name", "gpt-4")`; a null `parameters`
      raises AttributeError. */
  function ModelName(parameters: Option<map<string, string>>): (r: Result<string, string>)
    ensures parameters.None? <==> r == Err(NoneHasNoGet)
    ensures parameters.Some? && "model_name" in parameters.value ==> r == Ok(parameters.value["model_name"])
    ensures parameters.Some? && "model_name" !in parameters.value ==> r == Ok("gpt-4")
  {
    if parameters.None? then Err(NoneHasNoGet)
    else if "model_name" in parameters.value then Ok(parameters.value["model_name"])
    else Ok("gpt-4")
  }

  /** The streamed text: the non-`None` deltas, concatenated in order. */
  function Concatenated(deltas: seq<Option<string>>): (r: string)
    ensures (forall i :: 0 <= i < |deltas| ==> deltas[i].None?) ==> r == ""
    ensures |deltas| > 0 && deltas[0].Some? ==> deltas[0].value <= r
    decreases |deltas|
  {
    if deltas == [] then ""
    else
      var last := deltas[|deltas| - 1];
      Concatenated(deltas[..|deltas| - 1]) + (if last.Some? then last.value else "")
  }

  /** Concatenation distributes over splitting the chunk stream. */
  lemma {:induction false} ConcatenatedAppend(a: seq<Option<string>>, b: seq<Option<string>>)
    ensures Concatenated(a + b) == Concatenated(a) + Concatenated(b)
    decreases |b|
  {
    if b == [] {
      assert a + b == a;
    } else {
      var b', last := b[..|b| - 1], b[|b| - 1];
      var tail := if last.Some? then last.value else "";
      assert (a + b)[..|a + b| - 1] == a + b' && (a + b)[|a + b| - 1] == last;
      ConcatenatedAppend(a, b');
      assert Concatenated(a + b) == Concatenated(a + b') + tail;
      assert Concatenated(b) == Concatenated(b') + tail;
    }
  }

  /** `None` deltas contribute nothing, wherever they are. */
  lemma NoneDeltaIgnored(a: seq<Option<string>>, b: seq<Option<string>>)
    ensures Concatenated(a + [None] + b) == Concatenated(a + b)
  {
    ConcatenatedAppend(a + [None], b);
    ConcatenatedAppend(a, [None]);
    ConcatenatedAppend(a, b);
    var one: seq<Option<string>> := [None];
    assert one[..0] == [];
    assert Concatenated(one) == "";
  }

  /** The total length of the present deltas. */
  function PresentLength(deltas: seq<Option<string>>): nat
    decreases |deltas|
  {
    if deltas == [] then 0
    else
      var last := deltas[|deltas| - 1];
      PresentLength(deltas[..|deltas| - 1]) + (if last.Some? then |last.value| else 0)
  }

  /** Nothing is lost or added: the streamed text is exactly as long as the
      present deltas together. */
  lemma {:induction false} ConcatenatedLength(deltas: seq<Option<string>>)
    ensures |Concatenated(deltas)| == PresentLength(deltas)
    decreases |deltas|
  {
    if deltas != [] {
      ConcatenatedLength(deltas[..|deltas| - 1]);
    }
  }

  /** The `async for` loop that builds `full_response`. */
  method AccumulateStream(deltas: seq<Option<string>>) returns (full: string)
    ensures full == Concatenated(deltas)
  {
    full := "";
    var i := 0;
    while i < |deltas|
      invariant 0 <= i <= |deltas|
      invariant full == Concatenated(deltas[..i])
    {
      assert deltas[..i + 1][..i] == deltas[..i];
      if deltas[i].Some? {
        full := full + deltas[i].value;
      }
      i := i + 1;
    }
    assert deltas[..i] == deltas;
  }

  /** `get_completion(model, prompt, stream=stream)`. The key check comes
      first; a null `parameters` is caught by the generic handler. */
  function CompletionSpec(apiKey: string, model: Model, stream: bool, sdk: string -> SdkOutcome): (r: Result<string, Exc>)
    ensures apiKey == "" ==> r == Err(App(APIKeyError("OpenAI")))
    ensures apiKey != "" && model.parameters.None? ==> r == Err(Exception(ApiErrorPrefix + NoneHasNoGet))
    ensures apiKey != "" && model.parameters.Some? ==>
      var n := ModelName(model.parameters).value;
      && (sdk(n).SdkRaised? ==> r == Err(TranslateSdkError(sdk(n).error)))
      && (sdk(n).SdkAnswer? ==> r == Ok(if stream then Concatenated(sdk(n).deltas) else sdk(n).message))
  {
    if apiKey == "" then Err(App(APIKeyError("OpenAI")))
    else
      match ModelName(model.parameters)
      case Err(msg) => Err(Exception(ApiErrorPrefix + msg))
      case Ok(name) =>
        match sdk(name)
        case SdkRaised(e) => Err(TranslateSdkError(e))
        case SdkAnswer(message, deltas) => Ok(if stream then Concatenated(deltas) else message)
  }

  /** Without a key nothing depends on the SDK; with one, the SDK is asked for
      the named model (default "gpt-4") and its errors are translated. */
  lemma CompletionKeyCheckFirst(model: Model, stream: bool, sdk1: string -> SdkOutcome, sdk2: string -> SdkOutcome)
    ensures CompletionSpec("", model, stream, sdk1) == CompletionSpec("", model, stream, sdk2)
  {
  }

  /** Only the named model is asked: two SDKs that answer the same for that
      name give the same completion, whatever they do for other names. */
  lemma CompletionUsesNamedModel(apiKey: string, model: Model, stream: bool,
                                 sdk1: string -> SdkOutcome, sdk2: string -> SdkOutcome)
    requires apiKey != "" && model.parameters.Some?
    requires sdk1(ModelName(model.parameters).value) == sdk2(ModelName(model.parameters).value)
    ensures CompletionSpec(apiKey, model, stream, sdk1) == CompletionSpec(apiKey, model, stream, sdk2)
  {
  }

  /** `get_completion`, with the streaming loop. */
  method GetCompletion(apiKey: string, model: Model, stream: bool, sdk: string -> SdkOutcome) returns (r: Result<string, Exc>)
    ensures r == CompletionSpec(apiKey, model, stream, sdk)
  {
    if apiKey == "" {
      return Err(App(APIKeyError("OpenAI")));
    }
    var name := ModelName(model.parameters);
    if name.Err? {
      return Err(Exception(ApiErrorPrefix + name.error));
    }
    var outcome := sdk(name.value);
    match outcome
    case SdkRaised(e) =>
      r := Err(TranslateSdkError(e));
    case SdkAnswer(message, deltas) =>
      if stream {
        var full := AccumulateStream(deltas);
        r := Ok(full);
      } else {
        r := Ok(message);
      }
  }

  /** `get_embeddings(text)`: `response` is what the embedding call returned
      or the text of what it raised. */
  function GetEmbeddings(apiKey: string, response: Result<seq<real>, string>): (r: Result<seq<real>, Exc>)
    ensures apiKey == "" ==> r == Err(App(APIKeyError("OpenAI")))
    ensures apiKey != "" && response.Ok? ==> r == Ok(response.value)
    ensures apiKey != "" && response.Err? ==> r == Err(Exception("Error getting embeddings: " + response.error))
  {
    if apiKey == "" then Err(App(APIKeyError("OpenAI")))
    else if response.Err? then Err(Exception("Error getting embeddings: " + response.error))
    else Ok(response.value)
  }

  /** The seven category scores of a moderation result. */
  datatype CategoryScores = CategoryScores(
    hate: real, hateThreatening: real, selfHarm: real, sexual: real,
    sexualMinors: real, violence: real, violenceGraphic: real)

  const SafetyCategories: set<string> :=
    {"hate", "hate_threatening", "self_harm", "sexual", "sexual_minors", "violence", "violence_graphic"}

  /** `analyze_safety(text)`: the moderation scores under their seven names. */
  function AnalyzeSafety(apiKey: string, response: Result<CategoryScores, string>): (r: Result<map<string, real>, Exc>)
    ensures apiKey == "" ==> r == Err(App(APIKeyError("OpenAI")))
    ensures apiKey != "" && response.Err? ==> r == Err(Exception("Error analyzing safety: " + response.error))
    ensures r.Ok? ==> r.value.Keys == SafetyCategories && |r.value| == 7
    ensures apiKey != "" && response.Ok? ==> r.Ok?
    ensures r.Ok? ==>
      var c := response.value;
      && r.value["hate"] == c.hate && r.value["hate_threatening"] == c.hateThreatening
      && r.value["self_harm"] == c.selfHarm && r.value["sexual"] == c.sexual
      && r.value["sexual_minors"] == c.sexualMinors && r.value["violence"] == c.violence
      && r.value["violence_graphic"] == c.violenceGraphic
  {
    if apiKey == "" then Err(App(APIKeyError("OpenAI")))
    else if response.Err? then Err(Exception("Error analyzing safety: " + response.error))
    else
      var s := response.value;
      Ok(map["hate" := s.hate, "hate_threatening" := s.hateThreatening, "self_harm" := s.selfHarm,
             "sexual" := s.sexual, "sexual_minors" := s.sexualMinors, "violence" := s.violence,
             "violence_graphic" := s.violenceGraphic])
  }

  /** No score is lost: the scores can be read back from the result, so two
      moderation results with the same dictionary are the same result. */
  lemma SafetyScoresReadBack(apiKey: string, c1: CategoryScores, c2: CategoryScores)
    requires apiKey != ""
    requires AnalyzeSafety(apiKey, Ok(c1)) == AnalyzeSafety(apiKey, Ok(c2))
    ensures c1 == c2
  {
  }

  /** A per-1000-token price: input and output. */
  datatype Price = Price(input: real, output: real)

  /** The price table of `estimate_cost`. */
  const Costs: map<string, Price> := map[
    "gpt-4" := Price(0.01, 0.03),
    "gpt-4-turbo" := Price(0.01, 0.03),
    "gpt-3.5-turbo" := Price(0.0005, 0.0015)]

  /** `estimate_cost(text, model, is_completion)`: `tokenCount` is what
      `get_token_count(text, model)` returns or the text of what it raised. */
  function EstimateCost(model: string, isCompletion: bool, tokenCount: Result<nat, string>): (r: Result<real, Exc>)
    ensures model !in Costs <==> r == Err(ValueError("Unknown model: " + model))
    ensures model in Costs && tokenCount.Err? ==> r == Err(Exception("Error counting tokens: " + tokenCount.error))
    ensures r.Ok? ==> r.value >= 0.0
  {
    if model !in Costs then Err(ValueError("Unknown model: " + model))
    else if tokenCount.Err? then Err(Exception("Error counting tokens: " + tokenCount.error))
    else
      var rate := if isCompletion then Costs[model].output else Costs[model].input;
      Ok((tokenCount.value as real / 1000.0) * rate)
  }

  /** The model is checked before any token is counted: for an unknown model
      the outcome of counting does not matter. */
  lemma UnknownModelBeforeCounting(model: string, isCompletion: bool, t1: Result<nat, string>, t2: Result<nat, string>)
    requires model !in Costs
    ensures EstimateCost(model, isCompletion, t1) == EstimateCost(model, isCompletion, t2)
  {
  }

  /** Cost is tokens/1000 times the output rate for a completion and the input
      rate otherwise; for every priced model the output rate is three times
      the input rate, and gpt-4 and gpt-4-turbo are priced alike. */
  lemma CostFormula(model: string, n: nat)
    requires model in Costs
    ensures EstimateCost(model, true, Ok(n)) == Ok(n as real / 1000.0 * Costs[model].output)
    ensures EstimateCost(model, false, Ok(n)) == Ok(n as real / 1000.0 * Costs[model].input)
    ensures EstimateCost(model, true, Ok(n)).value == 3.0 * EstimateCost(model, false, Ok(n)).value
  {
  }

  lemma PriceTable()
    ensures forall m :: m in Costs ==> Costs[m].output == 3.0 * Costs[m].input
    ensures Costs["gpt-4"] == Costs["gpt-4-turbo"]
    ensures |Costs| == 3
  {
  }
}
