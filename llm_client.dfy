/** The API-model client of backend/models/llm_client.py: provider clients
    are created only for configured keys, `generate` routes a model name to a
    provider by substring, and a failure of any model other than the fallback
    is retried once with the fallback model. The provider SDK calls are
    inputs: `openaiApi(m)` and `anthropicApi(m)` are what the chat-completion
    call for model `m` returns or raises (the prompt and sampling arguments
    are the same on every attempt). */
module LlmClient {
  import opened Wrappers
  import opened Errors
  import PyText

  /** The settings of backend/config.py that the client reads. */
  datatype LlmSettings = LlmSettings(
    openaiApiKey: Option<string>,
    openaiOrgId: Option<string>,
    anthropicApiKey: Option<string>,
    defaultModel: string,
    fallbackModel: string)

  /** The defaults of backend/config.py: no keys configured. */
  const DefaultSettings := LlmSettings(None, None, None, "gpt-4-turbo-preview", "claude-3-opus-20240229")

  /** Python truthiness of an optional string. */
  predicate Truthy(s: Option<string>) {
    s.Some? && s.value != ""
  }

  /** An SDK client object: the credentials it was built with. */
  datatype ProviderClient = ProviderClient(apiKey: string, organization: Option<string>)

  datatype Clients = Clients(
    openai: Option<ProviderClient>,
    asyncOpenai: Option<ProviderClient>,
    anthropic: Option<ProviderClient>)

  datatype Provider = OpenAIProvider | AnthropicProvider

  /** The routing of `generate`: "gpt" is looked for first, then "claude",
      both in the lower-cased name. */
  function Route(model: string): (p: Option<Provider>)
    ensures p == Some(OpenAIProvider) <==> PyText.HasSubstring(PyText.Lower(model), "gpt")
    ensures p == Some(AnthropicProvider) <==>
      !PyText.HasSubstring(PyText.Lower(model), "gpt") && PyText.HasSubstring(PyText.Lower(model), "claude")
  {
    var m := PyText.Lower(model);
    if PyText.HasSubstring(m, "gpt") then Some(OpenAIProvider)
    else if PyText.HasSubstring(m, "claude") then Some(AnthropicProvider)
    else None
  }

  const OpenAINotInitialized := "OpenAI client not initialized. Please check your API key."
  const AnthropicNotInitialized := "Anthropic client not initialized. Please check your API key."

  /** One attempt with one model: the body of the `try` in `generate`. */
  function Attempt(clients: Clients, model: string,
                   openaiApi: string -> Result<string, Exc>,
                   anthropicApi: string -> Result<string, Exc>): (r: Result<string, Exc>)
    ensures Route(model).None? ==> r == Err(ValueError("Unsupported model: " + model))
    ensures Route(model) == Some(OpenAIProvider) ==>
      r == if clients.asyncOpenai.None? then Err(ValueError(OpenAINotInitialized)) else openaiApi(model)
    ensures Route(model) == Some(AnthropicProvider) ==>
      r == if clients.anthropic.None? then Err(ValueError(AnthropicNotInitialized)) else anthropicApi(model)
  {
    match Route(model)
    case None => Err(ValueError("Unsupported model: " + model))
    case Some(OpenAIProvider) =>
      if clients.asyncOpenai.None? then Err(ValueError(OpenAINotInitialized)) else openaiApi(model)
    case Some(AnthropicProvider) =>
      if clients.anthropic.None? then Err(ValueError(AnthropicNotInitialized)) else anthropicApi(model)
  }

  /** `model or settings.DEFAULT_MODEL`. */
  function Resolve(settings: LlmSettings, model: Option<string>): string {
    if Truthy(model) then model.value else settings.defaultModel
  }

  /** The outcome of `generate` and the models it tried, in order. */
  datatype Generation = Generation(result: Result<string, Exc>, attempts: seq<string>)

  /** `generate(prompt, model)`. The recursive call passes the fallback model,
      which resolves to itself, so the recursion is at most one level deep. */
  function Generate(settings: LlmSettings, clients: Clients, model: Option<string>,
                    openaiApi: string -> Result<string, Exc>,
                    anthropicApi: string -> Result<string, Exc>): (g: Generation)
    requires settings.fallbackModel != ""
    ensures 1 <= |g.attempts| <= 2
    ensures g.attempts[0] == Resolve(settings, model)
    ensures g.result == Attempt(clients, g.attempts[|g.attempts| - 1], openaiApi, anthropicApi)
    ensures |g.attempts| == 2 <==>
      Attempt(clients, g.attempts[0], openaiApi, anthropicApi).Err?
      && g.attempts[0] != settings.fallbackModel
    ensures |g.attempts| == 2 ==> g.attempts[1] == settings.fallbackModel
    decreases if Resolve(settings, model) == settings.fallbackModel then 0 else 1
  {
    var m := Resolve(settings, model);
    var r := Attempt(clients, m, openaiApi, anthropicApi);
    if r.Ok? || m == settings.fallbackModel then
      Generation(r, [m])
    else
      var g := Generate(settings, clients, Some(settings.fallbackModel), openaiApi, anthropicApi);
      Generation(g.result, [m] + g.attempts)
  }

  /** The clients `_initialize_clients` creates. */
  function InitialClients(settings: LlmSettings): (c: Clients)
    ensures c.openai.Some? <==> Truthy(settings.openaiApiKey)
    ensures c.asyncOpenai.Some? <==> Truthy(settings.openaiApiKey)
    ensures c.anthropic.Some? <==> Truthy(settings.anthropicApiKey)
    ensures c.asyncOpenai.Some? ==>
      c.asyncOpenai.value == ProviderClient(settings.openaiApiKey.value, settings.openaiOrgId)
    ensures c.anthropic.Some? ==> c.anthropic.value.apiKey == settings.anthropicApiKey.value
  {
    var oa := if Truthy(settings.openaiApiKey)
              then Some(ProviderClient(settings.openaiApiKey.value, settings.openaiOrgId)) else None;
    var an := if Truthy(settings.anthropicApiKey)
              then Some(ProviderClient(settings.anthropicApiKey.value, None)) else None;
    Clients(oa, oa, an)
  }

  /** A lower-cased name starting with "gpt" goes to OpenAI, whatever follows
      (even "claude"). */
  lemma RouteGptPrefix(model: string)
    requires |model| >= 3 && PyText.Lower(model)[..3] == "gpt"
    ensures Route(model) == Some(OpenAIProvider)
  {
    PyText.OccursAtIsSubstring(PyText.Lower(model), "gpt", 0);
  }

  /** A name starting with "claude" and without a 'g' goes to Anthropic. */
  lemma RouteClaudePrefix(model: string)
    requires |model| >= 6 && PyText.Lower(model)[..6] == "claude" && 'g' !in PyText.Lower(model)
    ensures Route(model) == Some(AnthropicProvider)
  {
    PyText.MissingFirstCharNotSubstring(PyText.Lower(model), "gpt");
    PyText.OccursAtIsSubstring(PyText.Lower(model), "claude", 0);
  }

  /** A name holding both "gpt" and "claude" goes to OpenAI. */
  lemma RouteBothNames(model: string)
    requires model == "Claude-GPT"
    ensures Route(model) == Some(OpenAIProvider)
  {
    var l := PyText.Lower(model);
    assert model[7] == 'G' && model[8] == 'P' && model[9] == 'T';
    assert l[7] == 'g' && l[8] == 'p' && l[9] == 't';
    assert l[7..10] == "gpt";
    PyText.OccursAtIsSubstring(l, "gpt", 7);
  }

  /** A name with neither is unsupported, whatever the clients. */
  lemma RouteUnsupported(model: string)
    requires model == "mistral-7b"
    ensures Route(model) == None
  {
    assert forall i :: 0 <= i < |model| ==> model[i] != 'g' && model[i] != 'c' && !('A' <= model[i] <= 'Z');
    RouteLowerPlainName(model);
  }

  /** A lower-case name with neither a 'g' nor a 'c' is unsupported. */
  lemma RouteLowerPlainName(model: string)
    requires forall i :: 0 <= i < |model| ==> model[i] != 'g' && model[i] != 'c' && !('A' <= model[i] <= 'Z')
    ensures Route(model) == None
  {
    PyText.LowerOfLowercase(model);
    PyText.MissingFirstCharNotSubstring(model, "gpt");
    PyText.MissingFirstCharNotSubstring(model, "claude");
  }

  /** The default model routes to OpenAI and the fallback model to Anthropic. */
  lemma DefaultModelRoute(model: string)
    requires model == "gpt-4-turbo-preview"
    ensures Route(model) == Some(OpenAIProvider)
  {
    var tail := "-4-turbo-preview";
    assert model == "gpt" + tail;
    assert forall i :: 0 <= i < |tail| ==> !('A' <= tail[i] <= 'Z');
    RouteLowerGptName(tail);
  }

  /** "gpt" followed by lower-case text goes to OpenAI. */
  lemma RouteLowerGptName(tail: string)
    requires forall i :: 0 <= i < |tail| ==> !('A' <= tail[i] <= 'Z')
    ensures Route("gpt" + tail) == Some(OpenAIProvider)
  {
    var model := "gpt" + tail;
    forall i | 0 <= i < |model| ensures !('A' <= model[i] <= 'Z') {
      if i >= 3 {
        assert model[i] == tail[i - 3];
      }
    }
    PyText.LowerOfLowercase(model);
    assert model[..3] == "gpt";
    RouteGptPrefix(model);
  }

  lemma FallbackModelRoute(model: string)
    requires model == "claude-3-opus-20240229"
    ensures Route(model) == Some(AnthropicProvider)
  {
    var tail := "-3-opus-20240229";
    assert model == "claude" + tail;
    assert forall i :: 0 <= i < |tail| ==> tail[i] != 'g' && !('A' <= tail[i] <= 'Z');
    RouteLowerClaudeName(tail);
  }

  /** "claude" followed by lower-case text without a 'g' goes to Anthropic. */
  lemma RouteLowerClaudeName(tail: string)
    requires forall i :: 0 <= i < |tail| ==> tail[i] != 'g' && !('A' <= tail[i] <= 'Z')
    ensures Route("claude" + tail) == Some(AnthropicProvider)
  {
    var model := "claude" + tail;
    forall i | 0 <= i < |model| ensures model[i] != 'g' && !('A' <= model[i] <= 'Z') {
      if i >= 6 {
        assert model[i] == tail[i - 6];
      }
    }
    PyText.LowerOfLowercase(model);
    assert model[..6] == "claude";
    RouteClaudePrefix(model);
  }

  /** A failure of the fallback model itself is re-raised unchanged after one
      attempt; a failure of any other model is answered by the fallback's
      outcome. */
  lemma FallbackOutcome(settings: LlmSettings, clients: Clients, model: Option<string>,
                        openaiApi: string -> Result<string, Exc>,
                        anthropicApi: string -> Result<string, Exc>)
    requires settings.fallbackModel != ""
    requires Attempt(clients, Resolve(settings, model), openaiApi, anthropicApi).Err?
    ensures var g := Generate(settings, clients, model, openaiApi, anthropicApi);
      g.result == Attempt(clients, settings.fallbackModel, openaiApi, anthropicApi)
      && (Resolve(settings, model) == settings.fallbackModel <==> g.attempts == [settings.fallbackModel])
  {
  }

  /** A missing OpenAI client is a `ValueError` that sends a "gpt" model to the
      fallback: when only Anthropic is configured and the fallback is a
      "claude" model, `generate` answers a "gpt" model with the Anthropic
      outcome for the fallback model. */
  lemma MissingClientFallsBack(settings: LlmSettings, model: string,
                               openaiApi: string -> Result<string, Exc>,
                               anthropicApi: string -> Result<string, Exc>)
    requires settings.fallbackModel != "" && model != "" && model != settings.fallbackModel
    requires !Truthy(settings.openaiApiKey) && Truthy(settings.anthropicApiKey)
    requires Route(model) == Some(OpenAIProvider)
    requires Route(settings.fallbackModel) == Some(AnthropicProvider)
    ensures var g := Generate(settings, InitialClients(settings), Some(model), openaiApi, anthropicApi);
      g.attempts == [model, settings.fallbackModel]
      && g.result == anthropicApi(settings.fallbackModel)
  {
  }

  /** Without any key no client exists, so every call fails; when the
      fallback is a "claude" model the error reported is Anthropic's. */
  lemma NoKeysAlwaysFail(settings: LlmSettings, model: Option<string>,
                         openaiApi: string -> Result<string, Exc>,
                         anthropicApi: string -> Result<string, Exc>)
    requires settings.fallbackModel != ""
    requires !Truthy(settings.openaiApiKey) && !Truthy(settings.anthropicApiKey)
    ensures Generate(settings, InitialClients(settings), model, openaiApi, anthropicApi).result.Err?
    ensures Route(settings.fallbackModel) == Some(AnthropicProvider) ==>
      Generate(settings, InitialClients(settings), model, openaiApi, anthropicApi).result
        == Err(ValueError(AnthropicNotInitialized))
  {
    var g := Generate(settings, InitialClients(settings), model, openaiApi, anthropicApi);
    var last := g.attempts[|g.attempts| - 1];
    assert Route(settings.fallbackModel) == Some(AnthropicProvider) ==> last == settings.fallbackModel
      by {
        if Route(settings.fallbackModel) == Some(AnthropicProvider) && |g.attempts| == 1 {
          assert Attempt(InitialClients(settings), g.attempts[0], openaiApi, anthropicApi).Err?;
        }
      }
  }

  const NotAwaitable := "object Message can't be used in 'await' expression"

  /** The Anthropic call as written: the client is the synchronous
      `Anthropic`, so `await` is applied to the returned Message itself and
      raises TypeError; only an error the SDK raises comes through as it is. */
  function SyncAnthropicAwaited(anthropicApi: string -> Result<string, Exc>): (f: string -> Result<string, Exc>)
    ensures forall m :: f(m).Err?
    ensures forall m :: anthropicApi(m).Ok? ==> f(m) == Err(TypeError(NotAwaitable))
    ensures forall m :: anthropicApi(m).Err? ==> f(m) == anthropicApi(m)
  {
    m => if anthropicApi(m).Ok? then Err(TypeError(NotAwaitable)) else anthropicApi(m)
  }

  /** As written, no Anthropic model ever answers, so with a "claude"
      fallback the only way `generate` succeeds is its first attempt going to
      OpenAI; the fallback never rescues a failed call. */
  lemma AnthropicNeverAnswersAsWritten(settings: LlmSettings, clients: Clients, model: Option<string>,
                                       openaiApi: string -> Result<string, Exc>,
                                       anthropicApi: string -> Result<string, Exc>)
    requires settings.fallbackModel != ""
    requires Route(settings.fallbackModel) == Some(AnthropicProvider)
    ensures var g := Generate(settings, clients, model, openaiApi, SyncAnthropicAwaited(anthropicApi));
      g.result.Ok? ==>
        && g.attempts == [Resolve(settings, model)]
        && Route(Resolve(settings, model)) == Some(OpenAIProvider)
        && g.result == openaiApi(Resolve(settings, model))
  {
    var api := SyncAnthropicAwaited(anthropicApi);
    var g := Generate(settings, clients, model, openaiApi, api);
    if g.result.Ok? {
      var last := g.attempts[|g.attempts| - 1];
      assert g.result == Attempt(clients, last, openaiApi, api);
      assert api(last).Err?;
      assert Route(last) == Some(OpenAIProvider);
      assert last != settings.fallbackModel;
    }
  }

  /** With the awaitable client the fallback does what it is for: a model
      whose attempt fails is answered by the Anthropic fallback's text. */
  lemma FallbackRescues(settings: LlmSettings, clients: Clients, model: string,
                        openaiApi: string -> Result<string, Exc>,
                        anthropicApi: string -> Result<string, Exc>)
    requires settings.fallbackModel != "" && model != "" && model != settings.fallbackModel
    requires Attempt(clients, model, openaiApi, anthropicApi).Err?
    requires Route(settings.fallbackModel) == Some(AnthropicProvider) && clients.anthropic.Some?
    requires anthropicApi(settings.fallbackModel).Ok?
    ensures var g := Generate(settings, clients, Some(model), openaiApi, anthropicApi);
      g.attempts == [model, settings.fallbackModel] && g.result == anthropicApi(settings.fallbackModel)
      && g.result.Ok?
  {
  }

  /** With the settings of backend/config.py (no keys) the default
      "gpt-4-turbo-preview" fails, and then so does the fallback
      "claude-3-opus-20240229". */
  lemma DefaultSettingsAlwaysFail(settings: LlmSettings,
                                  openaiApi: string -> Result<string, Exc>,
                                  anthropicApi: string -> Result<string, Exc>)
    requires settings.openaiApiKey.None? && settings.anthropicApiKey.None?
    requires settings.defaultModel == "gpt-4-turbo-preview"
    requires settings.fallbackModel == "claude-3-opus-20240229"
    ensures var g := Generate(settings, InitialClients(settings), None, openaiApi, anthropicApi);
      g.attempts == [settings.defaultModel, settings.fallbackModel]
      && g.result == Err(ValueError(AnthropicNotInitialized))
  {
    DefaultModelRoute(settings.defaultModel);
    FallbackModelRoute(settings.fallbackModel);
    NoKeysAlwaysFail(settings, None, openaiApi, anthropicApi);
  }

  class LLMClient {
    const settings: LlmSettings
    var openaiClient: Option<ProviderClient>
    var asyncOpenaiClient: Option<ProviderClient>
    var anthropicClient: Option<ProviderClient>

    function Snapshot(): Clients
      reads this
    {
      Clients(openaiClient, asyncOpenaiClient, anthropicClient)
    }

    constructor (settings: LlmSettings)
      ensures this.settings == settings
      ensures Snapshot() == InitialClients(settings)
    {
      this.settings := settings;
      openaiClient := None;
      asyncOpenaiClient := None;
      anthropicClient := None;
      new;
      InitializeClients();
    }

    /** `_initialize_clients`: a client for each provider whose key is set. */
    method InitializeClients()
      modifies this
      ensures Truthy(settings.openaiApiKey) ==>
        openaiClient == asyncOpenaiClient == InitialClients(settings).openai
      ensures !Truthy(settings.openaiApiKey) ==>
        openaiClient == old(openaiClient) && asyncOpenaiClient == old(asyncOpenaiClient)
      ensures Truthy(settings.anthropicApiKey) ==> anthropicClient == InitialClients(settings).anthropic
      ensures !Truthy(settings.anthropicApiKey) ==> anthropicClient == old(anthropicClient)
    {
      if Truthy(settings.openaiApiKey) {
        openaiClient := Some(ProviderClient(settings.openaiApiKey.value, settings.openaiOrgId));
        asyncOpenaiClient := Some(ProviderClient(settings.openaiApiKey.value, settings.openaiOrgId));
      }
      if Truthy(settings.anthropicApiKey) {
        anthropicClient := Some(ProviderClient(settings.anthropicApiKey.value, None));
      }
    }

    /** `generate`, on this client's current clients. */
    method GenerateText(model: Option<string>,
                        openaiApi: string -> Result<string, Exc>,
                        anthropicApi: string -> Result<string, Exc>) returns (r: Result<string, Exc>)
      requires settings.fallbackModel != ""
      ensures r == Generate(settings, Snapshot(), model, openaiApi, anthropicApi).result
    {
      var m := Resolve(settings, model);
      r := Attempt(Snapshot(), m, openaiApi, anthropicApi);
      if r.Err? && m != settings.fallbackModel {
        r := Attempt(Snapshot(), settings.fallbackModel, openaiApi, anthropicApi);
      }
    }
  }
}
