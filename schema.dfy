/** The persistent entities of backend/app/models/models.py. Ids are the keys
    under which the store holds rows; JSON columns are `Json` values or maps
    of strings. */
module Schema {
  import opened Wrappers

  datatype ModelProvider = OpenAI | Anthropic | Google | HuggingFace | Local

  /** The enum's string value. */
  function ProviderValue(p: ModelProvider): string {
    match p
    case OpenAI => "openai"
    case Anthropic => "anthropic"
    case Google => "google"
    case HuggingFace => "huggingface"
    case Local => "local"
  }

  const AllProviders: seq<ModelProvider> := [OpenAI, Anthropic, Google, HuggingFace, Local]

  datatype EvaluationType = FactualQA | Reasoning | Coding | Math | Safety | Jailbreak | Agent

  function TypeValue(t: EvaluationType): string {
    match t
    case FactualQA => "factual_qa"
    case Reasoning => "reasoning"
    case Coding => "coding"
    case Math => "math"
    case Safety => "safety"
    case Jailbreak => "jailbreak"
    case Agent => "agent"
  }

  const AllEvaluationTypes: seq<EvaluationType> :=
    [FactualQA, Reasoning, Coding, Math, Safety, Jailbreak, Agent]

  /** `ModelProvider` has exactly five members, with distinct values. */
  lemma ProvidersAreFive()
    ensures |AllProviders| == 5
    ensures forall p :: p in AllProviders
    ensures forall i, j :: 0 <= i < j < |AllProviders| ==>
      ProviderValue(AllProviders[i]) != ProviderValue(AllProviders[j])
  {
    forall p: ModelProvider ensures p in AllProviders {
      match p
      case OpenAI => assert AllProviders[0] == p;
      case Anthropic => assert AllProviders[1] == p;
      case Google => assert AllProviders[2] == p;
      case HuggingFace => assert AllProviders[3] == p;
      case Local => assert AllProviders[4] == p;
    }
  }

  /** `EvaluationType` has exactly seven members, with distinct values. */
  lemma EvaluationTypesAreSeven()
    ensures |AllEvaluationTypes| == 7
    ensures forall t :: t in AllEvaluationTypes
    ensures forall i, j :: 0 <= i < j < |AllEvaluationTypes| ==>
      TypeValue(AllEvaluationTypes[i]) != TypeValue(AllEvaluationTypes[j])
  {
    forall t: EvaluationType ensures t in AllEvaluationTypes {
      match t
      case FactualQA => assert AllEvaluationTypes[0] == t;
      case Reasoning => assert AllEvaluationTypes[1] == t;
      case Coding => assert AllEvaluationTypes[2] == t;
      case Math => assert AllEvaluationTypes[3] == t;
      case Safety => assert AllEvaluationTypes[4] == t;
      case Jailbreak => assert AllEvaluationTypes[5] == t;
      case Agent => assert AllEvaluationTypes[6] == t;
    }
  }

  /** A JSON value, for the free-form JSON columns that the code builds. */
  datatype Json =
    | JNull
    | JBool(b: bool)
    | JInt(i: int)
    | JNum(r: real)
    | JStr(s: string)
    | JArr(items: seq<Json>)
    | JObj(fields: map<string, Json>)

  datatype Model = Model(
    id: string,
    name: string,
    provider: ModelProvider,
    version: Option<string>,
    description: Option<string>,
    parameters: Option<map<string, string>>)

  datatype Prompt = Prompt(
    id: string,
    content: string,
    promptType: EvaluationType,
    tags: Option<seq<string>>,
    metadata: Option<map<string, string>>)

  /** An evaluation row. `modelId`, `promptId` and `completion` are declared
      NOT NULL; the rest are nullable. */
  datatype Evaluation = Evaluation(
    modelId: string,
    promptId: string,
    completion: Option<string>,
    scores: Option<map<string, real>>,
    metadata: Json,
    error: Option<string>,
    durationMs: Option<int>,
    tokenCount: Option<int>)

  datatype RegressionLog = RegressionLog(
    id: string,
    modelId: string,
    evaluationType: EvaluationType,
    previousScore: Option<real>,
    currentScore: Option<real>,
    difference: Option<real>,
    metadata: Json)

  /** `severity` is a nullable integer column; the 1-5 scale is a comment only. */
  datatype FailureCase = FailureCase(
    id: string,
    evaluationId: string,
    failureType: string,
    severity: Option<int>,
    description: Option<string>,
    metadata: Json)

  predicate SeverityOnDocumentedScale(f: FailureCase) {
    f.severity.None? || 1 <= f.severity.value <= 5
  }

  /** The NOT NULL constraint on `evaluations.completion`, when the schema
      declares it (`nullable` is false as declared). */
  predicate SatisfiesNotNull(e: Evaluation, completionNullable: bool) {
    completionNullable || e.completion.Some?
  }

  /** The record the create endpoint builds: ids and metadata only. */
  function NewEvaluation(modelId: string, promptId: string, metadata: Json): (e: Evaluation)
    ensures e.completion.None? && e.scores.None? && e.error.None?
    ensures e.durationMs.None? && e.tokenCount.None?
    ensures e.modelId == modelId && e.promptId == promptId && e.metadata == metadata
    ensures !SatisfiesNotNull(e, false)
  {
    Evaluation(modelId, promptId, None, None, metadata, None, None, None)
  }
}
