/** The evaluator abstraction (backend/app/evaluators/base.py) and the
    factual question-answering evaluator (backend/app/evaluators/factual_qa.py).
    An evaluator holds a metric map that `add_metric` updates in place.
    Sentence-embedding similarity is an input function `sim`; it is
    deterministic, so both of its calls on one pair agree. Completions come
    from OpenAI (modelled in OpenAIService) or from the Anthropic service,
    whose module is not part of this model and is given as its outcome. */
module Evaluators {
  import opened Wrappers
  import opened Errors
  import opened Schema
  import PyText
  import OpenAIService

  const SemanticSimilarity := "semantic_similarity"
  const AnswerPresenceMetric := "answer_presence"
  const ContradictionScore := "contradiction_score"

  /** `metrics_list`, what `get_supported_metrics` returns. */
  const MetricsList: seq<string> := [SemanticSimilarity, AnswerPresenceMetric, ContradictionScore]
  const MetricNames: set<string> := {SemanticSimilarity, AnswerPresenceMetric, ContradictionScore}

  /** The cosine similarity of two texts' embeddings, or why computing it failed. */
  datatype SimOutcome = Similarity(value: real) | SimilarityFailed(message: string)

  /** The collaborators an evaluation calls out to. */
  datatype Services = Services(
    openaiKey: string,
    openaiSdk: string -> OpenAIService.SdkOutcome,
    anthropic: Result<string, Exc>,
    sim: (string, string) -> SimOutcome)

  /** `_calculate_similarity`: failures are re-raised as EvaluationError. */
  function CalculateSimilarity(sim: (string, string) -> SimOutcome, a: string, b: string): (r: Result<real, Exc>)
    ensures sim(a, b).Similarity? ==> r == Ok(sim(a, b).value)
    ensures sim(a, b).SimilarityFailed? ==>
      r == Err(App(EvaluationError("Error calculating similarity: " + sim(a, b).message)))
  {
    match sim(a, b)
    case Similarity(v) => Ok(v)
    case SimilarityFailed(m) => Err(App(EvaluationError("Error calculating similarity: " + m)))
  }

  /** `_calculate_contradiction`: one minus a second similarity call. */
  function CalculateContradiction(sim: (string, string) -> SimOutcome, a: string, b: string): (r: Result<real, Exc>)
    ensures CalculateSimilarity(sim, a, b).Err? ==> r == CalculateSimilarity(sim, a, b)
    ensures CalculateSimilarity(sim, a, b).Ok? ==> r == Ok(1.0 - CalculateSimilarity(sim, a, b).value)
  {
    match CalculateSimilarity(sim, a, b)
    case Ok(s) => Ok(1.0 - s)
    case Err(e) => Err(e)
  }

  /** `set(s.lower().split())`. */
  function Tokens(s: string): (r: set<string>)
    ensures r == {} <==> PyText.AllSpace(s)
  {
    var ws := PyText.Words(PyText.Lower(s));
    assert PyText.AllSpace(s) ==> ws == [] by {
      if PyText.AllSpace(s) {
        LowerKeepsSpace(s);
        PyText.WordsOfSpace(PyText.Lower(s));
      }
    }
    assert !PyText.AllSpace(s) ==> ws[0] in ws by {
      if !PyText.AllSpace(s) {
        LowerKeepsSpace(s);
        PyText.WordsOfNonSpaceIsNonEmpty(PyText.Lower(s));
      }
    }
    var r := set w | w in ws;
    assert !PyText.AllSpace(s) ==> ws[0] in r;
    r
  }

  /** Lowering a string changes none of its whitespace. */
  lemma LowerKeepsSpace(s: string)
    ensures PyText.AllSpace(PyText.Lower(s)) <==> PyText.AllSpace(s)
  {
    var l := PyText.Lower(s);
    assert forall i :: 0 <= i < |s| ==> (PyText.IsSpace(l[i]) <==> PyText.IsSpace(s[i]));
  }

  /** `_check_answer_presence`: the share of the expected answer's tokens
      that the completion contains; a token-free expected answer divides by
      zero. */
  function AnswerPresence(completion: string, expected: string): (r: Result<real, Exc>)
    ensures r.Err? <==> Tokens(expected) == {}
    ensures r.Err? ==> r.error == ZeroDivisionError
    ensures r.Ok? ==> 0.0 <= r.value <= 1.0
    ensures r.Ok? ==> (r.value == 1.0 <==> Tokens(expected) <= Tokens(completion))
    ensures r.Ok? ==> (r.value == 0.0 <==> Tokens(expected) * Tokens(completion) == {})
  {
    var e := Tokens(expected);
    var c := Tokens(completion);
    if |e| == 0 then Err(ZeroDivisionError)
    else
      var overlap := e * c;
      SubsetSize(overlap, e);
      Ratio(|overlap|, |e|);
      assert e <= c ==> overlap == e;
      assert overlap == e ==> e <= c;
      Ok(|overlap| as real / |e| as real)
  }

  /** A share of a positive whole lies in [0, 1], and is 1 or 0 only at the ends. */
  lemma Ratio(part: nat, whole: nat)
    requires 0 < whole && part <= whole
    ensures 0.0 <= part as real / whole as real <= 1.0
    ensures part as real / whole as real == 1.0 <==> part == whole
    ensures part as real / whole as real == 0.0 <==> part == 0
  {
    var v := part as real / whole as real;
    assert v * whole as real == part as real;
  }

  /** A subset is no larger, and of equal size only when it is the whole set. */
  lemma {:induction false} SubsetSize(a: set<string>, b: set<string>)
    requires a <= b
    ensures |a| <= |b|
    ensures |a| == |b| ==> a == b
    decreases |b|
  {
    if b != {} {
      var x :| x in b;
      SubsetSize(a - {x}, b - {x});
      if x in a {
        assert |a - {x}| == |a| - 1;
        assert a == (a - {x}) + {x};
        assert b == (b - {x}) + {x};
      } else {
        assert a - {x} == a;
      }
    }
  }

  /** Lower-casing keeps whitespace; `lower()` is idempotent, so tokens ignore case. */
  lemma TokensIgnoreCase(s: string)
    ensures Tokens(PyText.Lower(s)) == Tokens(s)
  {
    PyText.LowerIdempotent(s);
  }

  /** Answer presence ignores case in both texts, and depends on them only
      through their token sets (so not on order or repetition). */
  lemma AnswerPresenceIgnoresCase(completion: string, expected: string)
    ensures AnswerPresence(PyText.Lower(completion), PyText.Lower(expected)) == AnswerPresence(completion, expected)
  {
    TokensIgnoreCase(completion);
    TokensIgnoreCase(expected);
  }

  lemma AnswerPresenceOfTokenSets(c1: string, e1: string, c2: string, e2: string)
    requires Tokens(c1) == Tokens(c2) && Tokens(e1) == Tokens(e2)
    ensures AnswerPresence(c1, e1) == AnswerPresence(c2, e2)
  {
  }

  const ExpectedRequired := "Expected answer is required for factual QA evaluation"

  /** The evaluator's metric map after a run, and what the run returned. */
  datatype MetricsRun = MetricsRun(metrics: map<string, real>, result: Result<map<string, real>, Exc>)

  /** `calculate_metrics(completion, expected)` from metric map `prev`: each
      metric is stored as soon as it is computed, so a failure part-way leaves
      the earlier ones in the map. */
  function CalculateMetricsSpec(prev: map<string, real>, completion: string, expected: Option<string>,
                                sim: (string, string) -> SimOutcome): (run: MetricsRun)
    ensures expected.None? || expected.value == "" ==>
      run == MetricsRun(prev, Err(App(EvaluationError(ExpectedRequired))))
    ensures run.result.Ok? ==> run.result.value == run.metrics
    ensures run.result.Ok? ==> run.metrics.Keys == prev.Keys + MetricNames
    ensures forall k :: k in prev && k !in MetricNames ==> k in run.metrics && run.metrics[k] == prev[k]
  {
    if expected.None? || expected.value == "" then MetricsRun(prev, Err(App(EvaluationError(ExpectedRequired))))
    else
      var e := expected.value;
      match CalculateSimilarity(sim, completion, e)
      case Err(x) => MetricsRun(prev, Err(x))
      case Ok(s) =>
        var m1 := prev[SemanticSimilarity := s];
        match AnswerPresence(completion, e)
        case Err(x) => MetricsRun(m1, Err(x))
        case Ok(a) =>
          var m2 := m1[AnswerPresenceMetric := a];
          match CalculateContradiction(sim, completion, e)
          case Err(x) => MetricsRun(m2, Err(x))
          case Ok(k) =>
            var m3 := m2[ContradictionScore := k];
            MetricsRun(m3, Ok(m3))
  }

  /** A successful run stores the similarity, the answer presence and one minus
      the similarity; from a map of supported metrics only (a fresh evaluator,
      or one that has run before) the keys are exactly the three supported
      names, so a second run overwrites rather than extends. */
  lemma MetricsOfSuccessfulRun(prev: map<string, real>, completion: string, expected: string,
                               sim: (string, string) -> SimOutcome)
    requires CalculateMetricsSpec(prev, completion, Some(expected), sim).result.Ok?
    ensures var m := CalculateMetricsSpec(prev, completion, Some(expected), sim).metrics;
      sim(completion, expected).Similarity?
      && m[SemanticSimilarity] == sim(completion, expected).value
      && Ok(m[AnswerPresenceMetric]) == AnswerPresence(completion, expected)
      && m[ContradictionScore] == 1.0 - m[SemanticSimilarity]
    ensures prev.Keys <= MetricNames ==>
      CalculateMetricsSpec(prev, completion, Some(expected), sim).metrics.Keys == MetricNames
  {
  }

  /** A non-empty expected answer made only of whitespace gets past the `if not expected` test,
      stores the similarity and then divides by zero. */
  lemma WhitespaceExpectedDividesByZero(prev: map<string, real>, completion: string, expected: string,
                                        sim: (string, string) -> SimOutcome)
    requires expected != "" && PyText.AllSpace(expected)
    requires sim(completion, expected).Similarity?
    ensures CalculateMetricsSpec(prev, completion, Some(expected), sim) ==
      MetricsRun(prev[SemanticSimilarity := sim(completion, expected).value], Err(ZeroDivisionError))
  {
  }

  /** `calculate_metrics` with the evidently intended check: an expected
      answer that is empty or only whitespace is rejected up front, like a
      missing one; otherwise it behaves as the original. */
  function CalculateMetricsCorrected(prev: map<string, real>, completion: string, expected: Option<string>,
                                     sim: (string, string) -> SimOutcome): (run: MetricsRun)
    ensures expected.None? || PyText.AllSpace(expected.value) ==>
      run == MetricsRun(prev, Err(App(EvaluationError(ExpectedRequired))))
    ensures expected.Some? && !PyText.AllSpace(expected.value) ==>
      run == CalculateMetricsSpec(prev, completion, expected, sim)
  {
    if expected.None? || PyText.AllSpace(expected.value) then
      MetricsRun(prev, Err(App(EvaluationError(ExpectedRequired))))
    else CalculateMetricsSpec(prev, completion, expected, sim)
  }

  /** The corrected check never divides by zero: every error it reports is
      an EvaluationError. */
  lemma CorrectedNeverDividesByZero(prev: map<string, real>, completion: string, expected: Option<string>,
                                    sim: (string, string) -> SimOutcome)
    ensures var run := CalculateMetricsCorrected(prev, completion, expected, sim);
      run.result.Err? ==> run.result.error.App? && run.result.error.err.EvaluationError?
  {
  }

  /** A failing similarity model is reported as EvaluationError and leaves
      the map as it was. */
  lemma SimilarityFailureWrapped(prev: map<string, real>, completion: string, expected: string,
                                 sim: (string, string) -> SimOutcome)
    requires expected != "" && sim(completion, expected).SimilarityFailed?
    ensures CalculateMetricsSpec(prev, completion, Some(expected), sim) == MetricsRun(prev,
      Err(App(EvaluationError("Error calculating similarity: " + sim(completion, expected).message))))
  {
  }

  /** `validate_response`: false for an empty completion or expected answer,
      otherwise whether the similarity exceeds 0.7. */
  function ValidateResponse(completion: string, expected: Option<string>,
                            sim: (string, string) -> SimOutcome): (r: Result<bool, Exc>)
    ensures completion == "" || expected.None? || expected.value == "" ==> r == Ok(false)
    ensures completion != "" && expected.Some? && expected.value != "" ==>
      (r == Ok(true) <==> sim(completion, expected.value).Similarity? && sim(completion, expected.value).value > 0.7)
      && (r.Err? <==> sim(completion, expected.value).SimilarityFailed?)
  {
    if completion == "" || expected.None? || expected.value == "" then Ok(false)
    else
      match CalculateSimilarity(sim, completion, expected.value)
      case Err(x) => Err(x)
      case Ok(s) => Ok(s > 0.7)
  }

  /** `get_completion(prompt)`: dispatch on the model's provider. */
  function CompletionFor(model: Model, prompt: Prompt, services: Services): (r: Result<string, Exc>)
    ensures model.provider == OpenAI ==>
      r == OpenAIService.CompletionSpec(services.openaiKey, model, false, services.openaiSdk)
    ensures model.provider == Anthropic ==> r == services.anthropic
    ensures model.provider !in {OpenAI, Anthropic} ==>
      r == Err(App(EvaluationError("Unsupported model provider: " + ProviderValue(model.provider))))
  {
    match model.provider
    case OpenAI => OpenAIService.CompletionSpec(services.openaiKey, model, false, services.openaiSdk)
    case Anthropic => services.anthropic
    case _ => Err(App(EvaluationError("Unsupported model provider: " + ProviderValue(model.provider))))
  }

  const MissingExpectedAnswer := "Prompt metadata must contain 'expected_answer'"
  const NoneNotIterable := "argument of type 'NoneType' is not iterable"

  /** `evaluate(prompt)`: the expected answer is looked up before any
      completion is requested. */
  function EvaluateSpec(prev: map<string, real>, model: Model, prompt: Prompt, services: Services): (run: MetricsRun)
    ensures prompt.metadata.None? ==> run == MetricsRun(prev, Err(TypeError(NoneNotIterable)))
    ensures prompt.metadata.Some? && "expected_answer" !in prompt.metadata.value ==>
      run == MetricsRun(prev, Err(App(EvaluationError(MissingExpectedAnswer))))
    ensures prompt.metadata.Some? && "expected_answer" in prompt.metadata.value ==>
      match CompletionFor(model, prompt, services)
      case Err(x) => run == MetricsRun(prev, Err(x))
      case Ok(c) => run == CalculateMetricsSpec(prev, c, Some(prompt.metadata.value["expected_answer"]), services.sim)
  {
    if prompt.metadata.None? then MetricsRun(prev, Err(TypeError(NoneNotIterable)))
    else if "expected_answer" !in prompt.metadata.value then
      MetricsRun(prev, Err(App(EvaluationError(MissingExpectedAnswer))))
    else
      match CompletionFor(model, prompt, services)
      case Err(x) => MetricsRun(prev, Err(x))
      case Ok(c) => CalculateMetricsSpec(prev, c, Some(prompt.metadata.value["expected_answer"]), services.sim)
  }

  /** Without an expected answer the outcome does not depend on any provider
      or on the similarity model: no completion is requested. */
  lemma EvaluateFailsFast(prev: map<string, real>, model: Model, prompt: Prompt, s1: Services, s2: Services)
    requires prompt.metadata.None? || "expected_answer" !in prompt.metadata.value
    ensures EvaluateSpec(prev, model, prompt, s1) == EvaluateSpec(prev, model, prompt, s2)
    ensures EvaluateSpec(prev, model, prompt, s1).result.Err?
  {
  }

  /** Google, Hugging Face and local models have no completion path. */
  lemma UnsupportedProviders(model: Model, prompt: Prompt, services: Services)
    requires model.provider in {Google, HuggingFace, Local}
    requires prompt.metadata.Some? && "expected_answer" in prompt.metadata.value
    ensures EvaluateSpec(map[], model, prompt, services).result.Err?
    ensures EvaluateSpec(map[], model, prompt, services).result.error.App?
    ensures EvaluateSpec(map[], model, prompt, services).result.error.err.StatusCode() == 500
  {
  }

  /** `model.parameters` as the JSON value stored in the record's metadata. */
  function ParametersJson(parameters: Option<map<string, string>>): Json {
    if parameters.None? then JNull
    else JObj(map k | k in parameters.value :: JStr(parameters.value[k]))
  }

  /** The generic `run_evaluation` of base.py, given the outcomes of
      `get_completion` and of `calculate_metrics(completion)`: a record with
      the completion, the metrics and metadata naming the evaluator class, or
      any error re-raised as EvaluationError. */
  function AssembleRun(model: Model, prompt: Prompt, className: string,
                       completion: Result<string, Exc>,
                       metricsFor: string -> Result<map<string, real>, Exc>): (r: Result<Evaluation, Exc>)
    ensures completion.Err? ==> r == Err(App(EvaluationError(completion.error.Str())))
    ensures completion.Ok? && metricsFor(completion.value).Err? ==>
      r == Err(App(EvaluationError(metricsFor(completion.value).error.Str())))
    ensures r.Ok? ==>
      && r.value.modelId == model.id && r.value.promptId == prompt.id
      && r.value.completion == Some(completion.value)
      && r.value.scores == Some(metricsFor(completion.value).value)
      && r.value.metadata == JObj(map["evaluator" := JStr(className),
                                      "model_parameters" := ParametersJson(model.parameters)])
      && r.value.error.None?
  {
    match completion
    case Err(e) => Err(App(EvaluationError(e.Str())))
    case Ok(c) =>
      match metricsFor(c)
      case Err(e) => Err(App(EvaluationError(e.Str())))
      case Ok(m) =>
        Ok(Evaluation(model.id, prompt.id, Some(c), Some(m),
                      JObj(map["evaluator" := JStr(className), "model_parameters" := ParametersJson(model.parameters)]),
                      None, None, None))
  }

  /** The `evaluators` dictionary of `get_evaluator`: prompt type to the
      name of the evaluator class that serves it. */
  const EvaluatorRegistry: map<EvaluationType, string> := map[FactualQA := "FactualQAEvaluator"]

  /** Which evaluator class serves a prompt type: only FACTUAL_QA has one. */
  predicate HasEvaluator(t: EvaluationType)
    ensures HasEvaluator(t) <==> t == FactualQA
    ensures HasEvaluator(t) ==> EvaluatorRegistry[t] == "FactualQAEvaluator"
  {
    t in EvaluatorRegistry
  }

  lemma OnlyFactualQAHasEvaluator()
    ensures forall t :: HasEvaluator(t) <==> t == FactualQA
    ensures |AllEvaluationTypes| == 7 && HasEvaluator(AllEvaluationTypes[0])
    ensures forall i :: 1 <= i < |AllEvaluationTypes| ==> !HasEvaluator(AllEvaluationTypes[i])
  {
    EvaluationTypesAreSeven();
  }

  class FactualQAEvaluator {
    const model: Model
    const metricsList: seq<string>
    var metrics: map<string, real>

    /** Only the supported metrics are ever stored. */
    ghost predicate Valid()
      reads this
    {
      metricsList == MetricsList && metrics.Keys <= MetricNames
    }

    constructor (model: Model)
      ensures Valid()
      ensures this.model == model && metrics == map[]
    {
      this.model := model;
      metricsList := MetricsList;
      metrics := map[];
    }

    /** `add_metric(name, value)`: sets one key, leaves the others. */
    method AddMetric(name: string, value: real)
      modifies this
      ensures metrics == old(metrics)[name := value]
      ensures forall k :: k in old(metrics) && k != name ==> metrics[k] == old(metrics)[k]
      ensures metrics.Keys == old(metrics).Keys + {name}
    {
      metrics := metrics[name := value];
    }

    /** `get_metrics()`: the accumulated map. */
    method GetMetrics() returns (m: map<string, real>)
      ensures m == metrics
    {
      m := metrics;
    }

    method GetSupportedMetrics() returns (names: seq<string>)
      requires Valid()
      ensures names == MetricsList
      ensures forall n :: n in names <==> n in MetricNames
    {
      names := metricsList;
    }

    /** `calculate_metrics(completion, expected)`. */
    method CalculateMetrics(completion: string, expected: Option<string>,
                            sim: (string, string) -> SimOutcome) returns (r: Result<map<string, real>, Exc>)
      requires Valid()
      modifies this
      ensures Valid()
      ensures MetricsRun(metrics, r) == CalculateMetricsSpec(old(metrics), completion, expected, sim)
    {
      if expected.None? || expected.value == "" {
        return Err(App(EvaluationError(ExpectedRequired)));
      }
      var e := expected.value;
      var similarity := CalculateSimilarity(sim, completion, e);
      if similarity.Err? {
        return Err(similarity.error);
      }
      AddMetric(SemanticSimilarity, similarity.value);
      var presence := AnswerPresence(completion, e);
      if presence.Err? {
        return Err(presence.error);
      }
      AddMetric(AnswerPresenceMetric, presence.value);
      // The second similarity call repeats the first, so it succeeds too.
      var contradiction := CalculateContradiction(sim, completion, e);
      AddMetric(ContradictionScore, contradiction.value);
      var current := GetMetrics();
      r := Ok(current);
    }

    /** `evaluate(prompt)`, called synchronously. */
    method Evaluate(prompt: Prompt, services: Services) returns (r: Result<map<string, real>, Exc>)
      requires Valid()
      modifies this
      ensures Valid()
      ensures MetricsRun(metrics, r) == EvaluateSpec(old(metrics), model, prompt, services)
    {
      if prompt.metadata.None? {
        return Err(TypeError(NoneNotIterable));
      }
      if "expected_answer" !in prompt.metadata.value {
        return Err(App(EvaluationError(MissingExpectedAnswer)));
      }
      var completion := CompletionFor(model, prompt, services);
      if completion.Err? {
        return Err(completion.error);
      }
      r := CalculateMetrics(completion.value, Some(prompt.metadata.value["expected_answer"]), services.sim);
    }

    /** base.py's `run_evaluation(prompt)` for this evaluator: it calls
        `calculate_metrics(completion)` without an expected answer. */
    method RunEvaluation(prompt: Prompt, services: Services) returns (r: Result<Evaluation, Exc>)
      requires Valid()
      modifies this
      ensures Valid() && metrics == old(metrics)
      ensures r == AssembleRun(model, prompt, "FactualQAEvaluator", CompletionFor(model, prompt, services),
        c => CalculateMetricsSpec(old(metrics), c, None, services.sim).result)
      ensures r.Err?
    {
      var completion := CompletionFor(model, prompt, services);
      if completion.Err? {
        return Err(App(EvaluationError(completion.error.Str())));
      }
      var m := CalculateMetrics(completion.value, None, services.sim);
      r := Err(App(EvaluationError(m.error.Str())));
    }
  }

  /** base.py's `run_evaluation` never succeeds for the factual-QA evaluator:
      once a completion is obtained the error carries the prefix twice. */
  lemma RunEvaluationAlwaysFails(prev: map<string, real>, model: Model, prompt: Prompt, services: Services)
    requires CompletionFor(model, prompt, services).Ok?
    ensures AssembleRun(model, prompt, "FactualQAEvaluator", CompletionFor(model, prompt, services),
        c => CalculateMetricsSpec(prev, c, None, services.sim).result)
      == Err(App(EvaluationError("Evaluation failed: " + ExpectedRequired)))
    ensures App(EvaluationError("Evaluation failed: " + ExpectedRequired)).Str()
      == "Evaluation failed: Evaluation failed: " + ExpectedRequired
  {
    var c := CompletionFor(model, prompt, services).value;
    var f := c => CalculateMetricsSpec(prev, c, None, services.sim).result;
    assert f(c) == Err(App(EvaluationError(ExpectedRequired)));
    AssembleRunRewraps(model, prompt, "FactualQAEvaluator", CompletionFor(model, prompt, services), f,
                       App(EvaluationError(ExpectedRequired)));
    EvaluationErrorRewrapped(ExpectedRequired);
  }

  /** A failing `calculate_metrics` reaches the caller as an EvaluationError
      around its text. */
  lemma AssembleRunRewraps(model: Model, prompt: Prompt, className: string, completion: Result<string, Exc>,
                           metricsFor: string -> Result<map<string, real>, Exc>, x: Exc)
    requires completion.Ok? && metricsFor(completion.value) == Err(x)
    ensures AssembleRun(model, prompt, className, completion, metricsFor) == Err(App(EvaluationError(x.Str())))
  {
  }
}
