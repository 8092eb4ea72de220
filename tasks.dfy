/** The worker tasks of backend/app/evaluators/tasks.py that run evaluations:
    `get_evaluator`, `run_evaluation` and `run_batch_evaluation`. A task
    reads the store, calls the evaluator synchronously and writes back either
    the scores and the duration or the error text. The elapsed time is an
    input (`durationMs`), as are the outcomes of the external services. */
module Tasks {
  import opened Wrappers
  import opened Errors
  import opened Schema
  import opened Evaluators
  import opened Store

  /** The evaluator `get_evaluator` builds: FACTUAL_QA is the only entry. */
  datatype EvaluatorInstance = FactualQAInstance(model: Model)

  /** `get_evaluator(evaluation_type, model)`. */
  function GetEvaluator(t: EvaluationType, model: Model): (r: Result<EvaluatorInstance, Exc>)
    ensures r.Ok? <==> HasEvaluator(t)
    ensures r.Ok? ==> r.value.model == model
    ensures r.Err? ==> r.error == App(EvaluationError("Unsupported evaluation type: " + TypeValue(t)))
  {
    if t == FactualQA then Ok(FactualQAInstance(model))
    else Err(App(EvaluationError("Unsupported evaluation type: " + TypeValue(t))))
  }

  /** What a task returns: the success dictionary or the error dictionary. */
  datatype TaskResult =
    | TaskSucceeded(evaluationId: string, metrics: map<string, real>)
    | TaskFailed(evaluationId: string, error: string)

  /** What the body of `run_evaluation`'s `try` block produces: the metrics,
      or the exception it raises. It depends only on the stored row's model
      and prompt ids. */
  function TaskOutcome(evaluations: map<string, Evaluation>, models: map<string, Model>,
                       prompts: map<string, Prompt>, id: string, services: Services): (r: Result<map<string, real>, Exc>)
    ensures id !in evaluations ==> r == Err(App(EvaluationError("Evaluation " + id + " not found")))
    ensures id in evaluations && (evaluations[id].modelId !in models || evaluations[id].promptId !in prompts) ==>
      r == Err(App(EvaluationError("Model or prompt not found")))
    ensures r.Ok? ==>
      && id in evaluations && evaluations[id].modelId in models && evaluations[id].promptId in prompts
      && HasEvaluator(prompts[evaluations[id].promptId].promptType)
      && EvaluateSpec(map[], models[evaluations[id].modelId], prompts[evaluations[id].promptId], services).result == r
  {
    if id !in evaluations then Err(App(EvaluationError("Evaluation " + id + " not found")))
    else
      var e := evaluations[id];
      if e.modelId !in models || e.promptId !in prompts then Err(App(EvaluationError("Model or prompt not found")))
      else
        var model := models[e.modelId];
        var prompt := prompts[e.promptId];
        match GetEvaluator(prompt.promptType, model)
        case Err(x) => Err(x)
        case Ok(ev) => EvaluateSpec(map[], ev.model, prompt, services).result
  }

  /** The evaluation table after one `run_evaluation(id)`, and what it returned. */
  datatype Settled = Settled(evaluations: map<string, Evaluation>, result: TaskResult)

  /** Writing a task's outcome back to the evaluation table: the metrics
      and the duration on success, otherwise `str(e)` as the error, and only
      when the row exists. */
  function Record(evaluations: map<string, Evaluation>, id: string,
                  outcome: Result<map<string, real>, Exc>, durationMs: int): (s: Settled)
    requires outcome.Ok? ==> id in evaluations
    ensures s.result.evaluationId == id
    ensures s.evaluations.Keys == evaluations.Keys
    ensures forall k :: k in evaluations && k != id ==> s.evaluations[k] == evaluations[k]
    ensures forall k :: k in evaluations ==> s.evaluations[k].completion == evaluations[k].completion
    ensures outcome.Ok? ==> s == Settled(
      evaluations[id := evaluations[id].(scores := Some(outcome.value), durationMs := Some(durationMs))],
      TaskSucceeded(id, outcome.value))
    ensures outcome.Err? ==> s.result == TaskFailed(id, outcome.error.Str())
    ensures outcome.Err? && id in evaluations ==> s.evaluations[id] == evaluations[id].(error := Some(outcome.error.Str()))
    ensures outcome.Err? && id !in evaluations ==> s.evaluations == evaluations
  {
    match outcome
    case Ok(m) =>
      Settled(evaluations[id := evaluations[id].(scores := Some(m), durationMs := Some(durationMs))],
              TaskSucceeded(id, m))
    case Err(x) =>
      var text := x.Str();
      Settled(if id in evaluations then evaluations[id := evaluations[id].(error := Some(text))] else evaluations,
              TaskFailed(id, text))
  }

  /** `run_evaluation(id)` on the evaluation table. On success only `scores`
      and `duration_ms` are written; on failure only `error` is written, and
      only when the row exists. No other row and no other column changes. */
  function Settle(evaluations: map<string, Evaluation>, models: map<string, Model>,
                  prompts: map<string, Prompt>, id: string, services: Services, durationMs: int): (s: Settled)
    ensures s.result.evaluationId == id
    ensures s.evaluations.Keys == evaluations.Keys
    ensures forall k :: k in evaluations && k != id ==> s.evaluations[k] == evaluations[k]
    ensures forall k :: k in evaluations ==> s.evaluations[k].completion == evaluations[k].completion
    ensures id !in evaluations ==>
      s == Settled(evaluations, TaskFailed(id, "Evaluation failed: Evaluation " + id + " not found"))
    ensures s.result.TaskSucceeded? ==>
      && Ok(s.result.metrics) == TaskOutcome(evaluations, models, prompts, id, services)
      && s.evaluations[id] == evaluations[id].(scores := Some(s.result.metrics), durationMs := Some(durationMs))
    ensures s.result.TaskFailed? ==>
      && TaskOutcome(evaluations, models, prompts, id, services).Err?
      && s.result.error == TaskOutcome(evaluations, models, prompts, id, services).error.Str()
      && (id in evaluations ==> s.evaluations[id] == evaluations[id].(error := Some(s.result.error)))
  {
    var outcome := TaskOutcome(evaluations, models, prompts, id, services);
    NotFoundText(id);
    Record(evaluations, id, outcome, durationMs)
  }

  /** The text a task returns for a missing record. */
  lemma NotFoundText(id: string)
    ensures App(EvaluationError("Evaluation " + id + " not found")).Str()
         == "Evaluation failed: Evaluation " + id + " not found"
  {
    AppendAssociates("Evaluation failed: ", "Evaluation " + id, " not found");
    AppendAssociates("Evaluation failed: ", "Evaluation ", id);
  }

  /** Running a task twice with the same service outcomes and the same
      elapsed time leaves the table as running it once: the second run sees
      the same model and prompt ids and writes the same values. */
  lemma SettleIdempotent(evaluations: map<string, Evaluation>, models: map<string, Model>,
                         prompts: map<string, Prompt>, id: string, services: Services, durationMs: int)
    ensures var once := Settle(evaluations, models, prompts, id, services, durationMs);
      Settle(once.evaluations, models, prompts, id, services, durationMs) == once
  {
    var once := Settle(evaluations, models, prompts, id, services, durationMs);
    if id in evaluations {
      assert once.evaluations[id].modelId == evaluations[id].modelId;
      assert once.evaluations[id].promptId == evaluations[id].promptId;
      assert TaskOutcome(once.evaluations, models, prompts, id, services)
          == TaskOutcome(evaluations, models, prompts, id, services);
    }
  }

  /** A redelivered task that succeeds after an earlier failure keeps the old
      error text: such a row carries both scores and an error. */
  lemma StaleErrorSurvivesSuccess(evaluations: map<string, Evaluation>, models: map<string, Model>,
                                  prompts: map<string, Prompt>, id: string, services: Services, durationMs: int)
    requires id in evaluations && evaluations[id].error.Some?
    requires TaskOutcome(evaluations, models, prompts, id, services).Ok?
    ensures var s := Settle(evaluations, models, prompts, id, services, durationMs);
      && s.evaluations[id].scores.Some?
      && s.evaluations[id].error == evaluations[id].error
  {
  }

  /** A prompt of a type with no evaluator is recorded as failed with the
      type's value in the message, before any service is called. */
  lemma UnsupportedTypeRecorded(evaluations: map<string, Evaluation>, models: map<string, Model>,
                                prompts: map<string, Prompt>, id: string, services: Services, durationMs: int)
    requires id in evaluations && evaluations[id].modelId in models && evaluations[id].promptId in prompts
    requires !HasEvaluator(prompts[evaluations[id].promptId].promptType)
    ensures var text := "Evaluation failed: Unsupported evaluation type: "
                        + TypeValue(prompts[evaluations[id].promptId].promptType);
      Settle(evaluations, models, prompts, id, services, durationMs)
        == Settled(evaluations[id := evaluations[id].(error := Some(text))], TaskFailed(id, text))
  {
    var e := evaluations[id];
    var t := prompts[e.promptId].promptType;
    var x := App(EvaluationError("Unsupported evaluation type: " + TypeValue(t)));
    assert GetEvaluator(t, models[e.modelId]) == Err(x);
    var outcome := TaskOutcome(evaluations, models, prompts, id, services);
    assert outcome == Err(x);
    assert "Evaluation failed: " + "Unsupported evaluation type: " == "Evaluation failed: Unsupported evaluation type: ";
    AppendAssociates("Evaluation failed: ", "Unsupported evaluation type: ", TypeValue(t));
    assert Settle(evaluations, models, prompts, id, services, durationMs) == Record(evaluations, id, outcome, durationMs);
  }

  /** The table and the results after `run_evaluation` on each id in turn. */
  function SettleAll(evaluations: map<string, Evaluation>, models: map<string, Model>,
                     prompts: map<string, Prompt>, ids: seq<string>, services: Services,
                     durations: seq<int>): (r: (map<string, Evaluation>, seq<TaskResult>))
    requires |durations| == |ids|
    ensures |r.1| == |ids|
    decreases |ids|
  {
    if ids == [] then (evaluations, [])
    else
      var n := |ids| - 1;
      var before := SettleAll(evaluations, models, prompts, ids[..n], services, durations[..n]);
      var s := Settle(before.0, models, prompts, ids[n], services, durations[n]);
      (s.evaluations, before.1 + [s.result])
  }

  /** A batch keeps the table's keys and every row's completion, and rows
      outside the batch are untouched. */
  lemma {:induction false} SettleAllTable(evaluations: map<string, Evaluation>, models: map<string, Model>,
                                          prompts: map<string, Prompt>, ids: seq<string>, services: Services,
                                          durations: seq<int>)
    requires |durations| == |ids|
    ensures var r := SettleAll(evaluations, models, prompts, ids, services, durations);
      && r.0.Keys == evaluations.Keys
      && (forall k :: k in evaluations ==> r.0[k].completion == evaluations[k].completion)
      && (forall k :: k in evaluations && k !in ids ==> r.0[k] == evaluations[k])
    decreases |ids|
  {
    if ids != [] {
      var n := |ids| - 1;
      var front := ids[..n];
      SettleAllTable(evaluations, models, prompts, front, services, durations[..n]);
      assert forall k :: k !in ids ==> k !in front && k != ids[n];
    }
  }

  /** Whether a task result is the one `run_evaluation(id)` reports on a
      table with these keys: it names the id, and a missing row gives the
      not-found text. */
  predicate Reports(t: TaskResult, id: string, evaluations: map<string, Evaluation>) {
    && t.evaluationId == id
    && (id !in evaluations ==> t == TaskFailed(id, "Evaluation failed: Evaluation " + id + " not found"))
  }

  /** There is one result per id, in order, each naming its id; a missing
      id gives its not-found result. */
  lemma {:induction false} SettleAllResults(evaluations: map<string, Evaluation>, models: map<string, Model>,
                                            prompts: map<string, Prompt>, ids: seq<string>, services: Services,
                                            durations: seq<int>)
    requires |durations| == |ids|
    ensures var r := SettleAll(evaluations, models, prompts, ids, services, durations);
      forall i :: 0 <= i < |ids| ==> Reports(r.1[i], ids[i], evaluations)
    decreases |ids|
  {
    if ids != [] {
      var n := |ids| - 1;
      var front, dfront := ids[..n], durations[..n];
      SettleAllResults(evaluations, models, prompts, front, services, dfront);
      SettleAllTable(evaluations, models, prompts, front, services, dfront);
      var before := SettleAll(evaluations, models, prompts, front, services, dfront);
      var s := Settle(before.0, models, prompts, ids[n], services, durations[n]);
      var r := SettleAll(evaluations, models, prompts, ids, services, durations);
      assert r.1 == before.1 + [s.result];
      forall i | 0 <= i < |ids| ensures Reports(r.1[i], ids[i], evaluations) {
        if i < n {
          assert r.1[i] == before.1[i] && ids[i] == front[i];
        } else {
          assert r.1[i] == s.result;
        }
      }
    }
  }

  lemma AppendAssociates<T>(x: seq<T>, y: seq<T>, z: seq<T>)
    ensures (x + y) + z == x + (y + z)
  {
  }

  /** One more id at the end of a batch is one more task after the rest. */
  lemma SettleAllStep(evaluations: map<string, Evaluation>, models: map<string, Model>,
                      prompts: map<string, Prompt>, ids: seq<string>, services: Services, ds: seq<int>,
                      id: string, d: int)
    requires |ds| == |ids|
    ensures var before := SettleAll(evaluations, models, prompts, ids, services, ds);
      var s := Settle(before.0, models, prompts, id, services, d);
      SettleAll(evaluations, models, prompts, ids + [id], services, ds + [d]) == (s.evaluations, before.1 + [s.result])
  {
    var c, dc := ids + [id], ds + [d];
    assert c[..|c| - 1] == ids && dc[..|dc| - 1] == ds;
    assert c[|c| - 1] == id && dc[|dc| - 1] == d;
  }

  /** The first i + 1 ids of a batch are the first i followed by the next one. */
  lemma SettlePrefixStep(evaluations: map<string, Evaluation>, models: map<string, Model>,
                         prompts: map<string, Prompt>, ids: seq<string>, services: Services, ds: seq<int>, i: int)
    requires |ds| == |ids| && 0 <= i < |ids|
    ensures var before := SettleAll(evaluations, models, prompts, ids[..i], services, ds[..i]);
      var s := Settle(before.0, models, prompts, ids[i], services, ds[i]);
      SettleAll(evaluations, models, prompts, ids[..i + 1], services, ds[..i + 1]) == (s.evaluations, before.1 + [s.result])
  {
    assert ids[..i + 1] == ids[..i] + [ids[i]];
    assert ds[..i + 1] == ds[..i] + [ds[i]];
    SettleAllStep(evaluations, models, prompts, ids[..i], services, ds[..i], ids[i], ds[i]);
  }

  /** A batch is the two halves run one after the other. */
  lemma {:induction false} SettleAllAppend(evaluations: map<string, Evaluation>, models: map<string, Model>,
                                           prompts: map<string, Prompt>, a: seq<string>, b: seq<string>,
                                           services: Services, da: seq<int>, db: seq<int>)
    requires |da| == |a| && |db| == |b|
    ensures var first := SettleAll(evaluations, models, prompts, a, services, da);
      var second := SettleAll(first.0, models, prompts, b, services, db);
      SettleAll(evaluations, models, prompts, a + b, services, da + db) == (second.0, first.1 + second.1)
    decreases |b|
  {
    var first := SettleAll(evaluations, models, prompts, a, services, da);
    if b == [] {
      assert a + b == a && da + db == da;
      assert SettleAll(first.0, models, prompts, b, services, db) == (first.0, []);
      assert first.1 + [] == first.1;
    } else {
      var n := |b| - 1;
      var b0, d0, x, dx := b[..n], db[..n], b[n], db[n];
      assert b == b0 + [x] && db == d0 + [dx];
      assert a + b == (a + b0) + [x] && da + db == (da + d0) + [dx];
      SettleAllAppend(evaluations, models, prompts, a, b0, services, da, d0);
      SettleAllStep(first.0, models, prompts, b0, services, d0, x, dx);
      SettleAllStep(evaluations, models, prompts, a + b0, services, da + d0, x, dx);
      var mid := SettleAll(first.0, models, prompts, b0, services, d0);
      var s := Settle(mid.0, models, prompts, x, services, dx);
      AppendAssociates(first.1, mid.1, [s.result]);
    }
  }

  /** A batch of one id is that task alone. */
  lemma SettleAllSingle(evaluations: map<string, Evaluation>, models: map<string, Model>,
                        prompts: map<string, Prompt>, id: string, services: Services, d: int)
    ensures var s := Settle(evaluations, models, prompts, id, services, d);
      SettleAll(evaluations, models, prompts, [id], services, [d]) == (s.evaluations, [s.result])
  {
    var ids, ds := [id], [d];
    assert ids[..0] == [] && ds[..0] == [];
    var before := SettleAll(evaluations, models, prompts, ids[..0], services, ds[..0]);
    assert before == (evaluations, []);
    var s := Settle(before.0, models, prompts, ids[0], services, ds[0]);
    assert SettleAll(evaluations, models, prompts, ids, services, ds) == (s.evaluations, before.1 + [s.result]);
    assert before.1 + [s.result] == [s.result];
  }

  /** `run_batch_evaluation`'s result. */
  datatype BatchResult = BatchResult(status: string, total: nat, results: seq<TaskResult>)

  /** `run_evaluation(id)` against the store. */
  method RunEvaluation(db: Database, id: string, services: Services, durationMs: int) returns (result: TaskResult)
    requires db.Valid()
    modifies db
    ensures db.Valid()
    ensures var s := Settle(old(db.evaluations), db.models, db.prompts, id, services, durationMs);
      db.evaluations == s.evaluations && result == s.result
    ensures db.models == old(db.models) && db.prompts == old(db.prompts) && db.queue == old(db.queue)
  {
    var outcome: Result<map<string, real>, Exc>;
    if id !in db.evaluations {
      outcome := Err(App(EvaluationError("Evaluation " + id + " not found")));
    } else {
      var evaluation := db.evaluations[id];
      if evaluation.modelId !in db.models || evaluation.promptId !in db.prompts {
        outcome := Err(App(EvaluationError("Model or prompt not found")));
      } else {
        var model := db.models[evaluation.modelId];
        var prompt := db.prompts[evaluation.promptId];
        var evaluator := GetEvaluator(prompt.promptType, model);
        if evaluator.Err? {
          outcome := Err(evaluator.error);
        } else {
          var qa := new FactualQAEvaluator(evaluator.value.model);
          outcome := qa.Evaluate(prompt, services);
        }
      }
    }
    assert outcome == TaskOutcome(db.evaluations, db.models, db.prompts, id, services);
    result := WriteBack(db, id, outcome, durationMs);
  }

  /** The commit of `run_evaluation`: the outcome written to the row. */
  method WriteBack(db: Database, id: string, outcome: Result<map<string, real>, Exc>, durationMs: int)
    returns (result: TaskResult)
    requires db.Valid() && (outcome.Ok? ==> id in db.evaluations)
    modifies db
    ensures db.Valid()
    ensures var s := Record(old(db.evaluations), id, outcome, durationMs);
      db.evaluations == s.evaluations && result == s.result
    ensures db.models == old(db.models) && db.prompts == old(db.prompts) && db.queue == old(db.queue)
  {
    if outcome.Ok? {
      db.evaluations := db.evaluations[id := db.evaluations[id].(scores := Some(outcome.value),
                                                                durationMs := Some(durationMs))];
      result := TaskSucceeded(id, outcome.value);
    } else {
      var text := outcome.error.Str();
      if id in db.evaluations {
        db.evaluations := db.evaluations[id := db.evaluations[id].(error := Some(text))];
      }
      result := TaskFailed(id, text);
    }
  }

  /** `run_batch_evaluation(ids)`: every id is run in order, whatever the
      earlier ones did. `durations[i]` is the time the i-th run measures. */
  method RunBatchEvaluation(db: Database, ids: seq<string>, services: Services, durations: seq<int>)
    returns (b: BatchResult)
    requires db.Valid() && |durations| == |ids|
    modifies db
    ensures db.Valid()
    ensures var all := SettleAll(old(db.evaluations), db.models, db.prompts, ids, services, durations);
      db.evaluations == all.0 && b == BatchResult("completed", |ids|, all.1)
    ensures db.models == old(db.models) && db.prompts == old(db.prompts) && db.queue == old(db.queue)
  {
    ghost var start, models, prompts := db.evaluations, db.models, db.prompts;
    var results: seq<TaskResult> := [];
    var i := 0;
    while i < |ids|
      invariant 0 <= i <= |ids|
      invariant db.Valid()
      invariant db.models == models && db.prompts == prompts && db.queue == old(db.queue)
      invariant (db.evaluations, results) == SettleAll(start, models, prompts, ids[..i], services, durations[..i])
    {
      SettlePrefixStep(start, models, prompts, ids, services, durations, i);
      var r := RunEvaluation(db, ids[i], services, durations[i]);
      results := results + [r];
      i := i + 1;
    }
    assert ids[..i] == ids && durations[..i] == durations;
    b := BatchResult("completed", |ids|, results);
  }
}
