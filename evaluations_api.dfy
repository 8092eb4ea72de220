/** The evaluation endpoints of backend/app/api/v1/endpoints/evaluations.py
    against the store: create (single and batch), get, list and delete. The
    fresh row id and the broker's answer are inputs; `str(e)` of the
    framework's HTTP exception is "<status>: <detail>". */
module EvaluationsApi {
  import opened Wrappers
  import opened Errors
  import opened Schema
  import opened Store
  import opened Tasks
  import PyText

  /** The create request body; `metadata` defaults to `{}`. */
  datatype EvaluationCreate = EvaluationCreate(modelId: string, promptId: string, metadata: Json)

  /** What `celery_app.send_task` did: queued with a task id, or raised. */
  datatype BrokerOutcome = Sent(taskId: string) | BrokerFailed(message: string)

  /** The create endpoint's success body. */
  datatype Created = Created(id: string, status: string, taskId: string)

  /** The endpoint's own `get_evaluator`: an unsupported type is a 400. */
  function GetEvaluatorHttp(t: EvaluationType, model: Model): (r: Result<EvaluatorInstance, Exc>)
    ensures r.Ok? <==> Evaluators.HasEvaluator(t)
    ensures r.Ok? ==> r.value.model == model
    ensures r.Err? ==> r.error == HttpException(400, "Unsupported evaluation type: " + TypeValue(t))
  {
    if t == FactualQA then Ok(FactualQAInstance(model))
    else Err(HttpException(400, "Unsupported evaluation type: " + TypeValue(t)))
  }

  /** The texts the store gives for the two constraints an insert can break. */
  const DuplicateId := "UNIQUE constraint failed: evaluations.id"
  const CompletionNotNull := "NOT NULL constraint failed: evaluations.completion"

  /** The evaluation table, the broker's queue and what one create returned. */
  datatype CreateStep = CreateStep(evaluations: map<string, Evaluation>, queue: seq<QueuedTask>,
                                   result: Result<Created, Exc>)

  /** What the `try` block of `create_evaluation` raises, or the row to insert. */
  function Precheck(models: map<string, Model>, prompts: map<string, Prompt>,
                    req: EvaluationCreate): (r: Result<Evaluation, Exc>)
    ensures req.modelId !in models || req.promptId !in prompts ==> r == Err(App(ModelNotFoundError(req.modelId)))
    ensures r.Ok? ==> && req.modelId in models && req.promptId in prompts
                      && Evaluators.HasEvaluator(prompts[req.promptId].promptType)
                      && r.value == NewEvaluation(req.modelId, req.promptId, req.metadata)
  {
    if req.modelId !in models || req.promptId !in prompts then Err(App(ModelNotFoundError(req.modelId)))
    else
      match GetEvaluatorHttp(prompts[req.promptId].promptType, models[req.modelId])
      case Err(x) => Err(x)
      case Ok(_) => Ok(NewEvaluation(req.modelId, req.promptId, req.metadata))
  }

  /** `create_evaluation`: every exception becomes a 400 whose detail is its
      `str`. The row is committed before the task is sent, so a broker
      failure leaves the row in place. */
  function CreateSpec(evaluations: map<string, Evaluation>, queue: seq<QueuedTask>,
                      models: map<string, Model>, prompts: map<string, Prompt>, completionNullable: bool,
                      req: EvaluationCreate, newId: string, broker: BrokerOutcome): (s: CreateStep)
    ensures s.result.Err? ==> s.result.error.HttpException? && s.result.error.code == 400
    ensures Precheck(models, prompts, req).Err? ==>
      s == CreateStep(evaluations, queue, Err(HttpException(400, Precheck(models, prompts, req).error.Str())))
    ensures s.result.Ok? ==>
      && newId !in evaluations
      && s.evaluations == evaluations[newId := NewEvaluation(req.modelId, req.promptId, req.metadata)]
      && s.queue == queue + [QueuedTask(RunEvaluationTask, [newId])]
      && broker.Sent? && s.result.value == Created(newId, "pending", broker.taskId)
    ensures s.evaluations == evaluations || s.evaluations == evaluations[newId := NewEvaluation(req.modelId, req.promptId, req.metadata)]
    ensures s.queue == queue || s.queue == queue + [QueuedTask(RunEvaluationTask, [newId])]
    ensures forall k :: k in evaluations ==> k in s.evaluations && s.evaluations[k] == evaluations[k]
    ensures s.evaluations != evaluations ==> newId !in evaluations && SatisfiesNotNull(s.evaluations[newId], completionNullable)
  {
    match Precheck(models, prompts, req)
    case Err(x) => CreateStep(evaluations, queue, Err(HttpException(400, x.Str())))
    case Ok(row) =>
      if newId in evaluations then
        CreateStep(evaluations, queue, Err(HttpException(400, IntegrityError(DuplicateId).Str())))
      else if !SatisfiesNotNull(row, completionNullable) then
        CreateStep(evaluations, queue, Err(HttpException(400, IntegrityError(CompletionNotNull).Str())))
      else
        var stored := evaluations[newId := row];
        match broker
        case BrokerFailed(m) => CreateStep(stored, queue, Err(HttpException(400, m)))
        case Sent(taskId) =>
          CreateStep(stored, queue + [QueuedTask(RunEvaluationTask, [newId])], Ok(Created(newId, "pending", taskId)))
  }

  /** A missing model or prompt is reported as a 400 naming the MODEL id,
      even when only the prompt is missing, and nothing is stored or sent. */
  lemma MissingRowsReportModelId(evaluations: map<string, Evaluation>, queue: seq<QueuedTask>,
                                 models: map<string, Model>, prompts: map<string, Prompt>, completionNullable: bool,
                                 req: EvaluationCreate, newId: string, broker: BrokerOutcome)
    requires req.modelId !in models || req.promptId !in prompts
    ensures CreateSpec(evaluations, queue, models, prompts, completionNullable, req, newId, broker)
      == CreateStep(evaluations, queue, Err(HttpException(400, "Model with ID " + req.modelId + " not found")))
  {
  }

  /** An unsupported prompt type is rejected before the insert: nothing is
      stored or sent, and the detail carries the inner exception's status. */
  lemma UnsupportedTypeCreatesNothing(evaluations: map<string, Evaluation>, queue: seq<QueuedTask>,
                                      models: map<string, Model>, prompts: map<string, Prompt>, completionNullable: bool,
                                      req: EvaluationCreate, newId: string, broker: BrokerOutcome)
    requires req.modelId in models && req.promptId in prompts
    requires !Evaluators.HasEvaluator(prompts[req.promptId].promptType)
    ensures var inner := HttpException(400, "Unsupported evaluation type: " + TypeValue(prompts[req.promptId].promptType));
      CreateSpec(evaluations, queue, models, prompts, completionNullable, req, newId, broker)
        == CreateStep(evaluations, queue, Err(HttpException(400, inner.Str())))
  {
  }

  /** The inner status shows up in the detail as a "400: " prefix. */
  lemma StatusPrefix(d: string)
    ensures HttpException(400, d).Str() == "400: " + d
  {
    var n: nat := 400;
    assert PyText.NatToString(n / 10) == PyText.NatToString(40) == "40" by {
      assert PyText.NatToString(4) == "4";
    }
  }

  /** Under the schema as declared (`completion` NOT NULL) no create ever
      succeeds: the row built without a completion is refused by the store,
      so nothing is stored and no task is sent. */
  lemma CreateNeverSucceedsAsDeclared(evaluations: map<string, Evaluation>, queue: seq<QueuedTask>,
                                      models: map<string, Model>, prompts: map<string, Prompt>,
                                      req: EvaluationCreate, newId: string, broker: BrokerOutcome)
    ensures var s := CreateSpec(evaluations, queue, models, prompts, false, req, newId, broker);
      s.result.Err? && s.evaluations == evaluations && s.queue == queue
  {
  }

  /** With `completion` nullable, a create for an existing model and a
      factual-QA prompt under a fresh id stores exactly that row and queues
      exactly one `run_evaluation` for it. */
  lemma CreateSucceedsWhenNullable(evaluations: map<string, Evaluation>, queue: seq<QueuedTask>,
                                   models: map<string, Model>, prompts: map<string, Prompt>,
                                   req: EvaluationCreate, newId: string, taskId: string)
    requires req.modelId in models && req.promptId in prompts
    requires prompts[req.promptId].promptType == FactualQA
    requires newId !in evaluations
    ensures var s := CreateSpec(evaluations, queue, models, prompts, true, req, newId, Sent(taskId));
      && s.result == Ok(Created(newId, "pending", taskId))
      && s.evaluations.Keys == evaluations.Keys + {newId}
      && s.evaluations[newId].modelId == req.modelId && s.evaluations[newId].promptId == req.promptId
      && s.evaluations[newId].metadata == req.metadata
      && s.queue == queue + [QueuedTask(RunEvaluationTask, [newId])]
  {
  }

  /** `create_evaluation` against the store. */
  method CreateEvaluation(db: Database, req: EvaluationCreate, newId: string, broker: BrokerOutcome)
    returns (r: Result<Created, Exc>)
    requires db.Valid()
    modifies db
    ensures db.Valid()
    ensures var s := CreateSpec(old(db.evaluations), old(db.queue), db.models, db.prompts, db.completionNullable,
                                req, newId, broker);
      db.evaluations == s.evaluations && db.queue == s.queue && r == s.result
    ensures db.models == old(db.models) && db.prompts == old(db.prompts)
  {
    var checked := Precheck(db.models, db.prompts, req);
    if checked.Err? {
      return Err(HttpException(400, checked.error.Str()));
    }
    var row := checked.value;
    if newId in db.evaluations {
      return Err(HttpException(400, IntegrityError(DuplicateId).Str()));
    }
    if !SatisfiesNotNull(row, db.completionNullable) {
      return Err(HttpException(400, IntegrityError(CompletionNotNull).Str()));
    }
    db.evaluations := db.evaluations[newId := row];
    match broker
    case BrokerFailed(m) =>
      r := Err(HttpException(400, m));
    case Sent(taskId) =>
      db.queue := db.queue + [QueuedTask(RunEvaluationTask, [newId])];
      r := Ok(Created(newId, "pending", taskId));
  }

  /** One request of a batch, with the id and the broker answer it would get. */
  datatype Submission = Submission(request: EvaluationCreate, newId: string, broker: BrokerOutcome)

  /** One entry of the batch response. */
  datatype BatchItem =
    | ItemCreated(created: Created)
    | ItemFailed(error: string, modelId: string, promptId: string)

  /** The batch entry for one create's outcome. */
  function ItemOf(req: EvaluationCreate, r: Result<Created, Exc>): BatchItem {
    match r
    case Ok(c) => ItemCreated(c)
    case Err(e) => ItemFailed(e.Str(), req.modelId, req.promptId)
  }

  /** The table, the queue and the responses after creating each submission
      in turn. */
  function CreateAll(evaluations: map<string, Evaluation>, queue: seq<QueuedTask>,
                     models: map<string, Model>, prompts: map<string, Prompt>, completionNullable: bool,
                     subs: seq<Submission>): (r: (map<string, Evaluation>, seq<QueuedTask>, seq<BatchItem>))
    ensures |r.2| == |subs|
    decreases |subs|
  {
    if subs == [] then (evaluations, queue, [])
    else
      var n := |subs| - 1;
      var before := CreateAll(evaluations, queue, models, prompts, completionNullable, subs[..n]);
      var sub := subs[n];
      var s := CreateSpec(before.0, before.1, models, prompts, completionNullable, sub.request, sub.newId, sub.broker);
      (s.evaluations, s.queue, before.2 + [ItemOf(sub.request, s.result)])
  }

  /** Each response answers its own request: a failure names the request's
      model and prompt, a success the submission's id. */
  lemma {:induction false} CreateAllAnswers(evaluations: map<string, Evaluation>, queue: seq<QueuedTask>,
                                            models: map<string, Model>, prompts: map<string, Prompt>,
                                            completionNullable: bool, subs: seq<Submission>)
    ensures var r := CreateAll(evaluations, queue, models, prompts, completionNullable, subs);
      forall i :: 0 <= i < |subs| ==> Answers(r.2[i], subs[i])
    decreases |subs|
  {
    if subs != [] {
      var n := |subs| - 1;
      var front := subs[..n];
      CreateAllAnswers(evaluations, queue, models, prompts, completionNullable, front);
      var before := CreateAll(evaluations, queue, models, prompts, completionNullable, front);
      var sub := subs[n];
      var s := CreateSpec(before.0, before.1, models, prompts, completionNullable, sub.request, sub.newId, sub.broker);
      var r := CreateAll(evaluations, queue, models, prompts, completionNullable, subs);
      assert r.2 == before.2 + [ItemOf(sub.request, s.result)];
      forall i | 0 <= i < |subs| ensures Answers(r.2[i], subs[i]) {
        if i < n {
          assert r.2[i] == before.2[i] && subs[i] == front[i];
        } else {
          assert r.2[i] == ItemOf(sub.request, s.result);
        }
      }
    }
  }

  /** Whether a batch entry answers a submission. */
  predicate Answers(item: BatchItem, sub: Submission) {
    && (item.ItemFailed? ==> item.modelId == sub.request.modelId && item.promptId == sub.request.promptId)
    && (item.ItemCreated? ==> item.created.id == sub.newId)
  }

  /** Existing rows are kept and the old queue is a prefix of the new one. */
  lemma {:induction false} CreateAllKeeps(evaluations: map<string, Evaluation>, queue: seq<QueuedTask>,
                                          models: map<string, Model>, prompts: map<string, Prompt>,
                                          completionNullable: bool, subs: seq<Submission>)
    ensures var r := CreateAll(evaluations, queue, models, prompts, completionNullable, subs);
      && (forall k :: k in evaluations ==> k in r.0 && r.0[k] == evaluations[k])
      && |queue| <= |r.1| && r.1[..|queue|] == queue
    decreases |subs|
  {
    if subs != [] {
      var n := |subs| - 1;
      var front := subs[..n];
      CreateAllKeeps(evaluations, queue, models, prompts, completionNullable, front);
      var before := CreateAll(evaluations, queue, models, prompts, completionNullable, front);
      var sub := subs[n];
      var s := CreateSpec(before.0, before.1, models, prompts, completionNullable, sub.request, sub.newId, sub.broker);
      assert before.1[..|queue|] == queue;
      assert forall j :: 0 <= j < |queue| ==> s.queue[j] == before.1[j];
      assert s.queue[..|queue|] == queue;
    }
  }

  /** One more submission at the end of a batch is one more create. */
  lemma CreateAllStep(evaluations: map<string, Evaluation>, queue: seq<QueuedTask>,
                      models: map<string, Model>, prompts: map<string, Prompt>, completionNullable: bool,
                      subs: seq<Submission>, sub: Submission)
    ensures var before := CreateAll(evaluations, queue, models, prompts, completionNullable, subs);
      var s := CreateSpec(before.0, before.1, models, prompts, completionNullable, sub.request, sub.newId, sub.broker);
      CreateAll(evaluations, queue, models, prompts, completionNullable, subs + [sub])
        == (s.evaluations, s.queue, before.2 + [ItemOf(sub.request, s.result)])
  {
    var c := subs + [sub];
    assert c[..|c| - 1] == subs && c[|c| - 1] == sub;
  }

  /** The first i + 1 submissions are the first i followed by the next one. */
  lemma CreatePrefixStep(evaluations: map<string, Evaluation>, queue: seq<QueuedTask>,
                         models: map<string, Model>, prompts: map<string, Prompt>, completionNullable: bool,
                         subs: seq<Submission>, i: int)
    requires 0 <= i < |subs|
    ensures var before := CreateAll(evaluations, queue, models, prompts, completionNullable, subs[..i]);
      var sub := subs[i];
      var s := CreateSpec(before.0, before.1, models, prompts, completionNullable, sub.request, sub.newId, sub.broker);
      CreateAll(evaluations, queue, models, prompts, completionNullable, subs[..i + 1])
        == (s.evaluations, s.queue, before.2 + [ItemOf(sub.request, s.result)])
  {
    assert subs[..i + 1] == subs[..i] + [subs[i]];
    CreateAllStep(evaluations, queue, models, prompts, completionNullable, subs[..i], subs[i]);
  }

  /** Under the schema as declared a batch stores nothing, sends nothing and
      answers every item with an error. */
  lemma {:induction false} BatchFailsAsDeclared(evaluations: map<string, Evaluation>, queue: seq<QueuedTask>,
                                                models: map<string, Model>, prompts: map<string, Prompt>,
                                                subs: seq<Submission>)
    ensures var r := CreateAll(evaluations, queue, models, prompts, false, subs);
      && r.0 == evaluations && r.1 == queue
      && forall i :: 0 <= i < |subs| ==> r.2[i].ItemFailed?
    decreases |subs|
  {
    if subs != [] {
      var n := |subs| - 1;
      BatchFailsAsDeclared(evaluations, queue, models, prompts, subs[..n]);
      var sub := subs[n];
      CreateNeverSucceedsAsDeclared(evaluations, queue, models, prompts, sub.request, sub.newId, sub.broker);
    }
  }

  /** `create_batch_evaluation`: one response per submission, in order; a
      failed item is recorded and the loop goes on. */
  method CreateBatchEvaluation(db: Database, subs: seq<Submission>) returns (responses: seq<BatchItem>)
    requires db.Valid()
    modifies db
    ensures db.Valid()
    ensures var r := CreateAll(old(db.evaluations), old(db.queue), db.models, db.prompts, db.completionNullable, subs);
      db.evaluations == r.0 && db.queue == r.1 && responses == r.2
    ensures db.models == old(db.models) && db.prompts == old(db.prompts)
  {
    ghost var start, queue, models, prompts := db.evaluations, db.queue, db.models, db.prompts;
    responses := [];
    var i := 0;
    while i < |subs|
      invariant 0 <= i <= |subs|
      invariant db.Valid()
      invariant db.models == models && db.prompts == prompts
      invariant (db.evaluations, db.queue, responses)
        == CreateAll(start, queue, models, prompts, db.completionNullable, subs[..i])
    {
      var sub := subs[i];
      CreatePrefixStep(start, queue, models, prompts, db.completionNullable, subs, i);
      var r := CreateEvaluation(db, sub.request, sub.newId, sub.broker);
      responses := responses + [ItemOf(sub.request, r)];
      i := i + 1;
    }
    assert subs[..i] == subs;
  }

  const EvaluationNotFound := "Evaluation not found"

  /** `get_evaluation(id)`. */
  function GetEvaluation(evaluations: map<string, Evaluation>, id: string): (r: Result<Evaluation, Exc>)
    ensures r.Ok? <==> id in evaluations
    ensures r.Ok? ==> r.value == evaluations[id]
    ensures r.Err? ==> r.error == HttpException(404, EvaluationNotFound)
  {
    if id in evaluations then Ok(evaluations[id]) else Err(HttpException(404, EvaluationNotFound))
  }

  /** A created row can be read back under its id with the request's fields. */
  lemma CreatedIsReadable(evaluations: map<string, Evaluation>, queue: seq<QueuedTask>,
                          models: map<string, Model>, prompts: map<string, Prompt>, completionNullable: bool,
                          req: EvaluationCreate, newId: string, broker: BrokerOutcome)
    requires CreateSpec(evaluations, queue, models, prompts, completionNullable, req, newId, broker).result.Ok?
    ensures var s := CreateSpec(evaluations, queue, models, prompts, completionNullable, req, newId, broker);
      GetEvaluation(s.evaluations, s.result.value.id) == Ok(NewEvaluation(req.modelId, req.promptId, req.metadata))
  {
  }

  /** `delete_evaluation(id)`: a 404 for an unknown id, otherwise that row
      and only that row goes. */
  method DeleteEvaluation(db: Database, id: string) returns (r: Result<string, Exc>)
    requires db.Valid()
    modifies db
    ensures db.Valid()
    ensures id !in old(db.evaluations) ==>
      r == Err(HttpException(404, EvaluationNotFound)) && db.evaluations == old(db.evaluations)
    ensures id in old(db.evaluations) ==> r == Ok("Evaluation deleted") && db.evaluations == old(db.evaluations) - {id}
    ensures GetEvaluation(db.evaluations, id).Err?
    ensures forall k :: k != id ==> GetEvaluation(db.evaluations, k) == GetEvaluation(old(db.evaluations), k)
    ensures db.models == old(db.models) && db.prompts == old(db.prompts) && db.queue == old(db.queue)
  {
    if id !in db.evaluations {
      return Err(HttpException(404, EvaluationNotFound));
    }
    db.evaluations := db.evaluations - {id};
    r := Ok("Evaluation deleted");
  }

  /** The list endpoint's query parameters. Only the first three are used. */
  datatype EvaluationFilter = EvaluationFilter(
    modelId: Option<string>,
    promptId: Option<string>,
    evaluationType: Option<EvaluationType>,
    minScore: Option<real>,
    maxScore: Option<real>,
    startDate: Option<int>,
    endDate: Option<int>)

  /** A query parameter is applied when it is truthy: given and non-empty. */
  predicate Given(s: Option<string>) { s.Some? && s.value != "" }

  /** The rows `list_evaluations` selects: all the applied filters hold; the
      type filter joins the prompt, so it also drops rows whose prompt is gone. */
  predicate Selected(e: Evaluation, prompts: map<string, Prompt>, f: EvaluationFilter) {
    && (Given(f.modelId) ==> e.modelId == f.modelId.value)
    && (Given(f.promptId) ==> e.promptId == f.promptId.value)
    && (f.evaluationType.Some? ==> e.promptId in prompts && prompts[e.promptId].promptType == f.evaluationType.value)
  }

  /** `list_evaluations(filters)`, as rows keyed by id (`query.all()` has no
      ORDER BY, so the order is left open). */
  method ListEvaluations(db: Database, f: EvaluationFilter) returns (rows: map<string, Evaluation>)
    ensures forall k :: k in rows <==> k in db.evaluations && Selected(db.evaluations[k], db.prompts, f)
    ensures forall k :: k in rows ==> rows[k] == db.evaluations[k]
  {
    rows := db.evaluations;
    if Given(f.modelId) {
      rows := map k | k in rows && rows[k].modelId == f.modelId.value :: rows[k];
    }
    if Given(f.promptId) {
      rows := map k | k in rows && rows[k].promptId == f.promptId.value :: rows[k];
    }
    if f.evaluationType.Some? {
      rows := map k | k in rows && rows[k].promptId in db.prompts
                      && db.prompts[rows[k].promptId].promptType == f.evaluationType.value :: rows[k];
    }
  }

  /** The score bounds and the date range do not affect the selection, and
      with no filter applied every row is selected. */
  lemma IgnoredFilters(e: Evaluation, prompts: map<string, Prompt>, f: EvaluationFilter, g: EvaluationFilter)
    requires f.modelId == g.modelId && f.promptId == g.promptId && f.evaluationType == g.evaluationType
    ensures Selected(e, prompts, f) <==> Selected(e, prompts, g)
    ensures !Given(f.modelId) && !Given(f.promptId) && f.evaluationType.None? ==> Selected(e, prompts, f)
  {
  }
}
