/** The database and the task broker as the endpoints and the worker see
    them: one map per table, keyed by primary key, and the sequence of tasks
    sent to the broker. The store enforces the declared NOT NULL constraint
    on `evaluations.completion` unless it is built with that column
    nullable. */
module Store {
  import opened Schema

  /** A task message: the task's dotted name and its arguments. */
  datatype QueuedTask = QueuedTask(name: string, args: seq<string>)

  const RunEvaluationTask := "app.evaluators.tasks.run_evaluation"

  class Database {
    /** Whether `evaluations.completion` accepts NULL (false as declared). */
    const completionNullable: bool
    var models: map<string, Model>
    var prompts: map<string, Prompt>
    var evaluations: map<string, Evaluation>
    var queue: seq<QueuedTask>

    /** Rows are stored under their own ids and every stored evaluation
        satisfies the schema's NOT NULL constraint. */
    ghost predicate Valid()
      reads this
    {
      (forall k :: k in models ==> models[k].id == k)
      && (forall k :: k in prompts ==> prompts[k].id == k)
      && (forall k :: k in evaluations ==> SatisfiesNotNull(evaluations[k], completionNullable))
    }

    constructor (completionNullable: bool)
      ensures Valid()
      ensures this.completionNullable == completionNullable
      ensures models == map[] && prompts == map[] && evaluations == map[] && queue == []
    {
      this.completionNullable := completionNullable;
      models := map[];
      prompts := map[];
      evaluations := map[];
      queue := [];
    }

    /** Adding a model row (setup for the endpoints and the worker). */
    method AddModel(m: Model)
      requires Valid()
      modifies this
      ensures Valid()
      ensures models == old(models)[m.id := m]
      ensures prompts == old(prompts) && evaluations == old(evaluations) && queue == old(queue)
    {
      models := models[m.id := m];
    }

    method AddPrompt(p: Prompt)
      requires Valid()
      modifies this
      ensures Valid()
      ensures prompts == old(prompts)[p.id := p]
      ensures models == old(models) && evaluations == old(evaluations) && queue == old(queue)
    {
      prompts := prompts[p.id := p];
    }
  }
}
