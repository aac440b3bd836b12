/** The Bun create use case (`CreateTodoUsecaseImpl.execute`). */
module BunUsecases {
  import opened Wrappers
  import opened Uuids
  import opened Domain
  import opened Repository
  import opened Workflow

  /** The errors a Bun use case can reject with. */
  datatype BunError = RepositoryNotFoundError | Rejected(name: string)

  /** Builds an incomplete todo (with `id` for the generated id) and saves it
    * once, without a transaction service; the saved todo is the response. */
  method Create(repo: TodoRepo<BunError>, id: Uuid, title: string, description: Option<string>) returns (r: Result<Todo, BunError>)
    modifies repo
    ensures var eff: Effect<BunError, BunError> := Workflow.Create(old(repo.store), old(repo.saveErr), id, title, description);
      && repo.store == eff.store && repo.log == old(repo.log) + eff.calls
      && (r.Ok? <==> eff.outcome.Done?)
      && (r.Ok? ==> fresh(r.value) && r.value.State() == eff.outcome.todo)
      && (r.Err? ==> r.error == eff.outcome.error)
  {
    var todo := new Todo(id, title, description);
    var err := repo.Save(todo.State());
    if err.Some? {
      return Err(err.value);
    }
    r := Ok(todo);
  }
}
