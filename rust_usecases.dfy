/** The Rust use cases (`*Usecase::execute`). Inside the transaction
  * service's body, `?` turns a `RepositoryError` into a `UsecaseError`; the
  * service's own failure is already a `UsecaseError`; a guard error becomes
  * a conflict carrying the guard's text. The response is the todo's DTO. */
module RustUsecases {
  import opened Wrappers
  import opened Uuids
  import opened Domain
  import opened Repository
  import opened Workflow
  import opened RustErrors

  /** The use case error an unsuccessful outcome ends in. `guardText` is the
    * `Display` text of the entity's guard error. */
  function Failure(o: Outcome<RepositoryError, UsecaseError>, guardText: string): UsecaseError
    requires !o.Done?
  {
    match o
    case Refused(x) => x
    case RepoFailed(e) => FromRepositoryError(e)
    case GuardFailed(_) => ConflictFrom(guardText)
  }

  /** The `Result<TodoDto, UsecaseError>` an outcome ends in. */
  function Response(o: Outcome<RepositoryError, UsecaseError>, guardText: string): Result<TodoDto, UsecaseError>
  {
    if o.Done? then Ok(ToDto(o.todo)) else Err(Failure(o, guardText))
  }

  /** Not-found from the repository reaches the caller as `UsecaseError::NotFound`,
    * a data-access failure as `Unexpected` with the same source, and a
    * successful response is the DTO of the stored todo. */
  lemma ResponseClassifiesFailures(o: Outcome<RepositoryError, UsecaseError>, guardText: string)
    ensures o.Done? <==> Response(o, guardText).Ok?
    ensures o.Done? ==> Response(o, guardText).value.id == ToString(o.todo.id)
    ensures o == RepoFailed(RepositoryError.NotFound) ==> Response(o, guardText) == Err(UsecaseError.NotFound)
    ensures o.RepoFailed? && o.error.DataAccess? ==> Response(o, guardText) == Err(Unexpected(o.error.source))
    ensures o.GuardFailed? ==> Response(o, guardText) == Err(UsecaseError.Conflict(guardText))
  {
  }

  /** `CreateTodoInput`'s validation rule: the title has at least one character. */
  predicate ValidCreateInput(title: string)
  {
    |title| >= 1
  }

  /** `CreateTodoUsecase::execute`: `Todo::new` (with `id` for the generated
    * id), one `save`, no transaction service. Its input has passed
    * validation (the request extractor rejects any other). */
  method Create(repo: TodoRepo<RepositoryError>, id: Uuid, title: string, description: Option<string>) returns (r: Result<TodoDto, UsecaseError>)
    requires ValidCreateInput(title)
    modifies repo
    ensures var eff: Effect<RepositoryError, UsecaseError> := Workflow.Create(old(repo.store), old(repo.saveErr), id, title, description);
      r == Response(eff.outcome, "") && repo.store == eff.store && repo.log == old(repo.log) + eff.calls
  {
    var todo := new Todo(id, title, description);
    var err := repo.Save(todo.State());
    if err.Some? {
      return Err(FromRepositoryError(err.value));
    }
    r := Ok(ToDto(todo.State()));
  }

  /** `UpdateTodoUsecase::execute`: inside one `run`, `find_by_id`, `update`,
    * `save`. */
  method Update(repo: TodoRepo<RepositoryError>, tx: FakeTx<UsecaseError>, id: Uuid, title: string, description: Option<string>) returns (r: Result<TodoDto, UsecaseError>)
    modifies repo, tx
    ensures var eff := Modify(old(repo.store), old(Setup(repo, tx)), id, UpdateEdit(title, description));
      r == Response(eff.outcome, "") && repo.store == eff.store && repo.log == old(repo.log) + eff.calls
    ensures tx.runs == old(tx.runs) + (if old(tx.retErr).None? then 1 else 0)
  {
    var refusal := tx.Enter();
    if refusal.Some? {
      return Err(refusal.value);
    }
    var found := repo.FindById(id);
    if found.Err? {
      return Err(FromRepositoryError(found.error));
    }
    var todo := new Todo.Reconstruct(found.value);
    todo.Update(title, description);
    var err := repo.Save(todo.State());
    if err.Some? {
      return Err(FromRepositoryError(err.value));
    }
    r := Ok(ToDto(todo.State()));
  }

  /** `MarkAsUncompletedTodoUsecase::execute`: inside one `run`, `find_by_id`,
    * `mark_as_uncompleted` (its error mapped by
    * `conflict_from_not_completed`), `save`. */
  method MarkAsUncompleted(repo: TodoRepo<RepositoryError>, tx: FakeTx<UsecaseError>, id: Uuid, guardText: string) returns (r: Result<TodoDto, UsecaseError>)
    modifies repo, tx
    ensures var eff := Modify(old(repo.store), old(Setup(repo, tx)), id, UncompleteEdit);
      r == Response(eff.outcome, guardText) && repo.store == eff.store && repo.log == old(repo.log) + eff.calls
    ensures tx.runs == old(tx.runs) + (if old(tx.retErr).None? then 1 else 0)
  {
    var refusal := tx.Enter();
    if refusal.Some? {
      return Err(refusal.value);
    }
    var found := repo.FindById(id);
    if found.Err? {
      return Err(FromRepositoryError(found.error));
    }
    var todo := new Todo.Reconstruct(found.value);
    var guard := todo.MarkAsUncompleted();
    if guard.Some? {
      return Err(ConflictFrom(guardText));
    }
    var err := repo.Save(todo.State());
    if err.Some? {
      return Err(FromRepositoryError(err.value));
    }
    r := Ok(ToDto(todo.State()));
  }

  /** `DeleteTodoUsecase::execute`: inside one `run`, `find_by_id`, then
    * `delete` of the loaded todo. */
  method Delete(repo: TodoRepo<RepositoryError>, tx: FakeTx<UsecaseError>, id: Uuid) returns (r: Result<(), UsecaseError>)
    modifies repo, tx
    ensures var eff := Workflow.Delete(old(repo.store), old(Setup(repo, tx)), id);
      (r.Ok? <==> eff.outcome.Done?) && (r.Err? ==> r.error == Failure(eff.outcome, ""))
      && repo.store == eff.store && repo.log == old(repo.log) + eff.calls
    ensures tx.runs == old(tx.runs) + (if old(tx.retErr).None? then 1 else 0)
  {
    var refusal := tx.Enter();
    if refusal.Some? {
      return Err(refusal.value);
    }
    var found := repo.FindById(id);
    if found.Err? {
      return Err(FromRepositoryError(found.error));
    }
    var err := repo.Delete(found.value);
    if err.Some? {
      return Err(FromRepositoryError(err.value));
    }
    r := Ok(());
  }
}
