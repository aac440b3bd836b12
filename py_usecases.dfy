/** The Python use cases (`*UsecaseImpl.execute`). Exceptions are `Err`
  * results: whatever the repository, the entity or the transaction service
  * raises reaches the caller unchanged. */
module PyUsecases {
  import opened Wrappers
  import opened Uuids
  import opened Domain
  import opened Repository
  import opened Workflow

  /** The exceptions a use case can raise. */
  datatype PyError =
    | RepositoryNotFoundError
    | TodoAlreadyCompletedError
    | TodoNotCompletedError
    | Raised(name: string)   // any other exception, by class name

  function GuardError(g: DomainError): PyError
  {
    match g
    case TodoAlreadyCompleted => TodoAlreadyCompletedError
    case TodoNotCompleted => TodoNotCompletedError
  }

  /** The exception a failed use case raises. */
  function Raises(o: Outcome<PyError, PyError>): PyError
    requires !o.Done?
  {
    match o
    case Refused(x) => x
    case RepoFailed(e) => e
    case GuardFailed(g) => GuardError(g)
  }

  /** The method's result agrees with the specified outcome: the output todo
    * on success, the same exception otherwise. */
  predicate Reports(r: Result<Todo, PyError>, o: Outcome<PyError, PyError>)
    reads if r.Ok? then {r.value} else {}
  {
    if o.Done? then r.Ok? && r.value.State() == o.todo else r == Err(Raises(o))
  }

  /** `CreateTodoUsecaseImpl.execute`: builds an incomplete todo (the id
    * generator is not modelled: `id` stands for the fresh id) and saves it,
    * without a transaction service. */
  method Create(repo: TodoRepo<PyError>, id: Uuid, title: string, description: Option<string>) returns (r: Result<Todo, PyError>)
    modifies repo
    ensures var eff: Effect<PyError, PyError> := Workflow.Create(old(repo.store), old(repo.saveErr), id, title, description);
      Reports(r, eff.outcome) && repo.store == eff.store && repo.log == old(repo.log) + eff.calls
    ensures r.Ok? ==> fresh(r.value) && repo.lastSaved == Some(r.value.State())
  {
    var todo := new Todo(id, title, description);
    var err := repo.Save(todo.State());
    if err.Some? {
      return Err(err.value);
    }
    r := Ok(todo);
  }

  /** Shared body of update and the two status changes: load, change in
    * place, save, all inside one `Run`. */
  method Change(repo: TodoRepo<PyError>, tx: FakeTx<PyError>, id: Uuid, e: Edit) returns (r: Result<Todo, PyError>)
    modifies repo, tx
    ensures var eff := Modify(old(repo.store), old(Setup(repo, tx)), id, e);
      Reports(r, eff.outcome) && repo.store == eff.store && repo.log == old(repo.log) + eff.calls
    ensures r.Ok? ==> fresh(r.value)
    ensures tx.runs == old(tx.runs) + (if old(tx.retErr).None? then 1 else 0)
  {
    var refusal := tx.Enter();
    if refusal.Some? {
      return Err(refusal.value);
    }
    var found := repo.FindById(id);
    if found.Err? {
      return Err(found.error);
    }
    var todo := new Todo.Reconstruct(found.value);
    match e {
      case CompleteEdit =>
        var g := todo.MarkAsCompleted();
        if g.Some? {
          return Err(GuardError(g.value));
        }
      case UncompleteEdit =>
        var g := todo.MarkAsUncompleted();
        if g.Some? {
          return Err(GuardError(g.value));
        }
      case UpdateEdit(title, description) =>
        todo.Update(title, description);
    }
    var err := repo.Save(todo.State());
    if err.Some? {
      return Err(err.value);
    }
    r := Ok(todo);
  }

  /** `UpdateTodoUsecaseImpl.execute`. */
  method Update(repo: TodoRepo<PyError>, tx: FakeTx<PyError>, id: Uuid, title: string, description: Option<string>) returns (r: Result<Todo, PyError>)
    modifies repo, tx
    ensures var eff := Modify(old(repo.store), old(Setup(repo, tx)), id, UpdateEdit(title, description));
      Reports(r, eff.outcome) && repo.store == eff.store && repo.log == old(repo.log) + eff.calls
    ensures tx.runs == old(tx.runs) + (if old(tx.retErr).None? then 1 else 0)
  {
    r := Change(repo, tx, id, UpdateEdit(title, description));
  }

  /** `MarkAsCompletedTodoUsecaseImpl.execute`. */
  method MarkAsCompleted(repo: TodoRepo<PyError>, tx: FakeTx<PyError>, id: Uuid) returns (r: Result<Todo, PyError>)
    modifies repo, tx
    ensures var eff := Modify(old(repo.store), old(Setup(repo, tx)), id, CompleteEdit);
      Reports(r, eff.outcome) && repo.store == eff.store && repo.log == old(repo.log) + eff.calls
    ensures tx.runs == old(tx.runs) + (if old(tx.retErr).None? then 1 else 0)
  {
    r := Change(repo, tx, id, CompleteEdit);
  }

  /** `MarkAsUncompletedTodoUsecaseImpl.execute`. */
  method MarkAsUncompleted(repo: TodoRepo<PyError>, tx: FakeTx<PyError>, id: Uuid) returns (r: Result<Todo, PyError>)
    modifies repo, tx
    ensures var eff := Modify(old(repo.store), old(Setup(repo, tx)), id, UncompleteEdit);
      Reports(r, eff.outcome) && repo.store == eff.store && repo.log == old(repo.log) + eff.calls
    ensures tx.runs == old(tx.runs) + (if old(tx.retErr).None? then 1 else 0)
  {
    r := Change(repo, tx, id, UncompleteEdit);
  }

  /** `DeleteTodoUsecaseImpl.execute`: load, then delete that todo, inside
    * one `Run`; the output is empty. */
  method Delete(repo: TodoRepo<PyError>, tx: FakeTx<PyError>, id: Uuid) returns (err: Option<PyError>)
    modifies repo, tx
    ensures var eff := Workflow.Delete(old(repo.store), old(Setup(repo, tx)), id);
      (err.None? <==> eff.outcome.Done?) && (err.Some? ==> err.value == Raises(eff.outcome))
      && repo.store == eff.store && repo.log == old(repo.log) + eff.calls
    ensures tx.runs == old(tx.runs) + (if old(tx.retErr).None? then 1 else 0)
  {
    var refusal := tx.Enter();
    if refusal.Some? {
      return refusal;
    }
    var found := repo.FindById(id);
    if found.Err? {
      return Some(found.error);
    }
    err := repo.Delete(found.value);
  }
}
