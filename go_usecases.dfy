/** The Go use cases (`*UsecaseImpl.Handle`). They return a todo value and
  * an error; whenever the error is non-nil the todo is the zero value. */
module GoUsecases {
  import opened Wrappers
  import opened Uuids
  import opened Domain
  import opened Repository
  import opened Workflow
  import opened GoTodo

  function GuardError(g: DomainError): GoError
  {
    if g.TodoAlreadyCompleted? then ErrTodoAlreadyCompleted else ErrTodoNotCompleted
  }

  /** The `(todo, err)` pair a use case returns for an outcome. */
  function Returns(o: Outcome<GoError, GoError>): (TodoState, Option<GoError>)
  {
    match o
    case Done(t) => (t, None)
    case Refused(x) => (Zero, Some(x))
    case RepoFailed(e) => (Zero, Some(e))
    case GuardFailed(g) => (Zero, Some(GuardError(g)))
  }

  /** On any error the returned todo is the zero value. */
  lemma ErrorsReturnZero(o: Outcome<GoError, GoError>)
    ensures Returns(o).1.Some? <==> !o.Done?
    ensures Returns(o).1.Some? ==> Returns(o).0 == Zero
  {
  }

  /** `createTodoUsecaseImpl.Handle`: `NewTodo` (with `id` for the generated
    * id), then one `Save`; no transaction service. */
  method Create(repo: TodoRepo<GoError>, id: Uuid, title: string, description: Option<string>) returns (todo: TodoState, err: Option<GoError>)
    modifies repo
    ensures var eff: Effect<GoError, GoError> := Workflow.Create(old(repo.store), old(repo.saveErr), id, title, description);
      (todo, err) == Returns(eff.outcome) && repo.store == eff.store && repo.log == old(repo.log) + eff.calls
    ensures err.None? ==> repo.lastSaved == Some(todo)
  {
    var t := new Todo(id, title, description);
    err := repo.Save(t.State());
    if err.Some? {
      return Zero, err;
    }
    todo := t.State();
  }

  /** `updateTodoUsecaseImpl.Handle`: inside one `Run`, `FindByID`, then
    * `CommandUpdateTodo.Update` on the loaded value, then `Save`. */
  method Update(repo: TodoRepo<GoError>, tx: FakeTx<GoError>, id: Uuid, title: string, description: Option<string>) returns (todo: TodoState, err: Option<GoError>)
    modifies repo, tx
    ensures var eff := Modify(old(repo.store), old(Setup(repo, tx)), id, UpdateEdit(title, description));
      (todo, err) == Returns(eff.outcome) && repo.store == eff.store && repo.log == old(repo.log) + eff.calls
    ensures tx.runs == old(tx.runs) + (if old(tx.retErr).None? then 1 else 0)
  {
    err := tx.Enter();
    if err.Some? {
      return Zero, err;
    }
    var found := repo.FindById(id);
    if found.Err? {
      return Zero, Some(found.error);
    }
    var t := new Todo.Reconstruct(found.value);
    CommandUpdateTodo(title, description).Update(t);
    err := repo.Save(t.State());
    if err.Some? {
      return Zero, err;
    }
    todo := t.State();
  }

  /** `markAsCompleteTodoUsecaseImpl.Handle`: inside one `Run`, `FindByID`,
    * `MarkAsCompleted` on the loaded value, then `Save`. */
  method MarkAsComplete(repo: TodoRepo<GoError>, tx: FakeTx<GoError>, id: Uuid) returns (todo: TodoState, err: Option<GoError>)
    modifies repo, tx
    ensures var eff := Modify(old(repo.store), old(Setup(repo, tx)), id, CompleteEdit);
      (todo, err) == Returns(eff.outcome) && repo.store == eff.store && repo.log == old(repo.log) + eff.calls
    ensures tx.runs == old(tx.runs) + (if old(tx.retErr).None? then 1 else 0)
  {
    err := tx.Enter();
    if err.Some? {
      return Zero, err;
    }
    var found := repo.FindById(id);
    if found.Err? {
      return Zero, Some(found.error);
    }
    var t := new Todo.Reconstruct(found.value);
    err := GoTodo.MarkAsCompleted(t);
    if err.Some? {
      return Zero, err;
    }
    err := repo.Save(t.State());
    if err.Some? {
      return Zero, err;
    }
    todo := t.State();
  }

  /** `markAsNotCompleteTodoUsecaseImpl.Handle`: as above with
    * `MarkAsNotCompleted`. */
  method MarkAsNotComplete(repo: TodoRepo<GoError>, tx: FakeTx<GoError>, id: Uuid) returns (todo: TodoState, err: Option<GoError>)
    modifies repo, tx
    ensures var eff := Modify(old(repo.store), old(Setup(repo, tx)), id, UncompleteEdit);
      (todo, err) == Returns(eff.outcome) && repo.store == eff.store && repo.log == old(repo.log) + eff.calls
    ensures tx.runs == old(tx.runs) + (if old(tx.retErr).None? then 1 else 0)
  {
    err := tx.Enter();
    if err.Some? {
      return Zero, err;
    }
    var found := repo.FindById(id);
    if found.Err? {
      return Zero, Some(found.error);
    }
    var t := new Todo.Reconstruct(found.value);
    err := GoTodo.MarkAsNotCompleted(t);
    if err.Some? {
      return Zero, err;
    }
    err := repo.Save(t.State());
    if err.Some? {
      return Zero, err;
    }
    todo := t.State();
  }

  /** `deleteTodoUsecaseImpl.Handle`: inside one `Run`, `FindByID`, then
    * `Delete` of the loaded todo. */
  method Delete(repo: TodoRepo<GoError>, tx: FakeTx<GoError>, id: Uuid) returns (err: Option<GoError>)
    modifies repo, tx
    ensures var eff := Workflow.Delete(old(repo.store), old(Setup(repo, tx)), id);
      err == Returns(eff.outcome).1 && repo.store == eff.store && repo.log == old(repo.log) + eff.calls
    ensures tx.runs == old(tx.runs) + (if old(tx.retErr).None? then 1 else 0)
  {
    err := tx.Enter();
    if err.Some? {
      return;
    }
    var found := repo.FindById(id);
    if found.Err? {
      return Some(found.error);
    }
    err := repo.Delete(found.value);
  }
}
