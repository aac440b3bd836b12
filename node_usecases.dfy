/** The Node use cases (`*UsecaseImpl.execute`). A rejected promise is an
  * `Err` result. */
module NodeUsecases {
  import opened Wrappers
  import opened Uuids
  import opened Domain
  import opened Repository
  import opened Workflow

  /** The errors a use case can reject with. */
  datatype NodeError =
    | RepositoryNotFoundError
    | DomainConflictError    // both status guards of the entity
    | Rejected(name: string) // any other error, by class name

  function Rejection(o: Outcome<NodeError, NodeError>): NodeError
    requires !o.Done?
  {
    match o
    case Refused(x) => x
    case RepoFailed(e) => e
    case GuardFailed(_) => DomainConflictError
  }

  predicate Reports(r: Result<Todo, NodeError>, o: Outcome<NodeError, NodeError>)
    reads if r.Ok? then {r.value} else {}
  {
    if o.Done? then r.Ok? && r.value.State() == o.todo else r == Err(Rejection(o))
  }

  /** `request.description || null`: an absent or empty description is stored
    * as null, any other text as itself. */
  function StoredDescription(requested: Option<string>): (d: Option<string>)
    ensures d.None? <==> requested.None? || requested.value == ""
    ensures d.Some? ==> d == requested
  {
    if requested.Some? && requested.value != "" then requested else None
  }

  /** `UpdateTodoUsecaseImpl.execute`: inside one `run`, `findById`,
    * `updateTitle`, `updateDescription` with the normalised description,
    * then `save`; the loaded todo is the response. */
  method Update(repo: TodoRepo<NodeError>, tx: FakeTx<NodeError>, id: Uuid, title: string, description: Option<string>) returns (r: Result<Todo, NodeError>)
    modifies repo, tx
    ensures var eff := Modify(old(repo.store), old(Setup(repo, tx)), id, UpdateEdit(title, StoredDescription(description)));
      Reports(r, eff.outcome) && repo.store == eff.store && repo.log == old(repo.log) + eff.calls
    ensures tx.runs == old(tx.runs) + (if old(tx.retErr).None? then 1 else 0)
  {
    var refusal := tx.Enter();
    if refusal.Some? {
      return Err(refusal.value);
    }
    var found := repo.FindById(id);
    if found.Err? {
      return Err(found.error);
    }
    var todo := new Todo.Reconstruct(found.value);
    todo.Update(title, StoredDescription(description));
    var err := repo.Save(todo.State());
    if err.Some? {
      return Err(err.value);
    }
    r := Ok(todo);
  }

  /** Shared body of the two status changes: load, change in place, save. */
  method ChangeStatus(repo: TodoRepo<NodeError>, tx: FakeTx<NodeError>, id: Uuid, complete: bool) returns (r: Result<Todo, NodeError>)
    modifies repo, tx
    ensures var eff := Modify(old(repo.store), old(Setup(repo, tx)), id, if complete then CompleteEdit else UncompleteEdit);
      Reports(r, eff.outcome) && repo.store == eff.store && repo.log == old(repo.log) + eff.calls
    ensures tx.runs == old(tx.runs) + (if old(tx.retErr).None? then 1 else 0)
  {
    var refusal := tx.Enter();
    if refusal.Some? {
      return Err(refusal.value);
    }
    var found := repo.FindById(id);
    if found.Err? {
      return Err(found.error);
    }
    var todo := new Todo.Reconstruct(found.value);
    var guard;
    if complete {
      guard := todo.MarkAsCompleted();
    } else {
      guard := todo.MarkAsUncompleted();
    }
    if guard.Some? {
      return Err(DomainConflictError);
    }
    var err := repo.Save(todo.State());
    if err.Some? {
      return Err(err.value);
    }
    r := Ok(todo);
  }

  /** `MarkAsCompletedTodoUsecaseImpl.execute`. */
  method MarkAsCompleted(repo: TodoRepo<NodeError>, tx: FakeTx<NodeError>, id: Uuid) returns (r: Result<Todo, NodeError>)
    modifies repo, tx
    ensures var eff := Modify(old(repo.store), old(Setup(repo, tx)), id, CompleteEdit);
      Reports(r, eff.outcome) && repo.store == eff.store && repo.log == old(repo.log) + eff.calls
    ensures tx.runs == old(tx.runs) + (if old(tx.retErr).None? then 1 else 0)
  {
    r := ChangeStatus(repo, tx, id, true);
  }

  /** `MarkAsNotCompletedTodoUsecaseImpl.execute`. */
  method MarkAsNotCompleted(repo: TodoRepo<NodeError>, tx: FakeTx<NodeError>, id: Uuid) returns (r: Result<Todo, NodeError>)
    modifies repo, tx
    ensures var eff := Modify(old(repo.store), old(Setup(repo, tx)), id, UncompleteEdit);
      Reports(r, eff.outcome) && repo.store == eff.store && repo.log == old(repo.log) + eff.calls
    ensures tx.runs == old(tx.runs) + (if old(tx.retErr).None? then 1 else 0)
  {
    r := ChangeStatus(repo, tx, id, false);
  }

  /** `DeleteTodoUsecaseImpl.execute`: inside one `run`, `findById`, then
    * `delete` of that todo; it resolves with no value. */
  method Delete(repo: TodoRepo<NodeError>, tx: FakeTx<NodeError>, id: Uuid) returns (err: Option<NodeError>)
    modifies repo, tx
    ensures var eff := Workflow.Delete(old(repo.store), old(Setup(repo, tx)), id);
      (err.None? <==> eff.outcome.Done?) && (err.Some? ==> err.value == Rejection(eff.outcome))
      && repo.store == eff.store && repo.log == old(repo.log) + eff.calls
    ensures tx.runs == old(tx.runs) + (if old(tx.retErr).None? then 1 else 0)
  {
    var refusal := tx.Enter();
    if refusal.Some? {
      return refusal;
    }
    var found := repo.FindById(id);
    if found.Err? {
      return Some(found.error);
    }
    err := repo.Delete(found.value);
  }
}
