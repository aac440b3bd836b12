/** The Java use cases (`*UsecaseImpl.handle`). Thrown exceptions are `Err`
  * results; a null title is `None` and throws `NullPointerException`. */
module JavaUsecases {
  import opened Wrappers
  import opened Uuids
  import Domain
  import opened Storage
  import opened Repository
  import opened Workflow
  import opened JavaTodo

  /** The exception a failed use case throws. */
  function Thrown(o: Outcome<JavaException, JavaException>): JavaException
    requires !o.Done?
  {
    match o
    case Refused(x) => x
    case RepoFailed(e) => e
    case GuardFailed(g) => DomainException(g)
  }

  predicate Reports(r: Result<Domain.Todo, JavaException>, o: Outcome<JavaException, JavaException>)
    reads if r.Ok? then {r.value} else {}
  {
    if o.Done? then r.Ok? && r.value.State() == o.todo else r == Err(Thrown(o))
  }

  /** `CreateTodoUsecaseImpl.handle`: `new Todo(title, description)` (with
    * `id` for the generated id), then `save`; no transaction service. A null
    * title throws from the constructor before anything is saved. */
  method Create(repo: TodoRepo<JavaException>, id: Uuid, title: Option<string>, description: Option<string>) returns (r: Result<Domain.Todo, JavaException>)
    modifies repo
    ensures title.None? ==> r == Err(NullPointer) && repo.store == old(repo.store) && repo.log == old(repo.log)
    ensures title.Some? ==>
      var eff: Effect<JavaException, JavaException> := Workflow.Create(old(repo.store), old(repo.saveErr), id, title.value, description);
      Reports(r, eff.outcome) && repo.store == eff.store && repo.log == old(repo.log) + eff.calls
    ensures r.Ok? ==> fresh(r.value)
  {
    var made := New(id, title, description);
    if made.Err? {
      return Err(made.error);
    }
    var todo := new Domain.Todo(id, title.value, description);
    var err := repo.Save(todo.State());
    if err.Some? {
      return Err(err.value);
    }
    r := Ok(todo);
  }

  /** `UpdateTodoUsecaseImpl.handle`: inside one `run`, `findById`, `update`
    * on the loaded todo, `save`. The `Optional` description is passed on as
    * the nullable value it holds. A null title throws after the lookup and
    * before the save. */
  method Update(repo: TodoRepo<JavaException>, tx: FakeTx<JavaException>, id: Uuid, title: Option<string>, description: Option<string>) returns (r: Result<Domain.Todo, JavaException>)
    modifies repo, tx
    ensures title.Some? ==>
      var eff := Modify(old(repo.store), old(Setup(repo, tx)), id, UpdateEdit(title.value, description));
      Reports(r, eff.outcome) && repo.store == eff.store && repo.log == old(repo.log) + eff.calls
    ensures title.None? ==>
      var found := Lookup(old(repo.store), old(repo.findErr), repo.notFound, id);
      && repo.store == old(repo.store)
      && r == Err(if old(tx.retErr).Some? then old(tx.retErr).value else if found.Err? then found.error else NullPointer)
      && repo.log == old(repo.log) + (if old(tx.retErr).Some? then [] else [FindCall(id)])
    ensures tx.runs == old(tx.runs) + (if old(tx.retErr).None? then 1 else 0)
  {
    var refusal := tx.Enter();
    if refusal.Some? {
      return Err(refusal.value);
    }
    var found := repo.FindById(id);
    if found.Err? {
      return Err(found.error);
    }
    var todo := new Domain.Todo.Reconstruct(found.value);
    var thrown := JavaTodo.Update(todo, title, description);
    if thrown.Some? {
      return Err(thrown.value);
    }
    var err := repo.Save(todo.State());
    if err.Some? {
      return Err(err.value);
    }
    r := Ok(todo);
  }

  /** `MarkAsCompletedTodoUsecaseImpl.handle`: inside one `run`, `findById`,
    * `markAsCompleted`, `save`. */
  method MarkAsCompleted(repo: TodoRepo<JavaException>, tx: FakeTx<JavaException>, id: Uuid) returns (r: Result<Domain.Todo, JavaException>)
    modifies repo, tx
    ensures var eff := Modify(old(repo.store), old(Setup(repo, tx)), id, CompleteEdit);
      Reports(r, eff.outcome) && repo.store == eff.store && repo.log == old(repo.log) + eff.calls
    ensures tx.runs == old(tx.runs) + (if old(tx.retErr).None? then 1 else 0)
  {
    var refusal := tx.Enter();
    if refusal.Some? {
      return Err(refusal.value);
    }
    var found := repo.FindById(id);
    if found.Err? {
      return Err(found.error);
    }
    var todo := new Domain.Todo.Reconstruct(found.value);
    var thrown := JavaTodo.MarkAsCompleted(todo);
    if thrown.Some? {
      return Err(thrown.value);
    }
    var err := repo.Save(todo.State());
    if err.Some? {
      return Err(err.value);
    }
    r := Ok(todo);
  }

  /** `MarkAsNotCompletedTodoUsecaseImpl.handle`: inside one `run`,
    * `findById`, the entity's undo transition (`markAsUndone`), `save`. */
  method MarkAsNotCompleted(repo: TodoRepo<JavaException>, tx: FakeTx<JavaException>, id: Uuid) returns (r: Result<Domain.Todo, JavaException>)
    modifies repo, tx
    ensures var eff := Modify(old(repo.store), old(Setup(repo, tx)), id, UncompleteEdit);
      Reports(r, eff.outcome) && repo.store == eff.store && repo.log == old(repo.log) + eff.calls
    ensures tx.runs == old(tx.runs) + (if old(tx.retErr).None? then 1 else 0)
  {
    var refusal := tx.Enter();
    if refusal.Some? {
      return Err(refusal.value);
    }
    var found := repo.FindById(id);
    if found.Err? {
      return Err(found.error);
    }
    var todo := new Domain.Todo.Reconstruct(found.value);
    var thrown := JavaTodo.MarkAsUndone(todo);
    if thrown.Some? {
      return Err(thrown.value);
    }
    var err := repo.Save(todo.State());
    if err.Some? {
      return Err(err.value);
    }
    r := Ok(todo);
  }

  /** `DeleteTodoUsecaseImpl.handle`: inside one `run`, `findById`, then
    * `delete` of that todo. */
  method Delete(repo: TodoRepo<JavaException>, tx: FakeTx<JavaException>, id: Uuid) returns (thrown: Option<JavaException>)
    modifies repo, tx
    ensures var eff := Workflow.Delete(old(repo.store), old(Setup(repo, tx)), id);
      (thrown.None? <==> eff.outcome.Done?) && (thrown.Some? ==> thrown.value == Thrown(eff.outcome))
      && repo.store == eff.store && repo.log == old(repo.log) + eff.calls
    ensures tx.runs == old(tx.runs) + (if old(tx.retErr).None? then 1 else 0)
  {
    var refusal := tx.Enter();
    if refusal.Some? {
      return refusal;
    }
    var found := repo.FindById(id);
    if found.Err? {
      return Some(found.error);
    }
    thrown := repo.Delete(found.value);
  }
}
