/** What a use case does to the repository, as a value: the outcome, the new
  * table and the repository calls made, given the errors the transaction
  * service and repository are set up to produce.
  *
  * Every implementation runs the same read-modify-write: ask the transaction
  * service to run the body; load the todo by id; apply one transition
  * (complete, uncomplete, update); save it. Delete loads and then deletes;
  * create builds a todo and saves it, outside any transaction. Each
  * language's use case is proved to behave as these functions say, with its
  * own error values; the properties proved here therefore hold for all of
  * them. */
module Workflow {
  import opened Wrappers
  import opened Uuids
  import opened Domain
  import opened Storage
  import opened Repository

  /** The in-place change a use case applies to the loaded todo. */
  datatype Edit = CompleteEdit | UncompleteEdit | UpdateEdit(title: string, description: Option<string>)

  function StepOf(e: Edit, t: TodoState): (r: Result<TodoState, DomainError>)
    ensures r.Ok? ==> r.value.id == t.id
  {
    match e
    case CompleteEdit => Complete(t)
    case UncompleteEdit => Uncomplete(t)
    case UpdateEdit(title, description) => Ok(Updated(t, title, description))
  }

  /** How a use case ended: with a todo, refused by the transaction service
    * (error type `X`), with a repository error (type `E`), or stopped by a
    * guard of the entity. */
  datatype Outcome<E, X> = Done(todo: TodoState) | Refused(refusal: X) | RepoFailed(error: E) | GuardFailed(guard: DomainError)

  datatype Effect<E, X> = Effect(outcome: Outcome<E, X>, store: Table, calls: seq<Call>)

  /** The errors the collaborators are set up to produce. */
  datatype Faults<E, X> = Faults(tx: Option<X>, find: Option<E>, save: Option<E>, delete: Option<E>, notFound: E)

  /** The errors a repository and a transaction service are set up to produce. */
  function Setup<E, X>(repo: TodoRepo<E>, tx: FakeTx<X>): Faults<E, X>
    reads repo, tx
  {
    Faults(tx.retErr, repo.findErr, repo.saveErr, repo.deleteErr, repo.notFound)
  }

  /** Load, change, save, inside the transaction service. Nothing is written
    * unless the use case succeeds, and then exactly the changed todo is. */
  function Modify<E, X>(s: Table, f: Faults<E, X>, id: Uuid, e: Edit): (r: Effect<E, X>)
    ensures !r.outcome.Done? ==> r.store == s
    ensures r.outcome.Done? ==> id in s && StepOf(e, s[id]) == Ok(r.outcome.todo) && r.store == Saved(s, r.outcome.todo)
  {
    if f.tx.Some? then Effect(Refused(f.tx.value), s, [])
    else
      match Lookup(s, f.find, f.notFound, id)
      case Err(err) => Effect(RepoFailed(err), s, [FindCall(id)])
      case Ok(t) =>
        match StepOf(e, t)
        case Err(g) => Effect(GuardFailed(g), s, [FindCall(id)])
        case Ok(t') =>
          if f.save.Some? then Effect(RepoFailed(f.save.value), s, [FindCall(id), SaveCall(t')])
          else Effect(Done(t'), Saved(s, t'), [FindCall(id), SaveCall(t')])
  }

  /** Load, then delete what was loaded, inside the transaction service. */
  function Delete<E, X>(s: Table, f: Faults<E, X>, id: Uuid): (r: Effect<E, X>)
    ensures !r.outcome.Done? ==> r.store == s
    ensures r.outcome.Done? ==> id in s && r.outcome.todo == s[id] && r.store == Removed(s, s[id].id)
  {
    if f.tx.Some? then Effect(Refused(f.tx.value), s, [])
    else
      match Lookup(s, f.find, f.notFound, id)
      case Err(err) => Effect(RepoFailed(err), s, [FindCall(id)])
      case Ok(t) =>
        if f.delete.Some? then Effect(RepoFailed(f.delete.value), s, [FindCall(id), DeleteCall(t)])
        else Effect(Done(t), Removed(s, t.id), [FindCall(id), DeleteCall(t)])
  }

  /** Build a new todo and save it; no transaction service is involved. */
  function Create<E, X>(s: Table, saveErr: Option<E>, id: Uuid, title: string, description: Option<string>): (r: Effect<E, X>)
    ensures r.calls == [SaveCall(Created(id, title, description))]
    ensures r.outcome.Done? <==> saveErr.None?
    ensures !r.outcome.Done? ==> r.store == s && r.outcome == RepoFailed(saveErr.value)
    ensures r.outcome.Done? ==> r.outcome.todo == Created(id, title, description) && r.store == Saved(s, r.outcome.todo)
  {
    var t := Created(id, title, description);
    if saveErr.Some? then Effect(RepoFailed(saveErr.value), s, [SaveCall(t)])
    else Effect(Done(t), Saved(s, t), [SaveCall(t)])
  }

  /** Every error is passed on unchanged, and the calls stop at the first
    * failure: a refused transaction makes no call at all, a failed lookup
    * or a guard leaves out the save, and a save is made only of the changed
    * todo. */
  lemma ModifyPropagatesErrors<E, X>(s: Table, f: Faults<E, X>, id: Uuid, e: Edit)
    ensures var r := Modify(s, f, id, e);
      && (f.tx.Some? ==> r.outcome == Refused(f.tx.value) && r.calls == [])
      && (f.tx.None? && f.find.Some? ==> r.outcome == RepoFailed(f.find.value) && r.calls == [FindCall(id)])
      && (f.tx.None? && f.find.None? && id !in s ==> r.outcome == RepoFailed(f.notFound) && r.calls == [FindCall(id)])
      && (f.tx.None? && f.find.None? && id in s && StepOf(e, s[id]).Err? ==>
            r.outcome == GuardFailed(StepOf(e, s[id]).error) && r.calls == [FindCall(id)])
      && (f.tx.None? && f.find.None? && id in s && StepOf(e, s[id]).Ok? ==>
            r.calls == [FindCall(id), SaveCall(StepOf(e, s[id]).value)]
            && r.outcome == if f.save.Some? then RepoFailed(f.save.value) else Done(StepOf(e, s[id]).value))
  {
  }

  /** Completing an already completed todo, or uncompleting an incomplete one,
    * is refused by the guard and saves nothing. */
  lemma GuardViolationSavesNothing<E, X>(s: Table, f: Faults<E, X>, id: Uuid)
    requires f.tx.None? && f.find.None? && id in s
    ensures s[id].completed ==> Modify(s, f, id, CompleteEdit) == Effect(GuardFailed(TodoAlreadyCompleted), s, [FindCall(id)])
    ensures !s[id].completed ==> Modify(s, f, id, UncompleteEdit) == Effect(GuardFailed(TodoNotCompleted), s, [FindCall(id)])
  {
  }

  /** After a successful modification the new todo is what a later lookup of
    * the same id finds, with the same id and only the edited fields changed. */
  lemma ModifiedTodoIsReadBack<E, X>(s: Table, f: Faults<E, X>, id: Uuid, e: Edit, notFound: E)
    requires Keyed(s)
    ensures var r := Modify(s, f, id, e);
      r.outcome.Done? ==> Keyed(r.store) && r.outcome.todo.id == id && Lookup(r.store, None, notFound, id) == Ok(r.outcome.todo)
  {
    var r := Modify(s, f, id, e);
    if r.outcome.Done? {
      SavedKeepsKeyed(s, r.outcome.todo);
    }
  }

  /** The update use case sets exactly the requested title and description
    * and keeps the id and the completion flag. */
  lemma UpdateKeepsIdentityAndStatus<E, X>(s: Table, f: Faults<E, X>, id: Uuid, title: string, description: Option<string>)
    ensures var r := Modify(s, f, id, UpdateEdit(title, description));
      r.outcome.Done? ==>
        && r.outcome.todo.title == title && r.outcome.todo.description == description
        && r.outcome.todo.id == s[id].id && r.outcome.todo.completed == s[id].completed
  {
  }

  /** Completing a todo and then uncompleting it, both without errors, leaves
    * the store exactly as it was. */
  lemma CompleteThenUncompleteRestoresStore<E, X>(s: Table, f: Faults<E, X>, id: Uuid)
    requires Keyed(s) && id in s && !s[id].completed
    requires f.tx.None? && f.find.None? && f.save.None?
    ensures Modify(s, f, id, CompleteEdit).outcome.Done?
    ensures Modify(Modify(s, f, id, CompleteEdit).store, f, id, UncompleteEdit).store == s
  {
    var t1 := s[id].(completed := true);
    assert Modify(s, f, id, CompleteEdit).store == s[id := t1];
    assert s[id := t1][id := s[id]] == s;
  }

  /** A successful delete removes exactly the requested id, so a later lookup
    * gives not-found; any failure leaves the store alone. */
  lemma DeleteRemovesRequestedId<E, X>(s: Table, f: Faults<E, X>, id: Uuid, notFound: E)
    requires Keyed(s)
    ensures var r := Delete(s, f, id);
      r.outcome.Done? ==> r.store == Removed(s, id) && Lookup(r.store, None, notFound, id) == Err(notFound)
  {
  }

  /** Deleting twice: the second delete finds nothing and reports not-found. */
  lemma SecondDeleteIsNotFound<E, X>(s: Table, f: Faults<E, X>, id: Uuid)
    requires Keyed(s) && f.tx.None? && f.find.None?
    ensures Delete(s, f, id).outcome.Done? ==> Delete(Delete(s, f, id).store, f, id) == Effect(RepoFailed(f.notFound), Delete(s, f, id).store, [FindCall(id)])
  {
  }

  /** A created todo is incomplete and is found again under its id. */
  lemma CreatedTodoIsReadBack<E, X>(s: Table, saveErr: Option<E>, id: Uuid, title: string, description: Option<string>, notFound: E)
    ensures var r: Effect<E, X> := Create(s, saveErr, id, title, description);
      r.outcome.Done? ==> !r.outcome.todo.completed && Lookup(r.store, None, notFound, id) == Ok(r.outcome.todo)
  {
  }
}
