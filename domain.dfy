/** The Todo entity shared by the Python, Rust, Go and Java implementations.
  *
  * A todo is Incomplete or Completed (the `completed` flag). Marking a
  * completed todo completed, or an incomplete one uncompleted, is a guard
  * error that changes nothing; `update` overwrites title and description and
  * nothing else; the id never changes. The pure functions below are the
  * state machine; the class `Todo` is the mutable entity whose methods the
  * use cases call in place. */
module Domain {
  import opened Wrappers
  import opened Uuids

  /** All fields of a todo, as a value (a snapshot of the entity, a stored row). */
  datatype TodoState = TodoState(id: Uuid, title: string, description: Option<string>, completed: bool)

  /** The two guard errors (TodoAlreadyCompletedError / TodoNotCompletedError). */
  datatype DomainError = TodoAlreadyCompleted | TodoNotCompleted

  /** A new todo: the given title and description, not completed. */
  function Created(id: Uuid, title: string, description: Option<string>): (t: TodoState)
    ensures t.id == id && t.title == title && t.description == description
    ensures !t.completed
  {
    TodoState(id, title, description, false)
  }

  /** Overwrites title and description; id and completion are kept. */
  function Updated(t: TodoState, title: string, description: Option<string>): (r: TodoState)
    ensures r.title == title && r.description == description
    ensures r.id == t.id && r.completed == t.completed
  {
    t.(title := title, description := description)
  }

  /** Same todo apart from the completion flag. */
  predicate SameContent(a: TodoState, b: TodoState)
  {
    a.id == b.id && a.title == b.title && a.description == b.description
  }

  /** Completing: fails exactly when already completed, otherwise only the flag is set. */
  function Complete(t: TodoState): (r: Result<TodoState, DomainError>)
    ensures r.Err? <==> t.completed
    ensures r.Err? ==> r.error == TodoAlreadyCompleted
    ensures r.Ok? ==> r.value.completed && SameContent(r.value, t)
  {
    if t.completed then Err(TodoAlreadyCompleted) else Ok(t.(completed := true))
  }

  /** Uncompleting: fails exactly when not completed, otherwise only the flag is cleared. */
  function Uncomplete(t: TodoState): (r: Result<TodoState, DomainError>)
    ensures r.Err? <==> !t.completed
    ensures r.Err? ==> r.error == TodoNotCompleted
    ensures r.Ok? ==> !r.value.completed && SameContent(r.value, t)
  {
    if !t.completed then Err(TodoNotCompleted) else Ok(t.(completed := false))
  }

  /** Completing then uncompleting an incomplete todo gives it back unchanged. */
  lemma UncompleteUndoesComplete(t: TodoState)
    requires !t.completed
    ensures Complete(t).Ok? && Uncomplete(Complete(t).value) == Ok(t)
  {
  }

  /** Uncompleting then completing a completed todo gives it back unchanged. */
  lemma CompleteUndoesUncomplete(t: TodoState)
    requires t.completed
    ensures Uncomplete(t).Ok? && Complete(Uncomplete(t).value) == Ok(t)
  {
  }

  /** Each guard rejects the state its own transition produces: a transition
    * can never be applied twice in a row. */
  lemma TransitionsAreNotRepeatable(t: TodoState)
    ensures Complete(t).Ok? ==> Complete(Complete(t).value) == Err(TodoAlreadyCompleted)
    ensures Uncomplete(t).Ok? ==> Uncomplete(Uncomplete(t).value) == Err(TodoNotCompleted)
  {
  }

  /** Exactly one of the two transitions applies to any todo. */
  lemma ExactlyOneTransitionApplies(t: TodoState)
    ensures Complete(t).Ok? != Uncomplete(t).Ok?
  {
  }

  /** Editing and the status transitions commute: an update never affects
    * whether a transition is allowed, nor what it does to the other fields. */
  lemma UpdateCommutesWithTransitions(t: TodoState, title: string, description: Option<string>)
    ensures Complete(Updated(t, title, description)).Ok? == Complete(t).Ok?
    ensures Complete(t).Ok? ==> Complete(Updated(t, title, description)).value == Updated(Complete(t).value, title, description)
    ensures Uncomplete(t).Ok? ==> Uncomplete(Updated(t, title, description)).value == Updated(Uncomplete(t).value, title, description)
  {
  }

  /** The mutable entity. The id is a constant: nothing can change it. */
  class Todo {
    const id: Uuid
    var title: string
    var description: Option<string>
    var completed: bool

    function State(): TodoState
      reads this
    {
      TodoState(id, title, description, completed)
    }

    /** A new todo with the given (fresh) id; generating the id is not modelled. */
    constructor (id: Uuid, title: string, description: Option<string>)
      ensures State() == Created(id, title, description)
    {
      this.id := id;
      this.title := title;
      this.description := description;
      this.completed := false;
    }

    /** Rebuilds an entity from stored fields, keeping all four as given. */
    constructor Reconstruct(t: TodoState)
      ensures State() == t
    {
      this.id := t.id;
      this.title := t.title;
      this.description := t.description;
      this.completed := t.completed;
    }

    method Update(title: string, description: Option<string>)
      modifies this
      ensures State() == Updated(old(State()), title, description)
    {
      this.title := title;
      this.description := description;
    }

    method MarkAsCompleted() returns (err: Option<DomainError>)
      modifies this
      ensures Complete(old(State())) == if err.Some? then Err(err.value) else Ok(State())
      ensures err.Some? ==> State() == old(State())
    {
      if completed {
        return Some(TodoAlreadyCompleted);
      }
      completed := true;
      err := None;
    }

    method MarkAsUncompleted() returns (err: Option<DomainError>)
      modifies this
      ensures Uncomplete(old(State())) == if err.Some? then Err(err.value) else Ok(State())
      ensures err.Some? ==> State() == old(State())
    {
      if !completed {
        return Some(TodoNotCompleted);
      }
      completed := false;
      err := None;
    }
  }

  /** The record the Python (`TodoDTO`) and Rust (`TodoDto`) entities convert
    * to: the id as its canonical text. */
  datatype TodoDto = TodoDto(id: string, title: string, description: Option<string>, completed: bool)

  /** `to_dto`: every field copied, the id rendered as text. */
  function ToDto(t: TodoState): (d: TodoDto)
    ensures d.id == ToString(t.id) && d.title == t.title
    ensures d.description == t.description && d.completed == t.completed
  {
    TodoDto(ToString(t.id), t.title, t.description, t.completed)
  }
}
