/** The Go entity (`model.Todo`): its error values, the pointer-receiver
  * guards, `CommandUpdateTodo` and the `SerializedTodo` round trip. The
  * fields and transitions are the shared `Domain` ones. */
module GoTodo {
  import opened Wrappers
  import opened Uuids
  import opened Domain

  /** A Go `error` value: the two sentinel domain errors, or any other error
    * identified by its text (`errors.New`, `fmt.Errorf`). */
  datatype GoError = ErrTodoAlreadyCompleted | ErrTodoNotCompleted | Errorf(text: string)

  /** The zero-valued `model.Todo{}` the use cases return with an error. */
  const Zero: TodoState := TodoState(Nil, "", None, false)

  function DomainErr(e: DomainError): GoError
  {
    match e
    case TodoAlreadyCompleted => ErrTodoAlreadyCompleted
    case TodoNotCompleted => ErrTodoNotCompleted
  }

  /** `(*Todo).MarkAsCompleted`: `ErrTodoAlreadyCompleted` and no change on a
    * completed todo, otherwise the flag is set and nil returned. */
  method MarkAsCompleted(t: Todo) returns (err: Option<GoError>)
    modifies t
    ensures old(t.completed) ==> err == Some(ErrTodoAlreadyCompleted) && t.State() == old(t.State())
    ensures !old(t.completed) ==> err == None && Complete(old(t.State())) == Ok(t.State())
  {
    var e := t.MarkAsCompleted();
    err := if e.Some? then Some(DomainErr(e.value)) else None;
  }

  /** `(*Todo).MarkAsNotCompleted`: `ErrTodoNotCompleted` and no change on an
    * incomplete todo, otherwise the flag is cleared and nil returned. */
  method MarkAsNotCompleted(t: Todo) returns (err: Option<GoError>)
    modifies t
    ensures !old(t.completed) ==> err == Some(ErrTodoNotCompleted) && t.State() == old(t.State())
    ensures old(t.completed) ==> err == None && Uncomplete(old(t.State())) == Ok(t.State())
  {
    var e := t.MarkAsUncompleted();
    err := if e.Some? then Some(DomainErr(e.value)) else None;
  }

  /** The update command: a title and a possibly nil description. */
  datatype CommandUpdateTodo = CommandUpdateTodo(title: string, description: Option<string>)
  {
    /** `Update(t)`: overwrites title and description (nil included), nothing else. */
    method Update(t: Todo)
      modifies t
      ensures t.State() == Updated(old(t.State()), title, description)
    {
      t.Update(title, description);
    }
  }

  /** `SerializedTodo`: the exported fields, with the id kept as a UUID value. */
  datatype SerializedTodo = SerializedTodo(id: Uuid, title: string, description: Option<string>, completed: bool)

  function Serialize(t: TodoState): (s: SerializedTodo)
    ensures s.id == t.id && s.title == t.title && s.description == t.description && s.completed == t.completed
  {
    SerializedTodo(t.id, t.title, t.description, t.completed)
  }

  /** `DeserializeTodo`: copies the id verbatim; no id is generated. */
  function DeserializeTodo(s: SerializedTodo): (t: TodoState)
    ensures t.id == s.id && t.title == s.title && t.description == s.description && t.completed == s.completed
  {
    TodoState(s.id, s.title, s.description, s.completed)
  }

  /** `Serialize(DeserializeTodo(s)) == s` for every `SerializedTodo`, and the
    * other way round for every todo. */
  lemma SerializeRoundTrips(s: SerializedTodo, t: TodoState)
    ensures Serialize(DeserializeTodo(s)) == s
    ensures DeserializeTodo(Serialize(t)) == t
  {
  }
}
