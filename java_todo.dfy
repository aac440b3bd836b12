/** The Java entity (`domain.model.Todo`). Java references may be null, so
  * the title and id it receives are `Option`s here and a null one raises a
  * `NullPointerException` from `Objects.requireNonNull`. */
module JavaTodo {
  import opened Wrappers
  import opened Uuids
  import Domain

  /** The exceptions the Java use cases can see. */
  datatype JavaException =
    | TodoAlreadyCompleted   // DomainException.TodoAlreadyCompleted
    | TodoNotCompleted       // DomainException.TodoNotCompleted
    | TodoNotFound           // the repository's not-found exception
    | NullPointer            // from Objects.requireNonNull
    | Thrown(name: string)   // any other exception, by name

  function DomainException(e: Domain.DomainError): JavaException
  {
    match e
    case TodoAlreadyCompleted => TodoAlreadyCompleted
    case TodoNotCompleted => TodoNotCompleted
  }

  /** The private all-fields constructor: id and title must not be null. */
  function Construct(id: Option<Uuid>, title: Option<string>, description: Option<string>, completed: bool): (r: Result<Domain.TodoState, JavaException>)
    ensures r.Err? <==> id.None? || title.None?
    ensures r.Err? ==> r.error == NullPointer
    ensures r.Ok? ==> r.value == Domain.TodoState(id.value, title.value, description, completed)
  {
    if id.None? || title.None? then Err(NullPointer)
    else Ok(Domain.TodoState(id.value, title.value, description, completed))
  }

  /** The public constructor: a generated (fresh) id, not completed. */
  function New(id: Uuid, title: Option<string>, description: Option<string>): (r: Result<Domain.TodoState, JavaException>)
    ensures r.Err? <==> title.None?
    ensures r.Ok? ==> r.value == Domain.Created(id, title.value, description)
  {
    Construct(Some(id), title, description, false)
  }

  /** `getDescription`: `Optional.ofNullable(description)`, empty exactly when
    * the stored description is null. */
  function GetDescription(t: Domain.TodoState): (r: Option<string>)
    ensures r.None? <==> t.description.None?
    ensures r.Some? ==> r.value == t.description.value
  {
    t.description
  }

  /** `markAsCompleted`: throws TodoAlreadyCompleted and changes nothing on a
    * completed todo, otherwise sets the flag. */
  method MarkAsCompleted(t: Domain.Todo) returns (thrown: Option<JavaException>)
    modifies t
    ensures old(t.completed) ==> thrown == Some(TodoAlreadyCompleted) && t.State() == old(t.State())
    ensures !old(t.completed) ==> thrown == None && Domain.Complete(old(t.State())) == Ok(t.State())
  {
    var e := t.MarkAsCompleted();
    thrown := if e.Some? then Some(DomainException(e.value)) else None;
  }

  /** `markAsUndone`: throws TodoNotCompleted and changes nothing on an
    * incomplete todo, otherwise clears the flag. */
  method MarkAsUndone(t: Domain.Todo) returns (thrown: Option<JavaException>)
    modifies t
    ensures !old(t.completed) ==> thrown == Some(TodoNotCompleted) && t.State() == old(t.State())
    ensures old(t.completed) ==> thrown == None && Domain.Uncomplete(old(t.State())) == Ok(t.State())
  {
    var e := t.MarkAsUncompleted();
    thrown := if e.Some? then Some(DomainException(e.value)) else None;
  }

  /** `update`: a null title throws before any field is written; otherwise
    * title and (nullable) description are replaced, id and flag kept. */
  method Update(t: Domain.Todo, title: Option<string>, description: Option<string>) returns (thrown: Option<JavaException>)
    modifies t
    ensures thrown.Some? <==> title.None?
    ensures thrown.Some? ==> thrown.value == NullPointer && t.State() == old(t.State())
    ensures thrown.None? ==> t.State() == Domain.Updated(old(t.State()), title.value, description)
  {
    if title.None? {
      return Some(NullPointer);
    }
    t.Update(title.value, description);
    thrown := None;
  }

  /** `Todo.DTO`: the fields as nullable references. */
  datatype Dto = Dto(id: Option<Uuid>, title: Option<string>, description: Option<string>, completed: bool)

  /** `new DTO(todo)`: never null id or title; the description via
    * `getDescription().orElse(null)`. */
  function DtoOf(t: Domain.TodoState): (d: Dto)
    ensures d.id == Some(t.id) && d.title == Some(t.title)
    ensures d.description == GetDescription(t) && d.completed == t.completed
  {
    Dto(Some(t.id), Some(t.title), GetDescription(t), t.completed)
  }

  /** `toDomain`: the private constructor on the DTO's fields. */
  function ToDomain(d: Dto): (r: Result<Domain.TodoState, JavaException>)
    ensures r.Err? <==> d.id.None? || d.title.None?
    ensures r.Ok? ==> DtoOf(r.value) == d
  {
    Construct(d.id, d.title, d.description, d.completed)
  }

  /** `new DTO(t).toDomain()` preserves id, title, description and completion. */
  lemma ToDomainDtoOf(t: Domain.TodoState)
    ensures ToDomain(DtoOf(t)) == Ok(t)
  {
  }
}
