/** The Python table row (`TodoDataModel`) and its mapping to and from the
  * entity, which goes through the entity's DTO both ways. */
module PyDataModel {
  import opened Wrappers
  import opened Uuids
  import opened Domain
  import opened PyUuid
  import opened PyTodo

  /** A row of `todos`: the id as its text, and the other three columns. */
  datatype TodoDataModel = TodoDataModel(id: string, title: string, description: Option<string>, completed: bool)

  /** `to_domain`: the row as a DTO, then `Todo.from_dto`, so the stored id
    * text is parsed, never replaced by a new id; a text that is not a UUID
    * raises ValueError. */
  function ToDomain(m: TodoDataModel): (r: Result<TodoState, ValueError>)
    ensures r.Ok? <==> Parse(m.id).Some?
    ensures r.Ok? ==> r.value.id == Parse(m.id).value && r.value.title == m.title
    ensures r.Ok? ==> r.value.description == m.description && r.value.completed == m.completed
  {
    FromDto(TodoDto(m.id, m.title, m.description, m.completed))
  }

  /** `from_domain`: the entity's DTO, column by column. */
  function FromDomain(t: TodoState): (m: TodoDataModel)
    ensures m.id == ToString(t.id) && m.title == t.title
    ensures m.description == t.description && m.completed == t.completed
  {
    var dto := ToDto(t);
    TodoDataModel(dto.id, dto.title, dto.description, dto.completed)
  }

  /** Storing a todo and loading it back gives the same todo. */
  lemma {:induction false} ToDomainFromDomain(t: TodoState)
    ensures ToDomain(FromDomain(t)) == Ok(t)
  {
    FromDtoToDto(t);
  }

  /** Loading a row and storing it back gives the same row, with its id text
    * in canonical (lower-case) form. */
  lemma {:induction false} FromDomainToDomain(m: TodoDataModel)
    requires ToDomain(m).Ok?
    ensures FromDomain(ToDomain(m).value) == m.(id := Lower(m.id))
  {
    ToDtoFromDto(TodoDto(m.id, m.title, m.description, m.completed));
  }
}
