/** The Python entity's conversion from its DTO (`Todo.from_dto`). The
  * entity itself and `to_dto` are `Domain.Todo` and `Domain.ToDto`. */
module PyTodo {
  import opened Wrappers
  import opened Uuids
  import opened Domain
  import opened PyUuid

  /** `from_dto`: bypasses the constructor, so the id is the DTO's own,
    * parsed by `parse_uuid7` (which raises `ValueError` on bad text); the
    * other fields are copied. */
  function FromDto(dto: TodoDto): (r: Result<TodoState, ValueError>)
    ensures r.Ok? <==> Parse(dto.id).Some?
    ensures r.Err? ==> r.error == BadlyFormed(dto.id)
    ensures r.Ok? ==> r.value.id == Parse(dto.id).value && ToString(r.value.id) == Lower(dto.id)
    ensures r.Ok? ==> r.value.title == dto.title && r.value.description == dto.description
    ensures r.Ok? ==> r.value.completed == dto.completed
  {
    match ParseUuid7(dto.id)
    case Err(e) => Err(e)
    case Ok(id) =>
      ToStringParse(dto.id);
      Ok(TodoState(id, dto.title, dto.description, dto.completed))
  }

  /** `from_dto(to_dto(t))` has t's id, title, description and completion. */
  lemma {:induction false} FromDtoToDto(t: TodoState)
    ensures FromDto(ToDto(t)) == Ok(t)
  {
    ParseToString(t.id);
  }

  /** `to_dto(from_dto(d))` gives back d, up to the case of the id's digits. */
  lemma {:induction false} ToDtoFromDto(dto: TodoDto)
    requires FromDto(dto).Ok?
    ensures ToDto(FromDto(dto).value) == dto.(id := Lower(dto.id))
  {
  }
}
