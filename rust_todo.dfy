/** The Rust entity's `From<TodoDto>` conversion. `Todo::new`,
  * `reconstruct`, `update`, the two guards and `to_dto` are the shared
  * `Domain` members. */
module RustTodo {
  import opened Wrappers
  import opened Uuids
  import opened Domain

  /** `From<TodoDto>`: `Uuid::parse_str(..).expect(..)` panics on text that
    * is not a UUID, so a parseable id is the caller's obligation. The id is
    * the DTO's own; the other fields are moved over. */
  function FromDto(dto: TodoDto): (t: TodoState)
    requires Parse(dto.id).Some?
    ensures t.id == Parse(dto.id).value && ToString(t.id) == Lower(dto.id)
    ensures t.title == dto.title && t.description == dto.description && t.completed == dto.completed
  {
    ToStringParse(dto.id);
    TodoState(Parse(dto.id).value, dto.title, dto.description, dto.completed)
  }

  /** `Todo::from(t.to_dto())` keeps all four fields, and its precondition
    * always holds for a DTO made by `to_dto`. */
  lemma {:induction false} FromToDto(t: TodoState)
    ensures Parse(ToDto(t).id).Some?
    ensures FromDto(ToDto(t)) == t
  {
    ParseToString(t.id);
  }
}
