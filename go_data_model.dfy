/** The Go table row (`data_model.Todo`) and its mapping to and from the
  * entity, which goes through `SerializedTodo` both ways. */
module GoDataModel {
  import opened Wrappers
  import opened Uuids
  import opened Domain
  import opened GoTodo

  /** A row of `todos`: the id as its text, a nil-able description. */
  datatype Row = Row(id: string, title: string, description: Option<string>, completed: bool)

  /** `ToModel`: `uuid.MustParse` on the id, then `DeserializeTodo`. The id
    * must parse (`MustParse` panics otherwise). */
  function ToModel(row: Row): (t: TodoState)
    requires Parse(row.id).Some?
    ensures t.id == Parse(row.id).value && ToString(t.id) == Lower(row.id)
    ensures t.title == row.title && t.description == row.description && t.completed == row.completed
  {
    ToStringParse(row.id);
    DeserializeTodo(SerializedTodo(Parse(row.id).value, row.title, row.description, row.completed))
  }

  /** `FromModel`: `Serialize`, with the id rendered by `String()`. */
  function FromModel(t: TodoState): (row: Row)
    ensures row.id == ToString(t.id) && Parse(row.id).Some?
    ensures row.title == t.title && row.description == t.description && row.completed == t.completed
  {
    ParseToString(t.id);
    var s := Serialize(t);
    Row(ToString(s.id), s.title, s.description, s.completed)
  }

  /** Storing a todo and loading it back gives the same todo. */
  lemma {:induction false} ToModelFromModel(t: TodoState)
    ensures ToModel(FromModel(t)) == t
  {
    ParseToString(t.id);
  }

  /** Loading a row and storing it back gives the same row, with its id text
    * in canonical (lower-case) form. */
  lemma {:induction false} FromModelToModel(row: Row)
    requires Parse(row.id).Some?
    ensures FromModel(ToModel(row)) == row.(id := Lower(row.id))
  {
    ToStringParse(row.id);
  }
}
