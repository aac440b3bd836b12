/** The Bun repository (`TodoRepositoryImpl` over MySQL): the row mapping,
  * with `completed` stored as the number 0 or 1, the upsert, and the
  * not-found rule of `findById`. The table is a map from id to row, as the
  * primary key makes it. */
module BunRepository {
  import opened Wrappers
  import opened JsTodo

  /** A row of `todos`. The column is a number; the mapping only ever writes
    * 0 or 1, but a row read back may hold any value. */
  datatype Row = Row(id: string, title: string, description: Option<string>, completed: int)

  type Rows = map<string, Row>

  /** `RepositoryNotFoundError`, by its message. */
  datatype NotFoundError = RepositoryNotFoundError(message: string)

  /** `toTodoDatamodel`. */
  function ToRow(p: Primitives): (row: Row)
    ensures row.id == p.id && row.title == p.title && row.description == OrNull(p.description)
    ensures row.completed == 1 <==> p.isCompleted
    ensures row.completed == 0 <==> !p.isCompleted
  {
    Row(p.id, p.title, OrNull(p.description), if p.isCompleted then 1 else 0)
  }

  /** `fromTodoDatamodel`: completed exactly when the column is 1. */
  function FromRow(row: Row): (p: Primitives)
    ensures p.id == row.id && p.title == row.title && OrNull(p.description) == row.description
    ensures p.description != Undefined
    ensures p.isCompleted <==> row.completed == 1
  {
    Primitives(row.id, row.title, FromColumn(row.description), row.completed == 1)
  }

  /** Storing and loading gives the record back, a missing description as `null`. */
  lemma FromRowToRow(p: Primitives)
    ensures FromRow(ToRow(p)) == Normalized(p)
  {
  }

  /** Loading and storing gives the row back when its flag is 0 or 1; any
    * other stored number comes back as 0. */
  lemma ToRowFromRow(row: Row)
    ensures row.completed == 0 || row.completed == 1 ==> ToRow(FromRow(row)) == row
    ensures row.completed != 0 && row.completed != 1 ==> ToRow(FromRow(row)) == row.(completed := 0)
  {
  }

  /** `save`: `INSERT ... ON DUPLICATE KEY UPDATE`, an upsert of the row. */
  function Save(rows: Rows, p: Primitives): (r: Rows)
    ensures p.id in r && r[p.id] == ToRow(p)
    ensures forall id | id in rows && id != p.id :: id in r && r[id] == rows[id]
    ensures r.Keys == rows.Keys + {p.id}
  {
    rows[p.id := ToRow(p)]
  }

  /** `findById`: the mapped row, or RepositoryNotFoundError when no row has the id.
    * The Node repository applies the same not-found rule with the same message. */
  function FindById(rows: Rows, id: string): (r: Result<Primitives, NotFoundError>)
    ensures r.Err? <==> id !in rows
    ensures r.Err? ==> r.error == RepositoryNotFoundError("Todo id(" + id + ") not found")
    ensures r.Ok? ==> r.value == FromRow(rows[id])
  {
    if id !in rows then Err(RepositoryNotFoundError("Todo id(" + id + ") not found"))
    else Ok(FromRow(rows[id]))
  }

  /** A saved todo is found again under its id, as saved. */
  lemma FindAfterSave(rows: Rows, p: Primitives)
    ensures FindById(Save(rows, p), p.id) == Ok(Normalized(p))
  {
    FromRowToRow(p);
  }
}
