/** The Node repository (`TodoRepositoryImpl` over Prisma): the row mapping,
  * with each timestamp set by its own clock read, the upsert that uses the
  * same data for create and update, and the not-found rule of `findById`.
  * The two clock reads are parameters. */
module NodeRepository {
  import opened Wrappers
  import opened JsTodo

  /** A row of `todos`; the timestamps are instants, as numbers. */
  datatype Row = Row(id: string, title: string, description: Option<string>, completed: bool, createdAt: int, updatedAt: int)

  type Rows = map<string, Row>

  datatype NotFoundError = RepositoryNotFoundError(message: string)

  /** `toTodoDatamodel`, whose two `new Date()` calls read the clock as
    * `created` and then as `updated`; the two instants may differ. */
  function ToRow(p: Primitives, created: int, updated: int): (row: Row)
    ensures row.id == p.id && row.title == p.title && row.completed == p.isCompleted
    ensures row.description == OrNull(p.description)
    ensures row.createdAt == created && row.updatedAt == updated
  {
    Row(p.id, p.title, OrNull(p.description), p.isCompleted, created, updated)
  }

  /** `fromTodoDatamodel`: the timestamps are dropped. */
  function FromRow(row: Row): (p: Primitives)
    ensures p.id == row.id && p.title == row.title && p.isCompleted == row.completed
    ensures p.description != Undefined && OrNull(p.description) == row.description
  {
    Primitives(row.id, row.title, FromColumn(row.description), row.completed)
  }

  /** Storing and loading gives the record back, a missing description as `null`. */
  lemma FromRowToRow(p: Primitives, created: int, updated: int)
    ensures FromRow(ToRow(p, created, updated)) == Normalized(p)
  {
  }

  /** Loading a row and mapping it again gives the same row apart from the
    * timestamps, which are the new clock reads. */
  lemma ToRowFromRow(row: Row, created: int, updated: int)
    ensures ToRow(FromRow(row), created, updated) == row.(createdAt := created, updatedAt := updated)
  {
  }

  /** `save`: `upsert` with the same data for `create` and `update`, so an
    * existing row's `created_at` is overwritten as well. */
  function Save(rows: Rows, p: Primitives, created: int, updated: int): (r: Rows)
    ensures p.id in r && r[p.id] == ToRow(p, created, updated)
    ensures forall id | id in rows && id != p.id :: id in r && r[id] == rows[id]
    ensures r.Keys == rows.Keys + {p.id}
  {
    rows[p.id := ToRow(p, created, updated)]
  }

  /** Saving an existing todo again replaces its creation time too. */
  lemma SaveOverwritesCreatedAt(rows: Rows, p: Primitives, created: int, updated: int)
    requires p.id in rows
    ensures Save(rows, p, created, updated)[p.id].createdAt == created
  {
  }

  /** `findById`: `findUnique` on the id; no row throws RepositoryNotFoundError.
    * The Bun repository applies the same not-found rule with the same message. */
  function FindById(rows: Rows, id: string): (r: Result<Primitives, NotFoundError>)
    ensures r.Err? <==> id !in rows
    ensures r.Err? ==> r.error == RepositoryNotFoundError("Todo id(" + id + ") not found")
    ensures r.Ok? ==> r.value == FromRow(rows[id])
  {
    if id !in rows then Err(RepositoryNotFoundError("Todo id(" + id + ") not found"))
    else Ok(FromRow(rows[id]))
  }

  /** A saved todo is found again under its id, as saved. */
  lemma FindAfterSave(rows: Rows, p: Primitives, created: int, updated: int)
    ensures FindById(Save(rows, p, created, updated), p.id) == Ok(Normalized(p))
  {
    FromRowToRow(p, created, updated);
  }
}
