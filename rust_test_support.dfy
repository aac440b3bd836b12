/** The Rust reference repository (`InMemoryTodoRepository`) the use cases
  * are exercised against, and `insert_todo`, which seeds it. The mutex
  * around the map only serialises access; each operation is modelled as one
  * atomic step. */
module RustTestSupport {
  import opened Wrappers
  import opened Uuids
  import opened Domain
  import opened Storage
  import opened Repository
  import opened RustErrors

  class InMemoryTodoRepository {
    var store: Table

    predicate Valid()
      reads this
    {
      Keyed(store)
    }

    /** `Default`: an empty map. */
    constructor ()
      ensures Valid() && store == map[]
    {
      store := map[];
    }

    /** `find_all`: every stored todo once, in the map's order; never fails. */
    method FindAll() returns (r: Result<seq<TodoState>, RepositoryError>)
      requires Valid()
      ensures r.Ok? && EnumeratesExactly(store, r.value)
    {
      var todos := Enumerate(store);
      r := Ok(todos);
    }

    /** `find_by_id`: the stored todo, or `NotFound`; never a data-access error. */
    method FindById(id: Uuid) returns (r: Result<TodoState, RepositoryError>)
      ensures r == Lookup(store, None, RepositoryError.NotFound, id)
      ensures r.Err? <==> id !in store
      ensures r.Err? ==> r.error == RepositoryError.NotFound
    {
      if id in store {
        return Ok(store[id]);
      }
      r := Err(RepositoryError.NotFound);
    }

    /** `save`: an upsert under the todo's id; never fails. */
    method Save(t: TodoState) returns (r: Result<(), RepositoryError>)
      modifies this
      ensures r.Ok? && store == Saved(old(store), t)
      ensures old(Valid()) ==> Valid()
    {
      store := store[t.id := t];
      r := Ok(());
    }

    /** `delete`: removes the todo's id whether present or not; never fails. */
    method Delete(t: TodoState) returns (r: Result<(), RepositoryError>)
      modifies this
      ensures r.Ok? && store == Removed(old(store), t.id)
      ensures old(Valid()) ==> Valid()
    {
      store := store - {t.id};
      r := Ok(());
    }
  }

  /** `insert_todo`: saves a new incomplete todo (with `id` for the generated
    * id) and returns its id; the `unwrap` cannot fail because `save` never
    * does. */
  method InsertTodo(repo: InMemoryTodoRepository, id: Uuid, title: string, description: Option<string>) returns (inserted: Uuid)
    modifies repo
    ensures inserted == id
    ensures repo.store == Saved(old(repo.store), Created(id, title, description))
    ensures old(repo.Valid()) ==> repo.Valid()
  {
    var todo := new Todo(id, title, description);
    var r := repo.Save(todo.State());
    inserted := todo.id;
  }

  /** What the use-case tests rely on: after `insert_todo`, `find_by_id` of
    * the returned id finds an incomplete todo with the given title and
    * description. */
  method InsertThenFind(repo: InMemoryTodoRepository, id: Uuid, title: string, description: Option<string>) returns (found: Result<TodoState, RepositoryError>)
    modifies repo
    ensures found == Ok(Created(id, title, description))
  {
    var inserted := InsertTodo(repo, id, title, description);
    found := repo.FindById(inserted);
  }
}
