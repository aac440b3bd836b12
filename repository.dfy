/** The repository every use case runs against, as the Go test fake
  * (`fakeTodoRepo`) defines it, generalised over the language's error type:
  * a map keyed by id, one injectable error per operation, a record of every
  * call (the call counters are counts over that record) and the last todo
  * saved. With no error injected it is the plain in-memory repository. */
module Repository {
  import opened Wrappers
  import opened Uuids
  import opened Domain
  import opened Storage

  /** One repository call, in the order made. */
  datatype Call = FindAllCall | FindCall(id: Uuid) | SaveCall(todo: TodoState) | DeleteCall(todo: TodoState)

  /** The lookup rule: an injected error wins, then the stored todo, else not-found. */
  function Lookup<E>(s: Table, findErr: Option<E>, notFound: E, id: Uuid): (r: Result<TodoState, E>)
    ensures findErr.Some? ==> r == Err(findErr.value)
    ensures findErr.None? && id in s ==> r == Ok(s[id])
    ensures findErr.None? && id !in s ==> r == Err(notFound)
  {
    if findErr.Some? then Err(findErr.value)
    else if id in s then Ok(s[id])
    else Err(notFound)
  }

  /** In a keyed store, a todo saved without an injected error is found again
    * under its own id, exactly as saved. */
  lemma FindAfterSave<E>(s: Table, t: TodoState, notFound: E)
    ensures Lookup(Saved(s, t), None, notFound, t.id) == Ok(t)
  {
  }

  /** After a delete, looking the id up gives not-found. */
  lemma FindAfterDelete<E>(s: Table, id: Uuid, notFound: E)
    ensures Lookup(Removed(s, id), None, notFound, id) == Err(notFound)
  {
  }

  /** A successful lookup in a keyed store returns the todo with the requested id. */
  lemma LookupReturnsRequestedId<E>(s: Table, findErr: Option<E>, notFound: E, id: Uuid)
    requires Keyed(s)
    ensures Lookup(s, findErr, notFound, id).Ok? ==> Lookup(s, findErr, notFound, id).value.id == id
  {
  }

  class TodoRepo<E> {
    var store: Table
    /** The not-found error (`errNotFound`, `RepositoryError::NotFound`, ...). */
    const notFound: E
    var saveErr: Option<E>
    var findErr: Option<E>
    var findAllErr: Option<E>
    var deleteErr: Option<E>
    var log: seq<Call>
    var lastSaved: Option<TodoState>

    predicate Valid()
      reads this
    {
      Keyed(store)
    }

    /** A repository over `store` with no error injected and no call made. */
    constructor (store: Table, notFound: E)
      requires Keyed(store)
      ensures Valid()
      ensures this.store == store && this.notFound == notFound && log == [] && lastSaved == None
      ensures saveErr == None && findErr == None && findAllErr == None && deleteErr == None
    {
      this.store := store;
      this.notFound := notFound;
      saveErr, findErr, findAllErr, deleteErr := None, None, None, None;
      log := [];
      lastSaved := None;
    }

    /** `Save`: the call is recorded first; an injected error is returned and
      * nothing else changes; otherwise an upsert that records `lastSaved`. */
    method Save(t: TodoState) returns (err: Option<E>)
      modifies this
      ensures log == old(log) + [SaveCall(t)]
      ensures err == saveErr == old(saveErr)
      ensures err.Some? ==> store == old(store) && lastSaved == old(lastSaved)
      ensures err.None? ==> store == Saved(old(store), t) && lastSaved == Some(t)
      ensures findErr == old(findErr) && findAllErr == old(findAllErr) && deleteErr == old(deleteErr)
      ensures old(Valid()) ==> Valid()
    {
      log := log + [SaveCall(t)];
      if saveErr.Some? {
        return saveErr;
      }
      lastSaved := Some(t);
      store := store[t.id := t];
      err := None;
    }

    /** `FindByID`: the call is recorded; the result is the lookup rule. */
    method FindById(id: Uuid) returns (r: Result<TodoState, E>)
      modifies this
      ensures log == old(log) + [FindCall(id)]
      ensures r == Lookup(store, findErr, notFound, id)
      ensures store == old(store) && lastSaved == old(lastSaved)
      ensures saveErr == old(saveErr) && findErr == old(findErr) && findAllErr == old(findAllErr) && deleteErr == old(deleteErr)
    {
      log := log + [FindCall(id)];
      if findErr.Some? {
        return Err(findErr.value);
      }
      if id in store {
        return Ok(store[id]);
      }
      r := Err(notFound);
    }

    /** `FindAll`: the call is recorded; an injected error wins; otherwise one
      * entry per stored todo, in no particular order. */
    method FindAll() returns (r: Result<seq<TodoState>, E>)
      requires Valid()
      modifies this
      ensures log == old(log) + [FindAllCall]
      ensures store == old(store) && lastSaved == old(lastSaved)
      ensures saveErr == old(saveErr) && findErr == old(findErr) && findAllErr == old(findAllErr) && deleteErr == old(deleteErr)
      ensures findAllErr.Some? ==> r == Err(findAllErr.value)
      ensures findAllErr.None? ==> r.Ok? && EnumeratesExactly(store, r.value)
    {
      log := log + [FindAllCall];
      if findAllErr.Some? {
        return Err(findAllErr.value);
      }
      var todos := Enumerate(store);
      r := Ok(todos);
    }

    /** `Delete`: the call is recorded; an injected error changes nothing;
      * otherwise the row of the todo's id is removed (absent or not). */
    method Delete(t: TodoState) returns (err: Option<E>)
      modifies this
      ensures log == old(log) + [DeleteCall(t)]
      ensures err == deleteErr == old(deleteErr)
      ensures err.Some? ==> store == old(store)
      ensures err.None? ==> store == Removed(old(store), t.id)
      ensures lastSaved == old(lastSaved)
      ensures saveErr == old(saveErr) && findErr == old(findErr) && findAllErr == old(findAllErr)
      ensures old(Valid()) ==> Valid()
    {
      log := log + [DeleteCall(t)];
      if deleteErr.Some? {
        return deleteErr;
      }
      store := store - {t.id};
      err := None;
    }
  }

  /** `todos` lists every stored todo exactly once: one entry per key, no id twice. */
  predicate EnumeratesExactly(s: Table, todos: seq<TodoState>)
  {
    && |todos| == |s.Keys|
    && (forall i | 0 <= i < |todos| :: todos[i].id in s && s[todos[i].id] == todos[i])
    && (forall i, j | 0 <= i < j < |todos| :: todos[i].id != todos[j].id)
    && (forall id | id in s :: exists i :: 0 <= i < |todos| && todos[i].id == id)
  }

  /** Collects the values of a keyed map by walking its keys, the way both
    * `for _, t := range f.store` and `store.values().cloned().collect()` do. */
  method Enumerate(s: Table) returns (todos: seq<TodoState>)
    requires Keyed(s)
    ensures EnumeratesExactly(s, todos)
  {
    todos := [];
    var rest := s.Keys;
    while rest != {}
      invariant rest <= s.Keys
      invariant |todos| + |rest| == |s.Keys|
      invariant forall i | 0 <= i < |todos| :: todos[i].id in s && todos[i].id !in rest && s[todos[i].id] == todos[i]
      invariant forall i, j | 0 <= i < j < |todos| :: todos[i].id != todos[j].id
      invariant forall id | id in s && id !in rest :: exists i :: 0 <= i < |todos| && todos[i].id == id
      decreases |rest|
    {
      var id :| id in rest;
      ghost var before := todos;
      todos := todos + [s[id]];
      rest := rest - {id};
      forall k | k in s && k !in rest
        ensures exists i :: 0 <= i < |todos| && todos[i].id == k
      {
        if k == id {
          assert todos[|todos| - 1].id == k;
        } else {
          var i :| 0 <= i < |before| && before[i].id == k;
          assert todos[i] == before[i];
        }
      }
    }
  }

  /** The transaction service as the use cases see it (Go `fakeTx`; with no
    * error set, Rust `NoopTransactionService`): it either refuses with its
    * configured error without running the body, or runs the body once and
    * passes its result through. `runs` counts the bodies it has started. */
  class FakeTx<X> {
    var retErr: Option<X>
    var runs: nat

    constructor (retErr: Option<X>)
      ensures this.retErr == retErr && runs == 0
    {
      this.retErr := retErr;
      runs := 0;
    }

    /** The transaction service that always runs the body. */
    constructor Noop()
      ensures retErr == None && runs == 0
    {
      retErr := None;
      runs := 0;
    }

    /** Start of `Run`: the refusal, or `None` and one more body started. */
    method Enter() returns (refusal: Option<X>)
      modifies this
      ensures refusal == retErr == old(retErr)
      ensures runs == old(runs) + (if refusal.None? then 1 else 0)
    {
      refusal := retErr;
      if refusal.None? {
        runs := runs + 1;
      }
    }
  }
}
