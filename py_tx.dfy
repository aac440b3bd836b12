/** The Python unit of work: a SQLAlchemy session whose open transaction is
  * a stack of levels (the transaction `begin` opens, then one per savepoint
  * `begin_nested` opens), the context provider that binds one session to
  * the current task (`ContextProviderImpl`), and the transaction runner
  * (`TransactionServiceImpl.Run`).
  *
  * Each level holds the writes made while it was the innermost one. Leaving
  * a level normally releases it into the level below (the outermost one is
  * committed to the database); leaving it by an exception rolls back its
  * writes alone. */
module PyTx {
  import opened Wrappers
  import opened Storage

  /** A raised exception, by class name and message. */
  datatype Exception = Exception(name: string, message: string)

  /** What the code run inside a transaction does: given the rows it reads,
    * the writes it makes and whether it returns or raises. */
  datatype Body<T> = Body(writes: seq<Write>, outcome: Result<T, Exception>)

  type Levels = seq<seq<Write>>

  /** All writes of the open levels, outermost first. */
  function Flatten(ls: Levels): seq<Write>
    decreases |ls|
  {
    if ls == [] then [] else Flatten(ls[..|ls| - 1]) + ls[|ls| - 1]
  }

  /** What a query through the session reads. */
  function Visible(committed: Table, ls: Levels): Table
  {
    Apply(committed, Flatten(ls))
  }

  /** `begin` (on a session with no transaction) or `begin_nested`: a new,
    * empty innermost level. */
  function Pushed(ls: Levels): (r: Levels)
    ensures |r| == |ls| + 1
  {
    ls + [[]]
  }

  /** Writes made through the session go to the innermost level. */
  function StagedIn(ls: Levels, ws: seq<Write>): (r: Levels)
    requires ls != []
    ensures |r| == |ls| && r[..|ls| - 1] == ls[..|ls| - 1]
  {
    ls[..|ls| - 1] + [ls[|ls| - 1] + ws]
  }

  /** Leaving a savepoint normally: its writes join the level below. */
  function Released(ls: Levels): (r: Levels)
    requires |ls| >= 2
    ensures |r| == |ls| - 1
  {
    ls[..|ls| - 2] + [ls[|ls| - 2] + ls[|ls| - 1]]
  }

  /** Leaving a level by an exception: its writes are dropped. */
  function Popped(ls: Levels): (r: Levels)
    requires ls != []
    ensures r == ls[..|ls| - 1]
  {
    ls[..|ls| - 1]
  }

  lemma {:induction false} FlattenSnoc(ls: Levels, l: seq<Write>)
    ensures Flatten(ls + [l]) == Flatten(ls) + l
  {
    assert (ls + [l])[..|ls|] == ls;
  }

  /** An empty level changes nothing a query reads. */
  lemma {:induction false} EmptyLevelIsInvisible(c: Table, ls: Levels)
    ensures Visible(c, Pushed(ls)) == Visible(c, ls)
    ensures Visible(c, Pushed([])) == c
  {
    FlattenSnoc(ls, []);
    assert Flatten(ls) + [] == Flatten(ls);
    FlattenSnoc([], []);
    assert Flatten([]) + [] == [];
  }

  /** A write made through the session is read back by the next query. */
  lemma {:induction false} StagedInIsVisible(c: Table, ls: Levels, ws: seq<Write>)
    requires ls != []
    ensures Visible(c, StagedIn(ls, ws)) == Apply(Visible(c, ls), ws)
  {
    var init := ls[..|ls| - 1];
    assert ls == init + [ls[|ls| - 1]];
    FlattenSnoc(init, ls[|ls| - 1]);
    FlattenSnoc(init, ls[|ls| - 1] + ws);
    assert Flatten(StagedIn(ls, ws)) == Flatten(ls) + ws;
    ApplyAppend(c, Flatten(ls), ws);
  }

  /** Releasing a savepoint changes nothing a query reads. */
  lemma {:induction false} ReleaseKeepsVisible(c: Table, ls: Levels)
    requires |ls| >= 2
    ensures Flatten(Released(ls)) == Flatten(ls)
    ensures Visible(c, Released(ls)) == Visible(c, ls)
  {
    var n := |ls|;
    var init := ls[..n - 2];
    assert ls[..n - 1] == init + [ls[n - 2]];
    assert ls == ls[..n - 1] + [ls[n - 1]];
    FlattenSnoc(ls[..n - 1], ls[n - 1]);
    FlattenSnoc(init, ls[n - 2]);
    FlattenSnoc(init, ls[n - 2] + ls[n - 1]);
  }

  /** A nested scope that succeeds hands its writes to the enclosing level;
    * one that raises leaves the enclosing level exactly as it was, so the
    * work done there before the savepoint survives. */
  lemma {:induction false} SavepointOutcomes(ls: Levels, ws: seq<Write>)
    requires ls != []
    ensures Released(StagedIn(Pushed(ls), ws)) == StagedIn(ls, ws)
    ensures Popped(StagedIn(Pushed(ls), ws)) == ls
  {
    var pushed := Pushed(ls);
    assert pushed[..|ls|] == ls && pushed[|ls|] == [];
    assert [] + ws == ws;
    assert StagedIn(pushed, ws) == ls + [ws];
    assert (ls + [ws])[..|ls| - 1] == ls[..|ls| - 1];
  }

  /** The database: its committed rows. */
  class Store {
    var committed: Table

    constructor (committed: Table)
      ensures this.committed == committed
    {
      this.committed := committed;
    }
  }

  /** A SQLAlchemy `Session` on `store`. */
  class Session {
    const store: Store
    var levels: Levels
    var closed: bool

    constructor (store: Store)
      ensures this.store == store && levels == [] && !closed
    {
      this.store := store;
      levels := [];
      closed := false;
    }

    /** `in_transaction()`. */
    predicate InTransaction()
      reads this
    {
      levels != []
    }

    /** `begin()` on a session with no transaction, or `begin_nested()` on one
      * inside a transaction. */
    method Begin()
      modifies this
      ensures levels == Pushed(old(levels)) && closed == old(closed)
    {
      levels := levels + [[]];
    }

    /** The writes the code inside the transaction makes through the session. */
    method Stage(ws: seq<Write>)
      requires InTransaction()
      modifies this
      ensures levels == StagedIn(old(levels), ws) && closed == old(closed)
    {
      levels := levels[..|levels| - 1] + [levels[|levels| - 1] + ws];
    }

    /** Normal exit of the innermost `with begin...:` block: a savepoint is
      * released, the outermost transaction is committed. */
    method CommitLevel()
      requires InTransaction()
      modifies this, store
      ensures closed == old(closed)
      ensures |old(levels)| == 1 ==> levels == [] && store.committed == Apply(old(store.committed), old(levels)[0])
      ensures |old(levels)| >= 2 ==> levels == Released(old(levels)) && store.committed == old(store.committed)
    {
      if |levels| == 1 {
        store.committed := Apply(store.committed, levels[0]);
        levels := [];
      } else {
        levels := levels[..|levels| - 2] + [levels[|levels| - 2] + levels[|levels| - 1]];
      }
    }

    /** Exit of the innermost `with begin...:` block by an exception: the
      * level's writes are rolled back. */
    method RollbackLevel()
      requires InTransaction()
      modifies this
      ensures levels == Popped(old(levels)) && closed == old(closed)
    {
      levels := levels[..|levels| - 1];
    }

    /** `close()`: whatever is still open is rolled back. */
    method Close()
      modifies this
      ensures levels == [] && closed
    {
      levels := [];
      closed := true;
    }
  }

  /** The error `current()` raises outside every scope. */
  const NoActiveSession := Exception("RuntimeError", "No active session. Use transaction() to acquire one.")

  /** `ContextProviderImpl`: the session bound to the current task, if any. */
  class ContextProviderImpl {
    const store: Store
    var bound: Option<Session>

    /** A bound session works on this provider's database, is open, and is
      * inside the transaction its scope began. */
    predicate Valid()
      reads this, if bound.Some? then {bound.value} else {}
    {
      bound.Some? ==> bound.value.store == store && !bound.value.closed && bound.value.levels != []
    }

    constructor (store: Store)
      ensures this.store == store && bound == None && Valid()
    {
      this.store := store;
      bound := None;
    }

    /** `current()`: the bound session, or RuntimeError. */
    method Current() returns (r: Result<Session, Exception>)
      ensures r.Ok? <==> bound.Some?
      ensures r.Ok? ==> r.value == bound.value
      ensures r.Err? ==> r.error == NoActiveSession
    {
      if bound.None? {
        return Err(NoActiveSession);
      }
      r := Ok(bound.value);
    }

    /** Entry of `transaction()`: inside a scope, a savepoint on the bound
      * session (`outer` is false); otherwise a new session is created, bound
      * and begun. */
    method Enter() returns (s: Session, outer: bool)
      requires Valid()
      modifies this, if bound.Some? then {bound.value} else {}
      ensures Valid() && bound == Some(s)
      ensures outer <==> old(bound).None?
      ensures !outer ==> s == old(bound).value && s.levels == Pushed(old(bound.value.levels))
      ensures outer ==> fresh(s) && s.levels == Pushed([])
    {
      if bound.Some? {
        s := bound.value;
        s.Begin();
        return s, false;
      }
      s := new Session(store);
      bound := Some(s);
      s.Begin();
      outer := true;
    }

    /** Exit of `transaction()`, normal (`raised` false) or by an exception:
      * the level the matching entry opened is committed or rolled back; the
      * outermost exit also unbinds the session and closes it. */
    method Exit(s: Session, outer: bool, raised: bool)
      requires Valid() && bound == Some(s)
      requires outer ==> |s.levels| == 1
      requires !outer ==> |s.levels| >= 2
      modifies this, s, store
      ensures Valid()
      ensures outer ==> bound == None && s.closed && s.levels == []
      ensures outer ==> store.committed == if raised then old(store.committed) else Apply(old(store.committed), old(s.levels)[0])
      ensures !outer ==> bound == old(bound) && store.committed == old(store.committed)
      ensures !outer ==> s.levels == if raised then Popped(old(s.levels)) else Released(old(s.levels))
    {
      if raised {
        s.RollbackLevel();
      } else {
        s.CommitLevel();
      }
      if outer {
        bound := None;
        s.Close();
      }
    }
  }

  /** A `with provider.transaction():` block running `body` on the session it
    * yields. Outermost, the body's writes are committed if it returns and
    * dropped if it raises; nested, they join the enclosing level if it
    * returns and only they are dropped if it raises. The body's result or
    * exception comes back unchanged. */
  method Transaction<T>(p: ContextProviderImpl, body: Table -> Body<T>) returns (r: Result<T, Exception>)
    requires p.Valid()
    modifies p, p.store, if p.bound.Some? then {p.bound.value} else {}
    ensures p.Valid() && p.bound == old(p.bound)
    ensures old(p.bound).None? ==>
      var b := body(old(p.store.committed));
      r == b.outcome && p.store.committed == if b.outcome.Err? then old(p.store.committed) else Apply(old(p.store.committed), b.writes)
    ensures old(p.bound).Some? ==>
      var b := body(Visible(old(p.store.committed), old(p.bound.value.levels)));
      && r == b.outcome && p.store.committed == old(p.store.committed)
      && p.bound.value.levels == if b.outcome.Err? then old(p.bound.value.levels) else StagedIn(old(p.bound.value.levels), b.writes)
  {
    var s, outer := p.Enter();
    var current := p.Current();
    EmptyLevelIsInvisible(s.store.committed, if outer then [] else old(p.bound.value.levels));
    var b := body(Visible(s.store.committed, s.levels));
    current.value.Stage(b.writes);
    if !outer {
      SavepointOutcomes(old(p.bound.value.levels), b.writes);
    } else {
      assert [] + b.writes == b.writes;
    }
    p.Exit(s, outer, b.outcome.Err?);
    r := b.outcome;
  }

  /** The provider interface `TransactionServiceImpl.Run` is written against:
    * `session()` and `use()` behave as the test suite's stub provider defines
    * them, and `mark_success()` / `mark_failure()` are counted. */
  class SessionProvider {
    const store: Store
    var bound: Option<Session>
    var successes: nat
    var failures: nat

    predicate Valid()
      reads this, if bound.Some? then {bound.value} else {}
    {
      bound.Some? ==> bound.value.store == store && !bound.value.closed
    }

    constructor (store: Store)
      ensures this.store == store && bound == None && successes == 0 && failures == 0 && Valid()
    {
      this.store := store;
      bound := None;
      successes, failures := 0, 0;
    }

    /** Entry of `session()`: the bound session, or a new one, bound. */
    method SessionEnter() returns (s: Session, created: bool)
      requires Valid()
      modifies this
      ensures Valid() && bound == Some(s) && successes == old(successes) && failures == old(failures)
      ensures created <==> old(bound).None?
      ensures !created ==> s == old(bound).value
      ensures created ==> fresh(s) && s.levels == [] && !s.closed
    {
      if bound.Some? {
        return bound.value, false;
      }
      s := new Session(store);
      bound := Some(s);
      created := true;
    }

    /** Exit of `session()`: a session it created is unbound and closed. */
    method SessionExit(s: Session, created: bool)
      requires Valid() && bound == Some(s)
      modifies this, s
      ensures Valid() && successes == old(successes) && failures == old(failures)
      ensures created ==> bound == None && s.closed && s.levels == []
      ensures !created ==> bound == old(bound) && s.levels == old(s.levels) && s.closed == old(s.closed)
    {
      if created {
        bound := None;
        s.Close();
      }
    }

    /** Entry of `use(s)`: binds `s`, returning what was bound before. */
    method Use(s: Session) returns (previous: Option<Session>)
      modifies this
      ensures previous == old(bound) && bound == Some(s)
      ensures successes == old(successes) && failures == old(failures)
    {
      previous := bound;
      bound := Some(s);
    }

    /** Exit of `use(s)`: the earlier binding is restored. */
    method Reset(previous: Option<Session>)
      modifies this
      ensures bound == previous && successes == old(successes) && failures == old(failures)
    {
      bound := previous;
    }

    method MarkSuccess()
      modifies this
      ensures successes == old(successes) + 1 && failures == old(failures) && bound == old(bound)
    {
      successes := successes + 1;
    }

    method MarkFailure()
      modifies this
      ensures failures == old(failures) + 1 && successes == old(successes) && bound == old(bound)
    {
      failures := failures + 1;
    }
  }

  /** The inside of `Run`'s `with` blocks, on session `s`: `begin()` or
    * `begin_nested()`, `func`, then commit and `mark_success`, or roll back
    * and `mark_failure`. */
  method RunInSession<T>(p: SessionProvider, s: Session, func: Table -> Body<T>) returns (r: Result<T, Exception>)
    modifies p, s, s.store
    ensures p.bound == old(p.bound) && s.closed == old(s.closed)
    ensures p.successes + p.failures == old(p.successes + p.failures) + 1
    ensures r.Ok? <==> p.successes == old(p.successes) + 1
    ensures old(s.levels) == [] ==>
      var b := func(old(s.store.committed));
      && r == b.outcome && s.levels == []
      && s.store.committed == (if b.outcome.Err? then old(s.store.committed) else Apply(old(s.store.committed), b.writes))
    ensures old(s.levels) != [] ==>
      var b := func(Visible(old(s.store.committed), old(s.levels)));
      && r == b.outcome && s.store.committed == old(s.store.committed)
      && s.levels == if b.outcome.Err? then old(s.levels) else StagedIn(old(s.levels), b.writes)
  {
    var nested := s.InTransaction();
    ghost var before := s.levels;
    s.Begin();
    EmptyLevelIsInvisible(s.store.committed, before);
    var b := func(Visible(s.store.committed, s.levels));
    s.Stage(b.writes);
    if nested {
      SavepointOutcomes(before, b.writes);
    } else {
      assert [] + b.writes == b.writes;
    }
    if b.outcome.Err? {
      s.RollbackLevel();
      p.MarkFailure();
    } else {
      s.CommitLevel();
      p.MarkSuccess();
    }
    r := b.outcome;
  }

  /** `TransactionServiceImpl.Run`: `func` runs once, on the provider's
    * session, inside `begin()` when that session has no transaction and
    * inside `begin_nested()` when it has one. Its result, or the exception it
    * raised, comes back unchanged; exactly one of `mark_success` and
    * `mark_failure` is called. */
  method Run<T>(p: SessionProvider, func: Table -> Body<T>) returns (r: Result<T, Exception>)
    requires p.Valid()
    modifies p, p.store, if p.bound.Some? then {p.bound.value} else {}
    ensures p.Valid() && p.bound == old(p.bound)
    ensures p.successes + p.failures == old(p.successes + p.failures) + 1
    ensures r.Ok? <==> p.successes == old(p.successes) + 1
    ensures old(p.bound).None? || old(p.bound.value.levels) == [] ==>
      var b := func(old(p.store.committed));
      && r == b.outcome
      && p.store.committed == (if b.outcome.Err? then old(p.store.committed) else Apply(old(p.store.committed), b.writes))
    ensures old(p.bound).Some? && old(p.bound.value.levels) != [] ==>
      var b := func(Visible(old(p.store.committed), old(p.bound.value.levels)));
      && r == b.outcome && p.store.committed == old(p.store.committed)
      && p.bound.value.levels == if b.outcome.Err? then old(p.bound.value.levels) else StagedIn(old(p.bound.value.levels), b.writes)
  {
    var s, created := p.SessionEnter();
    var previous := p.Use(s);
    r := RunInSession(p, s, func);
    p.Reset(previous);
    p.SessionExit(s, created);
  }
}
