/** The Rust transaction runner (`TransactionServiceImpl::run`) and the
  * task-scoped connection provider it runs in (`ContextProviderImpl`).
  *
  * The provider binds one pooled connection to the current task for the
  * length of the outermost `run_scoped`; `connection` hands out the bound
  * one. The runner issues `BEGIN`, runs the operation, then `COMMIT` on
  * success or `ROLLBACK` on failure, all on that connection.
  *
  * The database behind the connection is a committed table plus the writes
  * of the open transaction. As MySQL does, a `BEGIN` while a transaction is
  * open first commits it; `COMMIT` and `ROLLBACK` close the transaction. */
module RustTx {
  import opened Wrappers
  import opened Storage
  import opened RustErrors

  /** The database as the task's connection sees it. */
  datatype DbState = DbState(committed: Table, pending: seq<Write>, open: bool)

  /** What a query on the connection reads: the committed rows with the open
    * transaction's writes replayed over them. */
  function Visible(st: DbState): Table
  {
    Apply(st.committed, st.pending)
  }

  /** `BEGIN`: commits any open transaction, then opens an empty one. */
  function Begun(st: DbState): (r: DbState)
    ensures r.open && r.pending == []
    ensures r.committed == Visible(st)
  {
    DbState(Apply(st.committed, st.pending), [], true)
  }

  /** `COMMIT`: the pending writes become committed; no transaction is open. */
  function Committed(st: DbState): (r: DbState)
    ensures !r.open && r.pending == []
    ensures r.committed == Visible(st)
  {
    DbState(Apply(st.committed, st.pending), [], false)
  }

  /** `ROLLBACK`: the pending writes are dropped; no transaction is open. */
  function RolledBack(st: DbState): (r: DbState)
    ensures !r.open && r.pending == [] && r.committed == st.committed
  {
    DbState(st.committed, [], false)
  }

  /** The operation's writes are added to the open transaction. */
  function Staged(st: DbState, ws: seq<Write>): (r: DbState)
    ensures r.committed == st.committed && r.open == st.open
    ensures Visible(r) == Apply(Visible(st), ws)
  {
    ApplyAppend(st.committed, st.pending, ws);
    st.(pending := st.pending + ws)
  }

  /** Neither BEGIN nor COMMIT changes what a query on the connection reads. */
  lemma BeginAndCommitKeepVisible(st: DbState)
    ensures Visible(Begun(st)) == Visible(st)
    ensures Visible(Committed(st)) == Visible(st)
  {
  }

  /** The server and the transaction on the task's connection. Each
    * statement fails when the database is set up to fail it (the text is the
    * database error's message), and then changes nothing. */
  class Database {
    var committed: Table
    var pending: seq<Write>
    var open: bool
    var beginErr: Option<string>
    var commitErr: Option<string>
    var rollbackErr: Option<string>

    function State(): DbState
      reads this
    {
      DbState(committed, pending, open)
    }

    constructor (committed: Table, beginErr: Option<string>, commitErr: Option<string>, rollbackErr: Option<string>)
      ensures State() == DbState(committed, [], false)
      ensures this.beginErr == beginErr && this.commitErr == commitErr && this.rollbackErr == rollbackErr
    {
      this.committed := committed;
      pending := [];
      open := false;
      this.beginErr := beginErr;
      this.commitErr := commitErr;
      this.rollbackErr := rollbackErr;
    }

    method Begin() returns (err: Option<string>)
      modifies this
      ensures err == beginErr == old(beginErr) && commitErr == old(commitErr) && rollbackErr == old(rollbackErr)
      ensures State() == if err.Some? then old(State()) else Begun(old(State()))
    {
      err := beginErr;
      if err.None? {
        committed := Apply(committed, pending);
        pending := [];
        open := true;
      }
    }

    /** The writes the operation makes through the connection. */
    method Stage(ws: seq<Write>)
      modifies this
      ensures beginErr == old(beginErr) && commitErr == old(commitErr) && rollbackErr == old(rollbackErr)
      ensures State() == Staged(old(State()), ws)
    {
      pending := pending + ws;
    }

    method Commit() returns (err: Option<string>)
      modifies this
      ensures err == commitErr == old(commitErr) && beginErr == old(beginErr) && rollbackErr == old(rollbackErr)
      ensures State() == if err.Some? then old(State()) else Committed(old(State()))
    {
      err := commitErr;
      if err.None? {
        committed := Apply(committed, pending);
        pending := [];
        open := false;
      }
    }

    method Rollback() returns (err: Option<string>)
      modifies this
      ensures err == rollbackErr == old(rollbackErr) && beginErr == old(beginErr) && commitErr == old(commitErr)
      ensures State() == if err.Some? then old(State()) else RolledBack(old(State()))
    {
      err := rollbackErr;
      if err.None? {
        pending := [];
        open := false;
      }
    }
  }

  /** The task-local connection slot. A connection is named by the number the
    * pool handed it out under; `acquireErr` is the pool's failure, if set up. */
  class ContextProvider {
    var slot: Option<nat>
    var acquireErr: Option<string>
    var acquired: nat

    constructor (acquireErr: Option<string>)
      ensures slot == None && this.acquireErr == acquireErr && acquired == 0
    {
      slot := None;
      this.acquireErr := acquireErr;
      acquired := 0;
    }

    /** `connection`: the bound connection, or `NoActiveConnection` outside
      * every scope. (Locking the connection's mutex is not modelled.) */
    method Connection() returns (r: Result<nat, ContextError>)
      ensures r.Ok? <==> slot.Some?
      ensures r.Ok? ==> r.value == slot.value
      ensures r.Err? ==> r.error == NoActiveConnection
    {
      if slot.None? {
        return Err(NoActiveConnection);
      }
      r := Ok(slot.value);
    }

    /** Entry of `run_scoped`: inside a scope nothing happens (the result is
      * false); otherwise one connection is acquired and bound, or the
      * acquire error is returned and nothing is bound. */
    method Enter() returns (r: Result<bool, ContextError>)
      modifies this
      ensures acquireErr == old(acquireErr)
      ensures old(slot).Some? ==> r == Ok(false) && slot == old(slot) && acquired == old(acquired)
      ensures old(slot).None? && acquireErr.Some? ==> r == Err(Acquire(acquireErr.value)) && slot == None && acquired == old(acquired)
      ensures old(slot).None? && acquireErr.None? ==> r == Ok(true) && slot == Some(old(acquired)) && acquired == old(acquired) + 1
    {
      if slot.Some? {
        return Ok(false);
      }
      if acquireErr.Some? {
        return Err(Acquire(acquireErr.value));
      }
      slot := Some(acquired);
      acquired := acquired + 1;
      r := Ok(true);
    }

    /** Exit of `run_scoped`: the scope that bound the slot unbinds it. */
    method Exit(ownsScope: bool)
      modifies this
      ensures acquireErr == old(acquireErr) && acquired == old(acquired)
      ensures slot == if ownsScope then None else old(slot)
    {
      if ownsScope {
        slot := None;
      }
    }
  }

  /** `run_scoped` for a closure that only reads the connection: the closure
    * runs on the bound connection (binding a new one first when outside any
    * scope), and its result is returned unchanged. */
  method RunScoped<T>(provider: ContextProvider, run: nat -> Result<T, ContextError>) returns (r: Result<T, ContextError>)
    modifies provider
    ensures provider.slot == old(provider.slot) && provider.acquireErr == old(provider.acquireErr)
    ensures old(provider.slot).Some? ==> r == run(old(provider.slot).value) && provider.acquired == old(provider.acquired)
    ensures old(provider.slot).None? && provider.acquireErr.Some? ==>
      r == Err(Acquire(provider.acquireErr.value)) && provider.acquired == old(provider.acquired)
    ensures old(provider.slot).None? && provider.acquireErr.None? ==>
      r == run(old(provider.acquired)) && provider.acquired == old(provider.acquired) + 1
  {
    var entered := provider.Enter();
    if entered.Err? {
      return Err(entered.error);
    }
    var conn := provider.Connection();
    if conn.Err? {
      assert false;
    }
    r := run(conn.value);
    provider.Exit(entered.value);
  }

  /** The operation a use case hands to `run`: given the rows it can read,
    * the writes it makes and what it returns. */
  datatype Body<T> = Body(writes: seq<Write>, result: Result<T, UsecaseError>)

  /** A database error reaches the use case as `Unexpected`. */
  function DataAccessFailure(message: string): (e: UsecaseError)
    ensures e == FromRepositoryError(DataAccess(SqlError(message)))
  {
    Unexpected(SqlError(message))
  }

  /** The database errors a run can meet. */
  datatype DbFaults = DbFaults(acquire: Option<string>, begin: Option<string>, commit: Option<string>, rollback: Option<string>)

  /** What `run` returns and leaves in the database. `bound` says whether the
    * task already holds a connection. */
  function RunEffect<T>(bound: bool, f: DbFaults, st: DbState, op: Table -> Body<T>): (Result<T, UsecaseError>, DbState)
  {
    if !bound && f.acquire.Some? then (Err(DataAccessFailure(f.acquire.value)), st)
    else if f.begin.Some? then (Err(DataAccessFailure(f.begin.value)), st)
    else
      var st1 := Begun(st);
      var b := op(Visible(st1));
      var st2 := Staged(st1, b.writes);
      if b.result.Ok? then
        if f.commit.Some? then (Err(DataAccessFailure(f.commit.value)), st2)
        else (Ok(b.result.value), Committed(st2))
      else
        if f.rollback.Some? then (Err(DataAccessFailure(f.rollback.value)), st2)
        else (Err(b.result.error), RolledBack(st2))
  }

  /** `TransactionServiceImpl::run`. The operation runs at most once, after a
    * successful BEGIN, and sees what the connection reads. */
  method Run<T>(provider: ContextProvider, db: Database, op: Table -> Body<T>) returns (r: Result<T, UsecaseError>)
    modifies provider, db
    ensures (r, db.State()) == RunEffect(old(provider.slot).Some?, old(DbFaults(provider.acquireErr, db.beginErr, db.commitErr, db.rollbackErr)), old(db.State()), op)
    ensures provider.slot == old(provider.slot)
    ensures db.beginErr == old(db.beginErr) && db.commitErr == old(db.commitErr) && db.rollbackErr == old(db.rollbackErr)
  {
    var entered := provider.Enter();
    if entered.Err? {
      return Err(FromRepositoryError(FromContextError(entered.error)));
    }
    var conn := provider.Connection();
    if conn.Err? {
      assert false;
    }
    var beginErr := db.Begin();
    if beginErr.Some? {
      provider.Exit(entered.value);
      return Err(FromRepositoryError(DataAccess(SqlError(beginErr.value))));
    }
    var body := op(Visible(db.State()));
    db.Stage(body.writes);
    conn := provider.Connection();
    if conn.Err? {
      assert false;
    }
    if body.result.Ok? {
      var commitErr := db.Commit();
      if commitErr.Some? {
        r := Err(FromRepositoryError(DataAccess(SqlError(commitErr.value))));
      } else {
        r := Ok(body.result.value);
      }
    } else {
      var rollbackErr := db.Rollback();
      if rollbackErr.Some? {
        r := Err(FromRepositoryError(DataAccess(SqlError(rollbackErr.value))));
      } else {
        r := body.result;
      }
    }
    provider.Exit(entered.value);
  }

  /** The outcome table of `run`: a failed acquire or BEGIN never runs the
    * operation and changes nothing; a success survives only a successful
    * COMMIT; the operation's own error is returned unchanged unless the
    * ROLLBACK fails, and a failed COMMIT or ROLLBACK is reported as
    * `Unexpected` with the database's message. */
  lemma RunOutcomes<T>(bound: bool, f: DbFaults, st: DbState, op: Table -> Body<T>)
    ensures var (r, st') := RunEffect(bound, f, st, op);
      && (!bound && f.acquire.Some? ==> r == Err(Unexpected(SqlError(f.acquire.value))) && st' == st)
      && ((bound || f.acquire.None?) && f.begin.Some? ==> r == Err(Unexpected(SqlError(f.begin.value))) && st' == st)
      && ((bound || f.acquire.None?) && f.begin.None? ==>
            var b := op(Visible(st));
            && (b.result.Ok? && f.commit.None? ==> r == b.result)
            && (b.result.Ok? && f.commit.Some? ==> r == Err(Unexpected(SqlError(f.commit.value))))
            && (b.result.Err? && f.rollback.None? ==> r == b.result)
            && (b.result.Err? && f.rollback.Some? ==> r == Err(Unexpected(SqlError(f.rollback.value)))))
  {
    BeginAndCommitKeepVisible(st);
  }

  /** A run whose statements all succeed leaves no transaction open and
    * nothing pending, and the rows read afterwards are those the operation
    * saw with its writes replayed if it succeeded, and exactly those it saw
    * if it failed: the operation's writes land all together or not at all. */
  lemma {:induction false} RunIsAllOrNothing<T>(bound: bool, f: DbFaults, st: DbState, op: Table -> Body<T>)
    requires bound || f.acquire.None?
    requires f.begin.None? && f.commit.None? && f.rollback.None?
    ensures var (r, st') := RunEffect(bound, f, st, op);
      var b := op(Visible(st));
      && !st'.open && st'.pending == []
      && (r.Ok? ==> st'.committed == Apply(Visible(st), b.writes))
      && (r.Err? ==> st'.committed == Visible(st))
  {
    var st1 := Begun(st);
    BeginAndCommitKeepVisible(st);
    var b := op(Visible(st1));
    var st2 := Staged(st1, b.writes);
    assert Visible(st2) == Apply(Visible(st1), b.writes);
  }

  /** A run inside a transaction that is already open does not nest: its
    * BEGIN commits the outer transaction's writes before the operation runs,
    * so a failing operation cannot undo them, and they are durable even when
    * the operation's ROLLBACK succeeds. */
  lemma {:induction false} InnerRunCommitsOuterWrites<T>(bound: bool, f: DbFaults, st: DbState, op: Table -> Body<T>)
    requires bound || f.acquire.None?
    requires f.begin.None? && f.rollback.None?
    requires st.open
    requires op(Visible(st)).result.Err?
    ensures RunEffect(bound, f, st, op).1.committed == Apply(st.committed, st.pending)
  {
    BeginAndCommitKeepVisible(st);
  }
}
