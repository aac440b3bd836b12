/** The Go transaction runner (`TransactionService.Run`): begin a
  * transaction, run `fn` with a context carrying it, then roll back on an
  * error or a panic and commit otherwise. */
module GoTx {
  import opened Wrappers
  import opened Storage
  import opened GoTodo

  /** A `context.Context`: the caller's values, and the transaction stored by
    * `WithTx` (named by the number `Begin` gave it). */
  datatype Ctx = Ctx(values: map<string, string>, tx: Option<nat>)

  /** `infrastructure.WithTx`: the same context, now carrying `tx`. */
  function WithTx(ctx: Ctx, tx: nat): (r: Ctx)
    ensures r.values == ctx.values && r.tx == Some(tx)
  {
    ctx.(tx := Some(tx))
  }

  /** How `fn` ends: it returns an error (or nil), or it panics with a value
    * (shown as its `%v` text). */
  datatype Ending = Returned(err: Option<GoError>) | Panicked(value: string)

  /** What `fn` does: the writes it makes through the transaction and how it ends. */
  datatype Body = Body(writes: seq<Write>, ending: Ending)

  /** The database: the committed rows, the number of transactions begun, and
    * the error a commit fails with, if it is set up to fail. */
  class GoDb {
    var committed: Table
    var began: nat
    var commitErr: Option<GoError>

    constructor (committed: Table, commitErr: Option<GoError>)
      ensures this.committed == committed && began == 0 && this.commitErr == commitErr
    {
      this.committed := committed;
      began := 0;
      this.commitErr := commitErr;
    }

    /** `db.Begin()`: a new transaction, named by its number. A failing
      * `Begin` is not modelled (`Run` never checks its error). */
    method Begin() returns (tx: nat)
      modifies this
      ensures tx == old(began) && began == old(began) + 1
      ensures committed == old(committed) && commitErr == old(commitErr)
    {
      tx := began;
      began := began + 1;
    }

    /** `tx.Commit().Error`: the transaction's writes become committed, or
      * the commit fails and nothing is written. */
    method Commit(writes: seq<Write>) returns (err: Option<GoError>)
      modifies this
      ensures err == commitErr == old(commitErr) && began == old(began)
      ensures committed == if err.Some? then old(committed) else Apply(old(committed), writes)
    {
      err := commitErr;
      if err.None? {
        committed := Apply(committed, writes);
      }
    }
  }

  /** The error `Run` returns and the committed rows it leaves, for a body
    * that behaves as `b`. */
  function RunEffect(committed: Table, commitErr: Option<GoError>, b: Body): (Option<GoError>, Table)
  {
    match b.ending
    case Panicked(v) => (Some(Errorf("recovered panic, err: " + v)), committed)
    case Returned(Some(e)) => (Some(e), committed)
    case Returned(None) => if commitErr.Some? then (commitErr, committed) else (None, Apply(committed, b.writes))
  }

  /** `Run`: `fn` is called once, with `ctx` extended by the new transaction,
    * and reads the committed rows; a rollback discards its writes, which are
    * only ever written by the commit. */
  method Run(db: GoDb, ctx: Ctx, fn: (Ctx, Table) -> Body) returns (err: Option<GoError>)
    modifies db
    ensures (err, db.committed) == RunEffect(old(db.committed), old(db.commitErr), fn(WithTx(ctx, old(db.began)), old(db.committed)))
    ensures db.began == old(db.began) + 1 && db.commitErr == old(db.commitErr)
  {
    var tx := db.Begin();
    var b := fn(WithTx(ctx, tx), db.committed);
    var pending := b.writes;
    if b.ending.Panicked? {
      // the deferred recover: tx.Rollback() drops `pending`
      return Some(Errorf("recovered panic, err: " + b.ending.value));
    }
    if b.ending.err.Some? {
      // tx.Rollback() drops `pending`
      return b.ending.err;
    }
    err := db.Commit(pending);
  }

  /** The outcomes of `Run`: an error from `fn` comes back unchanged, a panic
    * becomes a non-nil "recovered panic" error, and a clean return yields
    * the commit's error; whenever the result is an error, none of `fn`'s
    * writes are committed. */
  lemma RunOutcomes(committed: Table, commitErr: Option<GoError>, b: Body)
    ensures var (err, after) := RunEffect(committed, commitErr, b);
      && (b.ending.Returned? && b.ending.err.Some? ==> err == b.ending.err)
      && (b.ending.Panicked? ==> err.Some? && err.value.Errorf?)
      && (b.ending == Returned(None) ==> err == commitErr)
      && (err.Some? ==> after == committed)
      && (err.None? ==> after == Apply(committed, b.writes))
  {
  }

  /** Two runs whose bodies succeed commit their writes as one sequence. */
  lemma {:induction false} RunsComposeWrites(committed: Table, b1: Body, b2: Body)
    requires b1.ending == Returned(None) && b2.ending == Returned(None)
    ensures RunEffect(RunEffect(committed, None, b1).1, None, b2).1 == Apply(committed, b1.writes + b2.writes)
  {
    ApplyAppend(committed, b1.writes, b2.writes);
  }
}
