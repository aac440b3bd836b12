/** The abstract store every repository stands for: todos keyed by id.
  *
  * `Saved` is an upsert and `Removed` a delete that tolerates an absent id;
  * a transaction's pending writes are a sequence of `Write`s that `Apply`
  * replays, in order, over the committed table. */
module Storage {
  import opened Uuids
  import opened Domain

  type Table = map<Uuid, TodoState>

  /** Every row is stored under its own id. */
  predicate Keyed(s: Table)
  {
    forall id | id in s :: s[id].id == id
  }

  /** Upsert by id: the row for `t.id` becomes `t`, every other row is kept. */
  function Saved(s: Table, t: TodoState): (r: Table)
    ensures t.id in r && r[t.id] == t
    ensures r.Keys == s.Keys + {t.id}
    ensures forall id | id in s && id != t.id :: r[id] == s[id]
  {
    s[t.id := t]
  }

  /** Delete by id: the row for `id` is gone whether or not it was there,
    * every other row is kept. */
  function Removed(s: Table, id: Uuid): (r: Table)
    ensures id !in r && r.Keys == s.Keys - {id}
    ensures forall k | k in r :: r[k] == s[k]
  {
    s - {id}
  }

  lemma SavedKeepsKeyed(s: Table, t: TodoState)
    requires Keyed(s)
    ensures Keyed(Saved(s, t))
  {
  }

  lemma RemovedKeepsKeyed(s: Table, id: Uuid)
    requires Keyed(s)
    ensures Keyed(Removed(s, id))
  {
  }

  /** Saving twice under one id keeps only the last todo: an upsert, never a duplicate. */
  lemma LastSaveWins(s: Table, t: TodoState, u: TodoState)
    requires t.id == u.id
    ensures Saved(Saved(s, t), u) == Saved(s, u)
  {
  }

  /** Deleting is idempotent, and deleting an absent id changes nothing. */
  lemma RemoveIsIdempotent(s: Table, id: Uuid)
    ensures Removed(Removed(s, id), id) == Removed(s, id)
    ensures id !in s ==> Removed(s, id) == s
  {
  }

  /** A delete undoes any save under the same id. */
  lemma RemoveCancelsSave(s: Table, t: TodoState)
    ensures Removed(Saved(s, t), t.id) == Removed(s, t.id)
  {
  }

  /** One pending write of a transaction. */
  datatype Write = Put(todo: TodoState) | Drop(id: Uuid)

  function Perform(s: Table, w: Write): Table
  {
    match w
    case Put(t) => Saved(s, t)
    case Drop(id) => Removed(s, id)
  }

  /** The ids a sequence of writes touches. */
  function Touched(ws: seq<Write>): set<Uuid>
  {
    set i | 0 <= i < |ws| :: if ws[i].Put? then ws[i].todo.id else ws[i].id
  }

  /** Replays the writes in order. Rows whose id no write touches are exactly
    * as before, and a keyed table stays keyed. */
  function Apply(s: Table, ws: seq<Write>): (r: Table)
    ensures Keyed(s) ==> Keyed(r)
    ensures forall id | id !in Touched(ws) :: (id in r <==> id in s) && (id in s ==> r[id] == s[id])
    decreases |ws|
  {
    if ws == [] then s
    else
      var r := Apply(Perform(s, ws[0]), ws[1..]);
      assert forall id | id !in Touched(ws) :: id !in Touched(ws[1..]) by {
        forall id | id in Touched(ws[1..]) ensures id in Touched(ws) {
          var i :| 0 <= i < |ws[1..]| && id == (if ws[1..][i].Put? then ws[1..][i].todo.id else ws[1..][i].id);
          assert ws[i + 1] == ws[1..][i];
        }
      }
      r
  }

  /** Replaying a concatenation is replaying the parts one after the other:
    * a transaction's writes can be applied in any grouping. */
  lemma {:induction false} ApplyAppend(s: Table, a: seq<Write>, b: seq<Write>)
    ensures Apply(s, a + b) == Apply(Apply(s, a), b)
    decreases |a|
  {
    if a == [] {
      assert a + b == b;
    } else {
      assert (a + b)[0] == a[0];
      assert (a + b)[1..] == a[1..] + b;
      ApplyAppend(Perform(s, a[0]), a[1..], b);
    }
  }
}
