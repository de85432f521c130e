/** One table with an idempotency key: lookup by `(producer, key)`, then by id, then insert.
    All six keyed write paths of the metadata store are instances of `Submit`. */
module Tables {
  import opened Wrappers
  import opened Contract

  /** A key is only unique within the producer that chose it. */
  datatype Scope = Scope(producer: string, key: string)

  /** The scope a row was inserted under, and the fingerprint a resubmission is compared with. */
  datatype Binding = Binding(scope: Scope, fp: Fingerprint)

  /** `fp` is the `content_fingerprint` column; `binding` is absent when the key column is NULL. */
  datatype Row<+R> = Row(record: R, fp: Fingerprint, binding: Option<Binding>)

  type Table<R> = map<string, Row<R>>

  ghost predicate Binds<R(!new)>(t: Table<R>, id: string, scope: Scope) {
    id in t && t[id].binding.Some? && t[id].binding.value.scope == scope
  }

  /** The partial unique index on `(producer, idempotency_key)`. */
  ghost predicate OneRowPerScope<R(!new)>(t: Table<R>) {
    forall i, j, s :: Binds(t, i, s) && Binds(t, j, s) ==> i == j
  }

  /** `SELECT ... WHERE producer = ? AND idempotency_key = ?`, then `fetchone()`. */
  ghost function FindByScope<R(!new)>(t: Table<R>, scope: Scope): (r: Option<string>)
    ensures r.Some? ==> Binds(t, r.value, scope)
    ensures r.None? ==> forall id :: !Binds(t, id, scope)
  {
    if exists id :: Binds(t, id, scope) then
      var id :| Binds(t, id, scope);
      Some(id)
    else None
  }

  /** A row offered under an id.  `sameById` is the table's own verdict on the row already
      stored under that id, when there is one: the policy differs from table to table. */
  datatype Submission<+R> = Submission(id: string, row: Row<R>, sameById: bool)

  datatype Verdict<+R> = Insert | Stored(record: R) | Refuse(error: Error)

  /** The reads of a keyed write: by key, then by id. */
  ghost function Judge<R(!new)>(t: Table<R>, sub: Submission<R>): Verdict<R> {
    var byKey := if sub.row.binding.Some? then FindByScope(t, sub.row.binding.value.scope) else None;
    if byKey.Some? then JudgeByKey(t[byKey.value], sub) else JudgeById(t, sub)
  }

  function JudgeByKey<R(!new)>(row: Row<R>, sub: Submission<R>): Verdict<R>
    requires row.binding.Some? && sub.row.binding.Some?
  {
    if row.binding.value.fp != sub.row.binding.value.fp then Refuse(IdempotencyConflict) else Stored(row.record)
  }

  function JudgeById<R(!new)>(t: Table<R>, sub: Submission<R>): Verdict<R> {
    if sub.id !in t then Insert
    else if sub.sameById then Stored(t[sub.id].record)
    else Refuse(Immutability)
  }

  /** With the index in force, the lookup finds the one row there is. */
  lemma FindIsTheRow<R(!new)>(t: Table<R>, id: string, scope: Scope)
    requires OneRowPerScope(t) && Binds(t, id, scope)
    ensures FindByScope(t, scope) == Some(id)
  {
  }

  ghost predicate Unbound<R(!new)>(t: Table<R>, binding: Option<Binding>) {
    binding.Some? ==> forall id :: !Binds(t, id, binding.value.scope)
  }

  /** The INSERT never violates the index: uniqueness is kept by the lookup that precedes it. */
  lemma InsertKeepsIndex<R(!new)>(t: Table<R>, id: string, row: Row<R>)
    requires OneRowPerScope(t) && id !in t && Unbound(t, row.binding)
    ensures OneRowPerScope(t[id := row])
  {
    var t' := t[id := row];
    forall i, j, s | Binds(t', i, s) && Binds(t', j, s) ensures i == j {
      if i != id { assert Binds(t, i, s); }
      if j != id { assert Binds(t, j, s); }
    }
  }
}
