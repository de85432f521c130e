/** The paging theorems apply to every database that the writes reach: the records submitted carry
    their times in UTC, and every table keeps each row under its own id. */
module QueryReach {
  import opened Timestamps
  import opened Contract
  import opened Tables
  import opened Metadata
  import opened Queries

  /** What the contract models guarantee of a submitted record: its time is in UTC. */
  predicate InUtc(op: Op) {
    match op
    case AppendEvidence(e) => IsUtc(e.createdAt)
    case RegisterArtifact(a, _, _) => IsUtc(a.registeredAt)
    case RecordPromotion(p, _) => IsUtc(p.atUtc)
    case RecordHealth(r, _) => IsUtc(r.observedAt)
    case _ => true
  }

  ghost predicate AllStamped(db: Db) {
    && Stamped(db.evidence, ViewEvidence) && Stamped(db.artifacts, ViewArtifact)
    && Stamped(db.promotions, ViewPromotion) && Stamped(db.health, ViewHealth)
  }

  predicate WritesUtc(w: Write) {
    match w
    case InsertEvidence(row) => IsUtc(row.record.createdAt)
    case InsertArtifact(row) => IsUtc(row.record.registeredAt)
    case InsertPromotion(row) => IsUtc(row.record.atUtc)
    case InsertHealth(row) => IsUtc(row.record.observedAt)
    case _ => true
  }

  lemma DecisionWritesUtc(h: Hasher, db: Db, op: Op)
    requires InUtc(op)
    ensures WritesUtc(Decide(h, db, op).write)
  {
  }

  lemma PerformKeepsStamped(db: Db, w: Write)
    requires AllStamped(db) && WritesUtc(w)
    ensures AllStamped(Perform(db, w))
  {
    match w
    case InsertEvidence(_) =>
    case InsertArtifact(_) =>
    case UpdateLinks(_, _, _) =>
    case _ =>
  }

  lemma {:induction false} EveryTraceIsStamped(h: Hasher, db: Db, ops: seq<Op>)
    requires AllStamped(db) && forall i :: 0 <= i < |ops| ==> InUtc(ops[i])
    ensures AllStamped(Exec(h, db, ops))
    decreases |ops|
  {
    if ops != [] {
      DecisionWritesUtc(h, db, ops[0]);
      PerformKeepsStamped(db, Decide(h, db, ops[0]).write);
      EveryTraceIsStamped(h, Apply(h, db, ops[0]).0, ops[1..]);
    }
  }

  ghost predicate PagesAnswer<R>(t: Table<R>, view: R -> View, f: Filters, limit: nat, n: nat)
    requires Stamped(t, view)
  {
    n * limit >= |t| ==> AnswersQuery(t, view, f, QueryPages(t, view, f, limit, n))
  }

  lemma PagingAnswers<R>(t: Table<R>, view: R -> View, f: Filters, limit: nat, n: nat)
    requires Stamped(t, view)
    ensures PagesAnswer(t, view, f, limit, n)
  {
    if n * limit >= |t| { PagingIsComplete(t, view, f, limit, n); }
  }

  /** Whatever was written, in whatever order: paging through any of the four tables until its rows
      are covered lists exactly the rows that match, each once, newest first. */
  lemma ReachedTablesPageCompletely(h: Hasher, ops: seq<Op>, f: Filters, limit: nat, n: nat)
    requires forall i :: 0 <= i < |ops| ==> InUtc(ops[i])
    ensures var db := Exec(h, EMPTY_DB, ops);
      && AllStamped(db)
      && PagesAnswer(db.evidence, ViewEvidence, f, limit, n) && PagesAnswer(db.artifacts, ViewArtifact, f, limit, n)
      && PagesAnswer(db.promotions, ViewPromotion, f, limit, n) && PagesAnswer(db.health, ViewHealth, f, limit, n)
  {
    var db := Exec(h, EMPTY_DB, ops);
    EveryTraceIsStamped(h, EMPTY_DB, ops);
    PagingAnswers(db.evidence, ViewEvidence, f, limit, n);
    PagingAnswers(db.artifacts, ViewArtifact, f, limit, n);
    PagingAnswers(db.promotions, ViewPromotion, f, limit, n);
    PagingAnswers(db.health, ViewHealth, f, limit, n);
  }
}
