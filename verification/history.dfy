/** Laws of whole runs of the metadata store: what every write keeps, and what no later
    write can take back. */
module History {
  import opened Wrappers
  import opened Timestamps
  import opened Contract
  import opened Tables
  import opened Metadata

  // ---------------------------------------------------------------------------
  // Append-only history
  // ---------------------------------------------------------------------------

  ghost predicate Frozen<K(!new), V(!new)>(m: map<K, V>, m': map<K, V>) {
    forall k :: k in m ==> k in m' && m'[k] == m[k]
  }

  /** A run's only mutable columns are `status` and `ended_at`, and only while it is OPEN. */
  ghost predicate RunKept(a: Row<Run>, b: Row<Run>) {
    && b == a.(record := a.record.(status := b.record.status, endedAt := b.record.endedAt))
    && (a.record.status != OPEN ==> b == a)
  }

  ghost predicate RunsKept(t: Table<Run>, t': Table<Run>) {
    forall id :: id in t ==> id in t' && RunKept(t[id], t'[id])
  }

  predicate LinkKept(a: Option<string>, b: Option<string>) { a.Some? ==> b == a }

  /** An artifact's only mutable columns are its two links, each set at most once. */
  ghost predicate ArtifactKept(a: Row<ArtifactRecord>, b: Row<ArtifactRecord>) {
    && b == a.(record := a.record.(runId := b.record.runId, evidenceId := b.record.evidenceId))
    && LinkKept(a.record.runId, b.record.runId)
    && LinkKept(a.record.evidenceId, b.record.evidenceId)
  }

  ghost predicate ArtifactsKept(t: Table<ArtifactRecord>, t': Table<ArtifactRecord>) {
    forall id :: id in t ==> id in t' && ArtifactKept(t[id], t'[id])
  }

  ghost predicate Extends(db: Db, db': Db) {
    && Frozen(db.strategies, db'.strategies)
    && Frozen(db.versions, db'.versions)
    && Frozen(db.experiments, db'.experiments)
    && RunsKept(db.runs, db'.runs)
    && Frozen(db.evidence, db'.evidence)
    && ArtifactsKept(db.artifacts, db'.artifacts)
    && Frozen(db.promotions, db'.promotions)
    && Frozen(db.health, db'.health)
  }

  // ---------------------------------------------------------------------------
  // The database invariant
  // ---------------------------------------------------------------------------

  ghost predicate UniqueKeys(db: Db) {
    && OneRowPerScope(db.experiments)
    && OneRowPerScope(db.runs)
    && OneRowPerScope(db.evidence)
    && OneRowPerScope(db.artifacts)
    && OneRowPerScope(db.promotions)
    && OneRowPerScope(db.health)
  }

  /** Every enforced reference resolves: run to experiment, evidence to run and experiment,
      artifact to run and evidence, version to strategy. */
  ghost predicate ReferencesResolve(db: Db) {
    VersionsResolve(db) && RunsResolve(db) && EvidenceResolves(db) && ArtifactsResolve(db)
  }

  ghost predicate VersionsResolve(db: Db) { forall k :: k in db.versions ==> k.strategyId in db.strategies }

  ghost predicate RunsResolve(db: Db) {
    forall id :: id in db.runs ==> db.runs[id].record.experimentId in db.experiments
  }

  ghost predicate EvidenceResolves(db: Db) {
    forall id :: id in db.evidence ==>
      RunExists(db, db.evidence[id].record.runId) && ExperimentExists(db, db.evidence[id].record.experimentId)
  }

  ghost predicate ArtifactsResolve(db: Db) {
    forall id :: id in db.artifacts ==>
      RunExists(db, db.artifacts[id].record.runId) && EvidenceExists(db, db.artifacts[id].record.evidenceId)
  }

  /** The stored fingerprint is that of the run as created; only the two columns `close_run`
      rewrites may have moved since. */
  ghost predicate CreatedAs(h: Hasher, row: Row<Run>, status: RunStatus, endedAt: Option<DateTime>) {
    && row.fp == h(RunPayload(row.record.(status := status, endedAt := endedAt)))
    && (status != OPEN ==> row.record.status == status && row.record.endedAt == endedAt)
  }

  ghost predicate FingerprintsStored(h: Hasher, db: Db) { FrozenFingerprints(h, db) && RunFingerprints(h, db.runs) }

  ghost predicate FrozenFingerprints(h: Hasher, db: Db) {
    && (forall id :: id in db.experiments ==> db.experiments[id].fp == h(ExperimentPayload(db.experiments[id].record)))
    && (forall id :: id in db.evidence ==> db.evidence[id].fp == h(EvidencePayload(db.evidence[id].record)))
    && (forall id :: id in db.promotions ==> db.promotions[id].fp == h(PromotionPayload(db.promotions[id].record)))
    && (forall id :: id in db.health ==> db.health[id].fp == h(HealthPayload(db.health[id].record)))
    && (forall id :: id in db.artifacts ==> db.artifacts[id].fp == h(ArtifactPayload(db.artifacts[id].record)))
  }

  ghost predicate RunFingerprints(h: Hasher, runs: Table<Run>) {
    forall id :: id in runs ==> exists status, endedAt :: CreatedAs(h, runs[id], status, endedAt)
  }

  /** A row sits under its own id; a bound row is bound under its own producer, with the
      fingerprint in its own column. */
  ghost predicate BoundTo<R(!new)>(row: Row<R>, ownId: string, ownProducer: string, id: string) {
    ownId == id
    && (row.binding.Some? ==> row.binding.value.fp == row.fp && row.binding.value.scope.producer == ownProducer)
  }

  ghost predicate EvidenceBound(row: Row<Evidence>, id: string) {
    row.record.evidenceId == id
      && row.binding == Some(Binding(Scope(row.record.producer, row.record.idempotencyKey), row.fp))
  }

  /** An artifact's producer is only on the row, and its key compares its own fingerprint. */
  ghost predicate ArtifactBound(h: Hasher, row: Row<ArtifactRecord>, id: string) {
    && row.record.artifactId == id
    && (row.binding.Some? ==>
          row.binding.value.fp == h(SubmissionPayload(row.record)) && !Blank(row.binding.value.scope.producer))
  }

  ghost predicate RowsBound(h: Hasher, db: Db) {
    && ExperimentsBound(db.experiments)
    && RunsBound(db.runs)
    && (forall id :: id in db.evidence ==> EvidenceBound(db.evidence[id], id))
    && (forall id :: id in db.artifacts ==> ArtifactBound(h, db.artifacts[id], id))
    && PromotionsBound(db.promotions)
    && HealthBound(db.health)
  }

  ghost predicate ExperimentsBound(t: Table<Experiment>) {
    forall id :: id in t ==> BoundTo(t[id], t[id].record.experimentId, t[id].record.producer, id)
  }

  ghost predicate RunsBound(t: Table<Run>) {
    forall id :: id in t ==> BoundTo(t[id], t[id].record.runId, t[id].record.producer, id)
  }

  ghost predicate PromotionsBound(t: Table<Promotion>) {
    forall id :: id in t ==> BoundTo(t[id], t[id].record.transitionId, t[id].record.producer, id)
  }

  ghost predicate HealthBound(t: Table<Health>) {
    forall id :: id in t ==> BoundTo(t[id], t[id].record.healthId, t[id].record.producer, id)
  }

  ghost predicate Valid(h: Hasher, db: Db) {
    UniqueKeys(db) && ReferencesResolve(db) && FingerprintsStored(h, db) && RowsBound(h, db)
  }

  /** What the reads of an operation establish about the one statement it then executes. */
  ghost predicate Admissible(h: Hasher, db: Db, w: Write) {
    match w
    case NoWrite => true
    case InsertStrategy(s) => s.strategyId !in db.strategies
    case InsertVersion(v) => VersionKeyOf(v) !in db.versions && v.strategyId in db.strategies
    case InsertExperiment(row) =>
      row.record.experimentId !in db.experiments && Unbound(db.experiments, row.binding)
        && row.fp == h(ExperimentPayload(row.record))
      && BoundTo(row, row.record.experimentId, row.record.producer, row.record.experimentId)
    case InsertRun(row) =>
      row.record.runId !in db.runs && Unbound(db.runs, row.binding) && row.fp == h(RunPayload(row.record))
      && row.record.experimentId in db.experiments
      && BoundTo(row, row.record.runId, row.record.producer, row.record.runId)
    case UpdateRun(id, _, _) => id in db.runs && db.runs[id].record.status == OPEN
    case InsertEvidence(row) =>
      row.record.evidenceId !in db.evidence && Unbound(db.evidence, row.binding)
        && row.fp == h(EvidencePayload(row.record))
      && RunExists(db, row.record.runId) && ExperimentExists(db, row.record.experimentId)
      && EvidenceBound(row, row.record.evidenceId)
    case InsertArtifact(row) =>
      row.record.artifactId !in db.artifacts && Unbound(db.artifacts, row.binding)
        && row.fp == h(ArtifactPayload(row.record))
      && RunExists(db, row.record.runId) && EvidenceExists(db, row.record.evidenceId)
      && ArtifactBound(h, row, row.record.artifactId)
    case UpdateLinks(id, evidenceId, runId) =>
      id in db.artifacts && RunExists(db, runId) && EvidenceExists(db, evidenceId)
      && LinkKept(db.artifacts[id].record.runId, runId) && LinkKept(db.artifacts[id].record.evidenceId, evidenceId)
    case InsertPromotion(row) =>
      row.record.transitionId !in db.promotions && Unbound(db.promotions, row.binding)
        && row.fp == h(PromotionPayload(row.record))
      && BoundTo(row, row.record.transitionId, row.record.producer, row.record.transitionId)
    case InsertHealth(row) =>
      row.record.healthId !in db.health && Unbound(db.health, row.binding) && row.fp == h(HealthPayload(row.record))
      && BoundTo(row, row.record.healthId, row.record.producer, row.record.healthId)
  }

  predicate Keyed(op: Op) {
    op.CreateExperiment? || op.CreateRun? || op.AppendEvidence? || op.RegisterArtifact? || op.RecordPromotion?
      || op.RecordHealth?
  }

  lemma InsertIsFree<R(!new)>(t: Table<R>, sub: Submission<R>)
    requires Judge(t, sub).Insert?
    ensures sub.id !in t && Unbound(t, sub.row.binding)
  {
  }

  lemma EarlierKeyedDecisionIsAdmissible(h: Hasher, db: Db, op: Op)
    requires op.CreateExperiment? || op.CreateRun? || op.AppendEvidence?
    ensures Admissible(h, db, Decide(h, db, op).write)
  {
    if Decide(h, db, op).write != NoWrite {
      match op
      case CreateExperiment(e, key) => InsertIsFree(db.experiments, ExperimentSubmission(h, db, e, key));
      case CreateRun(r, key) => InsertIsFree(db.runs, RunSubmission(h, r, key));
      case AppendEvidence(e) => InsertIsFree(db.evidence, EvidenceSubmission(h, db, e));
    }
  }

  lemma LaterKeyedDecisionIsAdmissible(h: Hasher, db: Db, op: Op)
    requires op.RegisterArtifact? || op.RecordPromotion? || op.RecordHealth?
    ensures Admissible(h, db, Decide(h, db, op).write)
  {
    if Decide(h, db, op).write != NoWrite {
      match op
      case RegisterArtifact(a, key, producer) =>
        InsertIsFree(db.artifacts, ArtifactSubmission(h, db, a, key, ScopeProducer(producer)));
      case RecordPromotion(p, key) => InsertIsFree(db.promotions, PromotionSubmission(h, db, p, key));
      case RecordHealth(r, key) => InsertIsFree(db.health, HealthSubmission(h, db, r, key));
    }
  }

  lemma OtherDecisionIsAdmissible(h: Hasher, db: Db, op: Op)
    requires ReferencesResolve(db) && !Keyed(op)
    ensures Admissible(h, db, Decide(h, db, op).write)
  {
  }

  lemma DecideIsAdmissible(h: Hasher, db: Db, op: Op)
    requires ReferencesResolve(db)
    ensures Admissible(h, db, Decide(h, db, op).write)
  {
    if op.CreateExperiment? || op.CreateRun? || op.AppendEvidence? {
      EarlierKeyedDecisionIsAdmissible(h, db, op);
    } else if Keyed(op) {
      LaterKeyedDecisionIsAdmissible(h, db, op);
    } else {
      OtherDecisionIsAdmissible(h, db, op);
    }
  }

  lemma PerformKeepsKeysUnique(h: Hasher, db: Db, w: Write)
    requires UniqueKeys(db) && Admissible(h, db, w)
    ensures UniqueKeys(Perform(db, w))
  {
    match w
    case InsertExperiment(row) => InsertKeepsIndex(db.experiments, row.record.experimentId, row);
    case InsertRun(row) => InsertKeepsIndex(db.runs, row.record.runId, row);
    case InsertEvidence(row) => InsertKeepsIndex(db.evidence, row.record.evidenceId, row);
    case InsertArtifact(row) => InsertKeepsIndex(db.artifacts, row.record.artifactId, row);
    case InsertPromotion(row) => InsertKeepsIndex(db.promotions, row.record.transitionId, row);
    case InsertHealth(row) => InsertKeepsIndex(db.health, row.record.healthId, row);
    case UpdateRun(_, _, _) => assert forall i, s :: Binds(Perform(db, w).runs, i, s) ==> Binds(db.runs, i, s);
    case UpdateLinks(_, _, _) =>
      assert forall i, s :: Binds(Perform(db, w).artifacts, i, s) ==> Binds(db.artifacts, i, s);
    case _ =>
  }

  lemma PerformKeepsReferences(h: Hasher, db: Db, w: Write)
    requires ReferencesResolve(db) && Admissible(h, db, w)
    ensures ReferencesResolve(Perform(db, w))
  {
    PerformKeepsEvidenceReferences(h, db, w);
    PerformKeepsArtifactReferences(h, db, w);
  }

  lemma PerformKeepsEvidenceReferences(h: Hasher, db: Db, w: Write)
    requires EvidenceResolves(db) && Admissible(h, db, w)
    ensures EvidenceResolves(Perform(db, w))
  {
  }

  lemma PerformKeepsArtifactReferences(h: Hasher, db: Db, w: Write)
    requires ArtifactsResolve(db) && Admissible(h, db, w)
    ensures ArtifactsResolve(Perform(db, w))
  {
  }

  lemma PerformKeepsRunFingerprints(h: Hasher, db: Db, w: Write, id: string)
    requires RunFingerprints(h, db.runs) && Admissible(h, db, w) && id in Perform(db, w).runs
    ensures exists status, endedAt :: CreatedAs(h, Perform(db, w).runs[id], status, endedAt)
  {
    var b := Perform(db, w).runs[id];
    if id in db.runs {
      var status, endedAt :| CreatedAs(h, db.runs[id], status, endedAt);
      assert b.record.(status := status, endedAt := endedAt)
        == db.runs[id].record.(status := status, endedAt := endedAt);
      assert CreatedAs(h, b, status, endedAt);
    } else {
      assert b.record.(status := b.record.status, endedAt := b.record.endedAt) == b.record;
      assert CreatedAs(h, b, b.record.status, b.record.endedAt);
    }
  }

  lemma PerformKeepsFrozenFingerprints(h: Hasher, db: Db, w: Write)
    requires FrozenFingerprints(h, db) && Admissible(h, db, w)
    ensures FrozenFingerprints(h, Perform(db, w))
  {
  }

  lemma PerformKeepsFingerprints(h: Hasher, db: Db, w: Write)
    requires FingerprintsStored(h, db) && Admissible(h, db, w)
    ensures FingerprintsStored(h, Perform(db, w))
  {
    PerformKeepsFrozenFingerprints(h, db, w);
    forall id | id in Perform(db, w).runs
      ensures exists status, endedAt :: CreatedAs(h, Perform(db, w).runs[id], status, endedAt)
    {
      PerformKeepsRunFingerprints(h, db, w, id);
    }
  }

  lemma PerformKeepsRowsBound(h: Hasher, db: Db, w: Write)
    requires RowsBound(h, db) && Admissible(h, db, w)
    ensures RowsBound(h, Perform(db, w))
  {
  }

  lemma ApplyKeepsValid(h: Hasher, db: Db, op: Op)
    requires Valid(h, db)
    ensures Valid(h, Apply(h, db, op).0)
  {
    var w := Decide(h, db, op).write;
    DecideIsAdmissible(h, db, op);
    PerformKeepsKeysUnique(h, db, w);
    PerformKeepsReferences(h, db, w);
    PerformKeepsFingerprints(h, db, w);
    PerformKeepsRowsBound(h, db, w);
  }

  /** The invariant holds in every database reachable from the empty one. */
  lemma {:induction false} EveryTraceIsValid(h: Hasher, db: Db, ops: seq<Op>)
    requires Valid(h, db)
    ensures Valid(h, Exec(h, db, ops))
    decreases |ops|
  {
    if ops != [] {
      ApplyKeepsValid(h, db, ops[0]);
      EveryTraceIsValid(h, Apply(h, db, ops[0]).0, ops[1..]);
    }
  }

  lemma PerformExtends(h: Hasher, db: Db, w: Write)
    requires Admissible(h, db, w)
    ensures Extends(db, Perform(db, w))
  {
  }

  lemma RunsKeptTransitive(a: Table<Run>, b: Table<Run>, c: Table<Run>)
    requires RunsKept(a, b) && RunsKept(b, c)
    ensures RunsKept(a, c)
  {
    forall id | id in a ensures id in c && RunKept(a[id], c[id]) {
      assert RunKept(a[id], b[id]) && RunKept(b[id], c[id]);
    }
  }

  lemma ArtifactsKeptTransitive(a: Table<ArtifactRecord>, b: Table<ArtifactRecord>, c: Table<ArtifactRecord>)
    requires ArtifactsKept(a, b) && ArtifactsKept(b, c)
    ensures ArtifactsKept(a, c)
  {
    forall id | id in a ensures id in c && ArtifactKept(a[id], c[id]) {
      assert ArtifactKept(a[id], b[id]) && ArtifactKept(b[id], c[id]);
    }
  }

  lemma ExtendsTransitive(a: Db, b: Db, c: Db)
    requires Extends(a, b) && Extends(b, c)
    ensures Extends(a, c)
  {
    RunsKeptTransitive(a.runs, b.runs, c.runs);
    ArtifactsKeptTransitive(a.artifacts, b.artifacts, c.artifacts);
  }

  lemma ApplyExtends(h: Hasher, db: Db, op: Op)
    requires ReferencesResolve(db)
    ensures Extends(db, Apply(h, db, op).0)
  {
    DecideIsAdmissible(h, db, op);
    PerformExtends(h, db, Decide(h, db, op).write);
  }

  /** No trace of writes loses a row or changes a frozen column. */
  lemma {:induction false} HistoryIsAppendOnly(h: Hasher, db: Db, ops: seq<Op>)
    requires Valid(h, db)
    ensures Extends(db, Exec(h, db, ops))
    decreases |ops|
  {
    if ops != [] {
      var db1 := Apply(h, db, ops[0]).0;
      ApplyExtends(h, db, ops[0]);
      ApplyKeepsValid(h, db, ops[0]);
      HistoryIsAppendOnly(h, db1, ops[1..]);
      ExtendsTransitive(db, db1, Exec(h, db, ops));
    }
  }

  /** A write that raises changes nothing. */
  lemma RaisingWriteIsNoOp(h: Hasher, db: Db, op: Op)
    requires Apply(h, db, op).1.Raised?
    ensures Apply(h, db, op).0 == db
  {
  }

  // ---------------------------------------------------------------------------
  // What an answer means
  // ---------------------------------------------------------------------------

  /** The record in the reply is the one the database holds under that record's id. */
  ghost predicate IsStored(db: Db, reply: Reply) {
    match reply
    case Raised(_) => true
    case StrategyIs(s) => s.strategyId in db.strategies && db.strategies[s.strategyId] == s
    case VersionIs(v) => VersionKeyOf(v) in db.versions && db.versions[VersionKeyOf(v)] == v
    case ExperimentIs(e) => e.experimentId in db.experiments && db.experiments[e.experimentId].record == e
    case RunIs(r) => r.runId in db.runs && db.runs[r.runId].record == r
    case EvidenceIs(e) => e.evidenceId in db.evidence && db.evidence[e.evidenceId].record == e
    case ArtifactIs(a) => a.artifactId in db.artifacts && db.artifacts[a.artifactId].record == a
    case PromotionIs(p) => p.transitionId in db.promotions && db.promotions[p.transitionId].record == p
    case HealthIs(r) => r.healthId in db.health && db.health[r.healthId].record == r
  }

  /** Rows sit under their own ids. */
  ghost predicate OwnIds(db: Db) {
    && (forall id :: id in db.strategies ==> db.strategies[id].strategyId == id)
    && (forall k :: k in db.versions ==> VersionKeyOf(db.versions[k]) == k)
  }

  /** The reply is the record about to be written, or one that is stored already. */
  ghost predicate Truthful(db: Db, d: Decision) {
    match d.write
    case NoWrite => IsStored(db, d.reply)
    case InsertStrategy(s) => d.reply == StrategyIs(s)
    case InsertVersion(v) => d.reply == VersionIs(v)
    case InsertExperiment(row) => d.reply == ExperimentIs(row.record)
    case InsertRun(row) => d.reply == RunIs(row.record)
    case UpdateRun(id, status, endedAt) =>
      id in db.runs && db.runs[id].record.runId == id
      && d.reply == RunIs(db.runs[id].record.(status := status, endedAt := Some(endedAt)))
    case InsertEvidence(row) => d.reply == EvidenceIs(row.record)
    case InsertArtifact(row) => d.reply == ArtifactIs(row.record)
    case UpdateLinks(id, evidenceId, runId) =>
      id in db.artifacts && db.artifacts[id].record.artifactId == id
      && d.reply == ArtifactIs(db.artifacts[id].record.(evidenceId := evidenceId, runId := runId))
    case InsertPromotion(row) => d.reply == PromotionIs(row.record)
    case InsertHealth(row) => d.reply == HealthIs(row.record)
  }

  predicate Updates(w: Write) { w.NoWrite? || w.UpdateRun? || w.UpdateLinks? }

  lemma UpdateIsStored(db: Db, d: Decision)
    requires Truthful(db, d) && Updates(d.write)
    ensures IsStored(Perform(db, d.write), d.reply)
  {
  }

  lemma EarlierInsertIsStored(db: Db, d: Decision)
    requires Truthful(db, d)
    requires d.write.InsertStrategy? || d.write.InsertVersion? || d.write.InsertExperiment? || d.write.InsertRun?
    ensures IsStored(Perform(db, d.write), d.reply)
  {
  }

  lemma LaterInsertIsStored(db: Db, d: Decision)
    requires Truthful(db, d)
    requires d.write.InsertEvidence? || d.write.InsertArtifact? || d.write.InsertPromotion? || d.write.InsertHealth?
    ensures IsStored(Perform(db, d.write), d.reply)
  {
  }

  lemma TruthfulIsStored(db: Db, d: Decision)
    requires Truthful(db, d)
    ensures IsStored(Perform(db, d.write), d.reply)
  {
    if Updates(d.write) {
      UpdateIsStored(db, d);
    } else if d.write.InsertEvidence? || d.write.InsertArtifact? || d.write.InsertPromotion? || d.write.InsertHealth? {
      LaterInsertIsStored(db, d);
    } else {
      EarlierInsertIsStored(db, d);
    }
  }

  lemma StoredIsARow<R(!new)>(t: Table<R>, sub: Submission<R>)
    requires Judge(t, sub).Stored?
    ensures exists id :: id in t && t[id].record == Judge(t, sub).record
  {
  }

  lemma EarlierDecisionIsTruthful(h: Hasher, db: Db, op: Op)
    requires RowsBound(h, db) && (op.CreateExperiment? || op.CreateRun? || op.AppendEvidence?)
    ensures Truthful(db, Decide(h, db, op))
  {
    match op
    case CreateExperiment(e, key) =>
      var sub := ExperimentSubmission(h, db, e, key);
      if Judge(db.experiments, sub).Stored? { StoredIsARow(db.experiments, sub); }
    case CreateRun(r, key) =>
      if Judge(db.runs, RunSubmission(h, r, key)).Stored? { StoredIsARow(db.runs, RunSubmission(h, r, key)); }
    case AppendEvidence(e) =>
      var sub := EvidenceSubmission(h, db, e);
      if Judge(db.evidence, sub).Stored? { StoredIsARow(db.evidence, sub); }
  }

  lemma LaterDecisionIsTruthful(h: Hasher, db: Db, op: Op)
    requires RowsBound(h, db) && (op.RegisterArtifact? || op.RecordPromotion? || op.RecordHealth?)
    ensures Truthful(db, Decide(h, db, op))
  {
    match op
    case RegisterArtifact(a, key, producer) =>
      var sub := ArtifactSubmission(h, db, a, key, ScopeProducer(producer));
      if Judge(db.artifacts, sub).Stored? { StoredIsARow(db.artifacts, sub); }
    case RecordPromotion(p, key) =>
      var sub := PromotionSubmission(h, db, p, key);
      if Judge(db.promotions, sub).Stored? { StoredIsARow(db.promotions, sub); }
    case RecordHealth(r, key) =>
      var sub := HealthSubmission(h, db, r, key);
      if Judge(db.health, sub).Stored? { StoredIsARow(db.health, sub); }
  }

  lemma UnkeyedDecisionIsTruthful(h: Hasher, db: Db, op: Op)
    requires RowsBound(h, db) && OwnIds(db) && !Keyed(op)
    ensures Truthful(db, Decide(h, db, op))
  {
  }

  lemma PerformKeepsOwnIds(db: Db, w: Write)
    requires OwnIds(db)
    ensures OwnIds(Perform(db, w))
  {
  }

  /** Nothing is acknowledged that is not in the database: whatever record a write returns is
      stored, under its own id, exactly as returned. */
  lemma AnswerIsStored(h: Hasher, db: Db, op: Op)
    requires RowsBound(h, db) && OwnIds(db)
    ensures IsStored(Apply(h, db, op).0, Apply(h, db, op).1) && OwnIds(Apply(h, db, op).0)
  {
    if !Keyed(op) {
      UnkeyedDecisionIsTruthful(h, db, op);
    } else if op.CreateExperiment? || op.CreateRun? || op.AppendEvidence? {
      EarlierDecisionIsTruthful(h, db, op);
    } else {
      LaterDecisionIsTruthful(h, db, op);
    }
    TruthfulIsStored(db, Decide(h, db, op));
    PerformKeepsOwnIds(db, Decide(h, db, op).write);
  }
}
