/** What every write of the metadata store comes to, in the fields of its record: which submissions
    are the same, which conflict, which are refused, and what an accepted one leaves.  Fingerprints
    are assumed not to collide; none is mentioned in what is stated. */
module Outcomes {
  import opened Wrappers
  import opened Timestamps
  import opened Contract
  import opened Tables
  import opened Metadata
  import opened History

  // ---------------------------------------------------------------------------
  // When two submissions are the same
  // ---------------------------------------------------------------------------

  /** All but the id and the time of creation. */
  predicate SameExperiment(s: Experiment, e: Experiment) {
    e.(experimentId := s.experimentId, createdAt := s.createdAt) == s
  }

  predicate SameRun(s: Run, r: Run) { r.(runId := s.runId, startedAt := s.startedAt) == s }

  /** The time of observation is compared; the time of creation is not. */
  predicate SameEvidence(s: Evidence, e: Evidence) {
    e.(evidenceId := s.evidenceId, createdAt := s.createdAt) == s
  }

  /** What the producer submitted: the bytes, by digest and size, and their description. */
  predicate SameUpload(s: ArtifactRecord, a: ArtifactRecord) {
    a.sha256 == s.sha256 && a.sizeBytes == s.sizeBytes && a.contentType == s.contentType && a.filename == s.filename
  }

  /** All but the id and the two links. */
  predicate SameArtifact(s: ArtifactRecord, a: ArtifactRecord) {
    a.(artifactId := s.artifactId, runId := s.runId, evidenceId := s.evidenceId) == s
  }

  predicate SamePromotion(s: Promotion, p: Promotion) { p.(transitionId := s.transitionId, atUtc := s.atUtc) == s }

  predicate SameHealth(s: Health, r: Health) { r.(healthId := s.healthId, observedAt := s.observedAt) == s }

  lemma ExperimentsCompare(h: Hasher, s: Experiment, e: Experiment)
    requires Injective(h)
    ensures h(ExperimentPayload(s)) == h(ExperimentPayload(e)) <==> SameExperiment(s, e)
  {
    assert ExperimentPayload(s).experiment.(experimentId := s.experimentId, createdAt := s.createdAt) == s;
    assert ExperimentPayload(e).experiment.(experimentId := s.experimentId, createdAt := s.createdAt)
      == e.(experimentId := s.experimentId, createdAt := s.createdAt);
  }

  lemma RunsCompare(h: Hasher, s: Run, r: Run)
    requires Injective(h)
    ensures h(RunPayload(s)) == h(RunPayload(r)) <==> SameRun(s, r)
  {
    assert RunPayload(s).run.(runId := s.runId, startedAt := s.startedAt) == s;
    assert RunPayload(r).run.(runId := s.runId, startedAt := s.startedAt)
      == r.(runId := s.runId, startedAt := s.startedAt);
  }

  lemma EvidenceCompares(h: Hasher, s: Evidence, e: Evidence)
    requires Injective(h)
    ensures h(EvidencePayload(s)) == h(EvidencePayload(e)) <==> SameEvidence(s, e)
  {
    assert EvidencePayload(s).evidence.(evidenceId := s.evidenceId, createdAt := s.createdAt) == s;
    assert EvidencePayload(e).evidence.(evidenceId := s.evidenceId, createdAt := s.createdAt)
      == e.(evidenceId := s.evidenceId, createdAt := s.createdAt);
  }

  lemma UploadsCompare(h: Hasher, s: ArtifactRecord, a: ArtifactRecord)
    requires Injective(h)
    ensures h(SubmissionPayload(s)) == h(SubmissionPayload(a)) <==> SameUpload(s, a)
  {
    var x, y := SubmissionPayload(s).submission, SubmissionPayload(a).submission;
    assert x.sha256 == s.sha256 && x.sizeBytes == s.sizeBytes && x.contentType == s.contentType
      && x.filename == s.filename;
    assert y.sha256 == a.sha256 && y.sizeBytes == a.sizeBytes && y.contentType == a.contentType
      && y.filename == a.filename;
  }

  lemma ArtifactsCompare(h: Hasher, s: ArtifactRecord, a: ArtifactRecord)
    requires Injective(h)
    ensures h(ArtifactPayload(s)) == h(ArtifactPayload(a)) <==> SameArtifact(s, a)
  {
    assert ArtifactPayload(s).artifact.(artifactId := s.artifactId, runId := s.runId, evidenceId := s.evidenceId) == s;
    assert ArtifactPayload(a).artifact.(artifactId := s.artifactId, runId := s.runId, evidenceId := s.evidenceId)
      == a.(artifactId := s.artifactId, runId := s.runId, evidenceId := s.evidenceId);
  }

  lemma PromotionsCompare(h: Hasher, s: Promotion, p: Promotion)
    requires Injective(h)
    ensures h(PromotionPayload(s)) == h(PromotionPayload(p)) <==> SamePromotion(s, p)
  {
    assert PromotionPayload(s).promotion.(transitionId := s.transitionId, atUtc := s.atUtc) == s;
    assert PromotionPayload(p).promotion.(transitionId := s.transitionId, atUtc := s.atUtc)
      == p.(transitionId := s.transitionId, atUtc := s.atUtc);
  }

  lemma HealthCompares(h: Hasher, s: Health, r: Health)
    requires Injective(h)
    ensures h(HealthPayload(s)) == h(HealthPayload(r)) <==> SameHealth(s, r)
  {
    assert HealthPayload(s).health.(healthId := s.healthId, observedAt := s.observedAt) == s;
    assert HealthPayload(r).health.(healthId := s.healthId, observedAt := s.observedAt)
      == r.(healthId := s.healthId, observedAt := s.observedAt);
  }

  // ---------------------------------------------------------------------------
  // Keyed writes
  // ---------------------------------------------------------------------------

  function ScopeUnder(producer: string, key: Option<string>): Option<Scope> {
    if key.Some? then Some(Scope(producer, key.value)) else None
  }

  ghost predicate Bound<R(!new)>(t: Table<R>, scope: Option<Scope>, id: string) {
    scope.Some? && Binds(t, id, scope.value)
  }

  ghost predicate Unused<R(!new)>(t: Table<R>, scope: Option<Scope>) { forall id :: !Bound(t, scope, id) }

  /** One more row: the record as sent, under its id, bound to its scope; every other row as it was. */
  ghost predicate Inserts<R(!new)>(t: Table<R>, t': Table<R>, id: string, r: R, scope: Option<Scope>) {
    && id in t' && t'[id].record == r && t'.Keys == t.Keys + {id}
    && (forall other :: other in t && other != id ==> t'[other] == t[other])
    && (if scope.Some? then Bound(t', scope, id) else t'[id].binding.None?)
  }

  lemma UsedScope<R(!new)>(t: Table<R>, sub: Submission<R>, scope: Scope, id: string)
    requires OneRowPerScope(t) && Binds(t, id, scope) && sub.row.binding.Some? && sub.row.binding.value.scope == scope
    ensures Judge(t, sub) == JudgeByKey(t[id], sub)
  {
    FindIsTheRow(t, id, scope);
  }

  lemma UnusedScope<R(!new)>(t: Table<R>, sub: Submission<R>, scope: Option<Scope>)
    requires Unused(t, scope)
    requires if scope.Some? then sub.row.binding.Some? && sub.row.binding.value.scope == scope.value
             else sub.row.binding.None?
    ensures Judge(t, sub) == JudgeById(t, sub)
  {
    if scope.Some? {
      forall id ensures !Binds(t, id, scope.value) { assert !Bound(t, scope, id); }
      assert FindByScope(t, scope.value).None?;
    }
  }

  lemma InsertsItsRow<R(!new)>(t: Table<R>, row: Row<R>, id: string, scope: Option<Scope>)
    requires id !in t
    requires if scope.Some? then row.binding.Some? && row.binding.value.scope == scope.value else row.binding.None?
    ensures Inserts(t, t[id := row], id, row.record, scope)
  {
  }

  /** A submission that cites a row that is not there is refused before anything else is looked at. */
  lemma ReferencesComeFirst(h: Hasher, db: Db, op: Op)
    requires match op
      case CreateRun(r, _) => r.experimentId !in db.experiments
      case AppendEvidence(e) =>
        || (e.runId.Some? && e.runId.value !in db.runs)
        || (e.experimentId.Some? && e.experimentId.value !in db.experiments)
      case RegisterArtifact(a, _, _) =>
        (a.runId.Some? && a.runId.value !in db.runs) || (a.evidenceId.Some? && a.evidenceId.value !in db.evidence)
      case _ => false
    ensures Apply(h, db, op) == (db, Raised(NotFound))
  {
  }

  lemma ExperimentUnderUsedKey(h: Hasher, db: Db, e: Experiment, key: string, id: string)
    requires Valid(h, db) && Injective(h) && Binds(db.experiments, id, Scope(e.producer, key))
    ensures var s := db.experiments[id].record;
      Apply(h, db, CreateExperiment(e, Some(key)))
        == (db, if SameExperiment(s, e) then ExperimentIs(s) else Raised(IdempotencyConflict))
  {
    UsedScope(db.experiments, ExperimentSubmission(h, db, e, Some(key)), Scope(e.producer, key), id);
    assert BoundTo(db.experiments[id], db.experiments[id].record.experimentId,
                   db.experiments[id].record.producer, id);
    ExperimentsCompare(h, db.experiments[id].record, e);
  }

  lemma ExperimentUnderUsedId(h: Hasher, db: Db, e: Experiment, key: Option<string>)
    requires Injective(h) && Unused(db.experiments, ScopeUnder(e.producer, key)) && e.experimentId in db.experiments
    ensures var s := db.experiments[e.experimentId].record;
      Apply(h, db, CreateExperiment(e, key))
        == (db, if SameExperiment(s, e) then ExperimentIs(s) else Raised(Immutability))
  {
    UnusedScope(db.experiments, ExperimentSubmission(h, db, e, key), ScopeUnder(e.producer, key));
    ExperimentsCompare(h, db.experiments[e.experimentId].record, e);
  }

  lemma ExperimentIsStored(h: Hasher, db: Db, e: Experiment, key: Option<string>)
    requires Unused(db.experiments, ScopeUnder(e.producer, key)) && e.experimentId !in db.experiments
    ensures var (db', reply) := Apply(h, db, CreateExperiment(e, key));
      && reply == ExperimentIs(e) && db' == db.(experiments := db'.experiments)
      && Inserts(db.experiments, db'.experiments, e.experimentId, e, ScopeUnder(e.producer, key))
  {
    var sub := ExperimentSubmission(h, db, e, key);
    UnusedScope(db.experiments, sub, ScopeUnder(e.producer, key));
    InsertsItsRow(db.experiments, sub.row, e.experimentId, ScopeUnder(e.producer, key));
  }

  lemma PromotionUnderUsedKey(h: Hasher, db: Db, p: Promotion, key: string, id: string)
    requires Valid(h, db) && Injective(h) && Binds(db.promotions, id, Scope(p.producer, key))
    ensures var s := db.promotions[id].record;
      Apply(h, db, RecordPromotion(p, Some(key)))
        == (db, if SamePromotion(s, p) then PromotionIs(s) else Raised(IdempotencyConflict))
  {
    UsedScope(db.promotions, PromotionSubmission(h, db, p, Some(key)), Scope(p.producer, key), id);
    assert BoundTo(db.promotions[id], db.promotions[id].record.transitionId,
                   db.promotions[id].record.producer, id);
    PromotionsCompare(h, db.promotions[id].record, p);
  }

  /** An id in use compares the whole record, its time included. */
  lemma PromotionUnderUsedId(h: Hasher, db: Db, p: Promotion, key: Option<string>)
    requires Injective(h) && Unused(db.promotions, ScopeUnder(p.producer, key)) && p.transitionId in db.promotions
    ensures var s := db.promotions[p.transitionId].record;
      Apply(h, db, RecordPromotion(p, key)) == (db, if s == p then PromotionIs(s) else Raised(Immutability))
  {
    UnusedScope(db.promotions, PromotionSubmission(h, db, p, key), ScopeUnder(p.producer, key));
  }

  lemma PromotionIsStored(h: Hasher, db: Db, p: Promotion, key: Option<string>)
    requires Unused(db.promotions, ScopeUnder(p.producer, key)) && p.transitionId !in db.promotions
    ensures var (db', reply) := Apply(h, db, RecordPromotion(p, key));
      && reply == PromotionIs(p) && db' == db.(promotions := db'.promotions)
      && Inserts(db.promotions, db'.promotions, p.transitionId, p, ScopeUnder(p.producer, key))
  {
    var sub := PromotionSubmission(h, db, p, key);
    UnusedScope(db.promotions, sub, ScopeUnder(p.producer, key));
    InsertsItsRow(db.promotions, sub.row, p.transitionId, ScopeUnder(p.producer, key));
  }

  lemma HealthUnderUsedKey(h: Hasher, db: Db, r: Health, key: string, id: string)
    requires Valid(h, db) && Injective(h) && Binds(db.health, id, Scope(r.producer, key))
    ensures var s := db.health[id].record;
      Apply(h, db, RecordHealth(r, Some(key)))
        == (db, if SameHealth(s, r) then HealthIs(s) else Raised(IdempotencyConflict))
  {
    UsedScope(db.health, HealthSubmission(h, db, r, Some(key)), Scope(r.producer, key), id);
    assert BoundTo(db.health[id], db.health[id].record.healthId, db.health[id].record.producer, id);
    HealthCompares(h, db.health[id].record, r);
  }

  lemma HealthUnderUsedId(h: Hasher, db: Db, r: Health, key: Option<string>)
    requires Injective(h) && Unused(db.health, ScopeUnder(r.producer, key)) && r.healthId in db.health
    ensures var s := db.health[r.healthId].record;
      Apply(h, db, RecordHealth(r, key)) == (db, if s == r then HealthIs(s) else Raised(Immutability))
  {
    UnusedScope(db.health, HealthSubmission(h, db, r, key), ScopeUnder(r.producer, key));
  }

  lemma HealthIsStored(h: Hasher, db: Db, r: Health, key: Option<string>)
    requires Unused(db.health, ScopeUnder(r.producer, key)) && r.healthId !in db.health
    ensures var (db', reply) := Apply(h, db, RecordHealth(r, key));
      && reply == HealthIs(r) && db' == db.(health := db'.health)
      && Inserts(db.health, db'.health, r.healthId, r, ScopeUnder(r.producer, key))
  {
    var sub := HealthSubmission(h, db, r, key);
    UnusedScope(db.health, sub, ScopeUnder(r.producer, key));
    InsertsItsRow(db.health, sub.row, r.healthId, ScopeUnder(r.producer, key));
  }

  lemma EvidenceUnderUsedKey(h: Hasher, db: Db, e: Evidence, id: string)
    requires Valid(h, db) && Injective(h) && Binds(db.evidence, id, Scope(e.producer, e.idempotencyKey))
    requires RunExists(db, e.runId) && ExperimentExists(db, e.experimentId)
    ensures var s := db.evidence[id].record;
      Apply(h, db, AppendEvidence(e)) == (db, if SameEvidence(s, e) then EvidenceIs(s) else Raised(IdempotencyConflict))
  {
    UsedScope(db.evidence, EvidenceSubmission(h, db, e), Scope(e.producer, e.idempotencyKey), id);
    assert EvidenceBound(db.evidence[id], id);
    EvidenceCompares(h, db.evidence[id].record, e);
  }

  /** The key is part of the evidence, so an id in use under another key is always refused. */
  lemma EvidenceUnderUsedId(h: Hasher, db: Db, e: Evidence)
    requires Valid(h, db) && Injective(h) && RunExists(db, e.runId) && ExperimentExists(db, e.experimentId)
    requires Unused(db.evidence, Some(Scope(e.producer, e.idempotencyKey))) && e.evidenceId in db.evidence
    ensures Apply(h, db, AppendEvidence(e)) == (db, Raised(Immutability))
  {
    var scope := Some(Scope(e.producer, e.idempotencyKey));
    UnusedScope(db.evidence, EvidenceSubmission(h, db, e), scope);
    assert EvidenceBound(db.evidence[e.evidenceId], e.evidenceId) && !Bound(db.evidence, scope, e.evidenceId);
    EvidenceCompares(h, db.evidence[e.evidenceId].record, e);
  }

  lemma EvidenceIsStored(h: Hasher, db: Db, e: Evidence)
    requires RunExists(db, e.runId) && ExperimentExists(db, e.experimentId) && e.evidenceId !in db.evidence
    requires Unused(db.evidence, Some(Scope(e.producer, e.idempotencyKey)))
    ensures var (db', reply) := Apply(h, db, AppendEvidence(e));
      && reply == EvidenceIs(e) && db' == db.(evidence := db'.evidence)
      && Inserts(db.evidence, db'.evidence, e.evidenceId, e, Some(Scope(e.producer, e.idempotencyKey)))
  {
    var sub, scope := EvidenceSubmission(h, db, e), Some(Scope(e.producer, e.idempotencyKey));
    UnusedScope(db.evidence, sub, scope);
    InsertsItsRow(db.evidence, sub.row, e.evidenceId, scope);
  }

  predicate LinksResolve(db: Db, a: ArtifactRecord) { RunExists(db, a.runId) && EvidenceExists(db, a.evidenceId) }

  /** A key without a producer, or with one of white space only, is refused. */
  lemma ArtifactKeyNeedsProducer(h: Hasher, db: Db, a: ArtifactRecord, key: string, producer: Option<string>)
    requires LinksResolve(db, a)
    requires producer.None? || forall i :: 0 <= i < |producer.value| ==> producer.value[i] in " \t\n\r"
    ensures Apply(h, db, RegisterArtifact(a, Some(key), producer)) == (db, Raised(ContractViolation))
  {
  }

  lemma RegisterByVerdict(h: Hasher, db: Db, a: ArtifactRecord, key: Option<string>, producer: Option<string>)
    requires LinksResolve(db, a) && !(key.Some? && Unscoped(producer))
    ensures match Judge(db.artifacts, ArtifactSubmission(h, db, a, key, ScopeProducer(producer)))
      case Stored(s) => Apply(h, db, RegisterArtifact(a, key, producer)) == (db, ArtifactIs(s))
      case Refuse(err) => Apply(h, db, RegisterArtifact(a, key, producer)) == (db, Raised(err))
      case Insert => true
  {
  }

  lemma StoredArtifact(h: Hasher, db: Db, id: string)
    requires Valid(h, db) && id in db.artifacts
    ensures db.artifacts[id].fp == h(ArtifactPayload(db.artifacts[id].record))
    ensures db.artifacts[id].binding.Some? ==>
      db.artifacts[id].binding.value.fp == h(SubmissionPayload(db.artifacts[id].record))
      && !Blank(db.artifacts[id].binding.value.scope.producer)
  {
    assert ArtifactBound(h, db.artifacts[id], id);
  }

  /** A used key compares what was uploaded. */
  lemma ArtifactUnderUsedKey(h: Hasher, db: Db, a: ArtifactRecord, key: string, producer: string, id: string)
    requires Valid(h, db) && Injective(h) && Binds(db.artifacts, id, Scope(producer, key)) && LinksResolve(db, a)
    ensures var s := db.artifacts[id].record;
      Apply(h, db, RegisterArtifact(a, Some(key), Some(producer)))
        == (db, if SameUpload(s, a) then ArtifactIs(s) else Raised(IdempotencyConflict))
  {
    StoredArtifact(h, db, id);
    UsedScope(db.artifacts, ArtifactSubmission(h, db, a, Some(key), producer), Scope(producer, key), id);
    UploadsCompare(h, db.artifacts[id].record, a);
    RegisterByVerdict(h, db, a, Some(key), Some(producer));
  }

  predicate Scopes(key: Option<string>, producer: Option<string>) {
    key.Some? ==> producer.Some? && exists i :: 0 <= i < |producer.value| && producer.value[i] !in " \t\n\r"
  }

  lemma ArtifactUnderUsedId(h: Hasher, db: Db, a: ArtifactRecord, key: Option<string>, producer: Option<string>)
    requires Valid(h, db) && Injective(h) && LinksResolve(db, a) && Scopes(key, producer)
    requires Unused(db.artifacts, ScopeUnder(ScopeProducer(producer), key)) && a.artifactId in db.artifacts
    ensures var s := db.artifacts[a.artifactId].record;
      Apply(h, db, RegisterArtifact(a, key, producer))
        == (db, if SameArtifact(s, a) then ArtifactIs(s) else Raised(Immutability))
  {
    UnusedScope(db.artifacts, ArtifactSubmission(h, db, a, key, ScopeProducer(producer)),
                ScopeUnder(ScopeProducer(producer), key));
    StoredArtifact(h, db, a.artifactId);
    ArtifactsCompare(h, db.artifacts[a.artifactId].record, a);
    RegisterByVerdict(h, db, a, key, producer);
  }

  lemma ArtifactIsStored(h: Hasher, db: Db, a: ArtifactRecord, key: Option<string>, producer: Option<string>)
    requires LinksResolve(db, a) && Scopes(key, producer) && a.artifactId !in db.artifacts
    requires Unused(db.artifacts, ScopeUnder(ScopeProducer(producer), key))
    ensures var (db', reply) := Apply(h, db, RegisterArtifact(a, key, producer));
      && reply == ArtifactIs(a) && db' == db.(artifacts := db'.artifacts)
      && Inserts(db.artifacts, db'.artifacts, a.artifactId, a, ScopeUnder(ScopeProducer(producer), key))
  {
    var sub, scope := ArtifactSubmission(h, db, a, key, ScopeProducer(producer)),
                      ScopeUnder(ScopeProducer(producer), key);
    UnusedScope(db.artifacts, sub, scope);
    InsertsItsRow(db.artifacts, sub.row, a.artifactId, scope);
  }

  /** An id in use is refused whatever the content of the run. */
  lemma RunUnderUsedId(h: Hasher, db: Db, r: Run, key: Option<string>)
    requires Unused(db.runs, ScopeUnder(r.producer, key)) && r.experimentId in db.experiments && r.runId in db.runs
    ensures Apply(h, db, CreateRun(r, key)) == (db, Raised(Immutability))
  {
    UnusedScope(db.runs, RunSubmission(h, r, key), ScopeUnder(r.producer, key));
  }

  lemma RunIsStored(h: Hasher, db: Db, r: Run, key: Option<string>)
    requires Unused(db.runs, ScopeUnder(r.producer, key)) && r.experimentId in db.experiments && r.runId !in db.runs
    ensures var (db', reply) := Apply(h, db, CreateRun(r, key));
      && reply == RunIs(r) && db' == db.(runs := db'.runs)
      && Inserts(db.runs, db'.runs, r.runId, r, ScopeUnder(r.producer, key))
      && db'.runs[r.runId].fp == h(RunPayload(r))
  {
    var sub := RunSubmission(h, r, key);
    UnusedScope(db.runs, sub, ScopeUnder(r.producer, key));
    InsertsItsRow(db.runs, sub.row, r.runId, ScopeUnder(r.producer, key));
  }

  /** With a used key a run is compared as it was created, however it was closed since. */
  lemma RunUnderUsedKey(h: Hasher, db: Db, run: Run, key: string, ops: seq<Op>, again: Run)
    requires Valid(h, db) && Injective(h) && Unused(db.runs, Some(Scope(run.producer, key)))
    requires run.experimentId in db.experiments && run.runId !in db.runs && again.producer == run.producer
    ensures var db1 := Exec(h, Apply(h, db, CreateRun(run, Some(key))).0, ops);
      && run.runId in db1.runs
      && Apply(h, db1, CreateRun(again, Some(key)))
           == (db1, if again.experimentId !in db1.experiments then Raised(NotFound)
                    else if SameRun(run, again) then RunIs(db1.runs[run.runId].record)
                    else Raised(IdempotencyConflict))
  {
    RunIsStored(h, db, run, Some(key));
    RunStaysBound(h, db, CreateRun(run, Some(key)), ops, run.runId);
    BoundRunAnswers(h, Exec(h, Apply(h, db, CreateRun(run, Some(key))).0, ops), run, key, again);
  }

  lemma RunStaysBound(h: Hasher, db: Db, op: Op, ops: seq<Op>, id: string)
    requires Valid(h, db) && id in Apply(h, db, op).0.runs
    ensures var (after, later) := (Apply(h, db, op).0, Exec(h, Apply(h, db, op).0, ops));
      && Valid(h, later) && id in later.runs
      && later.runs[id].binding == after.runs[id].binding && later.runs[id].fp == after.runs[id].fp
  {
    var after := Apply(h, db, op).0;
    ApplyKeepsValid(h, db, op);
    EveryTraceIsValid(h, after, ops);
    HistoryIsAppendOnly(h, after, ops);
    assert RunKept(after.runs[id], Exec(h, after, ops).runs[id]);
  }

  lemma BoundRunAnswers(h: Hasher, db: Db, run: Run, key: string, again: Run)
    requires Valid(h, db) && Injective(h) && again.producer == run.producer
    requires Binds(db.runs, run.runId, Scope(run.producer, key)) && db.runs[run.runId].fp == h(RunPayload(run))
    ensures Apply(h, db, CreateRun(again, Some(key)))
      == (db, if again.experimentId !in db.experiments then Raised(NotFound)
              else if SameRun(run, again) then RunIs(db.runs[run.runId].record)
              else Raised(IdempotencyConflict))
  {
    BoundRunFingerprint(h, db, run.runId);
    UsedScope(db.runs, RunSubmission(h, again, Some(key)), Scope(run.producer, key), run.runId);
    RunsCompare(h, run, again);
    if again.experimentId in db.experiments {
      RunByVerdict(h, db, again, Some(key));
    } else {
      ReferencesComeFirst(h, db, CreateRun(again, Some(key)));
    }
  }

  lemma BoundRunFingerprint(h: Hasher, db: Db, id: string)
    requires Valid(h, db) && id in db.runs && db.runs[id].binding.Some?
    ensures db.runs[id].binding.value.fp == db.runs[id].fp
  {
    assert BoundTo(db.runs[id], db.runs[id].record.runId, db.runs[id].record.producer, id);
  }

  lemma RunByVerdict(h: Hasher, db: Db, r: Run, key: Option<string>)
    requires r.experimentId in db.experiments
    ensures match Judge(db.runs, RunSubmission(h, r, key))
      case Stored(s) => Apply(h, db, CreateRun(r, key)) == (db, RunIs(s))
      case Refuse(err) => Apply(h, db, CreateRun(r, key)) == (db, Raised(err))
      case Insert => true
  {
  }

  // ---------------------------------------------------------------------------
  // Strategies and their versions
  // ---------------------------------------------------------------------------

  lemma StrategyOutcome(h: Hasher, db: Db, s: Strategy)
    requires Injective(h)
    ensures Apply(h, db, RegisterStrategy(s)) ==
      if s.strategyId !in db.strategies then (db.(strategies := db.strategies[s.strategyId := s]), StrategyIs(s))
      else
        var stored := db.strategies[s.strategyId];
        (db, if s.(createdAt := stored.createdAt) == stored then StrategyIs(stored) else Raised(Immutability))
  {
    if s.strategyId in db.strategies {
      var stored := db.strategies[s.strategyId];
      assert StrategyPayload(stored).strategy.(createdAt := stored.createdAt) == stored;
      assert StrategyPayload(s).strategy.(createdAt := stored.createdAt) == s.(createdAt := stored.createdAt);
    }
  }

  lemma VersionOutcome(h: Hasher, db: Db, v: StrategyVersion)
    requires Injective(h)
    ensures var key := VersionKey(v.strategyId, v.strategyVersion);
      Apply(h, db, RegisterStrategyVersion(v)) ==
        if v.strategyId !in db.strategies then (db, Raised(NotFound))
        else if key !in db.versions then (db.(versions := db.versions[key := v]), VersionIs(v))
        else
          var stored := db.versions[key];
          (db, if v.(createdAt := stored.createdAt) == stored then VersionIs(stored) else Raised(Immutability))
  {
    var key := VersionKey(v.strategyId, v.strategyVersion);
    if key in db.versions {
      var stored := db.versions[key];
      assert VersionPayload(stored).version.(createdAt := stored.createdAt) == stored;
      assert VersionPayload(v).version.(createdAt := stored.createdAt) == v.(createdAt := stored.createdAt);
    }
  }

  /** A version registered once answers every later registration of it: the same content gets the
      stored record, whatever time was stamped on it, and other content is refused. */
  lemma VersionIsSettled(h: Hasher, db: Db, v: StrategyVersion, ops: seq<Op>, again: StrategyVersion)
    requires Valid(h, db) && Injective(h) && v.strategyId in db.strategies
    requires VersionKey(v.strategyId, v.strategyVersion) !in db.versions
    requires again.strategyId == v.strategyId && again.strategyVersion == v.strategyVersion
    ensures var db1 := Exec(h, Apply(h, db, RegisterStrategyVersion(v)).0, ops);
      Apply(h, db1, RegisterStrategyVersion(again))
        == (db1, if again.(createdAt := v.createdAt) == v then VersionIs(v) else Raised(Immutability))
  {
    var after := Apply(h, db, RegisterStrategyVersion(v)).0;
    VersionOutcome(h, db, v);
    ApplyKeepsValid(h, db, RegisterStrategyVersion(v));
    HistoryIsAppendOnly(h, after, ops);
    VersionOutcome(h, Exec(h, after, ops), again);
  }

  // ---------------------------------------------------------------------------
  // Closing a run, attaching an artifact
  // ---------------------------------------------------------------------------

  /** An open run takes whatever status and time it is given, and nothing else changes. */
  lemma CloseOutcome(h: Hasher, db: Db, id: string, status: RunStatus, endedAt: DateTime)
    ensures var (db', reply) := Apply(h, db, CloseRun(id, status, endedAt));
      if id !in db.runs then db' == db && reply == Raised(NotFound)
      else if db.runs[id].record.status != OPEN then db' == db && reply == Raised(Immutability)
      else
        && db' == db.(runs := db'.runs) && db'.runs.Keys == db.runs.Keys
        && (forall other :: other in db.runs && other != id ==> db'.runs[other] == db.runs[other])
        && db'.runs[id].fp == db.runs[id].fp && db'.runs[id].binding == db.runs[id].binding
        && db'.runs[id].record == db.runs[id].record.(status := status, endedAt := Some(endedAt))
        && reply == RunIs(db'.runs[id].record)
  {
  }

  predicate CanLink(link: Option<string>, target: Option<string>) { target.None? || link.None? || link == target }

  lemma AttachRefuses(h: Hasher, db: Db, id: string, toEvidence: Option<string>, toRun: Option<string>)
    ensures id !in db.artifacts || !EvidenceExists(db, toEvidence) || !RunExists(db, toRun) ==>
      Apply(h, db, AttachArtifact(id, toEvidence, toRun)) == (db, Raised(NotFound))
    ensures id in db.artifacts && EvidenceExists(db, toEvidence) && RunExists(db, toRun) ==>
      var a := db.artifacts[id].record;
      !CanLink(a.evidenceId, toEvidence) || !CanLink(a.runId, toRun) ==>
        Apply(h, db, AttachArtifact(id, toEvidence, toRun)) == (db, Raised(Immutability))
  {
  }

  function Given(link: Option<string>, target: Option<string>): Option<string> {
    if target.Some? then target else link
  }

  lemma AttachSets(h: Hasher, db: Db, id: string, toEvidence: Option<string>, toRun: Option<string>)
    requires id in db.artifacts && EvidenceExists(db, toEvidence) && RunExists(db, toRun)
    requires CanLink(db.artifacts[id].record.evidenceId, toEvidence) && CanLink(db.artifacts[id].record.runId, toRun)
    ensures var row := db.artifacts[id];
      var a := row.record.(evidenceId := Given(row.record.evidenceId, toEvidence),
                           runId := Given(row.record.runId, toRun));
      Apply(h, db, AttachArtifact(id, toEvidence, toRun))
        == (db.(artifacts := db.artifacts[id := row.(record := a)]), ArtifactIs(a))
  {
    assert db.artifacts[id := db.artifacts[id]] == db.artifacts;
  }

  /** A link is set to something that exists, and only from nothing or to what it was. */
  lemma AttachOutcome(h: Hasher, db: Db, id: string, toEvidence: Option<string>, toRun: Option<string>)
    ensures var (db', reply) := Apply(h, db, AttachArtifact(id, toEvidence, toRun));
      if id !in db.artifacts || (toEvidence.Some? && toEvidence.value !in db.evidence)
         || (toRun.Some? && toRun.value !in db.runs)
      then db' == db && reply == Raised(NotFound)
      else if !CanLink(db.artifacts[id].record.evidenceId, toEvidence) || !CanLink(db.artifacts[id].record.runId, toRun)
      then db' == db && reply == Raised(Immutability)
      else
        && db' == db.(artifacts := db'.artifacts) && db'.artifacts.Keys == db.artifacts.Keys
        && (forall other :: other in db.artifacts && other != id ==> db'.artifacts[other] == db.artifacts[other])
        && reply == ArtifactIs(db'.artifacts[id].record)
        && (toEvidence.Some? ==> reply.artifact.evidenceId == toEvidence)
        && (toRun.Some? ==> reply.artifact.runId == toRun)
        && ArtifactKept(db.artifacts[id], db'.artifacts[id])
        && (toEvidence.None? ==> reply.artifact.evidenceId == db.artifacts[id].record.evidenceId)
        && (toRun.None? ==> reply.artifact.runId == db.artifacts[id].record.runId)
  {
    var found := id in db.artifacts && EvidenceExists(db, toEvidence) && RunExists(db, toRun);
    if found && CanLink(db.artifacts[id].record.evidenceId, toEvidence)
      && CanLink(db.artifacts[id].record.runId, toRun)
    {
      AttachSets(h, db, id, toEvidence, toRun);
    } else {
      AttachRefuses(h, db, id, toEvidence, toRun);
    }
  }
}
