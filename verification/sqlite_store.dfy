/** The metadata store as its one connection sees it: transactions over the tables, and the
    write methods statement by statement, each proved to compute `Metadata.Apply`. */
module SqliteStore {
  import opened Wrappers
  import opened Timestamps
  import opened Contract
  import opened Tables
  import opened Metadata
  import opened History

  /** `SELECT ... WHERE producer = ? AND idempotency_key = ?` */
  method SelectByScope<R(!new)>(t: Table<R>, scope: Scope) returns (r: Option<string>)
    requires OneRowPerScope(t)
    ensures r == FindByScope(t, scope)
    ensures r.Some? ==> Binds(t, r.value, scope) && forall id :: Binds(t, id, scope) ==> id == r.value
    ensures r.None? ==> forall id :: !Binds(t, id, scope)
  {
    if id :| id in t && t[id].binding.Some? && t[id].binding.value.scope == scope {
      FindIsTheRow(t, id, scope);
      return Some(id);
    } else {
      assert forall id :: !Binds(t, id, scope);
      return None;
    }
  }

  lemma TraceGrows(h: Hasher, trace: seq<Op>, op: Op)
    ensures Exec(h, EMPTY_DB, trace + [op]) == Apply(h, Exec(h, EMPTY_DB, trace), op).0
  {
    ExecConcat(h, EMPTY_DB, trace, [op]);
    assert [op][1..] == [];
  }

  lemma TraceKeysUnique(h: Hasher, trace: seq<Op>)
    ensures UniqueKeys(Exec(h, EMPTY_DB, trace))
  {
    EveryTraceIsValid(h, EMPTY_DB, trace);
  }

  /** What the verdict on a promotion comes to. */
  lemma PromotionByVerdict(h: Hasher, db: Db, p: Promotion, key: Option<string>)
    ensures var sub := PromotionSubmission(h, db, p, key);
      Apply(h, db, RecordPromotion(p, key)) ==
        match Judge(db.promotions, sub)
        case Insert => (db.(promotions := db.promotions[p.transitionId := sub.row]), PromotionIs(p))
        case Stored(existing) => (db, PromotionIs(existing))
        case Refuse(err) => (db, Raised(err))
  {
  }

  /** What the verdict on a health record comes to. */
  lemma HealthByVerdict(h: Hasher, db: Db, r: Health, key: Option<string>)
    ensures var sub := HealthSubmission(h, db, r, key);
      Apply(h, db, RecordHealth(r, key)) ==
        match Judge(db.health, sub)
        case Insert => (db.(health := db.health[r.healthId := sub.row]), HealthIs(r))
        case Stored(existing) => (db, HealthIs(existing))
        case Refuse(err) => (db, Raised(err))
  {
  }

  class SQLiteMetadataStore {
    const hash: Hasher

    /** What has been committed, and what the open transaction has made of it. */
    var committed: Db
    var working: Db
    var inTransaction: bool

    /** What this store does not decide: whether the database file is still at its path, whether
        another connection holds the write lock past the busy timeout, and whether COMMIT fails. */
    var backing: bool
    var locked: bool
    var commitFails: bool

    /** The writes that the database has answered, in order. */
    ghost var trace: seq<Op>

    /** The committed database is the specification's answer to the writes so far. */
    ghost predicate Valid()
      reads this
    {
      !inTransaction && committed == Exec(hash, EMPTY_DB, trace)
    }

    /** A store opened on a database that the writes of `trace` have left, new or not. */
    constructor (hash: Hasher, db: Db, ghost trace: seq<Op>)
      requires db == Exec(hash, EMPTY_DB, trace)
      ensures Valid() && committed == db && this.trace == trace && this.hash == hash
      ensures backing && !locked && !commitFails
    {
      this.hash := hash;
      committed := db;
      working := db;
      inTransaction := false;
      backing := true;
      locked := false;
      commitFails := false;
      this.trace := trace;
    }

    /** A write with a reply.  Turned away at the check or at BEGIN, it did nothing.  Otherwise it
        did what the specification says of that one write; unless the body succeeded and COMMIT
        then failed, which leaves nothing and is raised as it is. */
    twostate predicate Wrote(op: Op, reply: Reply)
      reads this
    {
      && Valid() && backing == old(backing) && locked == old(locked) && commitFails == old(commitFails)
      && if !backing || locked then
           committed == old(committed) && trace == old(trace) && reply == Raised(MetadataStoreError)
         else if commitFails && !Apply(hash, old(committed), op).1.Raised? then
           committed == old(committed) && trace == old(trace) && reply == Raised(DriverError)
         else (committed, reply) == Apply(hash, old(committed), op) && trace == old(trace) + [op]
    }

    // -------------------------------------------------------------------------
    // `_transaction`
    // -------------------------------------------------------------------------

    /** The check of the durable backing, then `BEGIN IMMEDIATE`. */
    method Begin() returns (r: Result<()>)
      requires !inTransaction
      modifies this`working, this`inTransaction
      ensures r.Ok? <==> backing && !locked
      ensures r.Ok? ==> inTransaction && working == committed
      ensures r.Err? ==> !inTransaction && r.error == MetadataStoreError
    {
      if !backing { return Err(MetadataStoreError); }
      if locked { return Err(MetadataStoreError); }
      working, inTransaction := committed, true;
      return Ok(());
    }

    /** `COMMIT`; when it raises, `ROLLBACK`, and the error goes on. */
    method Commit(ghost op: Op) returns (r: Result<()>)
      requires inTransaction
      modifies this`committed, this`working, this`inTransaction, this`trace
      ensures !inTransaction && working == committed
      ensures r.Ok? <==> !commitFails
      ensures r.Ok? ==> committed == old(working) && trace == old(trace) + [op]
      ensures r.Err? ==> committed == old(committed) && trace == old(trace) && r.error == DriverError
    {
      if commitFails {
        working, inTransaction := committed, false;
        return Err(DriverError);
      }
      committed, inTransaction, trace := working, false, trace + [op];
      return Ok(());
    }

    method Rollback(ghost op: Op)
      requires inTransaction
      modifies this`working, this`inTransaction, this`trace
      ensures !inTransaction && working == committed && trace == old(trace) + [op]
    {
      working, inTransaction, trace := committed, false, trace + [op];
    }

    /** The end of a body that succeeds with a reply. */
    method Finish(reply: Reply, ghost op: Op) returns (r: Reply)
      requires inTransaction
      modifies this`committed, this`working, this`inTransaction, this`trace
      ensures !inTransaction && working == committed
      ensures !commitFails ==> r == reply && committed == old(working) && trace == old(trace) + [op]
      ensures commitFails ==> r == Raised(DriverError) && committed == old(committed) && trace == old(trace)
    {
      var done := Commit(op);
      return if done.Ok? then reply else Raised(done.error);
    }

    // -------------------------------------------------------------------------
    // Strategies
    // -------------------------------------------------------------------------

    method RegisterStrategy(strategy: Strategy) returns (reply: Reply)
      requires Valid()
      modifies this
      ensures Wrote(Op.RegisterStrategy(strategy), reply)
    {
      ghost var op := Op.RegisterStrategy(strategy);
      TraceGrows(hash, trace, op);
      var begun := Begin();
      if begun.Err? { return Raised(begun.error); }
      if strategy.strategyId in working.strategies {
        var existing := working.strategies[strategy.strategyId];
        if hash(StrategyPayload(existing)) != hash(StrategyPayload(strategy)) {
          Rollback(op);
          return Raised(Immutability);
        }
        reply := Finish(StrategyIs(existing), op);
        return;
      }
      working := working.(strategies := working.strategies[strategy.strategyId := strategy]);
      reply := Finish(StrategyIs(strategy), op);
    }

    method RegisterStrategyVersion(version: StrategyVersion) returns (reply: Reply)
      requires Valid()
      modifies this
      ensures Wrote(Op.RegisterStrategyVersion(version), reply)
    {
      ghost var op := Op.RegisterStrategyVersion(version);
      TraceGrows(hash, trace, op);
      var begun := Begin();
      if begun.Err? { return Raised(begun.error); }
      if version.strategyId !in working.strategies {
        Rollback(op);
        return Raised(NotFound);
      }
      var id := VersionKeyOf(version);
      if id in working.versions {
        var existing := working.versions[id];
        if hash(VersionPayload(existing)) != hash(VersionPayload(version)) {
          Rollback(op);
          return Raised(Immutability);
        }
        reply := Finish(VersionIs(existing), op);
        return;
      }
      working := working.(versions := working.versions[id := version]);
      reply := Finish(VersionIs(version), op);
    }

    // -------------------------------------------------------------------------
    // Experiments
    // -------------------------------------------------------------------------

    method LookUpExperiment(experiment: Experiment, key: Option<string>)
      returns (v: Verdict<Experiment>, row: Row<Experiment>)
      requires OneRowPerScope(working.experiments)
      ensures row == ExperimentSubmission(hash, working, experiment, key).row
      ensures v == Judge(working.experiments, ExperimentSubmission(hash, working, experiment, key))
    {
      var fp := hash(ExperimentPayload(experiment));
      row := Row(experiment, fp, BindingFor(experiment.producer, key, fp));
      if key.Some? {
        var byKey := SelectByScope(working.experiments, Scope(experiment.producer, key.value));
        if byKey.Some? {
          var found := working.experiments[byKey.value];
          return if found.binding.value.fp != fp then Refuse(IdempotencyConflict) else Stored(found.record), row;
        }
      }
      if experiment.experimentId in working.experiments {
        var existing := working.experiments[experiment.experimentId];
        return if hash(ExperimentPayload(existing.record)) == fp then Stored(existing.record)
          else Refuse(Immutability), row;
      }
      return Insert, row;
    }

    method CreateExperiment(experiment: Experiment, key: Option<string>) returns (reply: Reply)
      requires Valid()
      modifies this
      ensures Wrote(Op.CreateExperiment(experiment, key), reply)
    {
      ghost var op := Op.CreateExperiment(experiment, key);
      TraceGrows(hash, trace, op);
      TraceKeysUnique(hash, trace);
      var begun := Begin();
      if begun.Err? { return Raised(begun.error); }
      var verdict, row := LookUpExperiment(experiment, key);
      match verdict
      case Refuse(err) =>
        Rollback(op);
        reply := Raised(err);
      case Stored(existing) =>
        reply := Finish(ExperimentIs(existing), op);
      case Insert =>
        working := working.(experiments := working.experiments[experiment.experimentId := row]);
        reply := Finish(ExperimentIs(experiment), op);
    }

    // -------------------------------------------------------------------------
    // Runs
    // -------------------------------------------------------------------------

    method LookUpRun(run: Run, key: Option<string>) returns (v: Verdict<Run>, row: Row<Run>)
      requires OneRowPerScope(working.runs)
      ensures row == RunSubmission(hash, run, key).row
      ensures v == Judge(working.runs, RunSubmission(hash, run, key))
    {
      var fp := hash(RunPayload(run));
      row := Row(run, fp, BindingFor(run.producer, key, fp));
      if key.Some? {
        var byKey := SelectByScope(working.runs, Scope(run.producer, key.value));
        if byKey.Some? {
          var found := working.runs[byKey.value];
          return if found.binding.value.fp != fp then Refuse(IdempotencyConflict) else Stored(found.record), row;
        }
      }
      return if run.runId in working.runs then Refuse(Immutability) else Insert, row;
    }

    method CreateRun(run: Run, key: Option<string>) returns (reply: Reply)
      requires Valid()
      modifies this
      ensures Wrote(Op.CreateRun(run, key), reply)
    {
      ghost var op := Op.CreateRun(run, key);
      TraceGrows(hash, trace, op);
      TraceKeysUnique(hash, trace);
      var begun := Begin();
      if begun.Err? { return Raised(begun.error); }
      if run.experimentId !in working.experiments {
        Rollback(op);
        return Raised(NotFound);
      }
      var verdict, row := LookUpRun(run, key);
      match verdict
      case Refuse(err) =>
        Rollback(op);
        reply := Raised(err);
      case Stored(existing) =>
        reply := Finish(RunIs(existing), op);
      case Insert =>
        working := working.(runs := working.runs[run.runId := row]);
        reply := Finish(RunIs(run), op);
    }

    method CloseRun(runId: string, status: RunStatus, endedAt: DateTime) returns (reply: Reply)
      requires Valid()
      modifies this
      ensures Wrote(Op.CloseRun(runId, status, endedAt), reply)
    {
      ghost var op := Op.CloseRun(runId, status, endedAt);
      TraceGrows(hash, trace, op);
      var begun := Begin();
      if begun.Err? { return Raised(begun.error); }
      if runId !in working.runs {
        Rollback(op);
        return Raised(NotFound);
      }
      var row := working.runs[runId];
      if row.record.status != OPEN {
        Rollback(op);
        return Raised(Immutability);
      }
      var closed := row.record.(status := status, endedAt := Some(endedAt));
      working := working.(runs := working.runs[runId := row.(record := closed)]);
      reply := Finish(RunIs(closed), op);
    }

    // -------------------------------------------------------------------------
    // Evidence
    // -------------------------------------------------------------------------

    method LookUpEvidence(evidence: Evidence) returns (v: Verdict<Evidence>, row: Row<Evidence>)
      requires OneRowPerScope(working.evidence)
      ensures row == EvidenceSubmission(hash, working, evidence).row
      ensures v == Judge(working.evidence, EvidenceSubmission(hash, working, evidence))
    {
      var fp := hash(EvidencePayload(evidence));
      row := Row(evidence, fp, BindingFor(evidence.producer, Some(evidence.idempotencyKey), fp));
      var byKey := SelectByScope(working.evidence, Scope(evidence.producer, evidence.idempotencyKey));
      if byKey.Some? {
        var found := working.evidence[byKey.value];
        return if found.binding.value.fp != fp then Refuse(IdempotencyConflict) else Stored(found.record), row;
      }
      if evidence.evidenceId in working.evidence {
        var existing := working.evidence[evidence.evidenceId];
        return if existing.fp == fp then Stored(existing.record) else Refuse(Immutability), row;
      }
      return Insert, row;
    }

    method AppendEvidence(evidence: Evidence) returns (reply: Reply)
      requires Valid()
      modifies this
      ensures Wrote(Op.AppendEvidence(evidence), reply)
    {
      ghost var op := Op.AppendEvidence(evidence);
      TraceGrows(hash, trace, op);
      TraceKeysUnique(hash, trace);
      var begun := Begin();
      if begun.Err? { return Raised(begun.error); }
      if !RunExists(working, evidence.runId) || !ExperimentExists(working, evidence.experimentId) {
        Rollback(op);
        return Raised(NotFound);
      }
      var verdict, row := LookUpEvidence(evidence);
      match verdict
      case Refuse(err) =>
        Rollback(op);
        reply := Raised(err);
      case Stored(existing) =>
        reply := Finish(EvidenceIs(existing), op);
      case Insert =>
        working := working.(evidence := working.evidence[evidence.evidenceId := row]);
        reply := Finish(EvidenceIs(evidence), op);
    }

    // -------------------------------------------------------------------------
    // Artifacts
    // -------------------------------------------------------------------------

    /** The lookup that `create_artifact` makes before it hands bytes to the artifact store; it runs
        outside any transaction. */
    method FindArtifactByIdempotencyKey(producer: string, key: string) returns (r: Result<Option<ArtifactRecord>>)
      requires Valid()
      ensures r.Err? <==> forall i :: 0 <= i < |producer| ==> producer[i] in " \t\n\r"
      ensures r.Err? ==> r.error == ContractViolation
      ensures r.Ok? && r.value.Some? ==>
        exists id :: Binds(committed.artifacts, id, Scope(producer, key))
          && committed.artifacts[id].record == r.value.value
      ensures r.Ok? && r.value.None? ==> forall id :: !Binds(committed.artifacts, id, Scope(producer, key))
    {
      TraceKeysUnique(hash, trace);
      if Blank(producer) { return Err(ContractViolation); }
      var byKey := SelectByScope(committed.artifacts, Scope(producer, key));
      if byKey.None? { return Ok(None); }
      return Ok(Some(committed.artifacts[byKey.value].record));
    }

    method LookUpArtifactRecord(artifact: ArtifactRecord, key: Option<string>, producer: Option<string>)
      returns (v: Verdict<ArtifactRecord>, row: Row<ArtifactRecord>)
      requires OneRowPerScope(working.artifacts)
      ensures row == ArtifactSubmission(hash, working, artifact, key, ScopeProducer(producer)).row
      ensures v == Judge(working.artifacts, ArtifactSubmission(hash, working, artifact, key, ScopeProducer(producer)))
    {
      var fp, submittedFp := hash(ArtifactPayload(artifact)), hash(SubmissionPayload(artifact));
      row := Row(artifact, fp, BindingFor(ScopeProducer(producer), key, submittedFp));
      if key.Some? {
        var byKey := SelectByScope(working.artifacts, Scope(ScopeProducer(producer), key.value));
        if byKey.Some? {
          var found := working.artifacts[byKey.value];
          return if found.binding.value.fp != submittedFp then Refuse(IdempotencyConflict)
            else Stored(found.record), row;
        }
      }
      if artifact.artifactId in working.artifacts {
        var existing := working.artifacts[artifact.artifactId];
        return if existing.fp == fp then Stored(existing.record) else Refuse(Immutability), row;
      }
      return Insert, row;
    }

    method RegisterArtifact(artifact: ArtifactRecord, key: Option<string>, producer: Option<string>)
      returns (reply: Reply)
      requires Valid()
      modifies this
      ensures Wrote(Op.RegisterArtifact(artifact, key, producer), reply)
    {
      ghost var op := Op.RegisterArtifact(artifact, key, producer);
      TraceGrows(hash, trace, op);
      TraceKeysUnique(hash, trace);
      var begun := Begin();
      if begun.Err? { return Raised(begun.error); }
      if !RunExists(working, artifact.runId) || !EvidenceExists(working, artifact.evidenceId) {
        Rollback(op);
        return Raised(NotFound);
      }
      if key.Some? && Unscoped(producer) {
        Rollback(op);
        return Raised(ContractViolation);
      }
      var verdict, row := LookUpArtifactRecord(artifact, key, producer);
      match verdict
      case Refuse(err) =>
        Rollback(op);
        reply := Raised(err);
      case Stored(existing) =>
        reply := Finish(ArtifactIs(existing), op);
      case Insert =>
        working := working.(artifacts := working.artifacts[artifact.artifactId := row]);
        reply := Finish(ArtifactIs(artifact), op);
    }

    method AttachArtifact(artifactId: string, toEvidence: Option<string>, toRun: Option<string>) returns (reply: Reply)
      requires Valid()
      modifies this
      ensures Wrote(Op.AttachArtifact(artifactId, toEvidence, toRun), reply)
    {
      ghost var op := Op.AttachArtifact(artifactId, toEvidence, toRun);
      TraceGrows(hash, trace, op);
      assert Decide(hash, committed, op) == DecideAttach(committed, artifactId, toEvidence, toRun);
      var begun := Begin();
      if begun.Err? { return Raised(begun.error); }
      if artifactId !in working.artifacts || !EvidenceExists(working, toEvidence) || !RunExists(working, toRun) {
        Rollback(op);
        return Raised(NotFound);
      }
      var row := working.artifacts[artifactId];
      var newEvidence, newRun := row.record.evidenceId, row.record.runId;
      if toEvidence.Some? {
        if newEvidence.Some? && newEvidence != toEvidence {
          Rollback(op);
          return Raised(Immutability);
        }
        newEvidence := toEvidence;
      }
      if toRun.Some? {
        if newRun.Some? && newRun != toRun {
          Rollback(op);
          return Raised(Immutability);
        }
        newRun := toRun;
      }
      var linked := row.record;
      if newEvidence != row.record.evidenceId || newRun != row.record.runId {
        linked := row.record.(evidenceId := newEvidence, runId := newRun);
        working := working.(artifacts := working.artifacts[artifactId := row.(record := linked)]);
      }
      reply := Finish(ArtifactIs(linked), op);
    }

    // -------------------------------------------------------------------------
    // Promotions
    // -------------------------------------------------------------------------

    method LookUpPromotion(promotion: Promotion, key: Option<string>)
      returns (v: Verdict<Promotion>, row: Row<Promotion>)
      requires OneRowPerScope(working.promotions)
      ensures row == PromotionSubmission(hash, working, promotion, key).row
      ensures v == Judge(working.promotions, PromotionSubmission(hash, working, promotion, key))
    {
      var fp := hash(PromotionPayload(promotion));
      row := Row(promotion, fp, BindingFor(promotion.producer, key, fp));
      if key.Some? {
        var byKey := SelectByScope(working.promotions, Scope(promotion.producer, key.value));
        if byKey.Some? {
          var found := working.promotions[byKey.value];
          return if found.binding.value.fp != fp then Refuse(IdempotencyConflict) else Stored(found.record), row;
        }
      }
      if promotion.transitionId in working.promotions {
        var existing := working.promotions[promotion.transitionId];
        return if existing.record == promotion then Stored(existing.record) else Refuse(Immutability), row;
      }
      return Insert, row;
    }

    method RecordPromotion(promotion: Promotion, key: Option<string>) returns (reply: Reply)
      requires Valid()
      modifies this
      ensures Wrote(Op.RecordPromotion(promotion, key), reply)
    {
      ghost var op := Op.RecordPromotion(promotion, key);
      PromotionByVerdict(hash, committed, promotion, key);
      TraceGrows(hash, trace, op);
      TraceKeysUnique(hash, trace);
      var begun := Begin();
      if begun.Err? { return Raised(begun.error); }
      var verdict, row := LookUpPromotion(promotion, key);
      match verdict
      case Refuse(err) =>
        Rollback(op);
        reply := Raised(err);
      case Stored(existing) =>
        reply := Finish(PromotionIs(existing), op);
      case Insert =>
        working := working.(promotions := working.promotions[promotion.transitionId := row]);
        reply := Finish(PromotionIs(promotion), op);
    }

    // -------------------------------------------------------------------------
    // Health records
    // -------------------------------------------------------------------------

    method LookUpHealth(health: Health, key: Option<string>) returns (v: Verdict<Health>, row: Row<Health>)
      requires OneRowPerScope(working.health)
      ensures row == HealthSubmission(hash, working, health, key).row
      ensures v == Judge(working.health, HealthSubmission(hash, working, health, key))
    {
      var fp := hash(HealthPayload(health));
      row := Row(health, fp, BindingFor(health.producer, key, fp));
      if key.Some? {
        var byKey := SelectByScope(working.health, Scope(health.producer, key.value));
        if byKey.Some? {
          var found := working.health[byKey.value];
          return if found.binding.value.fp != fp then Refuse(IdempotencyConflict) else Stored(found.record), row;
        }
      }
      if health.healthId in working.health {
        var existing := working.health[health.healthId];
        return if existing.record == health then Stored(existing.record) else Refuse(Immutability), row;
      }
      return Insert, row;
    }

    method RecordHealth(health: Health, key: Option<string>) returns (reply: Reply)
      requires Valid()
      modifies this
      ensures Wrote(Op.RecordHealth(health, key), reply)
    {
      ghost var op := Op.RecordHealth(health, key);
      HealthByVerdict(hash, committed, health, key);
      TraceGrows(hash, trace, op);
      TraceKeysUnique(hash, trace);
      var begun := Begin();
      if begun.Err? { return Raised(begun.error); }
      var verdict, row := LookUpHealth(health, key);
      match verdict
      case Refuse(err) =>
        Rollback(op);
        reply := Raised(err);
      case Stored(existing) =>
        reply := Finish(HealthIs(existing), op);
      case Insert =>
        working := working.(health := working.health[health.healthId := row]);
        reply := Finish(HealthIs(health), op);
    }
  }
}
