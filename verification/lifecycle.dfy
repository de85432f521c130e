/** The run life cycle, and the agreement of the two comparison paths. */
module Lifecycle {
  import opened Wrappers
  import opened Timestamps
  import opened Contract
  import opened Tables
  import opened Metadata
  import opened History
  import opened Outcomes
  import opened Retries

  // ---------------------------------------------------------------------------
  // Run life cycle
  // ---------------------------------------------------------------------------

  /** CLOSED and FAILED are terminal: no trace of writes changes any column of such a run,
      and every later close of it is refused. */
  lemma TerminalForGood(h: Hasher, db: Db, id: string, ops: seq<Op>)
    requires Valid(h, db) && id in db.runs && db.runs[id].record.status != OPEN
    ensures id in Exec(h, db, ops).runs && Exec(h, db, ops).runs[id] == db.runs[id]
    ensures forall status, endedAt ::
      Apply(h, Exec(h, db, ops), CloseRun(id, status, endedAt)) == (Exec(h, db, ops), Raised(Immutability))
  {
    HistoryIsAppendOnly(h, db, ops);
    assert RunKept(db.runs[id], Exec(h, db, ops).runs[id]);
  }

  /** `close_run` accepts OPEN, so `ended_at` is not write-once: an open run can be given one
      end time after another and stays open. */
  lemma ReopeningCloseMovesTheEnd(h: Hasher, db: Db, id: string, first: DateTime, second: DateTime)
    requires id in db.runs && db.runs[id].record.status == OPEN && first != second
    ensures var db1 := Apply(h, db, CloseRun(id, OPEN, first)).0;
            var db2 := Apply(h, db1, CloseRun(id, OPEN, second)).0;
            && id in db1.runs && db1.runs[id].record.endedAt == Some(first)
            && id in db2.runs && db2.runs[id].record.endedAt == Some(second)
            && db2.runs[id].record.status == OPEN
  {
    var db1 := Apply(h, db, CloseRun(id, OPEN, first)).0;
    assert db1.runs[id].record.status == OPEN;
  }

  /** A close freezes the run exactly when the status it is given is not OPEN. */
  lemma CloseIsFinalUnlessOpen(h: Hasher, db: Db, id: string, status: RunStatus, endedAt: DateTime)
    requires Accepted(h, db, CloseRun(id, status, endedAt))
    ensures var db1 := Apply(h, db, CloseRun(id, status, endedAt)).0;
            (forall again, at :: !Accepted(h, db1, CloseRun(id, again, at))) <==> status != OPEN
  {
    var db1 := Apply(h, db, CloseRun(id, status, endedAt)).0;
    assert db1.runs[id].record.status == status;
    if status == OPEN { assert Accepted(h, db1, CloseRun(id, OPEN, endedAt)); }
  }

  /** A keyed replay of the body a run was created with is a replay even after the run was
      closed: it returns the run the first call returned, as it is now, closed, and does not reopen
      it.  The stored fingerprint is still that of the body as created. */
  lemma ReplayReturnsTheClosedRun(h: Hasher, db: Db, run: Run, key: string, ops: seq<Op>, again: Run)
    requires Valid(h, db) && BoundItsKey(h, db, CreateRun(run, Some(key)))
    requires RunPayload(again) == RunPayload(run)
    ensures var (after, reply) := Apply(h, db, CreateRun(run, Some(key)));
      var db' := Exec(h, after, ops);
      && reply.RunIs? && reply.run.runId in db'.runs
      && Apply(h, db', CreateRun(again, Some(key))) == (db', RunIs(db'.runs[reply.run.runId].record))
      && db'.runs[reply.run.runId].fp == h(RunPayload(run))
  {
    var op := CreateRun(run, Some(key));
    var (after, reply) := Apply(h, db, op);
    ApplyKeepsValid(h, db, op);
    EveryTraceIsValid(h, after, ops);
    HistoryIsAppendOnly(h, after, ops);
    AnswerIsKept(h, db, op, Exec(h, after, ops));
    RetryCollapses(h, db, op, Exec(h, after, ops), CreateRun(again, Some(key)));
    ReplayedRun(h, Exec(h, after, ops), run, key, again, reply.run.runId);
  }

  lemma ReplayedRun(h: Hasher, db: Db, run: Run, key: string, again: Run, id: string)
    requires Valid(h, db) && HoldsKeyAs(h, db, CreateRun(run, Some(key)), id) && RunPayload(again) == RunPayload(run)
    ensures HoldsKey(h, db, CreateRun(again, Some(key))) && id in db.runs
    ensures StoredReply(h, db, CreateRun(again, Some(key))) == RunIs(db.runs[id].record)
      && db.runs[id].fp == h(RunPayload(run))
  {
    assert again.producer == RunPayload(again).run.producer && run.producer == RunPayload(run).run.producer;
    RowUnderIsTheRow(db.runs, id, BindingOf(h, CreateRun(again, Some(key))).value);
  }

  // ---------------------------------------------------------------------------
  // The comparison paths cohere
  // ---------------------------------------------------------------------------

  ghost predicate SameVerdict<R>(a: Verdict<R>, b: Verdict<R>) {
    (a.Stored? && a == b) || (a.Refuse? && b.Refuse?)
  }

  /** For experiments the id path fingerprints the stored record again and the key path reads the
      stored column.  On every database the writes can reach, the id path accepts exactly what the
      column accepts; so a resubmission that meets a row both by its key and by its id gets the same
      verdict either way: the stored record, or a refusal. */
  lemma ExperimentPathsAgree(h: Hasher, ops: seq<Op>, e: Experiment, key: Option<string>)
    requires e.experimentId in Exec(h, EMPTY_DB, ops).experiments
    ensures var db := Exec(h, EMPTY_DB, ops);
      var row, sub := db.experiments[e.experimentId], ExperimentSubmission(h, db, e, key);
      && (JudgeById(db.experiments, sub).Stored? <==> row.fp == h(ExperimentPayload(e)))
      && (key.Some? && Binds(db.experiments, e.experimentId, Scope(e.producer, key.value)) ==>
            SameVerdict(JudgeByKey(row, sub), JudgeById(db.experiments, sub)))
  {
    EveryTraceIsValid(h, EMPTY_DB, ops);
    var db := Exec(h, EMPTY_DB, ops);
    assert BoundTo(db.experiments[e.experimentId], db.experiments[e.experimentId].record.experimentId,
                   db.experiments[e.experimentId].record.producer, e.experimentId);
  }

  /** An artifact that would pass the immutability comparison passes the idempotency one. */
  lemma SameContentIsSameSubmission(h: Hasher, a: ArtifactRecord, b: ArtifactRecord)
    requires Injective(h) && h(ArtifactPayload(a)) == h(ArtifactPayload(b))
    ensures h(SubmissionPayload(a)) == h(SubmissionPayload(b))
  {
    var x, y := ArtifactPayload(a).artifact, ArtifactPayload(b).artifact;
    assert x.sha256 == y.sha256 && x.sizeBytes == y.sizeBytes && x.contentType == y.contentType
      && x.filename == y.filename;
  }

  /** The converse fails: a re-upload of the same bytes differs in `registeredAt` only, which
      the immutability fingerprint covers and the idempotency fingerprint does not. */
  lemma SameSubmissionOtherContent(h: Hasher, a: ArtifactRecord, later: DateTime)
    requires Injective(h) && a.registeredAt != later
    ensures var b := a.(registeredAt := later);
            h(SubmissionPayload(a)) == h(SubmissionPayload(b)) && h(ArtifactPayload(a)) != h(ArtifactPayload(b))
  {
    var b := a.(registeredAt := later);
    assert ArtifactPayload(a).artifact.registeredAt != ArtifactPayload(b).artifact.registeredAt;
  }

  /** Evidence carries its key and producer inside its fingerprint, so when fingerprints do not
      collide the id path can only refuse: its "equal" branch is never taken. */
  lemma EvidenceIdPathOnlyRefuses(h: Hasher, db: Db, e: Evidence)
    requires Valid(h, db) && Injective(h) && GuardsPass(db, AppendEvidence(e))
    requires IdPathAnswers(h, db, AppendEvidence(e))
    ensures Apply(h, db, AppendEvidence(e)) == (db, Raised(Immutability))
  {
    var row := db.evidence[e.evidenceId];
    var scope := Scope(e.producer, e.idempotencyKey);
    assert EvidenceBound(row, e.evidenceId);
    if row.fp == h(EvidencePayload(e)) {
      assert EvidencePayload(row.record) == EvidencePayload(e);
      assert EvidencePayload(row.record).evidence.producer == EvidencePayload(e).evidence.producer;
      assert EvidencePayload(row.record).evidence.idempotencyKey == EvidencePayload(e).evidence.idempotencyKey;
      assert Binds(db.evidence, e.evidenceId, scope);
      assert false;
    }
  }

  /** With collision-free fingerprints, a used key refuses exactly the submissions that differ
      on some field other than the id and the time of creation. */
  lemma UsedKeyRefusesExactlyDifferentContent(h: Hasher, db: Db, a: Experiment, b: Experiment, key: string)
    requires Valid(h, db) && Injective(h) && a.producer == b.producer
    requires HoldsKey(h, db, CreateExperiment(a, Some(key)))
    ensures Apply(h, db, CreateExperiment(b, Some(key))).0 == db
    ensures Apply(h, db, CreateExperiment(b, Some(key))).1 == Raised(IdempotencyConflict)
       <==> b.(experimentId := a.experimentId, createdAt := a.createdAt) != a
  {
    var bound := BindingOf(h, CreateExperiment(a, Some(key))).value;
    var id :| Binds(db.experiments, id, bound.scope) && db.experiments[id].binding == Some(bound);
    FindIsTheRow(db.experiments, id, bound.scope);
    ExperimentsCompare(h, a, b);
  }

  // ---------------------------------------------------------------------------
  // Registrations and links
  // ---------------------------------------------------------------------------

  /** A strategy registered once answers every later registration under its id: the same content
      gets the stored record, whatever time was stamped on it, and other content is refused. */
  lemma StrategyIsSettled(h: Hasher, db: Db, s: Strategy, ops: seq<Op>, again: Strategy)
    requires Valid(h, db) && Injective(h) && Accepted(h, db, RegisterStrategy(s)) && again.strategyId == s.strategyId
    ensures var db1 := Apply(h, db, RegisterStrategy(s)).0;
            var db2 := Exec(h, db1, ops);
            && s.strategyId in db1.strategies
            && Apply(h, db2, RegisterStrategy(again))
                 == (db2, if again.(createdAt := s.createdAt) == s then StrategyIs(db1.strategies[s.strategyId])
                          else Raised(Immutability))
  {
    var db1 := Apply(h, db, RegisterStrategy(s)).0;
    ApplyKeepsValid(h, db, RegisterStrategy(s));
    HistoryIsAppendOnly(h, db1, ops);
    var stored := db1.strategies[s.strategyId];
    assert h(StrategyPayload(stored)) == h(StrategyPayload(s));
    assert StrategyPayload(again).strategy == again.(createdAt := MASKED_TIME);
    assert StrategyPayload(s).strategy == s.(createdAt := MASKED_TIME);
  }

  function WithLinks(a: ArtifactRecord, toEvidence: Option<string>, toRun: Option<string>): ArtifactRecord {
    a.(evidenceId := if toEvidence.Some? then toEvidence else a.evidenceId,
       runId := if toRun.Some? then toRun else a.runId)
  }

  lemma AttachStoresLinks(h: Hasher, db: Db, id: string, toEvidence: Option<string>, toRun: Option<string>)
    requires Accepted(h, db, AttachArtifact(id, toEvidence, toRun))
    ensures id in db.artifacts
    ensures var row := db.artifacts[id];
      Apply(h, db, AttachArtifact(id, toEvidence, toRun))
        == (db.(artifacts := db.artifacts[id := row.(record := WithLinks(row.record, toEvidence, toRun))]),
            ArtifactIs(WithLinks(row.record, toEvidence, toRun)))
  {
    assert db.artifacts[id := db.artifacts[id]] == db.artifacts;
  }

  lemma AttachedAgain(h: Hasher, db: Db, id: string, toEvidence: Option<string>, toRun: Option<string>)
    requires id in db.artifacts && EvidenceExists(db, toEvidence) && RunExists(db, toRun)
    requires WithLinks(db.artifacts[id].record, toEvidence, toRun) == db.artifacts[id].record
    ensures Apply(h, db, AttachArtifact(id, toEvidence, toRun)) == (db, ArtifactIs(db.artifacts[id].record))
  {
  }

  /** An accepted attach sets exactly the links it was given, touches nothing else of the artifact,
      and done again changes nothing. */
  lemma AttachSetsExactly(h: Hasher, db: Db, id: string, toEvidence: Option<string>, toRun: Option<string>)
    requires Accepted(h, db, AttachArtifact(id, toEvidence, toRun))
    ensures var db1 := Apply(h, db, AttachArtifact(id, toEvidence, toRun)).0;
            && id in db.artifacts && id in db1.artifacts
            && var a, b := db.artifacts[id].record, db1.artifacts[id].record;
            && b == WithLinks(a, toEvidence, toRun)
            && (forall other :: other != id && other in db.artifacts ==>
                  other in db1.artifacts && db1.artifacts[other] == db.artifacts[other])
            && Apply(h, db1, AttachArtifact(id, toEvidence, toRun)) == (db1, ArtifactIs(b))
  {
    AttachStoresLinks(h, db, id, toEvidence, toRun);
    AttachedAgain(h, Apply(h, db, AttachArtifact(id, toEvidence, toRun)).0, id, toEvidence, toRun);
  }
}
