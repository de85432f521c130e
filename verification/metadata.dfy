/** What each write of the metadata store does to the database, as one function.
    `Apply` is the specification: the class in `sqlite_store.dfy` is proved to compute
    it, threads in `serialisability.dfy` are proved to behave like some order of it,
    and the laws in the other modules are about it. */
module Metadata {
  import opened Wrappers
  import opened Timestamps
  import opened Contract
  import opened Tables

  datatype VersionKey = VersionKey(strategyId: string, strategyVersion: string)

  datatype Db = Db(strategies: map<string, Strategy>,
                   versions: map<VersionKey, StrategyVersion>,
                   experiments: Table<Experiment>,
                   runs: Table<Run>,
                   evidence: Table<Evidence>,
                   artifacts: Table<ArtifactRecord>,
                   promotions: Table<Promotion>,
                   health: Table<Health>)

  const EMPTY_DB: Db := Db(map[], map[], map[], map[], map[], map[], map[], map[])

  datatype Op =
    | RegisterStrategy(strategy: Strategy)
    | RegisterStrategyVersion(version: StrategyVersion)
    | CreateExperiment(experiment: Experiment, key: Option<string>)
    | CreateRun(run: Run, key: Option<string>)
    | CloseRun(runId: string, status: RunStatus, endedAt: DateTime)
    | AppendEvidence(evidence: Evidence)
    | RegisterArtifact(artifact: ArtifactRecord, key: Option<string>, producer: Option<string>)
    | AttachArtifact(artifactId: string, toEvidence: Option<string>, toRun: Option<string>)
    | RecordPromotion(promotion: Promotion, key: Option<string>)
    | RecordHealth(health: Health, key: Option<string>)

  /** The record a write returns, or the exception it raises. */
  datatype Reply =
    | Raised(error: Error)
    | StrategyIs(strategy: Strategy)
    | VersionIs(version: StrategyVersion)
    | ExperimentIs(experiment: Experiment)
    | RunIs(run: Run)
    | EvidenceIs(evidence: Evidence)
    | ArtifactIs(artifact: ArtifactRecord)
    | PromotionIs(promotion: Promotion)
    | HealthIs(health: Health)

  function BindingFor(producer: string, key: Option<string>, fp: Fingerprint): Option<Binding> {
    if key.Some? then Some(Binding(Scope(producer, key.value), fp)) else None
  }

  predicate IsSpace(c: char) { c in " \t\n\r" }

  /** `not producer.strip()` */
  predicate Blank(s: string) { forall i :: 0 <= i < |s| ==> IsSpace(s[i]) }

  /** `producer is None or not producer.strip()` */
  predicate Unscoped(producer: Option<string>) { producer.None? || Blank(producer.value) }

  // ---------------------------------------------------------------------------
  // Referential guards
  // ---------------------------------------------------------------------------

  predicate RunExists(db: Db, runId: Option<string>) { runId.Some? ==> runId.value in db.runs }

  predicate ExperimentExists(db: Db, experimentId: Option<string>) {
    experimentId.Some? ==> experimentId.value in db.experiments
  }

  predicate EvidenceExists(db: Db, evidenceId: Option<string>) { evidenceId.Some? ==> evidenceId.value in db.evidence }

  // ---------------------------------------------------------------------------
  // The keyed tables.  What differs is which fingerprint the key path compares and
  // what counts as the same content under an id that is already taken.
  // ---------------------------------------------------------------------------

  /** By id: the stored experiment is fingerprinted again. */
  function ExperimentSubmission(h: Hasher, db: Db, e: Experiment, key: Option<string>): Submission<Experiment> {
    var fp := h(ExperimentPayload(e));
    Submission(e.experimentId, Row(e, fp, BindingFor(e.producer, key, fp)),
               e.experimentId in db.experiments && h(ExperimentPayload(db.experiments[e.experimentId].record)) == fp)
  }

  /** By id: always refused. */
  function RunSubmission(h: Hasher, r: Run, key: Option<string>): Submission<Run> {
    var fp := h(RunPayload(r));
    Submission(r.runId, Row(r, fp, BindingFor(r.producer, key, fp)), false)
  }

  /** By id: the stored fingerprint column is compared. */
  function EvidenceSubmission(h: Hasher, db: Db, e: Evidence): Submission<Evidence> {
    var fp := h(EvidencePayload(e));
    Submission(e.evidenceId, Row(e, fp, BindingFor(e.producer, Some(e.idempotencyKey), fp)),
               e.evidenceId in db.evidence && db.evidence[e.evidenceId].fp == fp)
  }

  /** Two fingerprints: one for the id path, another bound to the key. */
  function ArtifactSubmission(h: Hasher, db: Db, a: ArtifactRecord, key: Option<string>, producer: string):
    Submission<ArtifactRecord>
  {
    var fp := h(ArtifactPayload(a));
    Submission(a.artifactId, Row(a, fp, BindingFor(producer, key, h(SubmissionPayload(a)))),
               a.artifactId in db.artifacts && db.artifacts[a.artifactId].fp == fp)
  }

  /** By id: the whole record is compared, server-stamped time included. */
  function PromotionSubmission(h: Hasher, db: Db, p: Promotion, key: Option<string>): Submission<Promotion> {
    var fp := h(PromotionPayload(p));
    Submission(p.transitionId, Row(p, fp, BindingFor(p.producer, key, fp)),
               p.transitionId in db.promotions && db.promotions[p.transitionId].record == p)
  }

  /** By id: the whole record is compared, server-stamped time included. */
  function HealthSubmission(h: Hasher, db: Db, r: Health, key: Option<string>): Submission<Health> {
    var fp := h(HealthPayload(r));
    Submission(r.healthId, Row(r, fp, BindingFor(r.producer, key, fp)),
               r.healthId in db.health && db.health[r.healthId].record == r)
  }

  // ---------------------------------------------------------------------------
  // The operations.  Every write is some reads that decide, then at most one INSERT
  // or UPDATE.
  // ---------------------------------------------------------------------------

  datatype Write =
    | NoWrite
    | InsertStrategy(strategy: Strategy)
    | InsertVersion(version: StrategyVersion)
    | InsertExperiment(experiment: Row<Experiment>)
    | InsertRun(run: Row<Run>)
    | UpdateRun(runId: string, status: RunStatus, endedAt: DateTime)
    | InsertEvidence(evidence: Row<Evidence>)
    | InsertArtifact(artifact: Row<ArtifactRecord>)
    | UpdateLinks(artifactId: string, evidenceId: Option<string>, linkedRun: Option<string>)
    | InsertPromotion(promotion: Row<Promotion>)
    | InsertHealth(health: Row<Health>)

  function VersionKeyOf(v: StrategyVersion): VersionKey { VersionKey(v.strategyId, v.strategyVersion) }

  function Perform(db: Db, w: Write): Db {
    match w
    case NoWrite => db
    case InsertStrategy(s) => db.(strategies := db.strategies[s.strategyId := s])
    case InsertVersion(v) => db.(versions := db.versions[VersionKeyOf(v) := v])
    case InsertExperiment(row) => db.(experiments := db.experiments[row.record.experimentId := row])
    case InsertRun(row) => db.(runs := db.runs[row.record.runId := row])
    case UpdateRun(id, status, endedAt) =>
      if id !in db.runs then db else
      var closed := db.runs[id].record.(status := status, endedAt := Some(endedAt));
      db.(runs := db.runs[id := db.runs[id].(record := closed)])
    case InsertEvidence(row) => db.(evidence := db.evidence[row.record.evidenceId := row])
    case InsertArtifact(row) => db.(artifacts := db.artifacts[row.record.artifactId := row])
    case UpdateLinks(id, evidenceId, runId) =>
      if id !in db.artifacts then db else
      var row := db.artifacts[id];
      db.(artifacts := db.artifacts[id := row.(record := row.record.(evidenceId := evidenceId, runId := runId))])
    case InsertPromotion(row) => db.(promotions := db.promotions[row.record.transitionId := row])
    case InsertHealth(row) => db.(health := db.health[row.record.healthId := row])
  }

  datatype Decision = Decision(write: Write, reply: Reply)

  function Raise(e: Error): Decision { Decision(NoWrite, Raised(e)) }

  function Answer(r: Reply): Decision { Decision(NoWrite, r) }

  function DecideStrategy(h: Hasher, db: Db, s: Strategy): Decision {
    if s.strategyId !in db.strategies then Decision(InsertStrategy(s), StrategyIs(s))
    else if h(StrategyPayload(db.strategies[s.strategyId])) != h(StrategyPayload(s)) then Raise(Immutability)
    else Answer(StrategyIs(db.strategies[s.strategyId]))
  }

  function DecideVersion(h: Hasher, db: Db, v: StrategyVersion): Decision {
    if v.strategyId !in db.strategies then Raise(NotFound)
    else if VersionKeyOf(v) !in db.versions then Decision(InsertVersion(v), VersionIs(v))
    else if h(VersionPayload(db.versions[VersionKeyOf(v)])) != h(VersionPayload(v)) then Raise(Immutability)
    else Answer(VersionIs(db.versions[VersionKeyOf(v)]))
  }

  function ConcludeExperiment(row: Row<Experiment>, v: Verdict<Experiment>): Decision {
    match v
    case Insert => Decision(InsertExperiment(row), ExperimentIs(row.record))
    case Stored(e) => Answer(ExperimentIs(e))
    case Refuse(err) => Raise(err)
  }

  function ConcludeRun(row: Row<Run>, v: Verdict<Run>): Decision {
    match v
    case Insert => Decision(InsertRun(row), RunIs(row.record))
    case Stored(r) => Answer(RunIs(r))
    case Refuse(err) => Raise(err)
  }

  /** Any status is accepted, OPEN included; only a run that is not OPEN is refused. */
  function DecideClose(db: Db, runId: string, status: RunStatus, endedAt: DateTime): Decision {
    if runId !in db.runs then Raise(NotFound)
    else if db.runs[runId].record.status != OPEN then Raise(Immutability)
    else Decision(UpdateRun(runId, status, endedAt),
                  RunIs(db.runs[runId].record.(status := status, endedAt := Some(endedAt))))
  }

  function ConcludeEvidence(row: Row<Evidence>, v: Verdict<Evidence>): Decision {
    match v
    case Insert => Decision(InsertEvidence(row), EvidenceIs(row.record))
    case Stored(e) => Answer(EvidenceIs(e))
    case Refuse(err) => Raise(err)
  }

  function ConcludeArtifact(row: Row<ArtifactRecord>, v: Verdict<ArtifactRecord>): Decision {
    match v
    case Insert => Decision(InsertArtifact(row), ArtifactIs(row.record))
    case Stored(a) => Answer(ArtifactIs(a))
    case Refuse(err) => Raise(err)
  }

  predicate Relinks(link: Option<string>, target: Option<string>) {
    target.Some? && link.Some? && link != target
  }

  function Linked(link: Option<string>, target: Option<string>): Option<string> {
    if target.Some? then target else link
  }

  function DecideAttach(db: Db, id: string, toEvidence: Option<string>, toRun: Option<string>): Decision {
    if id !in db.artifacts then Raise(NotFound)
    else if !EvidenceExists(db, toEvidence) || !RunExists(db, toRun) then Raise(NotFound)
    else
      var a := db.artifacts[id].record;
      if Relinks(a.evidenceId, toEvidence) || Relinks(a.runId, toRun) then Raise(Immutability)
      else
        var evidenceId, runId := Linked(a.evidenceId, toEvidence), Linked(a.runId, toRun);
        if evidenceId == a.evidenceId && runId == a.runId then Answer(ArtifactIs(a))
        else Decision(UpdateLinks(id, evidenceId, runId), ArtifactIs(a.(evidenceId := evidenceId, runId := runId)))
  }

  function ConcludePromotion(row: Row<Promotion>, v: Verdict<Promotion>): Decision {
    match v
    case Insert => Decision(InsertPromotion(row), PromotionIs(row.record))
    case Stored(p) => Answer(PromotionIs(p))
    case Refuse(err) => Raise(err)
  }

  function ConcludeHealth(row: Row<Health>, v: Verdict<Health>): Decision {
    match v
    case Insert => Decision(InsertHealth(row), HealthIs(row.record))
    case Stored(r) => Answer(HealthIs(r))
    case Refuse(err) => Raise(err)
  }

  /** The referential guards an operation runs before anything else. */
  predicate GuardsPass(db: Db, op: Op) {
    match op
    case CreateRun(r, _) => r.experimentId in db.experiments
    case AppendEvidence(e) => RunExists(db, e.runId) && ExperimentExists(db, e.experimentId)
    case RegisterArtifact(a, _, _) => RunExists(db, a.runId) && EvidenceExists(db, a.evidenceId)
    case _ => true
  }

  function ScopeProducer(producer: Option<string>): string { if producer.Some? then producer.value else "" }

  ghost function Decide(h: Hasher, db: Db, op: Op): Decision {
    if !GuardsPass(db, op) then Raise(NotFound) else
    match op
    case RegisterStrategy(s) => DecideStrategy(h, db, s)
    case RegisterStrategyVersion(v) => DecideVersion(h, db, v)
    case CreateExperiment(e, key) =>
      var sub := ExperimentSubmission(h, db, e, key);
      ConcludeExperiment(sub.row, Judge(db.experiments, sub))
    case CreateRun(r, key) =>
      var sub := RunSubmission(h, r, key);
      ConcludeRun(sub.row, Judge(db.runs, sub))
    case CloseRun(id, status, endedAt) => DecideClose(db, id, status, endedAt)
    case AppendEvidence(e) =>
      var sub := EvidenceSubmission(h, db, e);
      ConcludeEvidence(sub.row, Judge(db.evidence, sub))
    case RegisterArtifact(a, key, producer) =>
      if key.Some? && Unscoped(producer) then Raise(ContractViolation) else
      var sub := ArtifactSubmission(h, db, a, key, ScopeProducer(producer));
      ConcludeArtifact(sub.row, Judge(db.artifacts, sub))
    case AttachArtifact(id, toEvidence, toRun) => DecideAttach(db, id, toEvidence, toRun)
    case RecordPromotion(p, key) =>
      var sub := PromotionSubmission(h, db, p, key);
      ConcludePromotion(sub.row, Judge(db.promotions, sub))
    case RecordHealth(r, key) =>
      var sub := HealthSubmission(h, db, r, key);
      ConcludeHealth(sub.row, Judge(db.health, sub))
  }

  ghost function Apply(h: Hasher, db: Db, op: Op): (Db, Reply) {
    var d := Decide(h, db, op);
    (Perform(db, d.write), d.reply)
  }

  /** The database after a whole trace of writes, first to last. */
  ghost function Exec(h: Hasher, db: Db, ops: seq<Op>): Db
    decreases |ops|
  {
    if ops == [] then db else Exec(h, Apply(h, db, ops[0]).0, ops[1..])
  }

  /** What each write of the trace returned. */
  ghost function Replies(h: Hasher, db: Db, ops: seq<Op>): (r: seq<Reply>)
    ensures |r| == |ops|
    decreases |ops|
  {
    if ops == [] then [] else [Apply(h, db, ops[0]).1] + Replies(h, Apply(h, db, ops[0]).0, ops[1..])
  }

  lemma {:induction false} ExecConcat(h: Hasher, db: Db, a: seq<Op>, b: seq<Op>)
    ensures Exec(h, db, a + b) == Exec(h, Exec(h, db, a), b)
    ensures Replies(h, db, a + b) == Replies(h, db, a) + Replies(h, Exec(h, db, a), b)
    decreases |a|
  {
    if a == [] {
      assert a + b == b;
    } else {
      assert (a + b)[1..] == a[1..] + b;
      ExecConcat(h, Apply(h, db, a[0]).0, a[1..], b);
    }
  }
}
