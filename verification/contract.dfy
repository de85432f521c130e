/** The records producers submit, and what of each one a fingerprint covers. */
module Contract {
  import opened Wrappers
  import opened Timestamps

  datatype RunStatus = OPEN | CLOSED | FAILED

  datatype Strategy = Strategy(strategyId: string, name: string, thesis: string, createdAt: DateTime)

  datatype StrategyVersion = StrategyVersion(strategyId: string, strategyVersion: string, gitRepo: string,
                                             gitCommit: string, createdAt: DateTime, notes: Option<string>)

  datatype Experiment = Experiment(experimentId: string, objective: string, strategyId: Option<string>,
                                   strategyVersion: Option<string>, producer: string, createdAt: DateTime)

  /** Reproducibility context; absence is recorded, never filled in. */
  datatype Provenance = Provenance(producerVersion: Option<string>, gitRepo: Option<string>, gitCommit: Option<string>,
                                   datasetId: Option<string>, datasetVersion: Option<string>,
                                   datasetRef: Option<string>, configHash: Option<string>, configRef: Option<string>,
                                   environment: Option<string>)

  datatype Run = Run(runId: string, experimentId: string, status: RunStatus, startedAt: DateTime,
                     endedAt: Option<DateTime>, producer: string, provenance: Provenance)

  /** List and dict fields are the canonical JSON text the `*_json` columns hold. */
  datatype Findings = Findings(instruments: string, timeframes: string, metrics: string, verdict: Option<string>,
                               status: Option<string>, regimeTags: string, parentEvidenceIds: string,
                               parentRunIds: string, artifactIds: string, notes: string)

  datatype Evidence = Evidence(evidenceId: string, idempotencyKey: string, evidenceType: string, schemaVersion: int,
                               strategyId: Option<string>, strategyVersion: Option<string>,
                               experimentId: Option<string>, runId: Option<string>, producer: string,
                               createdAt: DateTime, observedAt: Option<DateTime>, provenance: Provenance,
                               findings: Findings)

  datatype ArtifactRecord = ArtifactRecord(artifactId: string, sha256: string, sizeBytes: nat, contentType: string,
                                           filename: string, uri: string, registeredAt: DateTime,
                                           runId: Option<string>, evidenceId: Option<string>)

  datatype Promotion = Promotion(transitionId: string, strategyId: string, strategyVersion: string, fromState: string,
                                 toState: string, atUtc: DateTime, authority: string, producer: string,
                                 evidenceIds: seq<string>, reason: string)

  /** `metrics` is the JSON text of the optional surveillance measurements. */
  datatype Health = Health(healthId: string, strategyId: string, strategyVersion: string, healthState: string,
                           observedAt: DateTime, producer: string, metrics: string, reason: string,
                           evidenceIds: seq<string>)

  // ---------------------------------------------------------------------------
  // Fingerprints
  // ---------------------------------------------------------------------------

  const MASKED_TIME: DateTime := DateTime(1, 1, 1, 0, 0, 0, 0)

  /** What is left of a record once the excluded fields are dropped.  An excluded
      field is masked with one fixed value, so two payloads are equal exactly when
      the records agree on every field that is not excluded. */
  datatype Payload =
    | OfStrategy(strategy: Strategy)
    | OfVersion(version: StrategyVersion)
    | OfExperiment(experiment: Experiment)
    | OfRun(run: Run)
    | OfEvidence(evidence: Evidence)
    | OfArtifact(artifact: ArtifactRecord)
    | OfSubmission(submission: ArtifactRecord)
    | OfPromotion(promotion: Promotion)
    | OfHealth(health: Health)

  type Fingerprint = string

  /** SHA-256 of the payload's canonical JSON: a function, and nothing more is assumed
      of it unless a lemma says so. */
  type Hasher = Payload -> Fingerprint

  ghost predicate Injective(h: Hasher) {
    forall p, q :: h(p) == h(q) ==> p == q
  }

  function StrategyPayload(s: Strategy): Payload { OfStrategy(s.(createdAt := MASKED_TIME)) }

  function VersionPayload(v: StrategyVersion): Payload { OfVersion(v.(createdAt := MASKED_TIME)) }

  function ExperimentPayload(e: Experiment): Payload {
    OfExperiment(e.(experimentId := "", createdAt := MASKED_TIME))
  }

  function RunPayload(r: Run): Payload { OfRun(r.(runId := "", startedAt := MASKED_TIME)) }

  function EvidencePayload(e: Evidence): Payload { OfEvidence(e.(evidenceId := "", createdAt := MASKED_TIME)) }

  /** Immutability by id: covers `uri` and `registeredAt`, not the two links. */
  function ArtifactPayload(a: ArtifactRecord): Payload {
    OfArtifact(a.(artifactId := "", runId := None, evidenceId := None))
  }

  /** Idempotency by key: what the producer submitted. */
  function SubmissionPayload(a: ArtifactRecord): Payload {
    OfSubmission(a.(artifactId := "", runId := None, evidenceId := None, uri := "", registeredAt := MASKED_TIME))
  }

  function PromotionPayload(p: Promotion): Payload { OfPromotion(p.(transitionId := "", atUtc := MASKED_TIME)) }

  function HealthPayload(r: Health): Payload { OfHealth(r.(healthId := "", observedAt := MASKED_TIME)) }
}
