# CER, modelled and proved

CER is an evidence registry: producers register strategies, experiments, runs, evidence, artifacts,
promotions and health records, and the registry promises never to lose, rewrite or invent any of it.
Its state lives in two independent stores, an SQLite database and a content-addressed file tree, and
its clients retry, run concurrently and survive crashes. This project models the two stores, the
protocol that spans them, the startup decision, the migration runner and the timestamp encoding, and
proves what they keep.

`dafny verify dfyconfig.toml` checks everything. Files, from the ground up:

| file | what it holds |
|---|---|
| `timestamps.dfy` | `_dt_to_str` / `_str_to_dt`: round trip, and text order = order of instants |
| `contract.dfy`, `tables.dfy`, `metadata.dfy` | records, fingerprints, one keyed table, and `Apply`: every write of the metadata store as reads that decide and then at most one statement |
| `sqlite_store.dfy` | `SQLiteMetadataStore`: the write methods and `_transaction`, proved to compute `Apply` |
| `history.dfy`, `outcomes.dfy`, `retries.dfy`, `lifecycle.dfy` | the database invariant, append-only history, every outcome of every write in the fields of its record, safe retries, the run life cycle |
| `serialisability.dfy` | threads stepping through check, BEGIN IMMEDIATE, body, COMMIT/ROLLBACK |
| `identity.dfy`, `noninterference.dfy` | derived ids, keys bound for good, producers that cannot disturb each other |
| `queries.dfy`, `query_reach.dfy` | filters, ordering and paging, for every database the writes reach |
| `volume.dfy`, `fs_store.dfy` | the artifact volume and `FilesystemArtifactStore` |
| `service.dfy` | the two-store service as a state machine, one file operation per step |
| `service_invariants.dfy`, `service_safety.dfy`, `service_history.dfy`, `service_answers.dfy`, `service_reads.dfy` | its invariant, and the theorems about every run: readiness, uploads, orphans, loss, what is answered, verified reads |
| `put_refinement.dfy`, `startup.dfy`, `artifact_endpoint.dfy` | `put` in small steps refines `put`; the startup decision; `POST /v1/artifacts` over the two store objects |
| `service_runs.dfy` | runs named step by step: an upload taken all the way, and readiness that lies |
| `migrations.dfy`, `migration_progress.dfy`, `migration_race.dfy`, `migration_winners.dfy`, `migration_crash.dfy` | the migration runner, racing runners and who of them completes, crashing runners, for any disciplined set of scripts |
| `schema_scripts.dfy`, `cer_migrations.dfy` | the four schema files, and the theorems for them |
| `wrappers.dfy`, `counting.dfy` | `Option`, `Result`, the error kinds; sizes of sets |

SHA-256 (of bytes and of fingerprint payloads), UUIDv5 and the sidecar's JSON codec are parameters.
Nothing is assumed of them except where a lemma says so: `Injective`, `ShaInjective`, `NoCollisions`
(no collisions) and `Faithful` (decoding inverts encoding). Clocks, random ids, how much a `write`
wrote, and whether a store could be reached are inputs of the step that uses them. A fingerprint's
excluded fields are replaced by one fixed value before hashing, so equal payloads means equal on every
field that is not excluded.

## Where the code does not do what its text says

- **Readiness after an unanswered startup query.** `src/cer/api/main.py:188-198` says the service reports
  NOT READY until resolved. It leaves the store's flag down, so the next upload initialises the store
  lazily (`src/cer/artifacts/fs_store.py:489-493`). `ServiceRuns.ReadinessCanLie` gives such a run from every
  first deployment, and `ServiceRuns.HonestyNeedsTheAnswer` its last part from every state that asserts an
  artifact. `ServiceSafety.ReadinessIsHonest` proves honesty unless a request made the marker anew while
  there was something to lose, and `ServiceSafety.AnswersForestallRebuilding` that none does when every
  startup query was answered.
- **`close_run` accepts OPEN** (`src/cer/metadata/sqlite_store.py:662-677`), so `ended_at` is not
  write-once. `Lifecycle.CloseIsFinalUnlessOpen` gives the exact condition.
- **Racing runners of 003 and 004.** The comment at `src/cer/metadata/migrations.py:117-130` says every
  statement is `IF NOT EXISTS`; `ALTER TABLE ... ADD COLUMN` is not. Of the runners that read the tracking
  table before version 4 was recorded exactly one completes, and all complete iff there was only that one
  (`CerMigrationLaws.CerAllCompleteIffOneEarly`; for any scripts, `MigrationWinners.AllFinishIffNoneShare`).
  `CerMigrationLaws.CerTwoRacersFail` is a race of two in which one fails.
- **A crash inside 003 or 004** can leave a database no later run can finish. The four files are 48
  statements; a first run that stops after `m` of them leaves it stuck iff `33 < m < 43` or `43 < m < 48`
  (`CerMigrationLaws.CerFirstCrashPoint`). After any number of crashes the exact condition is
  `CerMigrationLaws.CerCrashHealsUnlessColumnsAreUnrecorded`.
- **An id match with a key miss** in `create_experiment` and its siblings answers without recording the
  key (`src/cer/metadata/sqlite_store.py:535-553`). `Retries.AcceptedBindsKey` gives the exact condition and
  `Retries.IdMatchKeyMiss` the calls that meet it; through the API it cannot happen for colon-free
  producers (`Identity.IdPathNeverAnswers`), and `Identity.ColonInProducerCollides` shows why colons matter.
- **An artifact retry answers NotFound**, key or no key, when the links it cites do not resolve, because the
  reference guards run first (`src/cer/metadata/sqlite_store.py:946-950`). `Retries.RetryCollapses` gives the
  exact condition: that guard.
- **`exists` never raises** (`src/cer/artifacts/fs_store.py:565-573`): over a lost volume it says no where
  `stat` reports a storage failure, and it says yes to a sidecar that cannot be read
  (`FsStore.FilesystemArtifactStore.ArtifactExists`).
- **A malformed artifact id** is always reported as not found, even over a lost volume
  (`src/cer/artifacts/fs_store.py:241-260`): `FsStore.NoResurrection` says so.

## Model

| member | source | states |
|---|---|---|
| `Timestamps.RoundTrip` | src/cer/metadata/sqlite_store.py:221-237 | `_str_to_dt` inverts `_dt_to_str` on every UTC datetime, with or without a fraction |
| `Timestamps.TextOrderIsTimeOrder` | src/cer/metadata/sqlite_store.py:221-233 | byte order of the stored text is field-by-field time order, though a zero fraction is dropped |
| `Timestamps.TextOrderIsInstantOrder` | src/cer/metadata/sqlite_store.py:850-861 | the string comparisons of `since`, `until` and ORDER BY compare instants on the calendar; equal text iff equal instants |
| `Timestamps.FractionOrder` | src/cer/metadata/sqlite_store.py:233 | an omitted fraction sorts before every non-zero one, because `+` precedes `.` |
| `Timestamps.TextBeforeTotal` | src/cer/metadata/sqlite_store.py:859 | the BINARY collation is total; with its irreflexivity and transitivity, a strict order |
| `Tables.FindIsTheRow` | src/cer/metadata/sqlite_store.py:519-526 | under the partial unique index the lookup by `(producer, key)` finds the one row there is |
| `Tables.InsertKeepsIndex` | src/cer/metadata/schema/003_optional_idempotency_keys.sql:58-68 | an insert after a miss never violates `(producer, idempotency_key)` uniqueness |
| `SqliteStore.SelectByScope` | src/cer/metadata/sqlite_store.py:914-923 | returns the row bound to the scope, or none when there is none |
| `SqliteStore.SQLiteMetadataStore.constructor` | src/cer/metadata/sqlite_store.py:257-284 | a store opened on any database that a trace of writes has left, the empty one included |
| `SqliteStore.SQLiteMetadataStore.Begin` | src/cer/metadata/sqlite_store.py:338-357 | a transaction starts iff the database file is at its path and no other connection holds the write lock past the busy timeout; else MetadataStoreError |
| `SqliteStore.SQLiteMetadataStore.Commit` | src/cer/metadata/sqlite_store.py:358-363 | what the transaction did becomes the committed database; when COMMIT raises, nothing does and the error goes on |
| `SqliteStore.SQLiteMetadataStore.Rollback` | src/cer/metadata/sqlite_store.py:361-363 | a body that raises leaves the committed database alone |
| `SqliteStore.SQLiteMetadataStore.RegisterStrategy` | src/cer/metadata/sqlite_store.py:402-438 | database and answer are those of `Apply`; turned away at BEGIN or failing at COMMIT, nothing changed and the error is raised |
| `SqliteStore.SQLiteMetadataStore.RegisterStrategyVersion` | src/cer/metadata/sqlite_store.py:440-486 | same, with the strategy required |
| `SqliteStore.SQLiteMetadataStore.LookUpExperiment` | src/cer/metadata/sqlite_store.py:513-553 | key first, then id by recomputed fingerprint: the verdict of `Judge` |
| `SqliteStore.SQLiteMetadataStore.CreateExperiment` | src/cer/metadata/sqlite_store.py:500-570 | computes `Apply` of the call |
| `SqliteStore.SQLiteMetadataStore.LookUpRun` | src/cer/metadata/sqlite_store.py:603-626 | key first, then any stored id refuses |
| `SqliteStore.SQLiteMetadataStore.CreateRun` | src/cer/metadata/sqlite_store.py:599-660 | computes `Apply`, the experiment being required first |
| `SqliteStore.SQLiteMetadataStore.CloseRun` | src/cer/metadata/sqlite_store.py:662-677 | computes `Apply`: only an OPEN run is updated, to any status |
| `SqliteStore.SQLiteMetadataStore.LookUpEvidence` | src/cer/metadata/sqlite_store.py:728-755 | key first, then id by stored fingerprint |
| `SqliteStore.SQLiteMetadataStore.AppendEvidence` | src/cer/metadata/sqlite_store.py:721-810 | computes `Apply`, cited run and experiment being required first |
| `SqliteStore.SQLiteMetadataStore.FindArtifactByIdempotencyKey` | src/cer/metadata/sqlite_store.py:900-923 | refuses a blank producer; otherwise the bound record, or none iff no row is bound |
| `SqliteStore.SQLiteMetadataStore.LookUpArtifactRecord` | src/cer/metadata/sqlite_store.py:952-981 | key by idempotency fingerprint, then id by content fingerprint |
| `SqliteStore.SQLiteMetadataStore.RegisterArtifact` | src/cer/metadata/sqlite_store.py:925-1007 | computes `Apply`, references and scope being checked first |
| `SqliteStore.SQLiteMetadataStore.AttachArtifact` | src/cer/metadata/sqlite_store.py:1009-1055 | computes `Apply`: each link is set at most once, and set only to something that exists |
| `SqliteStore.SQLiteMetadataStore.LookUpPromotion` | src/cer/metadata/sqlite_store.py:1123-1150 | key by fingerprint, then id by the whole record |
| `SqliteStore.SQLiteMetadataStore.RecordPromotion` | src/cer/metadata/sqlite_store.py:1107-1174 | computes `Apply` |
| `SqliteStore.SQLiteMetadataStore.LookUpHealth` | src/cer/metadata/sqlite_store.py:1248-1273 | key by fingerprint, then id by the whole record |
| `SqliteStore.SQLiteMetadataStore.RecordHealth` | src/cer/metadata/sqlite_store.py:1235-1314 | computes `Apply` |
| `History.ApplyKeepsValid` | src/cer/metadata/sqlite_store.py:402-1314 | every write keeps the database invariant: unique keys, resolving references, stored fingerprints, rows bound under their own producer |
| `History.EveryTraceIsValid` | src/cer/metadata/sqlite_store.py:402-1314 | the invariant holds after every trace of writes |
| `History.HistoryIsAppendOnly` | src/cer/metadata/sqlite_store.py:662-677 | no trace loses a row or changes a column, except `status`/`ended_at` of an OPEN run and an unset artifact link |
| `History.AnswerIsStored` | src/cer/metadata/sqlite_store.py:402-1314 | nothing is acknowledged that is not stored: the record a write returns is in the database, under its own id, exactly as returned |
| `History.RaisingWriteIsNoOp` | src/cer/metadata/sqlite_store.py:358-363 | a write that raises leaves the database untouched |
| `Retries.FirstSubmissionIsAccepted` | src/cer/metadata/sqlite_store.py:500-570 | with its id and key unused and its references resolving, a submission is stored and returned as sent, and its key is bound |
| `Retries.AcceptedBindsKey` | src/cer/metadata/sqlite_store.py:519-570 | an accepted keyed write leaves its key bound iff it was not the id path that answered |
| `Retries.IdMatchKeyMiss` | src/cer/metadata/sqlite_store.py:535-553 | from the empty database, creating an experiment without a key and then with one is accepted both times and binds no key |
| `Retries.HoldsKeyForever` | src/cer/metadata/sqlite_store.py:519-533 | a bound key stays bound to its fingerprint in every later database |
| `Retries.ReplayIsANoOp` | src/cer/metadata/sqlite_store.py:519-533 | a submission whose key is held writes nothing, and returns the stored record unless a reference fails |
| `Retries.AnswerIsUnderItsKey` | src/cer/metadata/sqlite_store.py:519-570 | the record a submission was answered with is the record its scope is bound to, under the id in the answer, for every kind |
| `Retries.RetryCollapses` | src/cer/metadata/sqlite_store.py:155-218 | a retry with a fresh id and fresh server times, any time later, changes no table; it is answered with the record and the id the first call was answered with iff its own links resolve, and with NotFound otherwise, which only an artifact can meet |
| `Retries.AtLeastOnceIsExactlyOnce` | src/cer/metadata/sqlite_store.py:500-570 | deleting every redelivery from a trace changes neither the database nor any original's answer, and every redelivery is answered with its original's record, links that do not resolve apart |
| `Lifecycle.TerminalForGood` | src/cer/metadata/sqlite_store.py:662-677 | a CLOSED or FAILED run never changes again, and every later close is refused |
| `Lifecycle.CloseIsFinalUnlessOpen` | src/cer/metadata/sqlite_store.py:662-677 | a close freezes the run iff its status is not OPEN |
| `Lifecycle.ReopeningCloseMovesTheEnd` | src/cer/metadata/sqlite_store.py:662-677 | `ended_at` is not write-once: closing to OPEN twice moves it |
| `Lifecycle.ReplayReturnsTheClosedRun` | src/cer/metadata/sqlite_store.py:593-633 | a keyed replay of the creation body after closure returns the run the first call returned, as it is now, reopens nothing, and finds the creation fingerprint |
| `Lifecycle.ExperimentPathsAgree` | src/cer/metadata/sqlite_store.py:519-553 | on every database the writes reach, the id path, which fingerprints again, accepts exactly what the stored fingerprint accepts, so judging by key and judging by id give one verdict |
| `Lifecycle.SameContentIsSameSubmission` | src/cer/metadata/sqlite_store.py:193-218 | equal artifact content fingerprints imply equal idempotency fingerprints |
| `Lifecycle.SameSubmissionOtherContent` | src/cer/metadata/sqlite_store.py:193-218 | not conversely: a re-upload differs in `registered_at` alone |
| `Lifecycle.EvidenceIdPathOnlyRefuses` | src/cer/metadata/sqlite_store.py:746-755 | the "equal" branch of the evidence id path is unreachable |
| `Lifecycle.UsedKeyRefusesExactlyDifferentContent` | src/cer/metadata/sqlite_store.py:519-533 | a used key conflicts iff some field other than the id and the creation time differs |
| `Lifecycle.StrategyIsSettled` | src/cer/metadata/sqlite_store.py:402-438 | however much later, registering a strategy id again returns the stored record iff the content agrees, else ImmutabilityError |
| `Lifecycle.AttachSetsExactly` | src/cer/metadata/sqlite_store.py:1009-1055 | an accepted attach sets exactly the given links of that artifact, and repeated changes nothing |
| `Outcomes.ReferencesComeFirst` | src/cer/metadata/sqlite_store.py:721-727 | a submission that cites a run, experiment or evidence that is not there gets NotFound before anything else is looked at |
| `Outcomes.ExperimentUnderUsedKey` | src/cer/metadata/sqlite_store.py:519-533 | a used key answers the stored experiment iff every field but the id and creation time agrees, else IdempotencyConflict |
| `Outcomes.ExperimentUnderUsedId` | src/cer/metadata/sqlite_store.py:535-553 | a used id with an unused key: the stored experiment iff those fields agree, else ImmutabilityError |
| `Outcomes.ExperimentIsStored` | src/cer/metadata/sqlite_store.py:554-570 | otherwise it is stored and answered as sent, under its id and scope, and no other row changes |
| `Outcomes.RunUnderUsedKey` | src/cer/metadata/sqlite_store.py:603-621 | a used key compares a run as it was created, however it was closed since, in every field but the id and start time |
| `Outcomes.RunUnderUsedId` | src/cer/metadata/sqlite_store.py:623-627 | a used run id is refused whatever the content |
| `Outcomes.RunIsStored` | src/cer/metadata/sqlite_store.py:629-660 | otherwise stored and answered as sent, and nothing else changes |
| `Outcomes.EvidenceUnderUsedKey` | src/cer/metadata/sqlite_store.py:728-745 | a used key answers the stored evidence iff every field but the id and creation time agrees, the metrics and the time of observation included, else IdempotencyConflict |
| `Outcomes.EvidenceUnderUsedId` | src/cer/metadata/sqlite_store.py:746-755 | a used evidence id under another key is refused whatever the content |
| `Outcomes.EvidenceIsStored` | src/cer/metadata/sqlite_store.py:756-810 | otherwise stored and answered as sent, and nothing else changes |
| `Outcomes.ArtifactKeyNeedsProducer` | src/cer/metadata/sqlite_store.py:955-957 | a key without a producer, or with a producer of white space only, is a contract violation |
| `Outcomes.ArtifactUnderUsedKey` | src/cer/metadata/sqlite_store.py:958-972 | a used key answers the stored artifact iff digest, size, content type and filename agree, else IdempotencyConflict |
| `Outcomes.ArtifactUnderUsedId` | src/cer/metadata/sqlite_store.py:973-982 | a used artifact id: the stored record iff everything but the id and the links agrees, else ImmutabilityError |
| `Outcomes.ArtifactIsStored` | src/cer/metadata/sqlite_store.py:983-1007 | otherwise stored and answered as sent, bound to its scope, and nothing else changes |
| `Outcomes.PromotionUnderUsedKey` | src/cer/metadata/sqlite_store.py:1123-1140 | a used key answers the stored promotion iff every field but the id and time agrees, else IdempotencyConflict |
| `Outcomes.PromotionUnderUsedId` | src/cer/metadata/sqlite_store.py:1141-1150 | a used promotion id: the stored record iff the whole record agrees, else ImmutabilityError |
| `Outcomes.PromotionIsStored` | src/cer/metadata/sqlite_store.py:1151-1174 | otherwise stored and answered as sent, and nothing else changes |
| `Outcomes.HealthUnderUsedKey` | src/cer/metadata/sqlite_store.py:1248-1263 | a used key answers the stored health record iff every field but the id and time agrees, else IdempotencyConflict |
| `Outcomes.HealthUnderUsedId` | src/cer/metadata/sqlite_store.py:1264-1273 | a used health id: the stored record iff the whole record agrees, else ImmutabilityError |
| `Outcomes.HealthIsStored` | src/cer/metadata/sqlite_store.py:1274-1314 | otherwise stored and answered as sent, and nothing else changes |
| `Outcomes.StrategyOutcome` | src/cer/metadata/sqlite_store.py:402-438 | a first registration is stored and answered as sent; a repeated one gets the stored record iff name and thesis agree, else ImmutabilityError |
| `Outcomes.VersionOutcome` | src/cer/metadata/sqlite_store.py:440-486 | NotFound without the strategy; a first registration is stored and answered as sent; a repeated one gets the stored version iff everything but the creation time agrees, else ImmutabilityError |
| `Outcomes.VersionIsSettled` | src/cer/metadata/sqlite_store.py:440-486 | and that stays so after any trace of writes |
| `Outcomes.CloseOutcome` | src/cer/metadata/sqlite_store.py:662-677 | an OPEN run gets exactly the status and end time given, and that is the answer; a run that is not OPEN gets ImmutabilityError, an unknown one NotFound, and no other row changes |
| `Outcomes.AttachOutcome` | src/cer/metadata/sqlite_store.py:1009-1055 | NotFound iff artifact or target is not there, ImmutabilityError iff a link would be moved, else the given links are set and nothing else |
| `Serialisability.BodyDecides` | src/cer/metadata/sqlite_store.py:721-755 | guards, key, id, statement by statement, decide what `Apply` decides |
| `Serialisability.StepKeepsSerial` | src/cer/metadata/sqlite_store.py:345-363 | every step of every thread keeps the log a serial execution and the lock discipline, an SQLite error anywhere in a body or at COMMIT included |
| `Serialisability.Serialisable` | src/cer/metadata/sqlite_store.py:345-363 | after any interleaving, committed state and all answers are those of one serial order, and the unique indexes hold |
| `Serialisability.AnswersStayInOrder` | src/cer/metadata/sqlite_store.py:345-363 | that order is the order in which answers were given |
| `Serialisability.WriteGoesThrough` | src/cer/metadata/sqlite_store.py:345-363 | with the file in place and the lock free, every write can be taken to its answer: database and answer are those of the write alone, and the lock is free again |
| `Serialisability.NoWriteStartsWithoutBacking` | src/cer/metadata/sqlite_store.py:338-357 | in every run from a state whose database file is gone, whatever the database still answers goes to threads that were past the check then, for the write they held then, at most once each |
| `Identity.NameIsInjective` | src/cer/api/routes.py:155-157 | `kind:producer:key` is injective over colon-free kinds and producers |
| `Identity.NamesCoincideExactly` | src/cer/api/routes.py:155-157 | two names coincide iff one producer is the other plus a colon and a prefix moved from the key |
| `Identity.ColonInProducerCollides` | src/cer/api/routes.py:155-157 | a colliding pair |
| `Identity.ResolvedKeyIsTheCallers` | src/cer/api/routes.py:163-175 | the header key if it is not empty, else the body key; a contract violation iff both are non-empty and differ |
| `Identity.TakenIdIsOwnScope` | src/cer/api/routes.py:143-160 | a generated id that is taken is taken by the row bound to the very same scope |
| `Identity.IdPathNeverAnswers` | src/cer/api/routes.py:143-160 | through the API an id match with a key miss is unreachable |
| `Identity.ApiKeepsIds` | src/cer/api/routes.py:143-160 | every API call keeps ids derived from their own scope or random |
| `Identity.AcceptedCallBindsForGood` | src/cer/api/routes.py:143-175 | in every later state the scope of an accepted keyed call is bound to the record it was answered with, under the id in the answer, which for a non-empty key is the call's own derived id |
| `NonInterference.DecisionIsLocal` | src/cer/metadata/sqlite_store.py:519-553 | a call is decided from its own producer's rows alone |
| `NonInterference.OthersDoNotInterfere` | src/cer/metadata/sqlite_store.py:1127-1150 | executing everybody's trace and keeping one producer's rows and answers is executing that producer's subtrace |
| `Queries.BuildEvidenceWhere` | src/cer/metadata/sqlite_store.py:833-855 | the clause list built filter by filter is the one the theorems are about |
| `Queries.BuildArtifactWhere` | src/cer/metadata/sqlite_store.py:1073-1080 | the same for `query_artifacts` |
| `Queries.BuildVersionWhere` | src/cer/metadata/sqlite_store.py:1184-1191 | the same for `query_promotions` and `query_health` |
| `Queries.WhereMeansFilters` | src/cer/metadata/sqlite_store.py:833-864 | the clauses select exactly the conjunction of the supplied filters, time bounds as instants |
| `Queries.InOrderListsAll` | src/cer/metadata/sqlite_store.py:857-861 | the ordered result holds each selected row once, strictly descending by `(time, id)` |
| `Queries.ListingIsUnique` | src/cer/metadata/sqlite_store.py:857-861 | that order leaves no choice |
| `Queries.PageIsASlice` | src/cer/metadata/sqlite_store.py:860-863 | any limit and offset: the rows from the offset on, as many as the limit lets through |
| `Queries.PagesTile` | src/cer/metadata/sqlite_store.py:860-863 | consecutive pages concatenate to the whole result |
| `Queries.PagingIsComplete` | src/cer/metadata/sqlite_store.py:857-864 | for any table, view and filters: paging yields exactly the matching rows, each once, newest first, ties by descending id |
| `Queries.EvidencePaging` | src/cer/metadata/sqlite_store.py:820-864 | the same of `query_evidence`, in the terms of its seven filters |
| `Queries.ArtifactPaging` | src/cer/metadata/sqlite_store.py:1065-1089 | the same of `query_artifacts` |
| `Queries.PromotionPaging` | src/cer/metadata/sqlite_store.py:1176-1200 | the same of `query_promotions` |
| `Queries.HealthPaging` | src/cer/metadata/sqlite_store.py:1316-1340 | the same of `query_health` |
| `QueryReach.ReachedTablesPageCompletely` | src/cer/metadata/sqlite_store.py:221-233 | the contract models give every submitted record a UTC time, so after any trace of writes all four tables meet the premise of the paging theorems, and paging any of them is complete |
| `FsStore.FilesystemArtifactStore.constructor` | src/cer/artifacts/fs_store.py:200-225 | the flag starts as what the volume shows |
| `FsStore.FilesystemArtifactStore.RequireLiveBacking` | src/cer/artifacts/fs_store.py:283-299 | refuses iff an initialised store has lost its backing |
| `FsStore.FilesystemArtifactStore.InitialiseStore` | src/cer/artifacts/fs_store.py:369-406 | makes the backing present, sets the flag, touches no data file |
| `FsStore.FilesystemArtifactStore.MarkPreviouslyInitialised` | src/cer/artifacts/fs_store.py:408-438 | sets the flag and nothing else |
| `FsStore.FilesystemArtifactStore.StoreBlobBytes` | src/cer/artifacts/fs_store.py:328-365 | accepts iff the path is free or holds these bytes; never changes a blob |
| `FsStore.FilesystemArtifactStore.PutArtifact` | src/cer/artifacts/fs_store.py:442-509 | computes `Put`, whose every outcome `FsStore.PutOutcome` gives in the fields of the upload |
| `FsStore.PutOutcome` | src/cer/artifacts/fs_store.py:442-509 | blank description or oversize: ArtifactStoreError; declared digest not that of the bytes up to case: ChecksumMismatch; lost backing: ArtifactStoreError; each changes nothing. Bytes that contradict a blob: Immutability. Everything else is stored, with the record spelled out |
| `FsStore.FilesystemArtifactStore.GetArtifact` | src/cer/artifacts/fs_store.py:511-533 | exactly: `stat`'s error if it has one; the blob iff it hashes to the sidecar's digest; ChecksumMismatch if it does not; a storage failure if it is gone |
| `FsStore.FilesystemArtifactStore.StatArtifact` | src/cer/artifacts/fs_store.py:535-563 | computes `Stat`; a malformed id is unknown, an unreadable sidecar and a miss over a lost backing are storage failures |
| `FsStore.FilesystemArtifactStore.ArtifactExists` | src/cer/artifacts/fs_store.py:565-573 | yes iff `stat` answers or meets an unreadable sidecar; where it says no, `stat` reports NotFound, or a storage failure over a lost backing |
| `FsStore.FilesystemArtifactStore.CheckHealth` | src/cer/artifacts/fs_store.py:575-612 | passes iff backing present and writable; creates nothing |
| `FsStore.NoResurrection` | src/cer/artifacts/fs_store.py:262-299 | after backing loss no sequence of calls changes a byte on the volume; every put is refused; a miss is a storage failure except for a malformed id |
| `FsStore.PutThenGet` | src/cer/artifacts/fs_store.py:442-533 | what put acknowledged, get and stat return, the record describing exactly the upload; older blobs keep their bytes |
| `FsStore.SameBytesShareOneBlob` | src/cer/artifacts/fs_store.py:328-365 | the same bytes put twice are two artifacts with two sidecars and one blob |
| `FsStore.SidecarSurvives` | src/cer/artifacts/fs_store.py:442-509 | a sidecar is unchanged by any calls that draw other ids |
| `FsStore.GetReturnsOriginalOrFails` | src/cer/artifacts/fs_store.py:511-533 | after any further calls and any corruption of blobs, get fails or returns exactly the bytes put |
| `PutRefinement.SoloPutIsPut` | src/cer/artifacts/fs_store.py:303-509 | `put` file operation by file operation, with any chunking, refines the method: same state, same answer |
| `Startup.InitialiseArtifactStoreIfSafe` | src/cer/api/main.py:106-198 | computes the decision: the volume is laid out iff metadata answered "none", and is not touched otherwise; the flag goes up iff the layout is there or metadata answered "some" |
| `Startup.StartedIsReached` | src/cer/api/main.py:201-224 | the service's uninterrupted startup is a run of the state machine |
| `Startup.StartupIsTheDecision` | src/cer/api/main.py:106-198 | and leaves the volume and flag that the decision leaves |
| `Startup.ProbeIsHealth` | src/cer/artifacts/fs_store.py:575-612 | a health probe of the service is `health` of the store |
| `ArtifactEndpoint.CreateArtifact` | src/cer/api/routes.py:572-636 | every answer: malformed requests are contract violations; under a bound scope neither store changes, a wrong declared digest is a mismatch, and the bound record answers iff digest, size, content type and filename are those sent, else IdempotencyConflict; otherwise put decides, and what it stores is registered iff the links resolve |
| `ArtifactEndpoint.FreshRegistration` | src/cer/metadata/sqlite_store.py:983-1007 | under an unbound scope a registration adds exactly its own row, or nothing |
| `ServiceInvariants.MoveIsAllowed` | src/cer/artifacts/fs_store.py:303-365 | a request moves a file into place only whole, only under its own name, and only over nothing |
| `ServiceInvariants.BoundScopeWritesNothing` | src/cer/metadata/sqlite_store.py:958-972 | a registration under a bound scope leaves the database as it is |
| `ServiceInvariants.RegisterAnswersBound` | src/cer/metadata/sqlite_store.py:958-972 | whatever artifact a keyed registration answers with is the one its scope is bound to |
| `ServiceInvariants.OthersUndisturbed` | src/cer/artifacts/fs_store.py:442-509 | no step of one request breaks what another request relies on |
| `ServiceInvariants.ActorUndisturbed` | src/cer/api/routes.py:587-636 | a request's own step keeps its temporary file, lock, record and answer sound |
| `ServiceSafety.StepKeepsInv` | src/cer/api/main.py:106-198 | every step of the service keeps the invariant: requests, other writes, probes, loss, corruption, crash, startup |
| `ServiceSafety.ReadinessIsHonest` | src/cer/api/main.py:106-198 | in every reachable state with the backing present, every asserted artifact has its sidecar and a blob with the recorded digest and length, unless bytes were corrupted or a request made the marker anew while there was something to lose |
| `ServiceSafety.AnswersForestallRebuilding` | src/cer/api/main.py:165-186 | when every startup query was answered, no request makes the marker anew |
| `ServiceSafety.CanonicalPathsAreComplete` | src/cer/artifacts/fs_store.py:303-326 | wherever things stopped, a sidecar is absent or whole, and a blob that was not corrupted hashes to its name; with no loss either, every sidecar names a blob with its digest and length |
| `ServiceHistory.BlobsAreWrittenOnce` | src/cer/artifacts/fs_store.py:328-365 | no upload, crash or restart changes a stored blob's bytes |
| `ServiceHistory.RunKeepsRequests` | src/cer/api/routes.py:587-636 | through any run a request keeps its form, the id it drew and its answer |
| `ServiceHistory.OneArtifactPerKey` | src/cer/api/routes.py:587-636 | successful requests under one `(producer, key)`, concurrent or far apart in time, got one artifact id, backed by one row; the first answer stands |
| `ServiceHistory.OrphansBounded` | src/cer/api/routes.py:564-570 | orphan sidecars plus the registered one number at most the requests whose lookup preceded the first commit, however long the run |
| `ServiceHistory.MissesEndWithTheBinding` | src/cer/api/routes.py:587-593 | once a scope is bound no lookup under it misses |
| `ServiceHistory.LateRequestWritesNothing` | src/cer/api/routes.py:587-624 | a retry or conflict after the binding changes no file, flag, lock or row |
| `ServiceAnswers.AnswersAreTrue` | src/cer/api/routes.py:572-636 | in every reachable state an answered artifact records the bytes, content type and filename its request sent; under a key the answer is the bound artifact if that records what was sent and a conflict if not; mismatches and contract violations are what they say |
| `ServiceAnswers.UsedKeyIsLookedUp` | src/cer/api/routes.py:587-613 | a well-formed request under a bound key touches no store in its lookup, and is refused there iff its declared digest is wrong |
| `ServiceAnswers.UsedKeyIsAnswered` | src/cer/api/routes.py:614-624 | and is then answered, whatever happened in between, with the bound record iff digest, size, content type and filename are those sent, else IdempotencyConflict |
| `ServiceAnswers.UnfitUploadLeavesNothing` | src/cer/artifacts/fs_store.py:466-474 | a request with a wrong digest, a blank description or too many bytes draws no id, so no sidecar and no row is of its making; one with a wrong digest is never answered with an artifact |
| `ServiceHistory.LostStaysLost` | src/cer/api/main.py:165-186 | a volume gone while metadata asserts artifacts never reads as ready again, probes and restarts included, unless a request makes the marker anew, which none does when every query is answered |
| `ServiceReads.VerifiedRead` | src/cer/artifacts/fs_store.py:511-563 | whatever happens before the sidecar is read and between that and reading the blob, corruption included, get returns the bytes uploaded under the id, or a checksum mismatch iff they were changed, or a storage failure iff they are gone |
| `ServiceReads.AssertedIsReadable` | src/cer/artifacts/fs_store.py:511-533 | with the provisos of honest readiness, over a ready volume get of every registered id returns its upload, with the digest and length the metadata records |
| `ServiceRuns.UploadIsAsserted` | src/cer/api/routes.py:572-636 | an idle service takes every acceptable upload all the way, keyed or not, linked or not: a run ends with the artifact as the answer and its row in the metadata, bound to its scope |
| `ServiceRuns.HonestyNeedsTheAnswer` | src/cer/artifacts/fs_store.py:489-493 | from every state that asserts an artifact, an unanswered startup query can end in readiness over a lost one |
| `ServiceRuns.ReadinessCanLie` | src/cer/api/main.py:188-198 | and from every first deployment there is a run to such an end |
| `Migrations.LoadMigrations` | src/cer/metadata/migrations.py:44-67 | fails iff a file is misnamed or a version repeats; else one migration per file in strict version order |
| `Migrations.NameIsRead` | src/cer/metadata/migrations.py:31 | `<digits>_<description>.sql` is read as the version its digits spell |
| `Migrations.ReadNameHasForm` | src/cer/metadata/migrations.py:31 | and no other name is read |
| `Migrations.HighestVersion` | src/cer/metadata/migrations.py:145 | no version is higher; none iff there are no files |
| `Migrations.HighestIsThere` | src/cer/metadata/migrations.py:145 | and it is the version of one of the migrations |
| `Migrations.SortIsSorted` | src/cer/metadata/migrations.py:66 | the sort is a permutation, strictly ascending when versions differ |
| `Migrations.Connection.ExecuteScript` | src/cer/metadata/migrations.py:131-132 | statements commit one by one up to the first error |
| `Migrations.Connection.ApplyOne` | src/cer/metadata/migrations.py:105-143 | skip, refuse, or script then tracking row |
| `Migrations.Connection.ApplyMigrations` | src/cer/metadata/migrations.py:70-145 | executes the plan made from the rows read at the start; returns the highest version |
| `Migrations.EditedMigrationIsRefused` | src/cer/metadata/migrations.py:105-116 | a changed checksum stops the run before that file and everything after it |
| `Migrations.NothingToDo` | src/cer/metadata/migrations.py:105-117 | a run executes nothing iff every version is recorded with its file's checksum |
| `MigrationProgress.OnlyRepeatedAddColumnFails` | src/cer/metadata/schema/003_optional_idempotency_keys.sql:40-47 | a statement fails iff it is an ADD COLUMN executed before |
| `MigrationProgress.PlanStartsAtBoundary` | src/cer/metadata/migrations.py:99-117 | a run resumes at the first unrecorded migration, at or before what has happened |
| `MigrationRace.RaceEndsClean` | src/cer/metadata/migrations.py:119-143 | for every disciplined set of scripts and every interleaving: clean schema, a completed runner, all other stops loud |
| `MigrationRace.LateIndexIsDropped` | src/cer/metadata/schema/002_producer_scoped_idempotency.sql:20-21 | an index that clean runs end without is present only while some runner is still going to drop it |
| `MigrationRace.RecordedMeansExecuted` | src/cer/metadata/migrations.py:131-138 | a recorded version's statements, and those before it, have all taken effect, at every moment of a race |
| `MigrationRace.EnoughTurnsStop` | src/cer/metadata/migrations.py:105-145 | every runner stops after as many turns as there are statements, and one |
| `MigrationWinners.EachColumnIsAddedOnce` | src/cer/metadata/migrations.py:119-143 | once all have stopped, every ADD COLUMN was executed by exactly one runner |
| `MigrationWinners.AllFinishIffNoneShare` | src/cer/metadata/migrations.py:119-143 | all runners complete iff no two starting plans share an ADD COLUMN |
| `MigrationWinners.OneEarlyRunnerCompletes` | src/cer/metadata/migrations.py:99-143 | when the last file starts by adding a column, exactly one of the runners that started before its version was recorded completes, and all complete iff there was only that one |
| `MigrationWinners.TwoRacersCanFail` | src/cer/metadata/migrations.py:117-130 | a schedule of two runners in which one completes and the other fails |
| `MigrationCrash.RerunHealsExactly` | src/cer/metadata/migrations.py:105-145 | after any crashes a full run heals iff no unrecorded version has added a column; else it fails loudly and changes nothing, forever |
| `MigrationCrash.RecordedSurvivesCrashes` | src/cer/metadata/migrations.py:131-138 | after any crashes and reruns, the statements of every recorded version, and those before it, are in force |
| `MigrationCrash.FirstCrashHealsByPosition` | src/cer/metadata/migrations.py:105-145 | where scripts add columns first or not at all, a run that stops after its first `m` statements heals iff `m` is not inside a script that adds columns |
| `MigrationCrash.RerunAfterSuccessIsEmpty` | src/cer/metadata/migrations.py:105-117 | a run after a successful run executes nothing |
| `SchemaScripts.CerIsDisciplined` | src/cer/metadata/schema/001_initial.sql:15-185 | the four files keep the discipline the theorems ask for |
| `CerMigrationLaws.CerRaceEndsClean` | src/cer/metadata/schema/004_artifact_idempotency_keys.sql:63-77 | racing runners of 001 to 004 leave exactly the clean schema |
| `CerMigrationLaws.CerAllCompleteIffOneEarly` | src/cer/metadata/schema/004_artifact_idempotency_keys.sql:63-77 | of the runners of 001 to 004 that found something to do exactly one completes, and all complete iff there was only that one |
| `CerMigrationLaws.CerEarlyMeansBeforeFour` | src/cer/metadata/migrations.py:99-117 | at every moment of a race, a runner that starts finds something to do iff version 4 is not recorded |
| `CerMigrationLaws.CerTwoRacersFail` | src/cer/metadata/schema/003_optional_idempotency_keys.sql:40-47 | two runners of 001 to 004 that both start on the empty database: one completes and one fails |
| `CerMigrationLaws.CerGlobalIndexesGo` | src/cer/metadata/schema/002_producer_scoped_idempotency.sql:20-31 | the two global indexes are not in the clean schema, and a late one always has a runner that will drop it |
| `CerMigrationLaws.CerCrashHealsUnlessColumnsAreUnrecorded` | src/cer/metadata/schema/004_artifact_idempotency_keys.sql:63-77 | after any crashes of the four files a rerun heals iff the first column of neither 003 nor 004 is there with its version unrecorded |
| `CerMigrationLaws.CerFirstCrashPoint` | src/cer/metadata/schema/003_optional_idempotency_keys.sql:40-68 | the files are 48 statements; a first run that stops after `m` of them heals iff neither `33 < m < 43` nor `43 < m < 48`, and otherwise stays stuck |
| `CerMigrationLaws.CerCleanSchema` | src/cer/metadata/schema/001_initial.sql:15-185 | the clean schema is all eight tables, nine added columns and no other, every index but the two global ones, four recorded checksums |
| `CerMigrationLaws.CerRerunIsEmpty` | src/cer/metadata/migrations.py:105-117 | reopening a migrated database executes no migration SQL |

## Left out

- Identity.AcceptedCallBindsForGood: not stated for artifacts, whose ids are always random; `ServiceHistory.OneArtifactPerKey` covers them.
- NonInterference.OthersDoNotInterfere: experiments, promotions and health records only; runs, evidence and artifacts cite rows of other producers.
- MigrationRace.RaceEndsClean: runners do not crash during a race, and the database holds no rows, so creating a unique index cannot fail on data.
- Timestamps.RoundTrip: `_str_to_dt` is modelled on the two layouts `isoformat()` writes, not on everything `fromisoformat` reads.
- ServiceSafety.ReadinessIsHonest: one process at a time; a loss takes the marker with whatever else it takes, the volume does not come back, and corruption changes the bytes of blobs only; losing or swapping the metadata database is outside the environment.
- ServiceReads.VerifiedRead: reading one file is one step; `get` takes no step of its own, its two reads being of any two states of a run.
- Queries.PagingIsComplete: the pages are read from one table; rows written between two pages are not modelled.
- PutRefinement.SoloPutIsPut: the two looks `put` takes at the backing are one step, as are the removal of a temporary file and the release of the lock after a failed write.
- Whitespace in `strip()` is space, tab, carriage return and newline; characters are ASCII where text is ordered.
- Columns that no index and no ALTER TABLE mentions, and the WHERE clauses of partial indexes, are not in the migration schema.
- Derived provenance fields, pydantic validators, identifier patterns, enum checks and contract-version checks.
- Cited evidence ids, parents of evidence and parents of runs, which CER deliberately does not resolve.
- Reads by id (`get_*`), `health()` of the metadata store, HTTP wiring, error mapping, the client, configuration and logging.
- SQLite's WAL, busy timeout and file locking beyond an exclusive lock with atomic commit and rollback; `fsync` beyond an atomic `os.replace`.
