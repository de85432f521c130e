/** `POST /v1/artifacts` for one caller at a time: the replay lookup, then the artifact store, then
    the metadata store, over the two store objects. */
module ArtifactEndpoint {
  import opened Wrappers
  import opened Timestamps
  import opened Contract
  import opened Tables
  import opened Metadata
  import opened History
  import opened Outcomes
  import opened Volumes
  import FsStore
  import opened SqliteStore
  import opened Service
  import opened ServiceAnswers
  import opened ServiceInvariants

  /** What a registration under an unbound scope leaves in the metadata: its own row or nothing. */
  ghost predicate Registered(db: Db, db': Db, f: Form, id: string) {
    && id in db'.artifacts && db'.artifacts.Keys == db.artifacts.Keys + {id}
    && (f.key.Some? ==> Binds(db'.artifacts, id, ScopeOf(f).value))
  }

  lemma FreshRegistration(h: Hasher, db: Db, f: Form, a: ArtifactRecord)
    requires !ScopeBound(db, f) && a.artifactId !in db.artifacts
    ensures var (db', reply) := Apply(h, db, RegisterOp(f, a));
      if reply.Raised? then db' == db else reply == ArtifactIs(a) && Registered(db, db', f, a.artifactId)
  {
    if f.key.Some? {
      assert FindByScope(db.artifacts, ScopeOf(f).value).None?;
    } else {
      assert Judge(db.artifacts, ArtifactSubmission(h, db, a, None, "")) == Insert;
    }
  }

  lemma BoundRegistrationAnswers(h: Hasher, db: Db, f: Form, a: ArtifactRecord, id: string)
    requires OneRowPerScope(db.artifacts) && f.key.Some? && Binds(db.artifacts, id, ScopeOf(f).value)
    ensures var (db', reply) := Apply(h, db, RegisterOp(f, a));
      db' == db && (reply.Raised? || reply == ArtifactIs(db.artifacts[id].record))
  {
    FindIsTheRow(db.artifacts, id, ScopeOf(f).value);
  }

  /** The metadata store can be reached and commits. */
  predicate Committing(metadata: SQLiteMetadataStore)
    reads metadata
  {
    metadata.backing && !metadata.locked && !metadata.commitFails
  }

  lemma BoundCandidateAnswers(h: Hasher, trace: seq<Op>, c: Codec, f: Form, candidate: ArtifactRecord, id: string)
    requires f.key.Some? && !Unscoped(f.producer) && RecordsUpload(c, candidate, f.upload)
    requires Binds(Exec(h, EMPTY_DB, trace).artifacts, id, ScopeOf(f).value)
    requires var s := Exec(h, EMPTY_DB, trace).artifacts[id].record;
      candidate.runId == s.runId && candidate.evidenceId == s.evidenceId
    ensures var db := Exec(h, EMPTY_DB, trace);
      var (db', reply) := Apply(h, db, RegisterArtifact(candidate, f.key, f.producer));
      var s := db.artifacts[id].record;
      && db' == db && (reply.Raised? || reply == ArtifactIs(s))
      && (Injective(h) ==>
            reply == if RecordsUpload(c, s, f.upload) then ArtifactIs(s) else Raised(IdempotencyConflict))
  {
    var db := Exec(h, EMPTY_DB, trace);
    EveryTraceIsValid(h, EMPTY_DB, trace);
    BoundRegistrationAnswers(h, db, f, candidate, id);
    if Injective(h) { ArtifactUnderUsedKey(h, db, candidate, f.key.value, f.producer.value, id); }
  }

  /** A registration under a key that is bound already. */
  method Replay(metadata: SQLiteMetadataStore, ghost c: Codec, f: Form, candidate: ArtifactRecord, ghost bound: string)
    returns (reply: Reply)
    requires metadata.Valid() && f.key.Some? && !Unscoped(f.producer)
    requires Binds(metadata.committed.artifacts, bound, ScopeOf(f).value)
    requires RecordsUpload(c, candidate, f.upload)
    requires candidate.runId == metadata.committed.artifacts[bound].record.runId
    requires candidate.evidenceId == metadata.committed.artifacts[bound].record.evidenceId
    modifies metadata
    ensures metadata.Valid() && metadata.committed == old(metadata.committed)
    ensures reply.Raised? || reply == ArtifactIs(metadata.committed.artifacts[bound].record)
    ensures Injective(metadata.hash) && old(Committing(metadata)) ==>
      var s := metadata.committed.artifacts[bound].record;
      reply == if RecordsUpload(c, s, f.upload) then ArtifactIs(s) else Raised(IdempotencyConflict)
  {
    BoundCandidateAnswers(metadata.hash, metadata.trace, c, f, candidate, bound);
    reply := metadata.RegisterArtifact(candidate, f.key, f.producer);
  }

  lemma UnboundRegistration(h: Hasher, db: Db, f: Form, a: ArtifactRecord)
    requires !ScopeBound(db, f) && a.artifactId !in db.artifacts && (f.key.Some? ==> !Unscoped(f.producer))
    ensures var (db', reply) := Apply(h, db, RegisterOp(f, a));
      if LinksResolve(db, a) then reply == ArtifactIs(a) && Registered(db, db', f, a.artifactId)
      else db' == db && reply == Raised(NotFound)
  {
    FreshRegistration(h, db, f, a);
    if LinksResolve(db, a) {
      assert Scopes(f.key, f.producer);
      var producer := if f.key.Some? then f.producer else None;
      forall id ensures !Bound(db.artifacts, ScopeUnder(ScopeProducer(producer), f.key), id) {
        assert f.key.Some? ==> !Binds(db.artifacts, id, ScopeOf(f).value);
      }
      ArtifactIsStored(h, db, a, f.key, producer);
    }
  }

  /** The record put stored, with the links the request carries. */
  function Linked(f: Form, a: ArtifactRecord): ArtifactRecord { a.(runId := f.runId, evidenceId := f.evidenceId) }

  /** `put` decides first; then, with a store that commits, whether the links resolve. */
  ghost predicate StoredAndRegistered(f: Form, id: string, put: (FsStore.Fs, Result<ArtifactRecord>), fs: FsStore.Fs,
                                      db: Db, db': Db, reply: Reply, commits: bool)
  {
    var r := put.1;
    && fs == put.0
    && (r.Err? ==> reply == Raised(r.error))
    && (r.Ok? && reply.Raised? ==> commits ==> reply.error == NotFound && !LinksResolve(db, Linked(f, r.value)))
    && (!reply.Raised? ==>
          && r.Ok? && reply == ArtifactIs(Linked(f, r.value)) && LinksResolve(db, reply.artifact)
          && Registered(db, db', f, id))
  }

  /** A registration under a scope that is not bound: bytes, then sidecar, then row. */
  method Store(metadata: SQLiteMetadataStore, artifacts: FsStore.FilesystemArtifactStore, f: Form, id: string,
               now: DateTime)
    returns (reply: Reply)
    requires metadata.Valid() && !ScopeBound(metadata.committed, f) && (f.key.Some? ==> !Unscoped(f.producer))
    requires id !in metadata.committed.artifacts
    modifies metadata, artifacts
    ensures metadata.Valid() && (reply.Raised? ==> metadata.committed == old(metadata.committed))
    ensures StoredAndRegistered(
      f, id, FsStore.Put(artifacts.codec, artifacts.maxBytes, old(artifacts.State()), f.upload, id, now),
      artifacts.State(), old(metadata.committed), metadata.committed, reply, old(Committing(metadata)))
  {
    var stored := artifacts.PutArtifact(f.upload, id, now);
    if stored.Err? { return Raised(stored.error); }
    var record := Submitted(f, stored.value);
    UnboundRegistration(metadata.hash, metadata.committed, f, record);
    reply := metadata.RegisterArtifact(record, f.key, if f.key.Some? then f.producer else None);
  }

  /** `POST /v1/artifacts`, every answer.  A malformed request is refused with nothing done.  Under a
      key that is bound neither store changes: a wrong declared digest is refused, the bound record
      answers an upload it is a record of, and any other upload is a conflict.  Otherwise `put`
      decides first; what it stores is registered, and asserted by the metadata, exactly when the
      links resolve. */
  method CreateArtifact(metadata: SQLiteMetadataStore, artifacts: FsStore.FilesystemArtifactStore, f: Form, id: string,
                        now: DateTime)
    returns (reply: Reply)
    requires metadata.Valid() && (f.key.Some? ==> f.key.value != "")
    requires id !in metadata.committed.artifacts
    modifies metadata, artifacts
    ensures metadata.Valid() && (reply.Raised? ==> metadata.committed == old(metadata.committed))
    ensures Malformed(f, artifacts.maxBytes) ==>
      reply == Raised(ContractViolation) && artifacts.State() == old(artifacts.State())
    ensures !Malformed(f, artifacts.maxBytes) && f.key.Some? ==>
      forall bound :: Binds(old(metadata.committed).artifacts, bound, ScopeOf(f).value) ==>
        var s := old(metadata.committed).artifacts[bound].record;
        && artifacts.State() == old(artifacts.State()) && metadata.committed == old(metadata.committed)
        && (reply.Raised? || reply == ArtifactIs(s))
        && (!RightDigest(artifacts.codec, f.upload) ==> reply == Raised(ChecksumMismatch))
        && (RightDigest(artifacts.codec, f.upload) && Injective(metadata.hash) && old(Committing(metadata)) ==>
              reply == if RecordsUpload(artifacts.codec, s, f.upload) then ArtifactIs(s)
                       else Raised(IdempotencyConflict))
    ensures !Malformed(f, artifacts.maxBytes) && !old(ScopeBound(metadata.committed, f)) ==> StoredAndRegistered(
      f, id, FsStore.Put(artifacts.codec, artifacts.maxBytes, old(artifacts.State()), f.upload, id, now),
      artifacts.State(), old(metadata.committed), metadata.committed, reply, old(Committing(metadata)))
  {
    if f.upload.filename == "" { return Raised(ContractViolation); }
    if |f.upload.data| > artifacts.maxBytes { return Raised(ContractViolation); }
    if f.key.Some? {
      if Unscoped(f.producer) { return Raised(ContractViolation); }
      var prior := metadata.FindArtifactByIdempotencyKey(f.producer.value, f.key.value);
      if prior.value.Some? {
        ghost var bound :| Binds(metadata.committed.artifacts, bound, ScopeOf(f).value)
          && metadata.committed.artifacts[bound].record == prior.value.value;
        TraceKeysUnique(metadata.hash, metadata.trace);
        DeclaredWronglyMeans(artifacts.codec, f.upload);
        if DeclaredWrongly(artifacts.codec, f.upload) { return Raised(ChecksumMismatch); }
        var candidate := prior.value.value.(sha256 := artifacts.codec.sha(f.upload.data), sizeBytes := |f.upload.data|,
                                            contentType := f.upload.contentType, filename := f.upload.filename);
        reply := Replay(metadata, artifacts.codec, f, candidate, bound);
        return;
      }
    }
    assert !ScopeBound(metadata.committed, f);
    reply := Store(metadata, artifacts, f, id, now);
  }
}
