/** What every step of the two-store protocol keeps. */
module ServiceInvariants {
  import opened Wrappers
  import opened Contract
  import opened Tables
  import opened Metadata
  import opened History
  import opened Volumes
  import opened Service

  // ---------------------------------------------------------------------------
  // One request
  // ---------------------------------------------------------------------------

  /** What has been written so far is a prefix of what is to be written. */
  ghost predicate TempOk(w: World, v: Volume, rid: Rid, r: Request) {
    match r.phase
    case WritingBlob(n) => n <= |r.form.upload.data| && (rid in v.temps ==> v.temps[rid] == r.form.upload.data[..n])
    case WritingSidecar(record, n) =>
      n <= |w.codec.encode(record)| && (rid in v.temps ==> v.temps[rid] == w.codec.encode(record)[..n])
    case _ => true
  }

  /** Between the existence check and the move the request holds the lock, and no blob stands at
      its path. */
  ghost predicate LockOk(w: World, sh: Shared, rid: Rid, r: Request) {
    && (HoldsLock(r.phase) ==> sh.lock == Some(rid))
    && (PlacingBlob(r.phase) ==> Digest(w, r.form) !in sh.volume.blobs)
  }

  ghost predicate RecordOk(w: World, sh: Shared, r: Request) {
    && (r.minted.Some? ==> r.missed && r.minted.value in sh.minted)
    && (HasRecord(r.phase) ==>
          r.minted == Some(r.phase.record.artifactId) && r.phase.record.artifactId !in sh.db.artifacts
          && r.phase.record == RecordFor(w.codec, r.form.upload, r.phase.record.artifactId,
                                         r.phase.record.registeredAt))
    && (!HasRecord(r.phase) && !Inactive(r.phase) ==> r.minted.None?)
    && (!r.phase.Arrived? && !Inactive(r.phase) && !r.phase.Replaying? ==> r.missed)
  }

  /** While nothing has been taken away, what the request put on the volume is still there. */
  ghost predicate PlacedOk(w: World, v: Volume, r: Request) {
    && (HasRecord(r.phase) ==> Digest(w, r.form) in v.blobs && v.blobs[Digest(w, r.form)] == r.form.upload.data)
    && (r.phase.Registering? ==>
          r.phase.record.artifactId in v.sidecars
            && v.sidecars[r.phase.record.artifactId] == w.codec.encode(r.phase.record))
  }

  ghost predicate ScopeBound(db: Db, f: Form) {
    f.key.Some? && exists id :: Binds(db.artifacts, id, ScopeOf(f).value)
  }

  ghost predicate AnswerBound(db: Db, f: Form, reply: Reply) {
    f.key.Some? && reply.ArtifactIs? ==> Binds(db.artifacts, reply.artifact.artifactId, ScopeOf(f).value)
  }

  ghost predicate KeyOk(sh: Shared, r: Request) {
    && (!r.phase.Arrived? && !Inactive(r.phase) && r.form.key.Some? ==> !Unscoped(r.form.producer))
    && (r.phase.Replaying? ==> ScopeBound(sh.db, r.form))
    && (r.phase.Done? ==> AnswerBound(sh.db, r.form, r.phase.reply))
  }

  ghost predicate RequestOk(w: World, sh: Shared, rid: Rid, r: Request, intact: bool) {
    TempOk(w, sh.volume, rid, r) && LockOk(w, sh, rid, r) && RecordOk(w, sh, r) && KeyOk(sh, r)
    && (intact ==> PlacedOk(w, sh.volume, r))
  }

  // ---------------------------------------------------------------------------
  // Effects
  // ---------------------------------------------------------------------------

  predicate OwnsId(r: Request, id: string) { r.phase.Registering? && r.phase.record.artifactId == id }

  /** What a request's own state guarantees about the effect of its next step on the files. */
  ghost predicate FilesAllowed(w: World, sh: Shared, rid: Rid, r: Request, e: Effect) {
    match e
    case TakeLock => sh.lock.None?
    case DropLock => sh.lock == Some(rid)
    case MakeMarker => r.phase.WritingMarker?
    case ReuseBlob(id) => sh.lock == Some(rid) && id !in sh.minted
    case PlaceBlob(digest, id) =>
      && sh.lock == Some(rid) && id !in sh.minted && digest == Digest(w, r.form) && digest !in sh.volume.blobs
      && rid in sh.volume.temps && sh.volume.temps[rid] == r.form.upload.data
    case PlaceSidecar(id) =>
      && r.phase.WritingSidecar? && r.phase.record.artifactId == id
      && rid in sh.volume.temps && sh.volume.temps[rid] == w.codec.encode(r.phase.record)
    case _ => true
  }

  /** And on the metadata. */
  ghost predicate StoreAllowed(w: World, db: Db, r: Request, after: Db) {
    && Valid(w.hash, after) && Extends(db, after)
    && forall id :: id in after.artifacts && id !in db.artifacts ==> OwnsId(r, id)
  }

  ghost predicate Allowed(w: World, sh: Shared, rid: Rid, r: Request, e: Effect) {
    if e.Store? then StoreAllowed(w, sh.db, r, e.after) else FilesAllowed(w, sh, rid, r, e)
  }

  /** The record a request offers to the metadata store. */
  function Offered(r: Request): ArtifactRecord
    requires r.phase.Replaying? || r.phase.Registering?
  {
    if r.phase.Replaying? then r.phase.candidate else Submitted(r.form, r.phase.record)
  }

  lemma RegisterKeepsDb(w: World, sh: Shared, f: Form, a: ArtifactRecord)
    requires Valid(w.hash, sh.db)
    ensures Valid(w.hash, Apply(w.hash, sh.db, RegisterOp(f, a)).0)
    ensures Extends(sh.db, Apply(w.hash, sh.db, RegisterOp(f, a)).0)
  {
    ApplyKeepsValid(w.hash, sh.db, RegisterOp(f, a));
    ApplyExtends(w.hash, sh.db, RegisterOp(f, a));
  }

  /** A registration under a scope that is bound already writes nothing. */
  lemma BoundScopeWritesNothing(h: Hasher, db: Db, f: Form, a: ArtifactRecord)
    requires ScopeBound(db, f)
    ensures Apply(h, db, RegisterOp(f, a)).0 == db
  {
    var id :| Binds(db.artifacts, id, ScopeOf(f).value);
    assert FindByScope(db.artifacts, ScopeOf(f).value).Some?;
  }

  /** A registration adds at most its own row. */
  lemma RegisterAddsOwnRow(h: Hasher, db: Db, f: Form, a: ArtifactRecord, id: string)
    requires id in Apply(h, db, RegisterOp(f, a)).0.artifacts && id !in db.artifacts
    ensures id == a.artifactId
    ensures Apply(h, db, RegisterOp(f, a)).0.artifacts[id].record == a
    ensures f.key.Some? ==> Binds(Apply(h, db, RegisterOp(f, a)).0.artifacts, id, ScopeOf(f).value)
    ensures f.key.None? ==> Apply(h, db, RegisterOp(f, a)).0.artifacts[id].binding.None?
  {
    var w := Decide(h, db, RegisterOp(f, a)).write;
    assert w.InsertArtifact? || w.NoWrite?;
  }

  /** Whatever artifact a keyed registration answers with is the one its scope is bound to. */
  lemma RegisterAnswersBound(h: Hasher, db: Db, f: Form, a: ArtifactRecord)
    requires Valid(h, db) && (a.artifactId in db.artifacts ==> ScopeBound(db, f))
    ensures AnswerBound(Apply(h, db, RegisterOp(f, a)).0, f, Apply(h, db, RegisterOp(f, a)).1)
  {
    if ScopeBound(db, f) {
      var id :| Binds(db.artifacts, id, ScopeOf(f).value);
      FindIsTheRow(db.artifacts, id, ScopeOf(f).value);
      assert ArtifactBound(h, db.artifacts[id], id);
    }
  }

  lemma RegisterIsAllowed(w: World, sh: Shared, r: Request, a: ArtifactRecord)
    requires Valid(w.hash, sh.db) && (OwnsId(r, a.artifactId) || ScopeBound(sh.db, r.form))
    ensures StoreAllowed(w, sh.db, r, Apply(w.hash, sh.db, RegisterOp(r.form, a)).0)
  {
    RegisterKeepsDb(w, sh, r.form, a);
    if ScopeBound(sh.db, r.form) { BoundScopeWritesNothing(w.hash, sh.db, r.form, a); }
    forall id | id in Apply(w.hash, sh.db, RegisterOp(r.form, a)).0.artifacts && id !in sh.db.artifacts
      ensures OwnsId(r, id)
    {
      RegisterAddsOwnRow(w.hash, sh.db, r.form, a, id);
    }
  }

  lemma FileMoveIsAllowed(w: World, sh: Shared, rid: Rid, r: Request, ch: Choice)
    requires TempOk(w, sh.volume, rid, r) && LockOk(w, sh, rid, r)
    requires ch.id !in sh.minted && (r.phase.WantingLock? ==> sh.lock.None?)
    ensures FilesAllowed(w, sh, rid, r, FileMove(w, sh, rid, r, ch).effect)
    ensures !FileMove(w, sh, rid, r, ch).effect.Store?
  {
    match r.phase
    case WritingBlob(n) => if n >= |r.form.upload.data| { assert r.form.upload.data[..n] == r.form.upload.data; }
    case WritingSidecar(record, n) =>
      if n >= |w.codec.encode(record)| { assert w.codec.encode(record)[..n] == w.codec.encode(record); }
    case _ =>
  }

  lemma MoveIsAllowed(w: World, sh: Shared, rid: Rid, r: Request, ch: Choice)
    requires Valid(w.hash, sh.db) && TempOk(w, sh.volume, rid, r) && LockOk(w, sh, rid, r) && KeyOk(sh, r)
    requires ch.id !in sh.minted && (r.phase.WantingLock? ==> sh.lock.None?)
    ensures Allowed(w, sh, rid, r, NextMove(w, sh, rid, r, ch).effect)
  {
    if r.phase.Replaying? || r.phase.Registering? {
      RegisterIsAllowed(w, sh, r, Offered(r));
    } else if !r.phase.Arrived? {
      FileMoveIsAllowed(w, sh, rid, r, ch);
    }
  }

  /** A canonical sidecar is a whole record under its own id. */
  ghost predicate SidecarComplete(w: World, v: Volume, id: string) {
    id in v.sidecars && exists record: ArtifactRecord ::
      v.sidecars[id] == w.codec.encode(record) && record.artifactId == id
  }

  ghost predicate SidecarsComplete(w: World, v: Volume) { forall id :: id in v.sidecars ==> SidecarComplete(w, v, id) }

  lemma EffectKeepsSidecarsComplete(w: World, sh: Shared, rid: Rid, r: Request, e: Effect)
    requires SidecarsComplete(w, sh.volume) && (e.Store? || FilesAllowed(w, sh, rid, r, e))
    ensures SidecarsComplete(w, Effected(sh, rid, e).volume)
  {
    var v, v' := sh.volume, Effected(sh, rid, e).volume;
    forall id | id in v'.sidecars ensures SidecarComplete(w, v', id) {
      if id in v.sidecars && v'.sidecars[id] == v.sidecars[id] { assert SidecarComplete(w, v, id); }
    }
  }

  lemma EffectKeepsBlobsNamed(w: World, sh: Shared, rid: Rid, r: Request, e: Effect)
    requires BlobsNamed(w.codec, sh.volume) && (e.Store? || FilesAllowed(w, sh, rid, r, e))
    ensures BlobsNamed(w.codec, Effected(sh, rid, e).volume)
  {
  }

  /** No step of any request changes the bytes of a blob that is already there. */
  lemma EffectKeepsBlobs(w: World, sh: Shared, rid: Rid, r: Request, e: Effect)
    requires e.Store? || FilesAllowed(w, sh, rid, r, e)
    ensures Frozen(sh.volume.blobs, Effected(sh, rid, e).volume.blobs)
  {
  }

  /** Nor of a sidecar, except to write the request's own. */
  lemma EffectKeepsSidecar(w: World, sh: Shared, rid: Rid, r: Request, e: Effect, id: string)
    requires (e.Store? || FilesAllowed(w, sh, rid, r, e)) && id in sh.volume.sidecars
    requires HasRecord(r.phase) ==> id != r.phase.record.artifactId
    ensures id in Effected(sh, rid, e).volume.sidecars
    ensures Effected(sh, rid, e).volume.sidecars[id] == sh.volume.sidecars[id]
  {
    if e.PlaceSidecar? { assert e.id != id; }
  }

  lemma ExtendsReflexive(h: Hasher, db: Db)
    requires Valid(h, db)
    ensures Extends(db, db)
  {
    HistoryIsAppendOnly(h, db, []);
  }

  lemma EffectKeepsDb(w: World, sh: Shared, rid: Rid, r: Request, e: Effect)
    requires Valid(w.hash, sh.db) && Allowed(w, sh, rid, r, e)
    ensures Valid(w.hash, Effected(sh, rid, e).db) && Extends(sh.db, Effected(sh, rid, e).db)
  {
    ExtendsReflexive(w.hash, sh.db);
  }

  // ---------------------------------------------------------------------------
  // The other requests
  // ---------------------------------------------------------------------------

  lemma BindsForever(db: Db, db': Db, id: string, scope: Scope)
    requires Extends(db, db') && Binds(db.artifacts, id, scope)
    ensures Binds(db'.artifacts, id, scope)
  {
    assert ArtifactKept(db.artifacts[id], db'.artifacts[id]);
  }

  lemma KeyStaysOk(sh: Shared, sh': Shared, r: Request)
    requires KeyOk(sh, r) && Extends(sh.db, sh'.db)
    ensures KeyOk(sh', r)
  {
    if r.phase.Replaying? {
      var id :| Binds(sh.db.artifacts, id, ScopeOf(r.form).value);
      BindsForever(sh.db, sh'.db, id, ScopeOf(r.form).value);
    }
    if r.phase.Done? && r.form.key.Some? && r.phase.reply.ArtifactIs? {
      BindsForever(sh.db, sh'.db, r.phase.reply.artifact.artifactId, ScopeOf(r.form).value);
    }
  }

  predicate DistinctMints(r: Request, o: Request) { r.minted.Some? ==> r.minted != o.minted }

  lemma OtherFilesStay(w: World, sh: Shared, rid: Rid, r: Request, e: Effect, oid: Rid, o: Request)
    requires (e.Store? || FilesAllowed(w, sh, rid, r, e)) && RecordOk(w, sh, r) && RecordOk(w, sh, o)
      && DistinctMints(r, o)
    requires PlacedOk(w, sh.volume, o)
    ensures PlacedOk(w, Effected(sh, rid, e).volume, o)
  {
    EffectKeepsBlobs(w, sh, rid, r, e);
    if o.phase.Registering? { EffectKeepsSidecar(w, sh, rid, r, e, o.phase.record.artifactId); }
  }

  lemma OtherLockAndTempStay(w: World, sh: Shared, rid: Rid, r: Request, e: Effect, oid: Rid, o: Request)
    requires oid != rid && (e.Store? || FilesAllowed(w, sh, rid, r, e))
    requires TempOk(w, sh.volume, oid, o) && LockOk(w, sh, oid, o)
    ensures TempOk(w, Effected(sh, rid, e).volume, oid, o) && LockOk(w, Effected(sh, rid, e), oid, o)
  {
  }

  lemma OtherRecordStays(w: World, sh: Shared, rid: Rid, r: Request, e: Effect, o: Request)
    requires Allowed(w, sh, rid, r, e) && RecordOk(w, sh, r) && RecordOk(w, sh, o) && DistinctMints(r, o)
    ensures RecordOk(w, Effected(sh, rid, e), o)
  {
    if HasRecord(o.phase) && e.Store? { assert !OwnsId(r, o.phase.record.artifactId); }
  }

  /** A request is not disturbed by another request's step. */
  lemma OthersUndisturbed(w: World, sh: Shared, rid: Rid, r: Request, e: Effect, oid: Rid, o: Request, intact: bool)
    requires Valid(w.hash, sh.db) && oid != rid && DistinctMints(r, o)
    requires Allowed(w, sh, rid, r, e) && RecordOk(w, sh, r) && RequestOk(w, sh, oid, o, intact)
    ensures RequestOk(w, Effected(sh, rid, e), oid, o, intact)
  {
    EffectKeepsDb(w, sh, rid, r, e);
    KeyStaysOk(sh, Effected(sh, rid, e), o);
    OtherLockAndTempStay(w, sh, rid, r, e, oid, o);
    OtherRecordStays(w, sh, rid, r, e, o);
    if intact { OtherFilesStay(w, sh, rid, r, e, oid, o); }
  }

  // ---------------------------------------------------------------------------
  // The request that moves
  // ---------------------------------------------------------------------------

  /** Ids are fresh when drawn, so no row is stored under one that was not drawn. */
  predicate RowsMinted(sh: Shared) { forall id :: id in sh.db.artifacts ==> id in sh.minted }

  /** A step at the metadata store leaves the files, the lock and the drawn ids alone. */
  lemma MetadataMove(w: World, sh: Shared, rid: Rid, r: Request, ch: Choice)
    requires AtMetadata(r.phase)
    ensures var m := NextMove(w, sh, rid, r, ch);
            && (m.effect.Quiet? || m.effect.Store?) && m.next.form == r.form && m.next.minted == r.minted
            && (m.next.phase.Done?
                || (r.phase.Arrived? && (m.next.phase.Replaying? || (m.next.phase.CheckingBacking? && m.next.missed))))
            && (r.missed ==> m.next.missed)
  {
  }

  lemma ActorTempOk(w: World, sh: Shared, rid: Rid, r: Request, ch: Choice)
    requires TempOk(w, sh.volume, rid, r)
    ensures var m := FileMove(w, sh, rid, r, ch); TempOk(w, Effected(sh, rid, m.effect).volume, rid, m.next)
  {
  }

  lemma ActorLockOk(w: World, sh: Shared, rid: Rid, r: Request, ch: Choice)
    requires LockOk(w, sh, rid, r)
    ensures var m := FileMove(w, sh, rid, r, ch); LockOk(w, Effected(sh, rid, m.effect), rid, m.next)
  {
  }

  lemma ActorRecordOk(w: World, sh: Shared, rid: Rid, r: Request, ch: Choice)
    requires RecordOk(w, sh, r) && RowsMinted(sh) && ch.id !in sh.minted && !Inactive(r.phase) && !AtMetadata(r.phase)
    requires LockOk(w, sh, rid, r)
    ensures var m := FileMove(w, sh, rid, r, ch); RecordOk(w, Effected(sh, rid, m.effect), m.next)
  {
  }

  lemma ActorPlacedOk(w: World, sh: Shared, rid: Rid, r: Request, ch: Choice)
    requires TempOk(w, sh.volume, rid, r) && PlacedOk(w, sh.volume, r)
    ensures var m := FileMove(w, sh, rid, r, ch); PlacedOk(w, Effected(sh, rid, m.effect).volume, m.next)
  {
    match r.phase
    case WritingBlob(n) => if n >= |r.form.upload.data| { assert r.form.upload.data[..n] == r.form.upload.data; }
    case WritingSidecar(record, n) =>
      if n >= |w.codec.encode(record)| { assert w.codec.encode(record)[..n] == w.codec.encode(record); }
    case _ =>
  }

  lemma ActorKeyOk(w: World, sh: Shared, rid: Rid, r: Request, ch: Choice)
    requires KeyOk(sh, r) && !Inactive(r.phase) && !AtMetadata(r.phase)
    ensures var m := FileMove(w, sh, rid, r, ch); KeyOk(Effected(sh, rid, m.effect), m.next)
  {
  }

  lemma LookUpKeyOk(w: World, sh: Shared, r: Request, ch: Choice)
    requires r.phase.Arrived?
    ensures KeyOk(sh, LookUp(w, sh, r, ch).next)
  {
  }

  lemma RegisterKeyOk(w: World, sh: Shared, rid: Rid, r: Request, ch: Choice)
    requires Valid(w.hash, sh.db) && KeyOk(sh, r) && RecordOk(w, sh, r) && (r.phase.Replaying? || r.phase.Registering?)
    ensures var m := Register(w, sh, r, Offered(r), ch); KeyOk(Effected(sh, rid, m.effect), m.next)
  {
    RegisterAnswersBound(w.hash, sh.db, r.form, Offered(r));
    assert Register(w, sh, r, Offered(r), ch).next.phase.Done?;
  }

  lemma LookUpKeepsOk(w: World, sh: Shared, rid: Rid, r: Request, ch: Choice, intact: bool)
    requires RequestOk(w, sh, rid, r, intact) && r.phase.Arrived?
    ensures var m := NextMove(w, sh, rid, r, ch); RequestOk(w, Effected(sh, rid, m.effect), rid, m.next, intact)
  {
    MetadataMove(w, sh, rid, r, ch);
    LookUpKeyOk(w, sh, r, ch);
  }

  /** An answered request relies on nothing but its binding. */
  lemma AnsweredIsOk(w: World, sh: Shared, rid: Rid, r: Request, intact: bool)
    requires r.phase.Done? && KeyOk(sh, r) && (r.minted.Some? ==> r.missed && r.minted.value in sh.minted)
    ensures RequestOk(w, sh, rid, r, intact)
  {
  }

  lemma RegisterKeepsOk(w: World, sh: Shared, rid: Rid, r: Request, ch: Choice, intact: bool)
    requires Valid(w.hash, sh.db) && RequestOk(w, sh, rid, r, intact) && (r.phase.Replaying? || r.phase.Registering?)
    ensures var m := NextMove(w, sh, rid, r, ch); RequestOk(w, Effected(sh, rid, m.effect), rid, m.next, intact)
  {
    var m := NextMove(w, sh, rid, r, ch);
    MetadataMove(w, sh, rid, r, ch);
    RegisterKeyOk(w, sh, rid, r, ch);
    AnsweredIsOk(w, Effected(sh, rid, m.effect), rid, m.next, intact);
  }

  /** A request's own step keeps it sound. */
  lemma ActorUndisturbed(w: World, sh: Shared, rid: Rid, r: Request, ch: Choice, intact: bool)
    requires Valid(w.hash, sh.db) && RowsMinted(sh) && ch.id !in sh.minted && !Inactive(r.phase)
    requires RequestOk(w, sh, rid, r, intact)
    ensures var m := NextMove(w, sh, rid, r, ch); RequestOk(w, Effected(sh, rid, m.effect), rid, m.next, intact)
  {
    if r.phase.Arrived? {
      LookUpKeepsOk(w, sh, rid, r, ch, intact);
    } else if AtMetadata(r.phase) {
      RegisterKeepsOk(w, sh, rid, r, ch, intact);
    } else {
      ActorTempOk(w, sh, rid, r, ch);
      ActorLockOk(w, sh, rid, r, ch);
      ActorRecordOk(w, sh, rid, r, ch);
      ActorKeyOk(w, sh, rid, r, ch);
      if intact { ActorPlacedOk(w, sh, rid, r, ch); }
    }
  }
}
