/** The invariant of the whole service, in every state it can reach, and the safety that
    follows: readiness is never green over a lost artifact. */
module ServiceSafety {
  import opened Wrappers
  import opened Contract
  import opened Metadata
  import opened History
  import opened Volumes
  import opened Service
  import opened ServiceInvariants

  // ---------------------------------------------------------------------------
  // The invariant
  // ---------------------------------------------------------------------------

  /** Nothing the metadata asserts can be missing: no blob was corrupted, and either nothing was ever
      lost, or the marker stands and no request made it anew over something to lose. */
  predicate Intact(s: State) { !s.corrupted && (!s.everLost || (!s.rebuilt && s.shared.volume.marker)) }

  ghost predicate RequestsOk(w: World, s: State) {
    forall rid :: rid in s.requests ==> RequestOk(w, s.shared, rid, s.requests[rid], Intact(s))
  }

  predicate MintsDistinct(requests: map<Rid, Request>) {
    forall i, j :: i in requests && j in requests && i != j ==> DistinctMints(requests[i], requests[j])
  }

  predicate MakesBacking(p: Phase) { p.MakingLayout? || p.WritingMarker? }

  /** What the startup decision establishes. */
  predicate StartupOk(s: State) {
    && (!s.process.Serving? ==> s.shared.lock.None? && forall rid :: rid in s.requests ==>
        Inactive(s.requests[rid].phase))
    && (s.allAnswered && s.process.Serving? ==> s.shared.initialised)
    && (s.allAnswered ==> !s.rebuilt && forall rid :: rid in s.requests ==> !MakesBacking(s.requests[rid].phase))
    && (s.process.Creating? || s.process.MarkingCreated? ==> s.shared.db.artifacts == map[])
  }

  /** A sidecar is a whole record, and the blob it names is there with the digest and length it states. */
  ghost predicate SidecarBacked(w: World, v: Volume, id: string) {
    id in v.sidecars && exists record: ArtifactRecord ::
      v.sidecars[id] == w.codec.encode(record) && record.artifactId == id && BlobBacks(w, v, record)
  }

  predicate BlobBacks(w: World, v: Volume, record: ArtifactRecord) {
    record.sha256 in v.blobs && w.codec.sha(v.blobs[record.sha256]) == record.sha256
    && |v.blobs[record.sha256]| == record.sizeBytes
  }

  ghost predicate SidecarsBacked(w: World, v: Volume) { forall id :: id in v.sidecars ==> SidecarBacked(w, v, id) }

  /** What stands on the volume whether or not anything was lost. */
  ghost predicate FilesOk(w: World, s: State) {
    && SidecarsComplete(w, s.shared.volume)
    && (!s.corrupted ==> BlobsNamed(w.codec, s.shared.volume))
    && (!s.corrupted && !s.everLost ==> SidecarsBacked(w, s.shared.volume))
  }

  ghost predicate Inv(w: World, s: State) {
    && Valid(w.hash, s.shared.db) && RowsMinted(s.shared) && FilesOk(w, s)
    && StartupOk(s) && MintsDistinct(s.requests) && RequestsOk(w, s)
    && (Intact(s) ==> AllHeld(w, s.shared))
  }

  // ---------------------------------------------------------------------------
  // One request moves
  // ---------------------------------------------------------------------------

  predicate MintsFresh(sh: Shared, r: Request, next: Request) {
    next.minted == r.minted || (next.minted.Some? && next.minted.value !in sh.minted)
  }

  /** What the move of one request has to satisfy for the service to stay sound. */
  ghost predicate SoundMove(w: World, s: State, rid: Rid, m: Move) {
    && s.process.Serving? && rid in s.requests && Allowed(w, s.shared, rid, s.requests[rid], m.effect)
    && RequestOk(w, Effected(s.shared, rid, m.effect), rid, m.next, Intact(s))
    && MintsFresh(s.shared, s.requests[rid], m.next)
    && (s.allAnswered ==> !MakesBacking(m.next.phase)) && (m.effect.MakeMarker? ==> !HasRecord(m.next.phase))
    && (Intact(s) && m.effect.Store? ==> NewRowsHeld(w, s.shared, m.effect.after))
  }

  ghost predicate NewRowsHeld(w: World, sh: Shared, after: Db) {
    forall id :: id in after.artifacts && id !in sh.db.artifacts ==>
      Held(w.codec, sh.volume, id, after.artifacts[id].record.sha256, after.artifacts[id].record.sizeBytes)
  }

  /** Only making the marker changes whether it is there. */
  lemma EffectKeepsMarker(sh: Shared, rid: Rid, e: Effect)
    requires !e.MakeMarker?
    ensures Effected(sh, rid, e).volume.marker == sh.volume.marker
  {
  }

  /** A move leaves the state as intact as it was, unless it makes the marker over nothing at all. */
  lemma IntactUnmoved(w: World, s: State, rid: Rid, m: Move)
    requires SoundMove(w, s, rid, m)
    ensures Intact(Act(s, rid, m)) == Intact(s) || RestoresMarker(s, m)
  {
    if !m.effect.MakeMarker? { EffectKeepsMarker(s.shared, rid, m.effect); }
  }

  predicate RestoresMarker(s: State, m: Move) {
    !Intact(s) && !s.corrupted && m.effect.MakeMarker? && s.shared.db.artifacts == map[] && !UploadsUnderWay(s.requests)
  }

  lemma StartupUnmoved(w: World, s: State, rid: Rid, m: Move)
    requires StartupOk(s) && SoundMove(w, s, rid, m)
    ensures StartupOk(Act(s, rid, m))
  {
  }

  lemma MintsStayDistinct(w: World, s: State, rid: Rid, m: Move)
    requires MintsDistinct(s.requests) && RequestsOk(w, s) && SoundMove(w, s, rid, m)
    ensures MintsDistinct(Act(s, rid, m).requests)
  {
    forall oid | oid in s.requests ensures RecordOk(w, s.shared, s.requests[oid]) {
      assert RequestOk(w, s.shared, oid, s.requests[oid], Intact(s));
    }
    NewMintStaysDistinct(w, s.shared, s.requests, rid, m.next);
  }

  lemma NewMintStaysDistinct(w: World, sh: Shared, requests: map<Rid, Request>, rid: Rid, next: Request)
    requires MintsDistinct(requests) && rid in requests && MintsFresh(sh, requests[rid], next)
    requires forall oid :: oid in requests ==> RecordOk(w, sh, requests[oid])
    ensures MintsDistinct(requests[rid := next])
  {
    forall oid | oid in requests && oid != rid
      ensures DistinctMints(next, requests[oid]) && DistinctMints(requests[oid], next)
    {
      assert RecordOk(w, sh, requests[oid]) && DistinctMints(requests[rid], requests[oid]);
    }
  }

  lemma RequestsStayOk(w: World, s: State, rid: Rid, m: Move)
    requires Inv(w, s) && SoundMove(w, s, rid, m)
    ensures forall oid :: oid in Act(s, rid, m).requests ==>
      RequestOk(w, Act(s, rid, m).shared, oid, Act(s, rid, m).requests[oid], Intact(s))
  {
    var s' := Act(s, rid, m);
    forall oid | oid in s'.requests ensures RequestOk(w, s'.shared, oid, s'.requests[oid], Intact(s)) {
      if oid != rid {
        assert RequestOk(w, s.shared, rid, s.requests[rid], Intact(s));
        OthersUndisturbed(w, s.shared, rid, s.requests[rid], m.effect, oid, s.requests[oid], Intact(s));
      }
    }
  }

  /** With no put between its blob and its row there is nothing to have lost. */
  lemma NothingToLose(w: World, sh: Shared, oid: Rid, o: Request, intact: bool)
    requires RequestOk(w, sh, oid, o, intact) && !HasRecord(o.phase)
    ensures RequestOk(w, sh, oid, o, true)
  {
  }

  lemma MoveKeepsRequestsOk(w: World, s: State, rid: Rid, m: Move)
    requires Inv(w, s) && SoundMove(w, s, rid, m)
    ensures RequestsOk(w, Act(s, rid, m))
  {
    var s' := Act(s, rid, m);
    IntactUnmoved(w, s, rid, m);
    RequestsStayOk(w, s, rid, m);
    if Intact(s') != Intact(s) {
      forall oid | oid in s'.requests ensures RequestOk(w, s'.shared, oid, s'.requests[oid], true) {
        assert oid != rid ==> oid in s.requests && s'.requests[oid] == s.requests[oid];
        NothingToLose(w, s'.shared, oid, s'.requests[oid], Intact(s));
      }
    }
  }

  lemma RowsStayMinted(w: World, sh: Shared, rid: Rid, r: Request, e: Effect)
    requires RowsMinted(sh) && RecordOk(w, sh, r) && Allowed(w, sh, rid, r, e)
    ensures RowsMinted(Effected(sh, rid, e))
  {
  }

  lemma HeldSurvives(w: World, v: Volume, v': Volume, id: string, sha256: string, size: nat)
    requires Held(w.codec, v, id, sha256, size) && Frozen(v.blobs, v'.blobs)
    requires id in v'.sidecars && v'.sidecars[id] == v.sidecars[id]
    ensures Held(w.codec, v', id, sha256, size)
  {
  }

  lemma RowStays(w: World, sh: Shared, rid: Rid, r: Request, e: Effect, id: string)
    requires Allowed(w, sh, rid, r, e) && id in sh.db.artifacts
    ensures var sh' := Effected(sh, rid, e);
      && id in sh'.db.artifacts && sh'.db.artifacts[id].record.sha256 == sh.db.artifacts[id].record.sha256
      && sh'.db.artifacts[id].record.sizeBytes == sh.db.artifacts[id].record.sizeBytes
  {
    if e.Store? { assert ArtifactKept(sh.db.artifacts[id], e.after.artifacts[id]); }
  }

  lemma HeldStays(w: World, sh: Shared, rid: Rid, r: Request, e: Effect, id: string)
    requires AllHeld(w, sh) && RecordOk(w, sh, r) && Allowed(w, sh, rid, r, e) && id in sh.db.artifacts
    ensures var sh' := Effected(sh, rid, e);
      id in sh'.db.artifacts && Held(w.codec, sh'.volume, id, sh'.db.artifacts[id].record.sha256,
                                     sh'.db.artifacts[id].record.sizeBytes)
  {
    EffectKeepsBlobs(w, sh, rid, r, e);
    EffectKeepsSidecar(w, sh, rid, r, e, id);
    RowStays(w, sh, rid, r, e, id);
    HeldSurvives(w, sh.volume, Effected(sh, rid, e).volume, id, sh.db.artifacts[id].record.sha256,
                 sh.db.artifacts[id].record.sizeBytes);
  }

  lemma AllStayHeld(w: World, s: State, rid: Rid, m: Move)
    requires Inv(w, s) && SoundMove(w, s, rid, m) && Intact(s)
    ensures AllHeld(w, Act(s, rid, m).shared)
  {
    assert RequestOk(w, s.shared, rid, s.requests[rid], Intact(s));
    var sh' := Effected(s.shared, rid, m.effect);
    forall id | id in sh'.db.artifacts
      ensures Held(w.codec, sh'.volume, id, sh'.db.artifacts[id].record.sha256, sh'.db.artifacts[id].record.sizeBytes)
    {
      if id in s.shared.db.artifacts { HeldStays(w, s.shared, rid, s.requests[rid], m.effect, id); }
    }
  }

  lemma SidecarStaysBacked(w: World, sh: Shared, rid: Rid, r: Request, e: Effect, id: string)
    requires e.Store? || FilesAllowed(w, sh, rid, r, e)
    requires SidecarBacked(w, sh.volume, id) && !(e.PlaceSidecar? && e.id == id)
    ensures SidecarBacked(w, Effected(sh, rid, e).volume, id)
  {
    EffectKeepsBlobs(w, sh, rid, r, e);
    var record :| sh.volume.sidecars[id] == w.codec.encode(record) && record.artifactId == id
      && BlobBacks(w, sh.volume, record);
    assert BlobBacks(w, Effected(sh, rid, e).volume, record);
  }

  lemma SidecarsStayBacked(w: World, sh: Shared, rid: Rid, r: Request, e: Effect)
    requires (e.Store? || FilesAllowed(w, sh, rid, r, e)) && RecordOk(w, sh, r) && PlacedOk(w, sh.volume, r)
    requires SidecarsBacked(w, sh.volume) && BlobsNamed(w.codec, sh.volume)
    ensures SidecarsBacked(w, Effected(sh, rid, e).volume)
  {
    var v' := Effected(sh, rid, e).volume;
    forall id | id in v'.sidecars ensures SidecarBacked(w, v', id) {
      if e.PlaceSidecar? && e.id == id {
        assert BlobBacks(w, v', r.phase.record);
      } else {
        SidecarStaysBacked(w, sh, rid, r, e, id);
      }
    }
  }

  lemma MoveKeepsFiles(w: World, s: State, rid: Rid, m: Move)
    requires FilesOk(w, s) && RequestsOk(w, s) && SoundMove(w, s, rid, m)
    ensures FilesOk(w, Act(s, rid, m))
  {
    var sh, r, e := s.shared, s.requests[rid], m.effect;
    assert RequestOk(w, sh, rid, r, Intact(s));
    EffectKeepsSidecarsComplete(w, sh, rid, r, e);
    if !s.corrupted { EffectKeepsBlobsNamed(w, sh, rid, r, e); }
    if !s.corrupted && !s.everLost { SidecarsStayBacked(w, sh, rid, r, e); }
  }

  lemma MoveKeepsHeld(w: World, s: State, rid: Rid, m: Move)
    requires Inv(w, s) && SoundMove(w, s, rid, m) && Intact(Act(s, rid, m))
    ensures AllHeld(w, Act(s, rid, m).shared)
  {
    IntactUnmoved(w, s, rid, m);
    if Intact(s) { AllStayHeld(w, s, rid, m); }
  }

  lemma MoveKeepsInv(w: World, s: State, rid: Rid, m: Move)
    requires Inv(w, s) && SoundMove(w, s, rid, m)
    ensures Inv(w, Act(s, rid, m))
  {
    assert RequestOk(w, s.shared, rid, s.requests[rid], Intact(s));
    StartupUnmoved(w, s, rid, m);
    MintsStayDistinct(w, s, rid, m);
    MoveKeepsRequestsOk(w, s, rid, m);
    RowsStayMinted(w, s.shared, rid, s.requests[rid], m.effect);
    EffectKeepsDb(w, s.shared, rid, s.requests[rid], m.effect);
    MoveKeepsFiles(w, s, rid, m);
    if Intact(Act(s, rid, m)) { MoveKeepsHeld(w, s, rid, m); }
  }

  lemma RegisteredRowIsHeld(w: World, sh: Shared, r: Request)
    requires Faithful(w.codec) && r.phase.Registering? && RecordOk(w, sh, r) && PlacedOk(w, sh.volume, r)
    requires BlobsNamed(w.codec, sh.volume)
    ensures NewRowsHeld(w, sh, Apply(w.hash, sh.db, RegisterOp(r.form, Offered(r))).0)
  {
    var after := Apply(w.hash, sh.db, RegisterOp(r.form, Offered(r))).0;
    var a := r.phase.record;
    assert w.codec.decode(w.codec.encode(a)) == Some(a);
    forall id | id in after.artifacts && id !in sh.db.artifacts
      ensures Held(w.codec, sh.volume, id, after.artifacts[id].record.sha256, after.artifacts[id].record.sizeBytes)
    {
      RegisterAddsOwnRow(w.hash, sh.db, r.form, Offered(r), id);
    }
  }

  lemma RegisterKeepsHeld(w: World, sh: Shared, r: Request, ch: Choice)
    requires Faithful(w.codec) && (r.phase.Replaying? || r.phase.Registering?)
    requires RecordOk(w, sh, r) && PlacedOk(w, sh.volume, r) && KeyOk(sh, r) && BlobsNamed(w.codec, sh.volume)
    ensures var m := Register(w, sh, r, Offered(r), ch); m.effect.Store? ==> NewRowsHeld(w, sh, m.effect.after)
  {
    if r.phase.Replaying? {
      BoundScopeWritesNothing(w.hash, sh.db, r.form, Offered(r));
    } else {
      RegisteredRowIsHeld(w, sh, r);
    }
  }

  /** With every startup query answered, the flag is up, and no `put` rebuilds the layout. */
  lemma BackingIsNotRebuilt(w: World, s: State, rid: Rid, ch: Choice)
    requires StartupOk(s) && Enabled(w, s, Advance(rid, ch)) && s.allAnswered
    ensures !MakesBacking(NextMove(w, s.shared, rid, s.requests[rid], ch).next.phase)
  {
    if AtMetadata(s.requests[rid].phase) { MetadataMove(w, s.shared, rid, s.requests[rid], ch); }
  }

  lemma FileMoveMintsFresh(w: World, sh: Shared, rid: Rid, r: Request, ch: Choice)
    requires ch.id !in sh.minted
    ensures MintsFresh(sh, r, FileMove(w, sh, rid, r, ch).next)
  {
  }

  lemma AdvanceMintsFresh(w: World, sh: Shared, rid: Rid, r: Request, ch: Choice)
    requires ch.id !in sh.minted
    ensures MintsFresh(sh, r, NextMove(w, sh, rid, r, ch).next)
  {
    if AtMetadata(r.phase) { MetadataMove(w, sh, rid, r, ch); } else { FileMoveMintsFresh(w, sh, rid, r, ch); }
  }

  lemma MarkerLeadsToTheLock(w: World, sh: Shared, rid: Rid, r: Request, ch: Choice)
    ensures NextMove(w, sh, rid, r, ch).effect.MakeMarker? ==> !HasRecord(NextMove(w, sh, rid, r, ch).next.phase)
  {
    if AtMetadata(r.phase) { MetadataMove(w, sh, rid, r, ch); }
  }

  lemma AdvanceHoldsNewRows(w: World, sh: Shared, rid: Rid, r: Request, ch: Choice)
    requires Faithful(w.codec) && RequestOk(w, sh, rid, r, true) && BlobsNamed(w.codec, sh.volume)
    requires ch.id !in sh.minted && (r.phase.WantingLock? ==> sh.lock.None?)
    ensures var e := NextMove(w, sh, rid, r, ch).effect; e.Store? ==> NewRowsHeld(w, sh, e.after)
  {
    if r.phase.Replaying? || r.phase.Registering? {
      RegisterKeepsHeld(w, sh, r, ch);
    } else if !r.phase.Arrived? {
      FileMoveIsAllowed(w, sh, rid, r, ch);
    }
  }

  lemma AdvanceIsSound(w: World, s: State, rid: Rid, ch: Choice)
    requires Faithful(w.codec) && Inv(w, s) && Enabled(w, s, Advance(rid, ch))
    ensures SoundMove(w, s, rid, NextMove(w, s.shared, rid, s.requests[rid], ch))
  {
    var sh, r := s.shared, s.requests[rid];
    assert RequestOk(w, sh, rid, r, Intact(s));
    MoveIsAllowed(w, sh, rid, r, ch);
    ActorUndisturbed(w, sh, rid, r, ch, Intact(s));
    if s.allAnswered { BackingIsNotRebuilt(w, s, rid, ch); }
    AdvanceMintsFresh(w, sh, rid, r, ch);
    MarkerLeadsToTheLock(w, sh, rid, r, ch);
    if Intact(s) { AdvanceHoldsNewRows(w, sh, rid, r, ch); }
  }

  lemma FailKeepsOk(w: World, sh: Shared, rid: Rid, r: Request, intact: bool)
    requires RequestOk(w, sh, rid, r, intact) && MayFail(r.phase)
    ensures RequestOk(w, Effected(sh, rid, DropTemp), rid, FailMove(r).next, intact)
  {
  }

  lemma FailIsSound(w: World, s: State, rid: Rid)
    requires Inv(w, s) && Enabled(w, s, Fail(rid))
    ensures SoundMove(w, s, rid, FailMove(s.requests[rid]))
  {
    assert RequestOk(w, s.shared, rid, s.requests[rid], Intact(s));
    FailKeepsOk(w, s.shared, rid, s.requests[rid], Intact(s));
  }

  // ---------------------------------------------------------------------------
  // The other steps
  // ---------------------------------------------------------------------------

  lemma ReceiveKeepsInv(w: World, s: State, rid: Rid, f: Form)
    requires Inv(w, s) && Enabled(w, s, Receive(rid, f))
    ensures Inv(w, Do(w, s, Receive(rid, f)))
  {
    var s' := Do(w, s, Receive(rid, f));
    forall oid | oid in s'.requests ensures RequestOk(w, s'.shared, oid, s'.requests[oid], Intact(s')) {
      if oid != rid { assert RequestOk(w, s.shared, oid, s.requests[oid], Intact(s)); }
    }
  }

  lemma OnlyRegistrationInserts(h: Hasher, db: Db, op: Op)
    requires !op.RegisterArtifact?
    ensures !Decide(h, db, op).write.InsertArtifact?
  {
  }

  lemma OtherWriteAddsNoRow(h: Hasher, db: Db, op: Op)
    requires !op.RegisterArtifact?
    ensures Apply(h, db, op).0.artifacts.Keys == db.artifacts.Keys
  {
    OnlyRegistrationInserts(h, db, op);
    PerformAddsNoRow(db, Decide(h, db, op).write);
  }

  lemma PerformAddsNoRow(db: Db, w: Write)
    requires !w.InsertArtifact?
    ensures Perform(db, w).artifacts.Keys == db.artifacts.Keys
  {
    if w.UpdateLinks? && w.artifactId in db.artifacts {
      assert Perform(db, w).artifacts.Keys == db.artifacts.Keys + {w.artifactId};
    } else {
      assert Perform(db, w).artifacts == db.artifacts;
    }
  }

  /** No other write touches an artifact row, its links apart. */
  lemma OtherWriteKeepsRows(h: Hasher, db: Db, op: Op, id: string)
    requires Valid(h, db) && !op.RegisterArtifact? && id in Apply(h, db, op).0.artifacts
    ensures id in db.artifacts && ArtifactKept(db.artifacts[id], Apply(h, db, op).0.artifacts[id])
  {
    OtherWriteAddsNoRow(h, db, op);
    ApplyExtends(h, db, op);
  }

  lemma OtherWriteKeepsRequest(w: World, sh: Shared, op: Op, oid: Rid, o: Request, intact: bool)
    requires Valid(w.hash, sh.db) && !op.RegisterArtifact? && RequestOk(w, sh, oid, o, intact)
    ensures RequestOk(w, sh.(db := Apply(w.hash, sh.db, op).0), oid, o, intact)
  {
    var sh' := sh.(db := Apply(w.hash, sh.db, op).0);
    ApplyExtends(w.hash, sh.db, op);
    KeyStaysOk(sh, sh', o);
    if HasRecord(o.phase) && o.phase.record.artifactId in sh'.db.artifacts {
      OtherWriteKeepsRows(w.hash, sh.db, op, o.phase.record.artifactId);
    }
  }

  lemma OtherWriteKeepsHeld(w: World, sh: Shared, op: Op)
    requires Valid(w.hash, sh.db) && !op.RegisterArtifact? && AllHeld(w, sh)
    ensures AllHeld(w, sh.(db := Apply(w.hash, sh.db, op).0))
  {
    var after := Apply(w.hash, sh.db, op).0;
    forall id | id in after.artifacts
      ensures Held(w.codec, sh.volume, id, after.artifacts[id].record.sha256, after.artifacts[id].record.sizeBytes)
    {
      OtherWriteKeepsRows(w.hash, sh.db, op, id);
    }
  }

  lemma OtherWriteKeepsMinted(w: World, sh: Shared, op: Op)
    requires Valid(w.hash, sh.db) && !op.RegisterArtifact? && RowsMinted(sh)
    ensures RowsMinted(sh.(db := Apply(w.hash, sh.db, op).0))
  {
    forall id | id in Apply(w.hash, sh.db, op).0.artifacts ensures id in sh.minted {
      OtherWriteKeepsRows(w.hash, sh.db, op, id);
    }
  }

  lemma OtherWriteKeepsInv(w: World, s: State, op: Op)
    requires Inv(w, s) && Enabled(w, s, OtherWrite(op))
    ensures Inv(w, Do(w, s, OtherWrite(op)))
  {
    var s' := Do(w, s, OtherWrite(op));
    ApplyKeepsValid(w.hash, s.shared.db, op);
    OtherWriteKeepsMinted(w, s.shared, op);
    if Intact(s) { OtherWriteKeepsHeld(w, s.shared, op); }
    OtherWriteKeepsRequests(w, s, s', op);
  }

  lemma OtherWriteKeepsRequests(w: World, s: State, s': State, op: Op)
    requires Valid(w.hash, s.shared.db) && !op.RegisterArtifact? && RequestsOk(w, s)
    requires s' == s.(shared := s.shared.(db := Apply(w.hash, s.shared.db, op).0))
    ensures RequestsOk(w, s')
  {
    forall oid | oid in s'.requests ensures RequestOk(w, s'.shared, oid, s'.requests[oid], Intact(s')) {
      assert RequestOk(w, s.shared, oid, s.requests[oid], Intact(s));
      OtherWriteKeepsRequest(w, s.shared, op, oid, s.requests[oid], Intact(s));
    }
  }

  /** A loss shrinks the files, so what was complete is complete; and it takes the marker. */
  lemma LossKeepsRequest(w: World, sh: Shared, left: Volume, oid: Rid, o: Request, intact: bool)
    requires RequestOk(w, sh, oid, o, intact) && IsLoss(sh.volume, left)
    ensures RequestOk(w, sh.(volume := left), oid, o, false)
  {
  }

  lemma LossKeepsComplete(w: World, v: Volume, left: Volume)
    requires SidecarsComplete(w, v) && IsLoss(v, left)
    ensures SidecarsComplete(w, left)
  {
    forall id | id in left.sidecars ensures SidecarComplete(w, left, id) { assert SidecarComplete(w, v, id); }
  }

  lemma LossKeepsInv(w: World, s: State, left: Volume)
    requires Inv(w, s) && IsLoss(s.shared.volume, left)
    ensures Inv(w, Lose(s, left))
  {
    LossKeepsComplete(w, s.shared.volume, left);
    LossKeepsRequests(w, s, left);
  }

  /** Corruption leaves the names of the blobs, the sidecars and what requests are writing. */
  lemma CorruptionKeepsRequest(w: World, sh: Shared, blobs: map<string, Bytes>, oid: Rid, o: Request, intact: bool)
    requires RequestOk(w, sh, oid, o, intact) && blobs.Keys == sh.volume.blobs.Keys
    ensures RequestOk(w, sh.(volume := sh.volume.(blobs := blobs)), oid, o, false)
  {
  }

  lemma CorruptionKeepsInv(w: World, s: State, blobs: map<string, Bytes>)
    requires Inv(w, s) && blobs.Keys == s.shared.volume.blobs.Keys
    ensures Inv(w, CorruptNow(s, blobs))
  {
    var s' := CorruptNow(s, blobs);
    assert FilesOk(w, s') by { CorruptionKeepsComplete(w, s.shared.volume, blobs); }
    assert StartupOk(s') && s'.requests == s.requests && RowsMinted(s'.shared);
    CorruptionKeepsRequests(w, s, blobs);
  }

  lemma CorruptionKeepsComplete(w: World, v: Volume, blobs: map<string, Bytes>)
    requires SidecarsComplete(w, v)
    ensures SidecarsComplete(w, v.(blobs := blobs))
  {
    forall id | id in v.sidecars
      ensures SidecarComplete(w, v.(blobs := blobs), id)
    {
      assert SidecarComplete(w, v, id);
    }
  }

  lemma CorruptionKeepsRequests(w: World, s: State, blobs: map<string, Bytes>)
    requires RequestsOk(w, s) && blobs.Keys == s.shared.volume.blobs.Keys
    ensures RequestsOk(w, CorruptNow(s, blobs))
  {
    var s' := CorruptNow(s, blobs);
    forall oid | oid in s'.requests ensures RequestOk(w, s'.shared, oid, s'.requests[oid], Intact(s')) {
      assert RequestOk(w, s.shared, oid, s.requests[oid], Intact(s));
      CorruptionKeepsRequest(w, s.shared, blobs, oid, s.requests[oid], Intact(s));
    }
  }

  lemma ProbeKeepsRequest(w: World, sh: Shared, flag: bool, oid: Rid, o: Request, intact: bool)
    requires RequestOk(w, sh, oid, o, intact)
    ensures RequestOk(w, sh.(initialised := flag), oid, o, intact)
  {
  }

  lemma ProbeKeepsInv(w: World, s: State)
    requires Inv(w, s)
    ensures Inv(w, ProbeNow(s))
  {
    var s' := ProbeNow(s);
    forall oid | oid in s'.requests ensures RequestOk(w, s'.shared, oid, s'.requests[oid], Intact(s')) {
      assert RequestOk(w, s.shared, oid, s.requests[oid], Intact(s));
      ProbeKeepsRequest(w, s.shared, s'.shared.initialised, oid, s.requests[oid], Intact(s));
    }
  }

  lemma LossKeepsRequests(w: World, s: State, left: Volume)
    requires RequestsOk(w, s) && IsLoss(s.shared.volume, left)
    ensures RequestsOk(w, Lose(s, left))
  {
    var s' := Lose(s, left);
    forall oid | oid in s'.requests ensures RequestOk(w, s'.shared, oid, s'.requests[oid], Intact(s')) {
      assert RequestOk(w, s.shared, oid, s.requests[oid], Intact(s));
      LossKeepsRequest(w, s.shared, left, oid, s.requests[oid], Intact(s));
    }
  }

  lemma CrashKeepsInv(w: World, s: State)
    requires Inv(w, s)
    ensures Inv(w, CrashNow(s))
  {
    CrashKeepsRequests(w, s);
  }

  lemma CrashKeepsRequests(w: World, s: State)
    requires RequestsOk(w, s)
    ensures RequestsOk(w, CrashNow(s))
  {
    var s' := CrashNow(s);
    forall oid | oid in s'.requests ensures RequestOk(w, s'.shared, oid, s'.requests[oid], Intact(s')) {
      assert RequestOk(w, s.shared, oid, s.requests[oid], Intact(s));
    }
  }

  /** Requests that have ended do not depend on the files, the lock or the flag. */
  lemma EndedStaysOk(w: World, sh: Shared, sh': Shared, oid: Rid, o: Request, intact: bool, intact': bool)
    requires RequestOk(w, sh, oid, o, intact) && Inactive(o.phase) && sh'.db == sh.db && sh'.minted == sh.minted
    ensures RequestOk(w, sh', oid, o, intact')
  {
  }

  predicate SameFiles(v: Volume, v': Volume) { v'.blobs == v.blobs && v'.sidecars == v.sidecars }

  lemma SameFilesStayOk(w: World, s: State, s': State)
    requires FilesOk(w, s) && SameFiles(s.shared.volume, s'.shared.volume)
    requires s'.corrupted == s.corrupted && s'.everLost == s.everLost
    ensures FilesOk(w, s')
  {
    var v, v' := s.shared.volume, s'.shared.volume;
    forall id | id in v'.sidecars ensures SidecarComplete(w, v', id) { assert SidecarComplete(w, v, id); }
    if !s.corrupted && !s.everLost {
      forall id | id in v'.sidecars ensures SidecarBacked(w, v', id) {
        assert SidecarBacked(w, v, id);
        var record :| v.sidecars[id] == w.codec.encode(record) && record.artifactId == id && BlobBacks(w, v, record);
        assert BlobBacks(w, v', record);
      }
    }
  }

  /** The startup decision creates directories and the marker, and never touches a file that holds
      data; nobody is served meanwhile. */
  predicate StartupChange(s: State, s': State) {
    && !s.process.Serving? && s'.requests == s.requests && SameFiles(s.shared.volume, s'.shared.volume)
    && s'.shared.db == s.shared.db && s'.shared.minted == s.shared.minted
    && s'.everLost == s.everLost && s'.rebuilt == s.rebuilt && s'.corrupted == s.corrupted
    && (Intact(s') ==> Intact(s) || s.shared.db.artifacts == map[])
  }

  lemma StartupKeepsRequests(w: World, s: State, s': State)
    requires RequestsOk(w, s) && StartupOk(s) && StartupChange(s, s')
    ensures RequestsOk(w, s')
  {
    forall oid | oid in s'.requests ensures RequestOk(w, s'.shared, oid, s'.requests[oid], Intact(s')) {
      assert RequestOk(w, s.shared, oid, s.requests[oid], Intact(s));
      EndedStaysOk(w, s.shared, s'.shared, oid, s.requests[oid], Intact(s), Intact(s'));
    }
  }

  lemma StartupKeepsInv(w: World, s: State, s': State)
    requires Inv(w, s) && StartupChange(s, s') && StartupOk(s')
    ensures Inv(w, s')
  {
    StartupKeepsRequests(w, s, s');
    SameFilesStayOk(w, s, s');
  }

  lemma BootKeepsInv(w: World, s: State, writable: bool)
    requires Inv(w, s) && s.process.Down?
    ensures Inv(w, BootNow(s, writable))
  {
    StartupKeepsInv(w, s, BootNow(s, writable));
  }

  lemma QueryKeepsInv(w: World, s: State, answered: bool)
    requires Inv(w, s) && s.process.Deciding?
    ensures Inv(w, DecideStartup(s, answered))
  {
    StartupKeepsInv(w, s, DecideStartup(s, answered));
  }

  lemma LayoutKeepsInv(w: World, s: State)
    requires Inv(w, s) && s.process.Creating?
    ensures Inv(w, LayoutNow(s))
  {
    StartupKeepsInv(w, s, LayoutNow(s));
  }

  lemma MarkerKeepsInv(w: World, s: State)
    requires Inv(w, s) && s.process.MarkingCreated?
    ensures Inv(w, MarkerNow(s))
  {
    StartupKeepsInv(w, s, MarkerNow(s));
  }

  // ---------------------------------------------------------------------------
  // Every run
  // ---------------------------------------------------------------------------

  lemma AdvanceKeepsInv(w: World, s: State, rid: Rid, ch: Choice)
    requires Faithful(w.codec) && Inv(w, s) && Enabled(w, s, Advance(rid, ch))
    ensures Inv(w, Act(s, rid, NextMove(w, s.shared, rid, s.requests[rid], ch)))
  {
    AdvanceIsSound(w, s, rid, ch);
    MoveKeepsInv(w, s, rid, NextMove(w, s.shared, rid, s.requests[rid], ch));
  }

  lemma OtherStepKeepsInv(w: World, s: State, step: Step)
    requires Inv(w, s) && Other(s, step)
    ensures Inv(w, Otherwise(w, s, step))
  {
    match step
    case Receive(rid, f) => ReceiveKeepsInv(w, s, rid, f);
    case Fail(rid) =>
      FailIsSound(w, s, rid);
      MoveKeepsInv(w, s, rid, FailMove(s.requests[rid]));
    case OtherWrite(op) => OtherWriteKeepsInv(w, s, op);
    case Probe => ProbeKeepsInv(w, s);
    case LoseVolume(left) => LossKeepsInv(w, s, left);
    case Corrupt(blobs) => CorruptionKeepsInv(w, s, blobs);
    case Crash => CrashKeepsInv(w, s);
    case Boot(writable) => BootKeepsInv(w, s, writable);
    case Query(answered) => QueryKeepsInv(w, s, answered);
    case CreateLayout => LayoutKeepsInv(w, s);
    case CreateMarker => MarkerKeepsInv(w, s);
  }

  lemma StepKeepsInv(w: World, s: State, step: Step)
    requires Faithful(w.codec) && Inv(w, s) && Enabled(w, s, step)
    ensures Inv(w, Do(w, s, step))
  {
    if step.Advance? {
      AdvanceKeepsInv(w, s, step.rid, step.choice);
    } else {
      OtherStepKeepsInv(w, s, step);
    }
  }

  lemma {:induction false} RunKeepsInv(w: World, s: State, steps: seq<Step>, s': State)
    requires Faithful(w.codec) && Inv(w, s) && Reaches(w, s, steps, s')
    ensures Inv(w, s')
    decreases |steps|
  {
    if steps != [] {
      StepKeepsInv(w, s, steps[0]);
      RunKeepsInv(w, Do(w, s, steps[0]), steps[1..], s');
    }
  }

  /** Readiness is honest.  In every state the service can reach from a first deployment, with
      requests interleaved file operation by file operation, the artifact volume lost at any moment,
      crashes and restarts: if the backing is present, every artifact the metadata asserts has its
      sidecar, and a blob with the recorded digest and length.  The provisos are that no blob was
      corrupted, and that no request made the marker anew while there was something to lose. */
  lemma ReadinessIsHonest(w: World, s: State, steps: seq<Step>, s': State)
    requires Faithful(w.codec) && Initial(w, s) && Reaches(w, s, steps, s')
    requires !s'.rebuilt && !s'.corrupted && BackingPresent(s'.shared.volume)
    ensures AllHeld(w, s'.shared)
  {
    RunKeepsInv(w, s, steps, s');
  }

  /** When every startup query was answered, no request ever makes the marker anew. */
  lemma AnswersForestallRebuilding(w: World, s: State, steps: seq<Step>, s': State)
    requires Faithful(w.codec) && Initial(w, s) && Reaches(w, s, steps, s') && s'.allAnswered
    ensures !s'.rebuilt && forall rid :: rid in s'.requests ==> !MakesBacking(s'.requests[rid].phase)
  {
    RunKeepsInv(w, s, steps, s');
  }

  /** Crash consistency.  Whatever happened, and wherever it stopped, a canonical path is absent or
      complete: a sidecar is a whole record under its own id, and, unless bytes were corrupted since,
      a blob hashes to its name.  As long as the volume was never lost either, every sidecar also
      names a blob that is there, with the digest and length it states, and every asserted artifact
      is held. */
  lemma CanonicalPathsAreComplete(w: World, s: State, steps: seq<Step>, s': State)
    requires Faithful(w.codec) && Initial(w, s) && Reaches(w, s, steps, s')
    ensures SidecarsComplete(w, s'.shared.volume)
    ensures !s'.corrupted ==> BlobsNamed(w.codec, s'.shared.volume)
    ensures !s'.corrupted && !s'.everLost ==> SidecarsBacked(w, s'.shared.volume) && AllHeld(w, s'.shared)
  {
    RunKeepsInv(w, s, steps, s');
  }
}
