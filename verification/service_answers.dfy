/** What the running service answers, in the terms of what was sent.  An answered artifact is a record
    of the bytes and the description that the request carried; a conflict is one; and a request whose
    bytes are not what it declares leaves nothing behind. */
module ServiceAnswers {
  import opened Wrappers
  import opened Contract
  import opened Tables
  import opened Metadata
  import opened History
  import opened Outcomes
  import opened Volumes
  import opened Service
  import opened ServiceInvariants
  import opened ServiceSafety
  import opened ServiceHistory

  /** What the route refuses before it looks anything up. */
  predicate Malformed(f: Form, maxBytes: nat) {
    || f.upload.filename == "" || |f.upload.data| > maxBytes
    || (f.key.Some?
        && (f.producer.None? || forall i :: 0 <= i < |f.producer.value| ==> f.producer.value[i] in " \t\n\r"))
  }

  /** An upload that `put` has no reason of its own to refuse. */
  predicate Storable(w: World, u: Upload) {
    && |u.data| <= w.maxBytes && RightDigest(w.codec, u)
    && (exists i :: 0 <= i < |u.contentType| && u.contentType[i] !in " \t\n\r")
    && (exists i :: 0 <= i < |u.filename| && u.filename[i] !in " \t\n\r")
  }

  /** Past the checks of `put`. */
  predicate Admitted(p: Phase) {
    p.MakingLayout? || p.WritingMarker? || p.WantingLock? || HoldsLock(p) || HasRecord(p)
  }

  /** The scope is bound to a record of something else. */
  ghost predicate Conflicts(w: World, db: Db, f: Form) {
    exists id :: Bound(db.artifacts, ScopeOf(f), id) && !RecordsUpload(w.codec, db.artifacts[id].record, f.upload)
  }

  ghost predicate HoldsUpload(w: World, db: Db, f: Form, id: string) {
    Bound(db.artifacts, ScopeOf(f), id) && RecordsUpload(w.codec, db.artifacts[id].record, f.upload)
  }

  /** What an answer says is so. */
  ghost predicate AnswerTrue(w: World, db: Db, f: Form, reply: Reply) {
    && (reply.ArtifactIs? ==>
          && RecordsUpload(w.codec, reply.artifact, f.upload) && RightDigest(w.codec, f.upload)
          && !Malformed(f, w.maxBytes) && (f.key.Some? ==> HoldsUpload(w, db, f, reply.artifact.artifactId)))
    && (reply == Raised(IdempotencyConflict) ==> Conflicts(w, db, f))
    && (reply == Raised(ChecksumMismatch) ==> !RightDigest(w.codec, f.upload))
    && (reply == Raised(ContractViolation) ==> Malformed(f, w.maxBytes))
  }

  ghost predicate Truthful(w: World, db: Db, r: Request) {
    && (Admitted(r.phase) || r.minted.Some? ==> Storable(w, r.form.upload))
    && (r.phase.CheckingBacking? || Admitted(r.phase) || r.phase.Replaying? ==> !Malformed(r.form, w.maxBytes))
    && (r.phase.Replaying? ==>
          && RecordsUpload(w.codec, r.phase.candidate, r.form.upload) && RightDigest(w.codec, r.form.upload)
          && LinksResolve(db, r.phase.candidate))
    && (r.phase.Done? ==> AnswerTrue(w, db, r.form, r.phase.reply) && OwnAnswerIsAsSent(w, r, r.phase.reply))
  }

  /** An answer under the id the request drew is the record `put` made, with the links that were sent. */
  predicate OwnAnswerIsAsSent(w: World, r: Request, reply: Reply) {
    reply.ArtifactIs? && r.minted == Some(reply.artifact.artifactId) ==>
      reply.artifact == RecordFor(w.codec, r.form.upload, reply.artifact.artifactId, reply.artifact.registeredAt)
        .(runId := r.form.runId, evidenceId := r.form.evidenceId)
  }

  ghost predicate AllTruthful(w: World, s: State) {
    forall rid :: rid in s.requests ==> Truthful(w, s.shared.db, s.requests[rid])
  }

  // ---------------------------------------------------------------------------
  // Later databases
  // ---------------------------------------------------------------------------

  lemma HeldUploadStays(w: World, db: Db, db': Db, f: Form, id: string)
    requires Extends(db, db') && Bound(db.artifacts, ScopeOf(f), id)
    ensures Bound(db'.artifacts, ScopeOf(f), id)
    ensures RecordsUpload(w.codec, db'.artifacts[id].record, f.upload)
      <==> RecordsUpload(w.codec, db.artifacts[id].record, f.upload)
  {
    assert ArtifactKept(db.artifacts[id], db'.artifacts[id]);
  }

  lemma StaysTruthful(w: World, db: Db, db': Db, r: Request)
    requires Extends(db, db') && Truthful(w, db, r)
    ensures Truthful(w, db', r)
  {
    if r.phase.Done? {
      if r.phase.reply.ArtifactIs? && r.form.key.Some? {
        HeldUploadStays(w, db, db', r.form, r.phase.reply.artifact.artifactId);
      }
      if r.phase.reply == Raised(IdempotencyConflict) {
        var id :| Bound(db.artifacts, ScopeOf(r.form), id)
          && !RecordsUpload(w.codec, db.artifacts[id].record, r.form.upload);
        HeldUploadStays(w, db, db', r.form, id);
      }
    }
  }

  // ---------------------------------------------------------------------------
  // A request's own step
  // ---------------------------------------------------------------------------

  lemma PutChecks(w: World, f: Form)
    ensures PutRefusal(w.codec, w.maxBytes, f.upload).None? ==> Storable(w, f.upload)
    ensures PutRefusal(w.codec, w.maxBytes, f.upload) == Some(ChecksumMismatch) ==> !RightDigest(w.codec, f.upload)
  {
    DeclaredWronglyMeans(w.codec, f.upload);
  }

  lemma FileMoveIsTruthful(w: World, sh: Shared, rid: Rid, r: Request, ch: Choice)
    requires Truthful(w, sh.db, r) && !AtMetadata(r.phase) && !Inactive(r.phase)
    ensures Truthful(w, sh.db, FileMove(w, sh, rid, r, ch).next)
  {
    PutChecks(w, r.form);
  }

  /** How a lookup can end. */
  ghost predicate LookedUp(w: World, db: Db, r: Request, next: Request) {
    && next.form == r.form && next.minted == r.minted
    && match next.phase
       case Done(Raised(err)) =>
         && err != IdempotencyConflict && (err == ChecksumMismatch ==> !RightDigest(w.codec, r.form.upload))
         && (err == ContractViolation ==> Malformed(r.form, w.maxBytes))
       case CheckingBacking => !Malformed(r.form, w.maxBytes)
       case Replaying(candidate) =>
         && !Malformed(r.form, w.maxBytes) && RecordsUpload(w.codec, candidate, r.form.upload)
         && RightDigest(w.codec, r.form.upload) && SharesLinks(db, candidate)
       case _ => false
  }

  ghost predicate SharesLinks(db: Db, a: ArtifactRecord) {
    exists id :: id in db.artifacts
      && db.artifacts[id].record.runId == a.runId && db.artifacts[id].record.evidenceId == a.evidenceId
  }

  lemma LookUpEnds(w: World, sh: Shared, r: Request, ch: Choice)
    ensures LookedUp(w, sh.db, r, LookUp(w, sh, r, ch).next)
  {
    DeclaredWronglyMeans(w.codec, r.form.upload);
  }

  lemma SharedLinksResolve(w: World, db: Db, a: ArtifactRecord)
    requires Valid(w.hash, db) && SharesLinks(db, a)
    ensures LinksResolve(db, a)
  {
    assert ArtifactsResolve(db);
  }

  lemma LookUpIsTruthful(w: World, sh: Shared, r: Request, ch: Choice)
    requires Valid(w.hash, sh.db) && r.phase.Arrived? && r.minted.None?
    ensures Truthful(w, sh.db, LookUp(w, sh, r, ch).next)
  {
    LookUpEnds(w, sh, r, ch);
    EndIsTruthful(w, sh.db, r, LookUp(w, sh, r, ch).next);
  }

  lemma EndIsTruthful(w: World, db: Db, r: Request, next: Request)
    requires Valid(w.hash, db) && r.minted.None? && LookedUp(w, db, r, next)
    ensures Truthful(w, db, next)
  {
    if next.phase.Replaying? { SharedLinksResolve(w, db, next.phase.candidate); }
  }

  lemma BoundAnswerIsTrue(w: World, db: Db, f: Form, a: ArtifactRecord, id: string)
    requires Valid(w.hash, db) && Injective(w.hash) && LinksResolve(db, a) && !Malformed(f, w.maxBytes)
    requires Bound(db.artifacts, ScopeOf(f), id)
    requires RecordsUpload(w.codec, a, f.upload) && RightDigest(w.codec, f.upload)
    ensures var s := db.artifacts[id].record;
      Apply(w.hash, db, RegisterOp(f, a))
        == (db, if RecordsUpload(w.codec, s, f.upload) then ArtifactIs(s) else Raised(IdempotencyConflict))
    ensures AnswerTrue(w, db, f, Apply(w.hash, db, RegisterOp(f, a)).1)
  {
    ArtifactUnderUsedKey(w.hash, db, a, f.key.value, f.producer.value, id);
    assert ArtifactBound(w.hash, db.artifacts[id], id);
  }

  lemma NewAnswerIsTrue(w: World, db: Db, f: Form, a: ArtifactRecord)
    requires LinksResolve(db, a) && !Malformed(f, w.maxBytes) && RightDigest(w.codec, f.upload)
    requires RecordsUpload(w.codec, a, f.upload) && a.artifactId !in db.artifacts && !ScopeBound(db, f)
    ensures AnswerTrue(w, Apply(w.hash, db, RegisterOp(f, a)).0, f, Apply(w.hash, db, RegisterOp(f, a)).1)
  {
    var producer := if f.key.Some? then f.producer else None;
    forall id ensures !Bound(db.artifacts, ScopeUnder(ScopeProducer(producer), f.key), id) {
      assert f.key.Some? ==> !Binds(db.artifacts, id, ScopeOf(f).value);
    }
    ArtifactIsStored(w.hash, db, a, f.key, producer);
  }

  lemma RegisteredAnswerIsTrue(w: World, db: Db, f: Form, a: ArtifactRecord)
    requires Valid(w.hash, db) && Injective(w.hash) && !Malformed(f, w.maxBytes) && RightDigest(w.codec, f.upload)
    requires RecordsUpload(w.codec, a, f.upload) && (ScopeBound(db, f) || a.artifactId !in db.artifacts)
    ensures AnswerTrue(w, Apply(w.hash, db, RegisterOp(f, a)).0, f, Apply(w.hash, db, RegisterOp(f, a)).1)
  {
    if !LinksResolve(db, a) {
      ReferencesComeFirst(w.hash, db, RegisterOp(f, a));
    } else if ScopeBound(db, f) {
      var id :| Binds(db.artifacts, id, ScopeOf(f).value);
      BoundAnswerIsTrue(w, db, f, a, id);
    } else {
      NewAnswerIsTrue(w, db, f, a);
    }
  }

  lemma OfferedIsOfTheUpload(w: World, sh: Shared, r: Request)
    requires Truthful(w, sh.db, r) && RecordOk(w, sh, r) && KeyOk(sh, r) && (r.phase.Replaying? || r.phase.Registering?)
    ensures RecordsUpload(w.codec, Offered(r), r.form.upload) && RightDigest(w.codec, r.form.upload)
    ensures !Malformed(r.form, w.maxBytes) && (ScopeBound(sh.db, r.form) || Offered(r).artifactId !in sh.db.artifacts)
  {
  }

  lemma DoneIsTruthful(w: World, db: Db, r: Request, reply: Reply)
    requires AnswerTrue(w, db, r.form, reply) && OwnAnswerIsAsSent(w, r, reply)
    requires r.minted.Some? ==> Storable(w, r.form.upload)
    ensures Truthful(w, db, r.(phase := Done(reply)))
  {
  }

  lemma RegisterIsTruthful(w: World, sh: Shared, rid: Rid, r: Request, ch: Choice)
    requires Valid(w.hash, sh.db) && Injective(w.hash) && Truthful(w, sh.db, r) && RecordOk(w, sh, r) && KeyOk(sh, r)
    requires r.phase.Replaying? || r.phase.Registering?
    ensures var m := Register(w, sh, r, Offered(r), ch); Truthful(w, Effected(sh, rid, m.effect).db, m.next)
  {
    OfferedIsOfTheUpload(w, sh, r);
    RegisteredAnswerIsTrue(w, sh.db, r.form, Offered(r));
    RegisterConcludes(w, sh, rid, r, Offered(r), ch);
    RegisteredAsSent(w, sh, r);
    if ch.reachable {
      ConclusionIsTruthful(w, r, Apply(w.hash, sh.db, RegisterOp(r.form, Offered(r))));
    } else {
      DoneIsTruthful(w, sh.db, r, Raised(MetadataStoreError));
    }
  }

  lemma RegisteredAsSent(w: World, sh: Shared, r: Request)
    requires Valid(w.hash, sh.db) && RecordOk(w, sh, r) && KeyOk(sh, r) && (r.phase.Replaying? || r.phase.Registering?)
    ensures OwnAnswerIsAsSent(w, r, Apply(w.hash, sh.db, RegisterOp(r.form, Offered(r))).1)
  {
    var reply := Apply(w.hash, sh.db, RegisterOp(r.form, Offered(r))).1;
    if r.phase.Registering? && reply.ArtifactIs? && r.minted == Some(reply.artifact.artifactId) {
      AnswerOfFreshId(w.hash, sh.db, r.form, Offered(r));
    }
  }

  /** A registration under an id that is not there answers with that id only by storing the record. */
  lemma AnswerOfFreshId(h: Hasher, db: Db, f: Form, a: ArtifactRecord)
    requires Valid(h, db) && a.artifactId !in db.artifacts
    ensures var reply := Apply(h, db, RegisterOp(f, a)).1;
      reply.ArtifactIs? && reply.artifact.artifactId == a.artifactId ==> reply.artifact == a
  {
    if f.key.Some? {
      var found := FindByScope(db.artifacts, ScopeOf(f).value);
      if found.Some? { assert ArtifactBound(h, db.artifacts[found.value], found.value); }
    }
  }

  lemma ConclusionIsTruthful(w: World, r: Request, outcome: (Db, Reply))
    requires AnswerTrue(w, outcome.0, r.form, outcome.1) && OwnAnswerIsAsSent(w, r, outcome.1)
    requires r.minted.Some? ==> Storable(w, r.form.upload)
    ensures Truthful(w, outcome.0, r.(phase := Done(outcome.1)))
  {
    DoneIsTruthful(w, outcome.0, r, outcome.1);
  }

  lemma RegisterConcludes(w: World, sh: Shared, rid: Rid, r: Request, a: ArtifactRecord, ch: Choice)
    ensures var m := Register(w, sh, r, a, ch);
      var outcome := Apply(w.hash, sh.db, RegisterOp(r.form, a));
      if ch.reachable then
        m.next == r.(phase := Done(outcome.1)) && Effected(sh, rid, m.effect).db == outcome.0
      else
        m.next == r.(phase := Done(Raised(MetadataStoreError))) && Effected(sh, rid, m.effect).db == sh.db
  {
  }

  lemma MoveIsTruthful(w: World, sh: Shared, rid: Rid, r: Request, ch: Choice)
    requires Valid(w.hash, sh.db) && Injective(w.hash) && Truthful(w, sh.db, r) && RecordOk(w, sh, r) && KeyOk(sh, r)
    requires !Inactive(r.phase)
    ensures var m := NextMove(w, sh, rid, r, ch); Truthful(w, Effected(sh, rid, m.effect).db, m.next)
  {
    if r.phase.Arrived? {
      LookUpIsTruthful(w, sh, r, ch);
      MetadataMove(w, sh, rid, r, ch);
    } else if AtMetadata(r.phase) {
      RegisterIsTruthful(w, sh, rid, r, ch);
    } else {
      FileMoveIsTruthful(w, sh, rid, r, ch);
      FileMoveKeepsDb(w, sh, rid, r, ch);
    }
  }

  lemma FileMoveKeepsDb(w: World, sh: Shared, rid: Rid, r: Request, ch: Choice)
    ensures Effected(sh, rid, FileMove(w, sh, rid, r, ch).effect).db == sh.db
  {
  }

  // ---------------------------------------------------------------------------
  // Every run
  // ---------------------------------------------------------------------------

  lemma AdvanceKeepsTruth(w: World, s: State, rid: Rid, ch: Choice)
    requires Faithful(w.codec) && Injective(w.hash) && Inv(w, s) && AllTruthful(w, s) && Enabled(w, s, Advance(rid, ch))
    ensures AllTruthful(w, Act(s, rid, NextMove(w, s.shared, rid, s.requests[rid], ch)))
  {
    var s' := Act(s, rid, NextMove(w, s.shared, rid, s.requests[rid], ch));
    assert RequestOk(w, s.shared, rid, s.requests[rid], Intact(s));
    MoveIsTruthful(w, s.shared, rid, s.requests[rid], ch);
    AdvanceExtendsDb(w, s, rid, ch);
    forall other | other in s'.requests ensures Truthful(w, s'.shared.db, s'.requests[other]) {
      if other != rid { StaysTruthful(w, s.shared.db, s'.shared.db, s.requests[other]); }
    }
  }

  /** The other steps at most add a request, fail one, or stop one. */
  predicate MovedOn(r: Request, r': Request) {
    r' == r || r' == r.(phase := Dead) || r' == r.(phase := Done(Raised(ArtifactStoreError)))
  }

  lemma MovedOnIsTruthful(w: World, db: Db, r: Request, r': Request)
    requires Truthful(w, db, r) && MovedOn(r, r')
    ensures Truthful(w, db, r')
  {
    if r' == r.(phase := Done(Raised(ArtifactStoreError))) { DoneIsTruthful(w, db, r, Raised(ArtifactStoreError)); }
  }

  lemma OtherStepMovesOn(w: World, s: State, step: Step, rid: Rid)
    requires Other(s, step) && rid in s.requests
    ensures rid in Otherwise(w, s, step).requests && MovedOn(s.requests[rid], Otherwise(w, s, step).requests[rid])
  {
    match step
    case Fail(_) =>
    case Crash =>
    case Query(_) =>
    case _ =>
  }

  lemma OtherStepReceives(w: World, s: State, step: Step, rid: Rid)
    requires Other(s, step) && rid in Otherwise(w, s, step).requests && rid !in s.requests
    ensures Otherwise(w, s, step).requests[rid].phase.Arrived? && Otherwise(w, s, step).requests[rid].minted.None?
  {
    match step
    case Fail(_) =>
    case Crash =>
    case Query(_) =>
    case _ =>
  }

  lemma OtherStepKeepsTruth(w: World, s: State, step: Step)
    requires Inv(w, s) && AllTruthful(w, s) && Other(s, step)
    ensures AllTruthful(w, Otherwise(w, s, step))
  {
    OtherStepExtendsDb(w, s, step);
    forall rid ensures rid in s.requests ==> StillTruthful(w, s, Otherwise(w, s, step), rid) {
      if rid in s.requests { OtherStepMovesOn(w, s, step, rid); }
    }
    forall rid ensures rid !in s.requests ==> AtMostArrived(Otherwise(w, s, step), rid) {
      if rid !in s.requests && rid in Otherwise(w, s, step).requests { OtherStepReceives(w, s, step, rid); }
    }
    AllStillTruthful(w, s, Otherwise(w, s, step));
  }

  predicate StillTruthful(w: World, s: State, s': State, rid: Rid) {
    rid in s.requests && rid in s'.requests && MovedOn(s.requests[rid], s'.requests[rid])
  }

  predicate AtMostArrived(s: State, rid: Rid) {
    rid in s.requests ==> s.requests[rid].phase.Arrived? && s.requests[rid].minted.None?
  }

  lemma AllStillTruthful(w: World, s: State, s': State)
    requires AllTruthful(w, s) && Extends(s.shared.db, s'.shared.db)
    requires forall rid :: rid in s.requests ==> StillTruthful(w, s, s', rid)
    requires forall rid :: rid !in s.requests ==> AtMostArrived(s', rid)
    ensures AllTruthful(w, s')
  {
    forall rid | rid in s'.requests ensures Truthful(w, s'.shared.db, s'.requests[rid]) {
      if rid in s.requests {
        assert StillTruthful(w, s, s', rid);
        StaysTruthful(w, s.shared.db, s'.shared.db, s.requests[rid]);
        MovedOnIsTruthful(w, s'.shared.db, s.requests[rid], s'.requests[rid]);
      } else {
        assert AtMostArrived(s', rid);
      }
    }
  }

  lemma {:induction false} RunKeepsTruth(w: World, s: State, steps: seq<Step>, s': State)
    requires Faithful(w.codec) && Injective(w.hash) && Inv(w, s) && AllTruthful(w, s) && Reaches(w, s, steps, s')
    ensures AllTruthful(w, s')
    decreases |steps|
  {
    if steps != [] {
      if steps[0].Advance? {
        AdvanceKeepsTruth(w, s, steps[0].rid, steps[0].choice);
      } else {
        OtherStepKeepsTruth(w, s, steps[0]);
      }
      StepKeepsInv(w, s, steps[0]);
      RunKeepsTruth(w, Do(w, s, steps[0]), steps[1..], s');
    }
  }

  /** Answers are true.  In every state the service can reach, an answered artifact records the bytes
      and the description its request sent, with the digest it declared; and a request that was
      answered under a key got the artifact its scope is bound to if that is a record of what it sent,
      and a conflict if it is not. */
  lemma AnswersAreTrue(w: World, s0: State, steps: seq<Step>, s: State, rid: Rid)
    requires Faithful(w.codec) && Injective(w.hash) && Initial(w, s0) && Reaches(w, s0, steps, s)
    requires rid in s.requests && s.requests[rid].phase.Done?
    ensures var f, reply := s.requests[rid].form, s.requests[rid].phase.reply;
      && AnswerTrue(w, s.shared.db, f, reply) && OwnAnswerIsAsSent(w, s.requests[rid], reply)
      && (f.key.Some? && (reply.ArtifactIs? || reply == Raised(IdempotencyConflict)) ==>
            exists id :: Bound(s.shared.db.artifacts, ScopeOf(f), id)
              && (reply.ArtifactIs? <==> RecordsUpload(w.codec, s.shared.db.artifacts[id].record, f.upload))
              && (reply.ArtifactIs? ==> reply.artifact.artifactId == id))
  {
    RunKeepsTruth(w, s0, steps, s);
    var f, reply := s.requests[rid].form, s.requests[rid].phase.reply;
    assert Truthful(w, s.shared.db, s.requests[rid]);
    if reply.ArtifactIs? && f.key.Some? { assert HoldsUpload(w, s.shared.db, f, reply.artifact.artifactId); }
  }

  /** A request whose bytes are not what it declares, or that is too large or not described, draws no
      id: no sidecar and no row is of its making; and one with a wrong digest is never answered with
      an artifact. */
  lemma UnfitUploadLeavesNothing(w: World, s0: State, steps: seq<Step>, s: State, rid: Rid)
    requires Faithful(w.codec) && Injective(w.hash) && Initial(w, s0) && Reaches(w, s0, steps, s)
    requires rid in s.requests && !Storable(w, s.requests[rid].form.upload)
    ensures forall id :: !Minter(s.requests, rid, id)
    ensures forall id :: id in s.shared.volume.sidecars || id in s.shared.db.artifacts ==>
      exists other :: other != rid && Minter(s.requests, other, id)
    ensures !RightDigest(w.codec, s.requests[rid].form.upload) && s.requests[rid].phase.Done? ==>
      !s.requests[rid].phase.reply.ArtifactIs?
  {
    RunKeepsTruth(w, s0, steps, s);
    RunKeepsOwned(w, s0, steps, s);
    assert Truthful(w, s.shared.db, s.requests[rid]);
    forall id | id in s.shared.volume.sidecars || id in s.shared.db.artifacts
      ensures exists other :: other != rid && Minter(s.requests, other, id)
    {
      var other := MinterOf(w, s, id);
    }
  }

  lemma MinterOf(w: World, s: State, id: string) returns (rid: Rid)
    requires Owned(w, s) && (id in s.shared.volume.sidecars || id in s.shared.db.artifacts)
    ensures Minter(s.requests, rid, id)
  {
    if id in s.shared.volume.sidecars {
      assert SidecarOwned(w, s, id);
      rid :| Minter(s.requests, rid, id) && Describes(w, s.shared.volume.sidecars[id], s.requests[rid].form, id);
    } else {
      assert RowOwned(s, id);
      rid :| Minter(s.requests, rid, id) && BoundAsSent(s.shared.db.artifacts[id], s.requests[rid].form);
    }
  }

  lemma LookUpUnderUsedKey(w: World, sh: Shared, r: Request, ch: Choice, id: string)
    requires r.phase.Arrived? && ch.reachable && Bound(sh.db.artifacts, ScopeOf(r.form), id)
    requires !Malformed(r.form, w.maxBytes)
    ensures var m := LookUp(w, sh, r, ch);
      && m.effect.Quiet? && m.next.form == r.form
      && if RightDigest(w.codec, r.form.upload) then m.next.phase.Replaying?
         else m.next.phase == Done(Raised(ChecksumMismatch))
  {
    DeclaredWronglyMeans(w.codec, r.form.upload);
    assert FindByScope(sh.db.artifacts, ScopeOf(r.form).value).Some?;
  }

  /** A request under a key that is bound when it arrives never reaches the artifact store: bytes that
      are not what it declares are refused, and anything else is compared with the bound record. */
  lemma UsedKeyIsLookedUp(w: World, s: State, rid: Rid, ch: Choice, id: string)
    requires Enabled(w, s, Advance(rid, ch)) && s.requests[rid].phase.Arrived? && ch.reachable
    requires Bound(s.shared.db.artifacts, ScopeOf(s.requests[rid].form), id)
    requires !Malformed(s.requests[rid].form, w.maxBytes)
    ensures var s' := Do(w, s, Advance(rid, ch));
      && s'.shared == s.shared && s'.requests[rid].form == s.requests[rid].form
      && if RightDigest(w.codec, s.requests[rid].form.upload) then s'.requests[rid].phase.Replaying?
         else s'.requests[rid].phase == Done(Raised(ChecksumMismatch))
  {
    LookUpUnderUsedKey(w, s.shared, s.requests[rid], ch, id);
  }

  lemma RegisterUnderUsedKey(w: World, sh: Shared, r: Request, ch: Choice, id: string)
    requires Valid(w.hash, sh.db) && Injective(w.hash) && Truthful(w, sh.db, r)
    requires r.phase.Replaying? && ch.reachable && Bound(sh.db.artifacts, ScopeOf(r.form), id)
    ensures var a := sh.db.artifacts[id].record;
      Register(w, sh, r, r.phase.candidate, ch).next.phase
        == Done(if RecordsUpload(w.codec, a, r.form.upload) then ArtifactIs(a) else Raised(IdempotencyConflict))
  {
    BoundAnswerIsTrue(w, sh.db, r.form, r.phase.candidate, id);
  }

  /** And then, whatever else has happened since its lookup: the bound record is the answer exactly when
      it is a record of the bytes, content type and filename the request carries; any other upload is
      a conflict. */
  lemma UsedKeyIsAnswered(w: World, s0: State, steps: seq<Step>, s: State, rid: Rid, ch: Choice) returns (id: string)
    requires Faithful(w.codec) && Injective(w.hash) && Initial(w, s0) && Reaches(w, s0, steps, s)
    requires Enabled(w, s, Advance(rid, ch)) && s.requests[rid].phase.Replaying? && ch.reachable
    ensures Bound(s.shared.db.artifacts, ScopeOf(s.requests[rid].form), id)
    ensures var f, a := s.requests[rid].form, s.shared.db.artifacts[id].record;
      Act(s, rid, NextMove(w, s.shared, rid, s.requests[rid], ch)).requests[rid].phase
        == Done(if RecordsUpload(w.codec, a, f.upload) then ArtifactIs(a) else Raised(IdempotencyConflict))
  {
    RunKeepsInv(w, s0, steps, s);
    RunKeepsTruth(w, s0, steps, s);
    id := ReplayingIsAnswered(w, s, rid, ch);
  }

  lemma ReplayingIsAnswered(w: World, s: State, rid: Rid, ch: Choice) returns (id: string)
    requires Valid(w.hash, s.shared.db) && Injective(w.hash) && RequestsOk(w, s) && AllTruthful(w, s)
    requires rid in s.requests && s.requests[rid].phase.Replaying? && ch.reachable
    ensures Bound(s.shared.db.artifacts, ScopeOf(s.requests[rid].form), id)
    ensures var f, a := s.requests[rid].form, s.shared.db.artifacts[id].record;
      Act(s, rid, NextMove(w, s.shared, rid, s.requests[rid], ch)).requests[rid].phase
        == Done(if RecordsUpload(w.codec, a, f.upload) then ArtifactIs(a) else Raised(IdempotencyConflict))
  {
    id := ReplayingIsBound(w, s, rid);
    RegisterUnderUsedKey(w, s.shared, s.requests[rid], ch, id);
  }

  lemma ReplayingIsBound(w: World, s: State, rid: Rid) returns (id: string)
    requires RequestsOk(w, s) && AllTruthful(w, s) && rid in s.requests && s.requests[rid].phase.Replaying?
    ensures Bound(s.shared.db.artifacts, ScopeOf(s.requests[rid].form), id)
    ensures Truthful(w, s.shared.db, s.requests[rid])
  {
    assert RequestOk(w, s.shared, rid, s.requests[rid], Intact(s));
    id :| Binds(s.shared.db.artifacts, id, ScopeOf(s.requests[rid].form).value);
  }
}
