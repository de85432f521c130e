/** Runs of the service that can be named step by step: a first deployment takes an upload through to
    its row, and without the answer to the startup query it can end in readiness over a loss. */
module ServiceRuns {
  import opened Wrappers
  import opened Contract
  import opened Tables
  import opened Metadata
  import opened Outcomes
  import opened Volumes
  import opened Service
  import opened ServiceAnswers
  import Startup

  // ---------------------------------------------------------------------------
  // An upload goes through
  // ---------------------------------------------------------------------------

  /** How many steps of `put` are ahead, writes apart. */
  function Stage(p: Phase): nat {
    match p
    case CheckingBacking => 8
    case WantingLock => 7
    case CheckingBlob => 6
    case MakingBlobDir => 5
    case OpeningBlobTemp => 4
    case WritingBlob(_) => 3
    case MakingIndexDir(_) => 2
    case OpeningSidecarTemp(_) => 1
    case _ => 0
  }

  function Unwritten(w: World, r: Request): nat {
    match r.phase
    case WritingBlob(n) => if n < |r.form.upload.data| then |r.form.upload.data| - n else 0
    case WritingSidecar(record, n) =>
      if n < |w.codec.encode(record)| then |w.codec.encode(record)| - n else 0
    case _ => 0
  }

  /** Nothing is in the way of a request in `put`. */
  predicate Unhindered(w: World, sh: Shared, rid: Rid, r: Request) {
    && BackingPresent(sh.volume) && sh.lock == (if HoldsLock(r.phase) then Some(rid) else None)
    && (r.phase.WritingBlob? || r.phase.WritingSidecar? ==> rid in sh.volume.temps)
    && (r.phase.CheckingBacking? ==> PutRefusal(w.codec, w.maxBytes, r.form.upload).None?)
    && (!HasRecord(r.phase) && Digest(w, r.form) in sh.volume.blobs ==>
          sh.volume.blobs[Digest(w, r.form)] == r.form.upload.data)
  }

  /** It is at one of the steps that a layout in place leads it through, with the ids it needs. */
  predicate Alone(w: World, sh: Shared, rid: Rid, r: Request, first: string, second: string) {
    && Unhindered(w, sh, rid, r)
    && (r.phase.CheckingBacking? || r.phase.WantingLock? || HoldsLock(r.phase) || HasRecord(r.phase))
    && first != second && second !in sh.minted && (HasRecord(r.phase) || first !in sh.minted)
    && (HasRecord(r.phase) ==> IsOwnRecord(r.phase.record, first))
  }

  predicate IsOwnRecord(a: ArtifactRecord, id: string) { a.artifactId == id && a.runId.None? && a.evidenceId.None? }

  /** The id of the choice is the next fresh one. */
  predicate Draws(r: Request, ch: Choice, first: string, second: string) {
    ch.chunk > 0 && ch.id == (if HasRecord(r.phase) then second else first)
  }

  predicate Nearer(w: World, r: Request, next: Request) {
    Stage(next.phase) < Stage(r.phase) || (Stage(next.phase) == Stage(r.phase) && Unwritten(w, next) < Unwritten(w, r))
  }

  /** What a step of a request alone in `put` comes to. */
  predicate Progress(w: World, sh: Shared, rid: Rid, r: Request, m: Move, first: string, second: string) {
    var sh' := Effected(sh, rid, m.effect);
    && m.next.form == r.form && sh'.db == sh.db
    && if m.next.phase.Registering? then
         BackingPresent(sh'.volume) && second !in sh'.minted && IsOwnRecord(m.next.phase.record, first)
       else
         Alone(w, sh', rid, m.next, first, second) && Nearer(w, r, m.next)
  }

  lemma CheckProgress(w: World, sh: Shared, rid: Rid, r: Request, ch: Choice, first: string, second: string)
    requires Alone(w, sh, rid, r, first, second) && Draws(r, ch, first, second) && r.phase.CheckingBlob?
    ensures Progress(w, sh, rid, r, CheckBlob(w, sh, r, ch), first, second)
  {
  }

  lemma LockProgress(w: World, sh: Shared, rid: Rid, r: Request, ch: Choice, first: string, second: string)
    requires Alone(w, sh, rid, r, first, second) && Draws(r, ch, first, second) && !HasRecord(r.phase)
      && !PlacingBlob(r.phase)
    ensures Progress(w, sh, rid, r, FileMove(w, sh, rid, r, ch), first, second)
  {
    if r.phase.CheckingBlob? { CheckProgress(w, sh, rid, r, ch, first, second); }
  }

  lemma WriteProgress(w: World, sh: Shared, rid: Rid, r: Request, n: nat, ch: Choice, first: string, second: string)
    requires Alone(w, sh, rid, r, first, second) && Draws(r, ch, first, second) && r.phase == WritingBlob(n)
    ensures Progress(w, sh, rid, r, WriteBlob(w, sh, rid, r, n, ch), first, second)
  {
  }

  lemma BlobProgress(w: World, sh: Shared, rid: Rid, r: Request, ch: Choice, first: string, second: string)
    requires Alone(w, sh, rid, r, first, second) && Draws(r, ch, first, second) && PlacingBlob(r.phase)
    ensures Progress(w, sh, rid, r, FileMove(w, sh, rid, r, ch), first, second)
  {
    match r.phase
    case MakingBlobDir =>
    case OpeningBlobTemp =>
    case WritingBlob(n) => WriteProgress(w, sh, rid, r, n, ch, first, second);
  }

  lemma SidecarProgress(w: World, sh: Shared, rid: Rid, r: Request, ch: Choice, first: string, second: string)
    requires Alone(w, sh, rid, r, first, second) && Draws(r, ch, first, second)
    requires HasRecord(r.phase) && !r.phase.Registering?
    ensures Progress(w, sh, rid, r, FileMove(w, sh, rid, r, ch), first, second)
  {
    match r.phase
    case MakingIndexDir(_) =>
    case OpeningSidecarTemp(_) =>
    case WritingSidecar(_, _) =>
  }

  lemma PutProgress(w: World, sh: Shared, rid: Rid, r: Request, ch: Choice, first: string, second: string)
    requires Alone(w, sh, rid, r, first, second) && Draws(r, ch, first, second) && !r.phase.Registering?
    ensures Progress(w, sh, rid, r, FileMove(w, sh, rid, r, ch), first, second)
  {
    if HasRecord(r.phase) {
      SidecarProgress(w, sh, rid, r, ch, first, second);
    } else if PlacingBlob(r.phase) {
      BlobProgress(w, sh, rid, r, ch, first, second);
    } else {
      LockProgress(w, sh, rid, r, ch, first, second);
    }
  }

  /** Between the two states only the request `rid` came or moved. */
  predicate OnlyOf(s: State, rid: Rid, s': State) {
    s'.requests.Keys == s.requests.Keys + {rid} && s'.corrupted == s.corrupted
  }

  /** The request has its record, and only the metadata transaction is ahead. */
  predicate AboutToRegister(s: State, rid: Rid, f: Form, first: string, second: string) {
    && s.process.Serving? && BackingPresent(s.shared.volume) && second !in s.shared.minted
    && rid in s.requests && s.requests[rid].form == f
    && s.requests[rid].phase.Registering? && IsOwnRecord(s.requests[rid].phase.record, first)
  }

  lemma PutStep(w: World, s: State, rid: Rid, ch: Choice, first: string, second: string) returns (s': State)
    requires s.process.Serving? && rid in s.requests && Draws(s.requests[rid], ch, first, second)
    requires Alone(w, s.shared, rid, s.requests[rid], first, second) && !s.requests[rid].phase.Registering?
    ensures Enabled(w, s, Advance(rid, ch)) && s' == Do(w, s, Advance(rid, ch)) && s'.process.Serving?
    ensures s'.shared.db == s.shared.db && OnlyOf(s, rid, s')
    ensures if s'.requests[rid].phase.Registering? then AboutToRegister(s', rid, s.requests[rid].form, first, second)
            else
              && Alone(w, s'.shared, rid, s'.requests[rid], first, second)
              && Nearer(w, s.requests[rid], s'.requests[rid])
    ensures s'.requests[rid].form == s.requests[rid].form
  {
    PutProgress(w, s.shared, rid, s.requests[rid], ch, first, second);
    s' := Act(s, rid, FileMove(w, s.shared, rid, s.requests[rid], ch));
  }

  lemma {:induction false} PutGoesThrough(w: World, s: State, rid: Rid, first: Choice, second: Choice)
    returns (steps: seq<Step>, s': State)
    requires s.process.Serving? && rid in s.requests && first.chunk > 0 && second.chunk > 0
    requires Alone(w, s.shared, rid, s.requests[rid], first.id, second.id) && !s.requests[rid].phase.Registering?
    ensures Reaches(w, s, steps, s') && AboutToRegister(s', rid, s.requests[rid].form, first.id, second.id)
    ensures s'.shared.db == s.shared.db && OnlyOf(s, rid, s')
    decreases Stage(s.requests[rid].phase), Unwritten(w, s.requests[rid])
  {
    var ch := if HasRecord(s.requests[rid].phase) then second else first;
    var s1 := PutStep(w, s, rid, ch, first.id, second.id);
    var rest := [];
    s' := s1;
    if !s1.requests[rid].phase.Registering? { rest, s' := PutGoesThrough(w, s1, rid, first, second); }
    Unroll(w, s, Advance(rid, ch), rest, s');
    steps := [Advance(rid, ch)] + rest;
  }

  /** A request that nothing speaks against: well formed, fit for `put`, its scope, if it has one, not
      bound, and the rows it cites there. */
  ghost predicate Acceptable(w: World, db: Db, f: Form) {
    && !Malformed(f, w.maxBytes) && Storable(w, f.upload) && (f.key.Some? ==> f.key.value != "")
    && Unused(db.artifacts, ScopeOf(f)) && RunExists(db, f.runId) && EvidenceExists(db, f.evidenceId)
  }

  lemma StorableIsNotRefused(w: World, u: Upload)
    requires Storable(w, u)
    ensures PutRefusal(w.codec, w.maxBytes, u).None?
  {
    DeclaredWronglyMeans(w.codec, u);
  }

  lemma AcceptableInsert(w: World, db: Db, f: Form, a: ArtifactRecord)
    requires Acceptable(w, db, f) && a.artifactId !in db.artifacts && IsOwnRecord(a, a.artifactId)
    ensures var (db', reply) := Apply(w.hash, db, RegisterOp(f, Submitted(f, a)));
      && reply == ArtifactIs(a.(runId := f.runId, evidenceId := f.evidenceId))
      && Inserts(db.artifacts, db'.artifacts, a.artifactId, reply.artifact, ScopeOf(f))
  {
    ArtifactIsStored(w.hash, db, Submitted(f, a), f.key, if f.key.Some? then f.producer else None);
  }

  /** The row of the request is in. */
  ghost predicate RowIn(s: State, s': State, rid: Rid, f: Form, id: string) {
    && rid in s'.requests && s'.requests[rid].phase.Done? && s'.requests[rid].phase.reply.ArtifactIs?
    && var a := s'.requests[rid].phase.reply.artifact;
    && a.artifactId == id && a.runId == f.runId && a.evidenceId == f.evidenceId
    && Inserts(s.shared.db.artifacts, s'.shared.db.artifacts, id, a, ScopeOf(f))
  }

  lemma RowGoesIn(w: World, s: State, rid: Rid, first: string, second: Choice) returns (s': State)
    requires s.process.Serving? && rid in s.requests && Acceptable(w, s.shared.db, s.requests[rid].form)
    requires AboutToRegister(s, rid, s.requests[rid].form, first, second.id) && first !in s.shared.db.artifacts
    requires second.chunk > 0 && second.reachable
    ensures Reaches(w, s, [Advance(rid, second)], s') && RowIn(s, s', rid, s.requests[rid].form, first)
    ensures BackingPresent(s'.shared.volume) && s'.process.Serving? && second.id !in s'.shared.minted
    ensures OnlyOf(s, rid, s')
  {
    var r := s.requests[rid];
    AcceptableInsert(w, s.shared.db, r.form, r.phase.record);
    RegisterConcludes(w, s.shared, rid, r, Submitted(r.form, r.phase.record), second);
    s' := Act(s, rid, Register(w, s.shared, r, Submitted(r.form, r.phase.record), second));
    assert Reaches(w, s', [], s');
    Unroll(w, s, Advance(rid, second), [], s');
  }

  /** No request is under way and the layout is there. */
  predicate Idle(s: State) { s.process.Serving? && BackingPresent(s.shared.volume) && s.shared.lock.None? }

  predicate Fresh(s: State, rid: Rid, first: Choice, second: Choice) {
    && rid !in s.requests && first.id != second.id && first.id !in s.shared.minted && second.id !in s.shared.minted
    && first.id !in s.shared.db.artifacts && first.chunk > 0 && second.chunk > 0
    && first.reachable && second.reachable
  }

  /** The bytes do not contradict a blob that is there. */
  predicate Agrees(w: World, v: Volume, u: Upload) {
    w.codec.sha(u.data) in v.blobs ==> v.blobs[w.codec.sha(u.data)] == u.data
  }

  lemma LookUpAdmits(w: World, sh: Shared, r: Request, ch: Choice)
    requires Acceptable(w, sh.db, r.form) && ch.reachable
    ensures LookUp(w, sh, r, ch) == Move(r.(missed := true, phase := CheckingBacking), Quiet)
  {
    if r.form.key.Some? {
      forall id ensures !Binds(sh.db.artifacts, id, ScopeOf(r.form).value) {
        assert !Bound(sh.db.artifacts, ScopeOf(r.form), id);
      }
    }
  }

  lemma Admission(w: World, s: State, rid: Rid, f: Form, first: Choice, second: Choice) returns (s': State)
    requires Idle(s) && Fresh(s, rid, first, second)
    requires Acceptable(w, s.shared.db, f) && Agrees(w, s.shared.volume, f.upload)
    ensures Reaches(w, s, [Receive(rid, f), Advance(rid, first)], s') && s'.process.Serving? && rid in s'.requests
    ensures s'.requests[rid].form == f && s'.requests[rid].phase.CheckingBacking?
    ensures Alone(w, s'.shared, rid, s'.requests[rid], first.id, second.id) && s'.shared.db == s.shared.db
    ensures OnlyOf(s, rid, s')
  {
    var r := Request(f, false, None, Arrived);
    var s1 := s.(requests := s.requests[rid := r]);
    LookUpAdmits(w, s1.shared, r, first);
    StorableIsNotRefused(w, f.upload);
    s' := Act(s1, rid, Move(r.(missed := true, phase := CheckingBacking), Quiet));
    assert Reaches(w, s', [], s');
    Unroll(w, s1, Advance(rid, first), [], s');
    Unroll(w, s, Receive(rid, f), [Advance(rid, first)], s');
  }

  /** A service with nothing else to do takes every acceptable upload all the way, with a key or
      without, with links or without, and whatever its bytes: the request ends with the artifact as
      its answer, and the metadata asserts it, bound to its scope. */
  lemma UploadIsAsserted(w: World, s: State, rid: Rid, f: Form, first: Choice, second: Choice)
    returns (steps: seq<Step>, s': State)
    requires Idle(s) && Fresh(s, rid, first, second)
    requires Acceptable(w, s.shared.db, f) && Agrees(w, s.shared.volume, f.upload)
    ensures Reaches(w, s, steps, s') && ArtifactStoreReady(s') && OnlyOf(s, rid, s')
    ensures RowIn(s, s', rid, f, first.id) && second.id !in s'.shared.minted
  {
    var s1 := Admission(w, s, rid, f, first, second);
    var middle, s2 := PutGoesThrough(w, s1, rid, first, second);
    s' := RowGoesIn(w, s2, rid, first.id, second);
    ReachesThen(w, s1, middle, s2, [Advance(rid, second)], s');
    ReachesThen(w, s, [Receive(rid, f), Advance(rid, first)], s1, middle + [Advance(rid, second)], s');
    steps := [Receive(rid, f), Advance(rid, first)] + (middle + [Advance(rid, second)]);
  }

  // ---------------------------------------------------------------------------
  // Without the answer
  // ---------------------------------------------------------------------------

  const UNANSWERED_RESTART: seq<Step> := [LoseVolume(BARE), Crash, Boot(true), Query(false)]

  function FourSteps(rid: Rid, ch: Choice): seq<Step> {
    [Advance(rid, ch), Advance(rid, ch), Advance(rid, ch), Advance(rid, ch)]
  }

  /** The volume is lost, the process restarts, the startup query gets no answer, and then one
      upload arrives and takes four steps. */
  function LossThenUpload(rid: Rid, f: Form, ch: Choice): seq<Step> {
    UNANSWERED_RESTART + ([Receive(rid, f)] + FourSteps(rid, ch))
  }

  lemma LayoutIsMade(w: World, s: State, rid: Rid, ch: Choice) returns (s': State)
    requires s.process.Serving? && rid in s.requests && s.requests[rid].phase.MakingLayout? && Possible(s, ch)
    ensures Reaches(w, s, [Advance(rid, ch), Advance(rid, ch)], s') && ArtifactStoreReady(s') && OnlyOf(s, rid, s')
    ensures s'.shared.db == s.shared.db && s'.shared.volume.sidecars == s.shared.volume.sidecars
  {
    var s1 := Act(s, rid, Go(s.requests[rid], WritingMarker, MakeDirs));
    s' := Act(s1, rid, Go(s1.requests[rid], WantingLock, MakeMarker));
    assert Reaches(w, s', [], s');
    Unroll(w, s1, Advance(rid, ch), [], s');
    Unroll(w, s, Advance(rid, ch), [Advance(rid, ch)], s');
  }

  /** An upload without a key or links, fit for `put`. */
  predicate PlainUpload(w: World, f: Form) {
    f.key.None? && f.runId.None? && f.evidenceId.None? && !Malformed(f, w.maxBytes) && Storable(w, f.upload)
  }

  /** The first four steps of an upload into a store that has never seen its layout build it. */
  lemma LazyLayout(w: World, s: State, rid: Rid, ch: Choice) returns (s': State)
    requires s.process.Serving? && rid in s.requests && s.requests[rid].phase.Arrived?
    requires PlainUpload(w, s.requests[rid].form) && Possible(s, ch)
    requires !BackingPresent(s.shared.volume) && !s.shared.initialised
    ensures Reaches(w, s, FourSteps(rid, ch), s') && ArtifactStoreReady(s') && OnlyOf(s, rid, s')
    ensures s'.shared.db == s.shared.db && s'.shared.volume.sidecars == s.shared.volume.sidecars
  {
    var r := s.requests[rid];
    StorableIsNotRefused(w, r.form.upload);
    var s1 := Act(s, rid, Move(r.(missed := true, phase := CheckingBacking), Quiet));
    var s2 := Act(s1, rid, Go(s1.requests[rid], MakingLayout, Quiet));
    s' := LayoutIsMade(w, s2, rid, ch);
    Unroll(w, s1, Advance(rid, ch), [Advance(rid, ch), Advance(rid, ch)], s');
    Unroll(w, s, Advance(rid, ch), [Advance(rid, ch), Advance(rid, ch), Advance(rid, ch)], s');
  }

  function Restarted(s: State): State { DecideStartup(BootNow(CrashNow(Lose(s, BARE)), true), false) }

  lemma RestartsUnanswered(w: World, s: State)
    ensures Reaches(w, s, UNANSWERED_RESTART, Restarted(s))
  {
    var s1 := Lose(s, BARE);
    var s2 := CrashNow(s1);
    var s3 := BootNow(s2, true);
    assert Reaches(w, Restarted(s), [], Restarted(s));
    Unroll(w, s3, Query(false), [], Restarted(s));
    Unroll(w, s2, Boot(true), [Query(false)], Restarted(s));
    Unroll(w, s1, Crash, [Boot(true), Query(false)], Restarted(s));
    Unroll(w, s, LoseVolume(BARE), [Crash, Boot(true), Query(false)], Restarted(s));
  }

  /** The answer to the startup query is needed: from every state that asserts an artifact, a
      restart whose query is not answered can end ready over a volume that does not hold it. */
  lemma HonestyNeedsTheAnswer(w: World, s: State, rid: Rid, f: Form, ch: Choice, id: string) returns (s': State)
    requires id in s.shared.db.artifacts && rid !in s.requests && PlainUpload(w, f) && Possible(s, ch)
    ensures Reaches(w, s, LossThenUpload(rid, f, ch), s') && ArtifactStoreReady(s')
    ensures id in s'.shared.db.artifacts && !AllHeld(w, s'.shared) && OnlyOf(s, rid, s')
  {
    var s4 := Restarted(s);
    var s5 := s4.(requests := s4.requests[rid := Request(f, false, None, Arrived)]);
    RestartsUnanswered(w, s);
    s' := LazyLayout(w, s5, rid, ch);
    Unroll(w, s4, Receive(rid, f), FourSteps(rid, ch), s');
    ReachesThen(w, s, UNANSWERED_RESTART, s4, [Receive(rid, f)] + FourSteps(rid, ch), s');
    assert id in s'.shared.db.artifacts;
  }

  /** And such a state is reached: from every first deployment there is a run that registers an
      artifact, loses the volume, restarts unanswered, and ends ready without holding it. */
  lemma ReadinessCanLie(w: World, s0: State, rid: Rid, rid': Rid, f: Form, first: Choice, second: Choice)
    returns (steps: seq<Step>, s': State)
    requires Initial(w, s0) && PlainUpload(w, f) && rid != rid' && Fresh(s0, rid, first, second)
    ensures Reaches(w, s0, steps, s') && ArtifactStoreReady(s') && !AllHeld(w, s'.shared) && !s'.corrupted
  {
    var s1 := Startup.Started(s0, true, true);
    Startup.StartedIsReached(w, s0, true, true);
    var up, s2 := UploadIsAsserted(w, s1, rid, f, first, second);
    s' := HonestyNeedsTheAnswer(w, s2, rid', f, second, first.id);
    ReachesThen(w, s1, up, s2, LossThenUpload(rid', f, second), s');
    ReachesThen(w, s0, Startup.StartupSteps(s0, true, true), s1, up + LossThenUpload(rid', f, second), s');
    steps := Startup.StartupSteps(s0, true, true) + (up + LossThenUpload(rid', f, second));
  }
}
