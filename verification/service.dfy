/** The two-store protocol.  Artifact bytes live on one volume and artifact records in another
    store; nothing makes a request atomic across the two.  The state machine below interleaves
    any number of registration requests file operation by file operation, with other metadata
    writes, loss of the artifact volume at any moment, crashes, and restarts that run the
    startup decision. */
module Service {
  import opened Wrappers
  import opened Timestamps
  import opened Contract
  import opened Tables
  import opened Metadata
  import opened History
  import opened Volumes

  type Rid = nat

  /** Where a request is in `create_artifact`, `put` included.  Temporary files are written a
      chunk at a time before they are moved into place. */
  datatype Phase =
    | Arrived
    | Replaying(candidate: ArtifactRecord)
    | CheckingBacking
    | MakingLayout
    | WritingMarker
    | WantingLock
    | CheckingBlob
    | MakingBlobDir
    | OpeningBlobTemp
    | WritingBlob(written: nat)
    | MakingIndexDir(record: ArtifactRecord)
    | OpeningSidecarTemp(record: ArtifactRecord)
    | WritingSidecar(record: ArtifactRecord, written: nat)
    | Registering(record: ArtifactRecord)
    | Done(reply: Reply)
    | Dead

  /** What the client sent. */
  datatype Form = Form(upload: Upload, runId: Option<string>, evidenceId: Option<string>,
                       key: Option<string>, producer: Option<string>)

  /** `missed` and `minted` are history: whether the replay lookup found nothing, and the
      artifact id drawn, if any. */
  datatype Request = Request(form: Form, missed: bool, minted: Option<string>, phase: Phase)

  /** What the requests share: the two stores, and the artifact store object's flag and lock.
      `minted` is history: the artifact ids drawn so far. */
  datatype Shared = Shared(volume: Volume, db: Db, initialised: bool, lock: Option<Rid>, minted: set<string>)

  datatype Process = Down | Deciding | Creating | MarkingCreated | Serving

  /** The last four are history: every startup query so far got an answer; the volume was lost at
      some time; a request made the marker anew although there was something to lose; some blob's
      bytes were corrupted. */
  datatype State = State(shared: Shared, process: Process, requests: map<Rid, Request>,
                         allAnswered: bool, everLost: bool, rebuilt: bool, corrupted: bool)

  datatype World = World(codec: Codec, hash: Hasher, maxBytes: nat)

  /** What is decided outside the program at one step: how much the kernel wrote, the UUID drawn,
      the clock, and whether the metadata store could be reached. */
  datatype Choice = Choice(chunk: nat, id: string, now: DateTime, reachable: bool)

  function ScopeOf(f: Form): Option<Scope> {
    if f.key.Some? then Some(Scope(ScopeProducer(f.producer), f.key.value)) else None
  }

  function Digest(w: World, f: Form): string { w.codec.sha(f.upload.data) }

  predicate Inactive(p: Phase) { p.Done? || p.Dead? }

  predicate HasRecord(p: Phase) {
    p.MakingIndexDir? || p.OpeningSidecarTemp? || p.WritingSidecar? || p.Registering?
  }

  /** At the metadata store, rather than inside `put`. */
  predicate AtMetadata(p: Phase) { p.Arrived? || p.Replaying? || p.Registering? }

  predicate PlacingBlob(p: Phase) { p.MakingBlobDir? || p.OpeningBlobTemp? || p.WritingBlob? }

  predicate HoldsLock(p: Phase) { p.CheckingBlob? || PlacingBlob(p) }

  // ---------------------------------------------------------------------------
  // What one step of a request does to the shared state
  // ---------------------------------------------------------------------------

  datatype Effect =
    | Quiet
    | SeeLayout
    | MakeDirs
    | MakeMarker
    | TakeLock
    | DropLock
    | MakeBlobsDir
    | MakeIndexDir
    | OpenTemp
    | FillTemp(content: Bytes)
    | DropTemp
    | ReuseBlob(id: string)
    | PlaceBlob(digest: string, id: string)
    | PlaceSidecar(id: string)
    | Store(after: Db)

  /** `FillTemp` reaches the temporary file if it is still on the volume, else an unlinked one.
      `PlaceBlob` and `PlaceSidecar` move the temporary file, whatever it holds. */
  function Effected(sh: Shared, rid: Rid, e: Effect): Shared {
    var v := sh.volume;
    match e
    case Quiet => sh
    case SeeLayout => sh.(initialised := true)
    case MakeDirs => sh.(volume := WithLayout(v))
    case MakeMarker => sh.(volume := WithMarker(v), initialised := true)
    case TakeLock => sh.(lock := Some(rid))
    case DropLock => sh.(lock := None)
    case MakeBlobsDir => sh.(volume := WithBlobsDir(v))
    case MakeIndexDir => sh.(volume := WithIndexDir(v))
    case OpenTemp => sh.(volume := v.(temps := v.temps[rid := []]))
    case FillTemp(content) => if rid in v.temps then sh.(volume := v.(temps := v.temps[rid := content])) else sh
    case DropTemp => sh.(volume := v.(temps := v.temps - {rid}), lock := if sh.lock == Some(rid) then None else sh.lock)
    case ReuseBlob(id) => sh.(lock := None, minted := sh.minted + {id})
    case PlaceBlob(digest, id) =>
      if rid !in v.temps then sh else
      sh.(volume := v.(blobs := v.blobs[digest := v.temps[rid]], temps := v.temps - {rid}), lock := None,
          minted := sh.minted + {id})
    case PlaceSidecar(id) =>
      if rid !in v.temps then sh else
      sh.(volume := v.(sidecars := v.sidecars[id := v.temps[rid]], temps := v.temps - {rid}))
    case Store(after) => sh.(db := after)
  }

  // ---------------------------------------------------------------------------
  // One request's next step
  // ---------------------------------------------------------------------------

  datatype Move = Move(next: Request, effect: Effect)

  function Go(r: Request, p: Phase, e: Effect): Move { Move(r.(phase := p), e) }

  function Refuse(r: Request, err: Error, e: Effect): Move { Go(r, Done(Raised(err)), e) }

  /** The stored record overlaid with what this request carries. */
  function Overlay(w: World, prior: ArtifactRecord, f: Form): ArtifactRecord {
    prior.(sha256 := Digest(w, f), sizeBytes := |f.upload.data|, contentType := f.upload.contentType,
           filename := f.upload.filename)
  }

  /** The replay lookup, outside any transaction. */
  ghost function LookUp(w: World, sh: Shared, r: Request, ch: Choice): Move {
    var f := r.form;
    if f.upload.filename == "" || |f.upload.data| > w.maxBytes || (f.key.Some? && Unscoped(f.producer)) then
      Refuse(r, ContractViolation, Quiet)
    else if f.key.Some? && !ch.reachable then Refuse(r, MetadataStoreError, Quiet)
    else
      var prior := if f.key.Some? then FindByScope(sh.db.artifacts, ScopeOf(f).value) else None;
      if prior.None? then Move(r.(missed := true, phase := CheckingBacking), Quiet)
      else if DeclaredWrongly(w.codec, f.upload) then Refuse(r, ChecksumMismatch, Quiet)
      else Go(r, Replaying(Overlay(w, sh.db.artifacts[prior.value].record, f)), Quiet)
  }

  function CheckBacking(w: World, sh: Shared, r: Request): Move {
    var refusal := PutRefusal(w.codec, w.maxBytes, r.form.upload);
    if refusal.Some? then Refuse(r, refusal.value, Quiet)
    else if BackingPresent(sh.volume) then Go(r, WantingLock, SeeLayout)
    else if sh.initialised then Refuse(r, ArtifactStoreError, Quiet)
    else Go(r, MakingLayout, Quiet)
  }

  /** The blob is in place: an id is drawn, and the sidecar comes next. */
  function Minted(w: World, r: Request, ch: Choice): Request {
    r.(minted := Some(ch.id), phase := MakingIndexDir(RecordFor(w.codec, r.form.upload, ch.id, ch.now)))
  }

  function CheckBlob(w: World, sh: Shared, r: Request, ch: Choice): Move {
    var d := Digest(w, r.form);
    if d !in sh.volume.blobs then Go(r, MakingBlobDir, Quiet)
    else if sh.volume.blobs[d] != r.form.upload.data then Refuse(r, Immutability, DropLock)
    else Move(Minted(w, r, ch), ReuseBlob(ch.id))
  }

  function Reach(written: nat, chunk: nat, size: nat): nat {
    if written + chunk <= size then written + chunk else size
  }

  function WriteBlob(w: World, sh: Shared, rid: Rid, r: Request, written: nat, ch: Choice): Move {
    var data := r.form.upload.data;
    if written < |data| then
      var n := Reach(written, ch.chunk, |data|);
      Go(r, WritingBlob(n), FillTemp(data[..n]))
    else if rid !in sh.volume.temps then Refuse(r, ArtifactStoreError, DropLock)
    else Move(Minted(w, r, ch), PlaceBlob(Digest(w, r.form), ch.id))
  }

  function WriteSidecar(w: World, sh: Shared, rid: Rid, r: Request, record: ArtifactRecord, written: nat,
                        ch: Choice): Move {
    var content := w.codec.encode(record);
    if written < |content| then
      var n := Reach(written, ch.chunk, |content|);
      Go(r, WritingSidecar(record, n), FillTemp(content[..n]))
    else if rid !in sh.volume.temps then Refuse(r, ArtifactStoreError, Quiet)
    else Go(r, Registering(record), PlaceSidecar(record.artifactId))
  }

  /** The record as it is handed to the metadata store, links included. */
  function Submitted(f: Form, record: ArtifactRecord): ArtifactRecord {
    if f.runId.Some? || f.evidenceId.Some? then record.(runId := f.runId, evidenceId := f.evidenceId) else record
  }

  function RegisterOp(f: Form, a: ArtifactRecord): Op {
    RegisterArtifact(a, f.key, if f.key.Some? then f.producer else None)
  }

  /** One metadata transaction; when the store cannot be reached it has no effect. */
  ghost function Register(w: World, sh: Shared, r: Request, a: ArtifactRecord, ch: Choice): Move {
    if !ch.reachable then Refuse(r, MetadataStoreError, Quiet)
    else
      var (after, reply) := Apply(w.hash, sh.db, RegisterOp(r.form, a));
      Go(r, Done(reply), Store(after))
  }

  /** The steps of `put`. */
  function FileMove(w: World, sh: Shared, rid: Rid, r: Request, ch: Choice): Move {
    match r.phase
    case CheckingBacking => CheckBacking(w, sh, r)
    case MakingLayout => Go(r, WritingMarker, MakeDirs)
    case WritingMarker => Go(r, WantingLock, MakeMarker)
    case WantingLock => Go(r, CheckingBlob, TakeLock)
    case CheckingBlob => CheckBlob(w, sh, r, ch)
    case MakingBlobDir => Go(r, OpeningBlobTemp, MakeBlobsDir)
    case OpeningBlobTemp =>
      if sh.volume.blobsDir then Go(r, WritingBlob(0), OpenTemp) else Refuse(r, ArtifactStoreError, DropLock)
    case WritingBlob(written) => WriteBlob(w, sh, rid, r, written, ch)
    case MakingIndexDir(record) => Go(r, OpeningSidecarTemp(record), MakeIndexDir)
    case OpeningSidecarTemp(record) =>
      if sh.volume.indexDir then Go(r, WritingSidecar(record, 0), OpenTemp) else Refuse(r, ArtifactStoreError, Quiet)
    case WritingSidecar(record, written) => WriteSidecar(w, sh, rid, r, record, written, ch)
    case _ => Move(r, Quiet)
  }

  ghost function NextMove(w: World, sh: Shared, rid: Rid, r: Request, ch: Choice): Move {
    match r.phase
    case Arrived => LookUp(w, sh, r, ch)
    case Replaying(candidate) => Register(w, sh, r, candidate, ch)
    case Registering(record) => Register(w, sh, r, Submitted(r.form, record), ch)
    case _ => FileMove(w, sh, rid, r, ch)
  }

  // ---------------------------------------------------------------------------
  // The machine
  // ---------------------------------------------------------------------------

  datatype Step =
    | Receive(rid: Rid, form: Form)
    | Advance(rid: Rid, choice: Choice)
    | Fail(rid: Rid)
    | OtherWrite(op: Op)
    | Probe
    | LoseVolume(left: Volume)
    | Corrupt(blobs: map<string, Bytes>)
    | Crash
    | Boot(writable: bool)
    | Query(answered: bool)
    | CreateLayout
    | CreateMarker

  /** A loss takes the marker and any part of the rest. */
  ghost predicate IsLoss(v: Volume, v': Volume) {
    !v'.marker && Frozen(v'.blobs, v.blobs) && Frozen(v'.sidecars, v.sidecars) && Frozen(v'.temps, v.temps)
  }

  /** Fresh ids are fresh, and a chunk is not empty. */
  predicate Possible(s: State, ch: Choice) { ch.id !in s.shared.minted && ch.chunk > 0 }

  predicate MayFail(p: Phase) {
    p.MakingLayout? || p.WritingMarker? || PlacingBlob(p) || (HasRecord(p) && !p.Registering?)
  }

  predicate CanAdvance(s: State, rid: Rid, ch: Choice) {
    && s.process.Serving? && rid in s.requests && !Inactive(s.requests[rid].phase) && Possible(s, ch)
    && (s.requests[rid].phase.WantingLock? ==> s.shared.lock.None?)
  }

  /** When a step that is not a request's next one can happen. */
  ghost predicate Other(s: State, step: Step) {
    match step
    case Receive(rid, f) => s.process.Serving? && rid !in s.requests && (f.key.Some? ==> f.key.value != "")
    case Advance(_, _) => false
    case Fail(rid) => s.process.Serving? && rid in s.requests && MayFail(s.requests[rid].phase)
    case OtherWrite(op) => s.process.Serving? && !op.RegisterArtifact?
    case Probe => s.process.Serving?
    case LoseVolume(left) => IsLoss(s.shared.volume, left)
    case Corrupt(blobs) => blobs.Keys == s.shared.volume.blobs.Keys
    case Crash => true
    case Boot(_) => s.process.Down?
    case Query(_) => s.process.Deciding?
    case CreateLayout => s.process.Creating?
    case CreateMarker => s.process.MarkingCreated?
  }

  ghost predicate Enabled(w: World, s: State, step: Step) {
    if step.Advance? then CanAdvance(s, step.rid, step.choice) else Other(s, step)
  }

  function Kill(requests: map<Rid, Request>): map<Rid, Request> {
    map rid | rid in requests :: if Inactive(requests[rid].phase) then requests[rid] else requests[rid].(phase := Dead)
  }

  /** A put is between its blob and its row. */
  predicate UploadsUnderWay(requests: map<Rid, Request>) {
    exists rid :: rid in requests && HasRecord(requests[rid].phase)
  }

  /** The marker is made anew by a request while the metadata asserts artifacts, or is about to. */
  predicate Rebuilds(s: State, e: Effect) {
    e.MakeMarker? && !s.shared.volume.marker && (s.shared.db.artifacts != map[] || UploadsUnderWay(s.requests))
  }

  function Act(s: State, rid: Rid, m: Move): State {
    s.(shared := Effected(s.shared, rid, m.effect), requests := s.requests[rid := m.next],
       rebuilt := s.rebuilt || Rebuilds(s, m.effect))
  }

  function FailMove(r: Request): Move { Refuse(r, ArtifactStoreError, DropTemp) }

  function Lose(s: State, left: Volume): State { s.(shared := s.shared.(volume := left), everLost := true) }

  /** `health()`, asked by `/ready`: seeing the layout raises the flag. */
  function ProbeNow(s: State): State {
    s.(shared := s.shared.(initialised := s.shared.initialised || BackingPresent(s.shared.volume)))
  }

  function CorruptNow(s: State, blobs: map<string, Bytes>): State {
    s.(shared := s.shared.(volume := s.shared.volume.(blobs := blobs)), corrupted := true)
  }

  function CrashNow(s: State): State {
    s.(process := Down, shared := s.shared.(initialised := false, lock := None), requests := Kill(s.requests))
  }

  /** A new store object looks at the volume; a healthy one is served from at once. */
  function BootNow(s: State, writable: bool): State {
    var present := BackingPresent(s.shared.volume);
    s.(shared := s.shared.(initialised := present), process := if present && writable then Serving else Deciding)
  }

  /** The volume is not healthy.  Only the metadata can tell a first deployment from a loss. */
  function DecideStartup(s: State, answered: bool): State {
    if !answered then s.(allAnswered := false, process := Serving)
    else if s.shared.db.artifacts != map[] then s.(shared := s.shared.(initialised := true), process := Serving)
    else s.(process := Creating)
  }

  function LayoutNow(s: State): State {
    s.(shared := s.shared.(volume := WithLayout(s.shared.volume)), process := MarkingCreated)
  }

  function MarkerNow(s: State): State {
    s.(shared := s.shared.(volume := WithMarker(s.shared.volume), initialised := true), process := Serving)
  }

  ghost function Otherwise(w: World, s: State, step: Step): State
    requires Other(s, step)
  {
    match step
    case Receive(rid, f) => s.(requests := s.requests[rid := Request(f, false, None, Arrived)])
    case Fail(rid) => Act(s, rid, FailMove(s.requests[rid]))
    case OtherWrite(op) => s.(shared := s.shared.(db := Apply(w.hash, s.shared.db, op).0))
    case Probe => ProbeNow(s)
    case LoseVolume(left) => Lose(s, left)
    case Corrupt(blobs) => CorruptNow(s, blobs)
    case Crash => CrashNow(s)
    case Boot(writable) => BootNow(s, writable)
    case Query(answered) => DecideStartup(s, answered)
    case CreateLayout => LayoutNow(s)
    case CreateMarker => MarkerNow(s)
  }

  ghost function Do(w: World, s: State, step: Step): State
    requires Enabled(w, s, step)
  {
    if step.Advance? then Act(s, step.rid, NextMove(w, s.shared, step.rid, s.requests[step.rid], step.choice))
    else Otherwise(w, s, step)
  }

  ghost predicate Reaches(w: World, s: State, steps: seq<Step>, s': State)
    decreases |steps|
  {
    if steps == [] then s == s'
    else Enabled(w, s, steps[0]) && Reaches(w, Do(w, s, steps[0]), steps[1..], s')
  }

  lemma Unroll(w: World, s: State, step: Step, rest: seq<Step>, s': State)
    requires Enabled(w, s, step) && Reaches(w, Do(w, s, step), rest, s')
    ensures Reaches(w, s, [step] + rest, s')
  {
    assert ([step] + rest)[1..] == rest;
  }

  lemma {:induction false} ReachesThen(w: World, s: State, a: seq<Step>, s1: State, b: seq<Step>, s': State)
    requires Reaches(w, s, a, s1) && Reaches(w, s1, b, s')
    ensures Reaches(w, s, a + b, s')
    decreases |a|
  {
    if a == [] {
      assert a + b == b;
    } else {
      ReachesThen(w, Do(w, s, a[0]), a[1..], s1, b, s');
      Unroll(w, s, a[0], a[1..] + b, s');
      assert a + b == [a[0]] + (a[1..] + b);
    }
  }

  /** A first deployment: nothing on the artifact volume, and no artifact in the metadata. */
  ghost predicate Initial(w: World, s: State) {
    && s.shared.volume == BARE && Valid(w.hash, s.shared.db) && s.shared.db.artifacts == map[]
    && !s.shared.initialised && s.shared.lock.None? && s.shared.minted == {}
    && s.process.Down? && s.requests == map[] && s.allAnswered && !s.everLost && !s.rebuilt && !s.corrupted
  }

  /** `/ready` answers 200 for the artifact store. */
  predicate ArtifactStoreReady(s: State) { s.process.Serving? && BackingPresent(s.shared.volume) }

  /** Every artifact the metadata asserts is on the volume. */
  ghost predicate AllHeld(w: World, sh: Shared) {
    forall id :: id in sh.db.artifacts ==>
      Held(w.codec, sh.volume, id, sh.db.artifacts[id].record.sha256, sh.db.artifacts[id].record.sizeBytes)
  }
}
