/** `put` file operation by file operation computes what `put` in one piece does: when no other
    request moves and nothing is lost, every way of splitting the writes into chunks ends in the
    state, and with the answer, of the sequential method. */
module PutRefinement {
  import opened Wrappers
  import opened Contract
  import opened Volumes
  import FsStore
  import opened Service

  /** One request moving alone from inside `put`, a choice per step, until it leaves `put`. */
  predicate Solo(w: World, sh: Shared, rid: Rid, r: Request, choices: seq<Choice>, sh': Shared, r': Request)
    decreases |choices|
  {
    if choices == [] then sh' == sh && r' == r
    else
      var m := FileMove(w, sh, rid, r, choices[0]);
      !AtMetadata(r.phase) && !Inactive(r.phase)
        && Solo(w, Effected(sh, rid, m.effect), rid, m.next, choices[1..], sh', r')
  }

  function Start(sh: Shared): FsStore.Fs { FsStore.Fs(sh.volume, sh.initialised) }

  /** The store once `put` has found or made its layout. */
  function Ready(fs: FsStore.Fs): FsStore.Fs {
    if BackingPresent(fs.volume) then fs.(initialised := true) else FsStore.Initialise(fs)
  }

  predicate Accepts(w: World, fs: FsStore.Fs, u: Upload) {
    PutRefusal(w.codec, w.maxBytes, u).None? && !FsStore.Lost(fs)
  }

  function Blobbed(w: World, fs: FsStore.Fs, u: Upload): Volume {
    FsStore.StoreBlob(Ready(fs).volume, w.codec.sha(u.data), u.data).0
  }

  predicate BlobAccepted(w: World, fs: FsStore.Fs, u: Upload) {
    Accepts(w, fs, u) && FsStore.StoreBlob(Ready(fs).volume, w.codec.sha(u.data), u.data).1.Ok?
  }

  predicate WritesBlob(w: World, fs: FsStore.Fs, u: Upload) {
    Accepts(w, fs, u) && w.codec.sha(u.data) !in Ready(fs).volume.blobs
  }

  predicate IsRecordOf(w: World, u: Upload, record: ArtifactRecord) {
    record == RecordFor(w.codec, u, record.artifactId, record.registeredAt)
  }

  function WithTemp(v: Volume, rid: Rid, content: Bytes): Volume { v.(temps := v.temps[rid := content]) }

  /** How far the volume has come from `fs` when the request is in a phase of `put`. */
  ghost predicate OnTheWay(w: World, fs: FsStore.Fs, rid: Rid, sh: Shared, r: Request) {
    var u, now := r.form.upload, Start(sh);
    match r.phase
    case CheckingBacking => now == fs
    case MakingLayout => now == fs && Accepts(w, fs, u) && !BackingPresent(fs.volume)
    case WritingMarker =>
      now == fs.(volume := WithLayout(fs.volume)) && Accepts(w, fs, u) && !BackingPresent(fs.volume)
    case WantingLock => now == Ready(fs) && Accepts(w, fs, u)
    case CheckingBlob => now == Ready(fs) && Accepts(w, fs, u)
    case MakingBlobDir => now == Ready(fs) && WritesBlob(w, fs, u)
    case OpeningBlobTemp => now == Ready(fs).(volume := WithBlobsDir(Ready(fs).volume)) && WritesBlob(w, fs, u)
    case WritingBlob(n) =>
      && WritesBlob(w, fs, u) && n <= |u.data|
      && now == Ready(fs).(volume := WithTemp(WithBlobsDir(Ready(fs).volume), rid, u.data[..n]))
    case MakingIndexDir(record) =>
      BlobAccepted(w, fs, u) && IsRecordOf(w, u, record) && now == Ready(fs).(volume := Blobbed(w, fs, u))
    case OpeningSidecarTemp(record) =>
      BlobAccepted(w, fs, u) && IsRecordOf(w, u, record) && now == Ready(fs).(volume := WithIndexDir(Blobbed(w, fs, u)))
    case WritingSidecar(record, n) =>
      && BlobAccepted(w, fs, u) && IsRecordOf(w, u, record) && n <= |w.codec.encode(record)|
      && now == Ready(fs).(volume := WithTemp(WithIndexDir(Blobbed(w, fs, u)), rid, w.codec.encode(record)[..n]))
    case Registering(record) =>
      && BlobAccepted(w, fs, u) && IsRecordOf(w, u, record)
      && now == Ready(fs).(volume := FsStore.WriteSidecar(w.codec, Blobbed(w, fs, u), record))
    case Done(reply) =>
      reply.Raised? && forall id, time :: FsStore.Put(w.codec, w.maxBytes, fs, u, id, time) == (now, Err(reply.error))
    case _ => false
  }

  /** Moving a temporary file into place leaves no trace of it. */
  lemma MovingOwnTemp(v: Volume, rid: Rid, content: Bytes)
    requires rid !in v.temps
    ensures WithTemp(v, rid, content).(temps := WithTemp(v, rid, content).temps - {rid}) == v
    ensures WithTemp(v, rid, content).temps[rid] == content
  {
    assert WithTemp(v, rid, content).temps - {rid} == v.temps;
  }

  lemma RewritingOwnTemp(v: Volume, rid: Rid, content: Bytes, more: Bytes)
    ensures WithTemp(WithTemp(v, rid, content), rid, more) == WithTemp(v, rid, more)
  {
  }

  lemma LayoutOnTheWay(w: World, fs: FsStore.Fs, rid: Rid, sh: Shared, r: Request, ch: Choice)
    requires OnTheWay(w, fs, rid, sh, r)
    requires r.phase.CheckingBacking? || r.phase.MakingLayout? || r.phase.WritingMarker? || r.phase.WantingLock?
    ensures var m := FileMove(w, sh, rid, r, ch); OnTheWay(w, fs, rid, Effected(sh, rid, m.effect), m.next)
  {
  }

  lemma WritingBlobOnTheWay(w: World, fs: FsStore.Fs, rid: Rid, sh: Shared, r: Request, n: nat, ch: Choice)
    requires OnTheWay(w, fs, rid, sh, r) && rid !in fs.volume.temps && r.phase == WritingBlob(n)
    ensures var m := WriteBlob(w, sh, rid, r, n, ch); OnTheWay(w, fs, rid, Effected(sh, rid, m.effect), m.next)
  {
    var u, before := r.form.upload, WithBlobsDir(Ready(fs).volume);
    if n < |u.data| {
      RewritingOwnTemp(before, rid, u.data[..n], u.data[..Reach(n, ch.chunk, |u.data|)]);
    } else {
      assert u.data[..n] == u.data;
      MovingOwnTemp(before, rid, u.data);
      assert Effected(sh, rid, WriteBlob(w, sh, rid, r, n, ch).effect).volume == Blobbed(w, fs, u);
    }
  }

  lemma CheckingBlobOnTheWay(w: World, fs: FsStore.Fs, rid: Rid, sh: Shared, r: Request, ch: Choice)
    requires OnTheWay(w, fs, rid, sh, r) && r.phase.CheckingBlob?
    ensures var m := CheckBlob(w, sh, r, ch); OnTheWay(w, fs, rid, Effected(sh, rid, m.effect), m.next)
  {
  }

  lemma BlobOnTheWay(w: World, fs: FsStore.Fs, rid: Rid, sh: Shared, r: Request, ch: Choice)
    requires OnTheWay(w, fs, rid, sh, r) && rid !in fs.volume.temps
    requires HoldsLock(r.phase)
    ensures var m := FileMove(w, sh, rid, r, ch); OnTheWay(w, fs, rid, Effected(sh, rid, m.effect), m.next)
  {
    match r.phase
    case CheckingBlob => CheckingBlobOnTheWay(w, fs, rid, sh, r, ch);
    case MakingBlobDir =>
    case OpeningBlobTemp => assert r.form.upload.data[..0] == [];
    case WritingBlob(n) => WritingBlobOnTheWay(w, fs, rid, sh, r, n, ch);
  }

  lemma WritingSidecarOnTheWay(w: World, fs: FsStore.Fs, rid: Rid, sh: Shared, r: Request, record: ArtifactRecord,
                               n: nat, ch: Choice)
    requires OnTheWay(w, fs, rid, sh, r) && rid !in fs.volume.temps && r.phase == WritingSidecar(record, n)
    ensures var m := WriteSidecar(w, sh, rid, r, record, n, ch);
      OnTheWay(w, fs, rid, Effected(sh, rid, m.effect), m.next)
  {
    var content, before := w.codec.encode(record), WithIndexDir(Blobbed(w, fs, r.form.upload));
    if n < |content| {
      RewritingOwnTemp(before, rid, content[..n], content[..Reach(n, ch.chunk, |content|)]);
    } else {
      assert content[..n] == content;
      MovingOwnTemp(before, rid, content);
    }
  }

  lemma SidecarOnTheWay(w: World, fs: FsStore.Fs, rid: Rid, sh: Shared, r: Request, ch: Choice)
    requires OnTheWay(w, fs, rid, sh, r) && rid !in fs.volume.temps
    requires r.phase.MakingIndexDir? || r.phase.OpeningSidecarTemp? || r.phase.WritingSidecar?
    ensures var m := FileMove(w, sh, rid, r, ch); OnTheWay(w, fs, rid, Effected(sh, rid, m.effect), m.next)
  {
    match r.phase
    case MakingIndexDir(_) =>
    case OpeningSidecarTemp(record) => assert w.codec.encode(record)[..0] == [];
    case WritingSidecar(record, n) => WritingSidecarOnTheWay(w, fs, rid, sh, r, record, n, ch);
  }

  lemma StepOnTheWay(w: World, fs: FsStore.Fs, rid: Rid, sh: Shared, r: Request, ch: Choice)
    requires OnTheWay(w, fs, rid, sh, r) && rid !in fs.volume.temps && !AtMetadata(r.phase) && !Inactive(r.phase)
    ensures var m := FileMove(w, sh, rid, r, ch);
      OnTheWay(w, fs, rid, Effected(sh, rid, m.effect), m.next) && m.next.form == r.form
  {
    if HoldsLock(r.phase) {
      BlobOnTheWay(w, fs, rid, sh, r, ch);
    } else if HasRecord(r.phase) {
      SidecarOnTheWay(w, fs, rid, sh, r, ch);
    } else {
      LayoutOnTheWay(w, fs, rid, sh, r, ch);
    }
  }

  lemma {:induction false} SoloStaysOnTheWay(w: World, fs: FsStore.Fs, rid: Rid, sh: Shared, r: Request,
                                             choices: seq<Choice>, sh': Shared, r': Request)
    requires OnTheWay(w, fs, rid, sh, r) && rid !in fs.volume.temps && Solo(w, sh, rid, r, choices, sh', r')
    ensures OnTheWay(w, fs, rid, sh', r') && r'.form == r.form
    decreases |choices|
  {
    if choices != [] {
      var m := FileMove(w, sh, rid, r, choices[0]);
      StepOnTheWay(w, fs, rid, sh, r, choices[0]);
      SoloStaysOnTheWay(w, fs, rid, Effected(sh, rid, m.effect), m.next, choices[1..], sh', r');
    }
  }

  /** Run alone, the steps of `put` refine the method: the request reaches the metadata store only
      with the record the method returns, over the volume and flag the method leaves; and when it
      is refused inside `put`, the method refuses with the same error and leaves the same state. */
  lemma SoloPutIsPut(w: World, rid: Rid, sh: Shared, r: Request, choices: seq<Choice>, sh': Shared, r': Request)
    requires r.phase.CheckingBacking? && rid !in sh.volume.temps && Solo(w, sh, rid, r, choices, sh', r')
    ensures r'.phase.Registering? ==>
      FsStore.Put(w.codec, w.maxBytes, Start(sh), r.form.upload, r'.phase.record.artifactId,
                  r'.phase.record.registeredAt)
        == (Start(sh'), Ok(r'.phase.record))
    ensures r'.phase.Done? ==> r'.phase.reply.Raised? && forall id, time ::
      FsStore.Put(w.codec, w.maxBytes, Start(sh), r.form.upload, id, time) == (Start(sh'), Err(r'.phase.reply.error))
  {
    SoloStaysOnTheWay(w, Start(sh), rid, sh, r, choices, sh', r');
  }
}
