/** The filesystem artifact store, method by method, for one caller at a time.  The class is
    proved against functions on its state; the laws are about those functions. */
module FsStore {
  import opened Wrappers
  import opened Timestamps
  import opened Contract
  import opened Metadata
  import opened Volumes

  /** The volume, and the flag recording whether this store has ever seen its layout. */
  datatype Fs = Fs(volume: Volume, initialised: bool)

  predicate UnsafeId(id: string) { id == "" || '/' in id || '\\' in id || id == "." || id == ".." }

  predicate Lost(fs: Fs) { fs.initialised && !BackingPresent(fs.volume) }

  function Initialise(fs: Fs): Fs { Fs(WithMarker(WithLayout(fs.volume)), true) }

  function StoreBlob(v: Volume, digest: string, data: Bytes): (Volume, Result<()>) {
    if digest in v.blobs then (v, if v.blobs[digest] == data then Ok(()) else Err(Immutability))
    else (WithBlobsDir(v).(blobs := v.blobs[digest := data]), Ok(()))
  }

  function WriteSidecar(c: Codec, v: Volume, r: ArtifactRecord): Volume {
    WithIndexDir(v).(sidecars := v.sidecars[r.artifactId := c.encode(r)])
  }

  /** `id` and `now` are the UUID drawn and the time read during the call. */
  function Put(c: Codec, maxBytes: nat, fs: Fs, u: Upload, id: string, now: DateTime): (Fs, Result<ArtifactRecord>) {
    if PutRefusal(c, maxBytes, u).Some? then (fs, Err(PutRefusal(c, maxBytes, u).value))
    else if Lost(fs) then (fs, Err(ArtifactStoreError))
    else
      var ready := if BackingPresent(fs.volume) then fs.(initialised := true) else Initialise(fs);
      var (stored, r) := StoreBlob(ready.volume, c.sha(u.data), u.data);
      if r.Err? then (ready.(volume := stored), Err(r.error))
      else
        var record := RecordFor(c, u, id, now);
        (ready.(volume := WriteSidecar(c, stored, record)), Ok(record))
  }

  function Stat(c: Codec, fs: Fs, id: string): Result<ArtifactRecord> {
    if UnsafeId(id) then Err(NotFound)
    else if id !in fs.volume.sidecars then (if Lost(fs) then Err(ArtifactStoreError) else Err(NotFound))
    else
      var r := c.decode(fs.volume.sidecars[id]);
      if r.None? then Err(ArtifactStoreError) else Ok(r.value)
  }

  predicate Unreadable(c: Codec, v: Volume, id: string) {
    !UnsafeId(id) && id in v.sidecars && c.decode(v.sidecars[id]).None?
  }

  /** The blob a record names, when it hashes to the digest the record states. */
  function ReadBlob(c: Codec, v: Volume, r: ArtifactRecord): Result<Bytes> {
    if r.sha256 !in v.blobs then Err(ArtifactStoreError)
    else if c.sha(v.blobs[r.sha256]) != r.sha256 then Err(ChecksumMismatch)
    else Ok(v.blobs[r.sha256])
  }

  function Get(c: Codec, fs: Fs, id: string): Result<Bytes> {
    var r := Stat(c, fs, id);
    if r.Err? then Err(r.error) else ReadBlob(c, fs.volume, r.value)
  }

  /** `writable` is the outcome of the probe file. */
  function ProbeHealth(fs: Fs, writable: bool): (Fs, Result<()>) {
    if !BackingPresent(fs.volume) then (fs, Err(ArtifactStoreError))
    else (fs.(initialised := true), if writable then Ok(()) else Err(ArtifactStoreError))
  }

  // ---------------------------------------------------------------------------
  // The class
  // ---------------------------------------------------------------------------

  class FilesystemArtifactStore {
    const codec: Codec
    const maxBytes: nat
    var volume: Volume
    var initialised: bool

    function State(): Fs
      reads this
    {
      Fs(volume, initialised)
    }

    constructor (codec: Codec, maxBytes: nat, volume: Volume)
      ensures this.codec == codec && this.maxBytes == maxBytes
      ensures State() == Fs(volume, BackingPresent(volume))
    {
      this.codec := codec;
      this.maxBytes := maxBytes;
      this.volume := volume;
      initialised := BackingPresent(volume);
    }

    method RequireLiveBacking() returns (r: Result<()>)
      ensures r.Err? <==> initialised && !(volume.root && volume.blobsDir && volume.indexDir && volume.marker)
      ensures r.Err? ==> r.error == ArtifactStoreError
    {
      if initialised && !BackingPresent(volume) { return Err(ArtifactStoreError); }
      return Ok(());
    }

    method InitialiseStore()
      modifies this
      ensures State() == Initialise(old(State()))
      ensures initialised && volume.root && volume.blobsDir && volume.indexDir && volume.marker
      ensures volume.blobs == old(volume).blobs && volume.sidecars == old(volume).sidecars
    {
      volume := volume.(root := true);
      volume := volume.(blobsDir := true);
      volume := volume.(indexDir := true);
      if !volume.marker {
        volume := volume.(root := true);
        volume := volume.(marker := true);
      }
      initialised := true;
    }

    method MarkPreviouslyInitialised()
      modifies this`initialised
      ensures initialised
    {
      initialised := true;
    }

    method StoreBlobBytes(digest: string, data: Bytes) returns (r: Result<()>)
      modifies this`volume
      ensures (volume, r) == StoreBlob(old(volume), digest, data)
      ensures r.Ok? <==> digest !in old(volume).blobs || old(volume).blobs[digest] == data
      ensures forall d :: d in old(volume).blobs ==> d in volume.blobs && volume.blobs[d] == old(volume).blobs[d]
    {
      if digest in volume.blobs {
        if volume.blobs[digest] == data { return Ok(()); }
        return Err(Immutability);
      }
      volume := WithBlobsDir(volume);
      volume := volume.(blobs := volume.blobs[digest := data]);
      return Ok(());
    }

    method PutArtifact(u: Upload, id: string, now: DateTime) returns (r: Result<ArtifactRecord>)
      modifies this
      ensures (State(), r) == Put(codec, maxBytes, old(State()), u, id, now)
    {
      if Blank(u.contentType) { return Err(ArtifactStoreError); }
      if Blank(u.filename) { return Err(ArtifactStoreError); }
      if |u.data| > maxBytes { return Err(ArtifactStoreError); }
      var computed := codec.sha(u.data);
      if u.declared.Some? && Lower(u.declared.value) != computed { return Err(ChecksumMismatch); }
      if BackingPresent(volume) {
        initialised := true;
      } else {
        var live := RequireLiveBacking();
        if live.Err? { return Err(live.error); }
        InitialiseStore();
      }
      var stored := StoreBlobBytes(computed, u.data);
      if stored.Err? { return Err(stored.error); }
      var record := RecordFor(codec, u, id, now);
      volume := WithIndexDir(volume);
      volume := volume.(sidecars := volume.sidecars[record.artifactId := codec.encode(record)]);
      return Ok(record);
    }

    method StatArtifact(id: string) returns (r: Result<ArtifactRecord>)
      ensures r == Stat(codec, State(), id)
      ensures id in {"", ".", ".."} || '/' in id || '\\' in id ==> r == Err(NotFound)
      ensures Unreadable(codec, volume, id) ==> r == Err(ArtifactStoreError)
    {
      if UnsafeId(id) { return Err(NotFound); }
      if id !in volume.sidecars {
        var live := RequireLiveBacking();
        if live.Err? { return Err(live.error); }
        return Err(NotFound);
      }
      var parsed := codec.decode(volume.sidecars[id]);
      if parsed.None? { return Err(ArtifactStoreError); }
      return Ok(parsed.value);
    }

    method GetArtifact(id: string) returns (r: Result<Bytes>)
      ensures r == Get(codec, State(), id)
      ensures Stat(codec, State(), id).Err? ==> r == Err(Stat(codec, State(), id).error)
      ensures Stat(codec, State(), id).Ok? ==>
        var d := Stat(codec, State(), id).value.sha256;
        && (r.Ok? <==> d in volume.blobs && codec.sha(volume.blobs[d]) == d)
        && (r.Ok? ==> r.value == volume.blobs[d])
        && (r.Err? ==> r.error == if d in volume.blobs then ChecksumMismatch else ArtifactStoreError)
    {
      var record := StatArtifact(id);
      if record.Err? { return Err(record.error); }
      if record.value.sha256 !in volume.blobs { return Err(ArtifactStoreError); }
      var data := volume.blobs[record.value.sha256];
      if codec.sha(data) != record.value.sha256 { return Err(ChecksumMismatch); }
      return Ok(data);
    }

    /** Says yes exactly where `stat` answers or meets a sidecar it cannot read.  It never raises:
        over a lost backing it says no where `stat` reports a storage failure. */
    method ArtifactExists(id: string) returns (b: bool)
      ensures b <==> Stat(codec, State(), id).Ok? || Unreadable(codec, volume, id)
      ensures !b ==>
        Stat(codec, State(), id) == Err(if Lost(State()) && !UnsafeId(id) then ArtifactStoreError else NotFound)
    {
      if UnsafeId(id) { return false; }
      return id in volume.sidecars;
    }

    method CheckHealth(writable: bool) returns (r: Result<()>)
      modifies this`initialised
      ensures (State(), r) == ProbeHealth(old(State()), writable)
      ensures r.Ok? <==> BackingPresent(volume) && writable
      ensures r.Err? ==> r.error == ArtifactStoreError
      ensures initialised <==> old(initialised) || BackingPresent(volume)
    {
      if !BackingPresent(volume) { return Err(ArtifactStoreError); }
      initialised := true;
      return if writable then Ok(()) else Err(ArtifactStoreError);
    }
  }

  // ---------------------------------------------------------------------------
  // No resurrection
  // ---------------------------------------------------------------------------

  datatype Call =
    | CallPut(u: Upload, id: string, now: DateTime)
    | CallGet(id: string)
    | CallStat(id: string)
    | CallExists(id: string)
    | CallHealth(writable: bool)

  function After(c: Codec, maxBytes: nat, fs: Fs, call: Call): Fs {
    match call
    case CallPut(u, id, now) => Put(c, maxBytes, fs, u, id, now).0
    case CallHealth(writable) => ProbeHealth(fs, writable).0
    case _ => fs
  }

  function AfterAll(c: Codec, maxBytes: nat, fs: Fs, calls: seq<Call>): Fs
    decreases |calls|
  {
    if calls == [] then fs else AfterAll(c, maxBytes, After(c, maxBytes, fs, calls[0]), calls[1..])
  }

  /** Once a store that was initialised has lost its backing, no sequence of calls changes a
      single byte on the volume, so the backing never comes back; every `put` is refused; and a
      lookup that misses reads as a storage failure, except for an id that could never have been
      issued, which is simply unknown. */
  lemma {:induction false} NoResurrection(c: Codec, maxBytes: nat, fs: Fs, calls: seq<Call>)
    requires Lost(fs)
    ensures AfterAll(c, maxBytes, fs, calls) == fs
    ensures forall u, id, now :: Put(c, maxBytes, AfterAll(c, maxBytes, fs, calls), u, id, now).1.Err?
    ensures forall id :: id !in fs.volume.sidecars ==>
      Stat(c, AfterAll(c, maxBytes, fs, calls), id) == if UnsafeId(id) then Err(NotFound) else Err(ArtifactStoreError)
    ensures forall writable :: ProbeHealth(AfterAll(c, maxBytes, fs, calls), writable).1.Err?
    decreases |calls|
  {
    if calls != [] { NoResurrection(c, maxBytes, fs, calls[1..]); }
  }

  // ---------------------------------------------------------------------------
  // Round trip and verified reads
  // ---------------------------------------------------------------------------

  lemma RefusalOutcome(c: Codec, maxBytes: nat, u: Upload)
    ensures PutRefusal(c, maxBytes, u) ==
      if (forall i :: 0 <= i < |u.contentType| ==> u.contentType[i] in " \t\n\r")
         || (forall i :: 0 <= i < |u.filename| ==> u.filename[i] in " \t\n\r") || |u.data| > maxBytes
      then Some(ArtifactStoreError)
      else if u.declared.Some? && !SameDigest(u.declared.value, c.sha(u.data)) then Some(ChecksumMismatch)
      else None
  {
    DeclaredWronglyMeans(c, u);
  }

  lemma StoringOutcome(c: Codec, maxBytes: nat, fs: Fs, u: Upload, id: string, now: DateTime)
    requires PutRefusal(c, maxBytes, u).None? && !Lost(fs)
    ensures var (fs', r) := Put(c, maxBytes, fs, u, id, now);
      var d, v := c.sha(u.data), fs.volume;
      && fs'.initialised && fs'.volume.root && fs'.volume.blobsDir && fs'.volume.indexDir && fs'.volume.marker
      && if d in v.blobs && v.blobs[d] != u.data
         then r == Err(Immutability) && fs'.volume.blobs == v.blobs && fs'.volume.sidecars == v.sidecars
         else
           var a := ArtifactRecord(id, d, |u.data|, u.contentType, u.filename, c.uri(d), now, None, None);
           r == Ok(a) && fs'.volume.blobs == v.blobs[d := u.data]
           && fs'.volume.sidecars == v.sidecars[id := c.encode(a)]
  {
    if c.sha(u.data) in fs.volume.blobs {
      assert fs.volume.blobs[c.sha(u.data)] == u.data ==> fs.volume.blobs == fs.volume.blobs[c.sha(u.data) := u.data];
    }
  }

  /** What every `put` comes to, in the fields of the upload.  A blank description or too many bytes,
      then a declared digest that is not that of the bytes, then a lost backing: each is refused with
      nothing changed.  Otherwise the layout is there afterwards; bytes that contradict the blob under
      their digest are refused, and everything else is stored. */
  lemma PutOutcome(c: Codec, maxBytes: nat, fs: Fs, u: Upload, id: string, now: DateTime)
    ensures var (fs', r) := Put(c, maxBytes, fs, u, id, now);
      var d, v := c.sha(u.data), fs.volume;
      if (forall i :: 0 <= i < |u.contentType| ==> u.contentType[i] in " \t\n\r")
         || (forall i :: 0 <= i < |u.filename| ==> u.filename[i] in " \t\n\r") || |u.data| > maxBytes
      then fs' == fs && r == Err(ArtifactStoreError)
      else if u.declared.Some? && !SameDigest(u.declared.value, d) then fs' == fs && r == Err(ChecksumMismatch)
      else if fs.initialised && !(v.root && v.blobsDir && v.indexDir && v.marker)
      then fs' == fs && r == Err(ArtifactStoreError)
      else
        && fs'.initialised && fs'.volume.root && fs'.volume.blobsDir && fs'.volume.indexDir && fs'.volume.marker
        && if d in v.blobs && v.blobs[d] != u.data
           then r == Err(Immutability) && fs'.volume.blobs == v.blobs && fs'.volume.sidecars == v.sidecars
           else
             var a := ArtifactRecord(id, d, |u.data|, u.contentType, u.filename, c.uri(d), now, None, None);
             r == Ok(a) && fs'.volume.blobs == v.blobs[d := u.data]
             && fs'.volume.sidecars == v.sidecars[id := c.encode(a)]
  {
    RefusalOutcome(c, maxBytes, u);
    if PutRefusal(c, maxBytes, u).None? && !Lost(fs) { StoringOutcome(c, maxBytes, fs, u, id, now); }
  }

  /** What `put` acknowledged, `get` and `stat` return: the bytes, and the record of them; the blobs
      already there keep their bytes. */
  lemma PutThenGet(c: Codec, maxBytes: nat, fs: Fs, u: Upload, id: string, now: DateTime)
    requires Faithful(c) && !UnsafeId(id) && BlobsNamed(c, fs.volume)
    requires Put(c, maxBytes, fs, u, id, now).1.Ok?
    ensures Get(c, Put(c, maxBytes, fs, u, id, now).0, id) == Ok(u.data)
    ensures Stat(c, Put(c, maxBytes, fs, u, id, now).0, id) == Put(c, maxBytes, fs, u, id, now).1
    ensures var r := Put(c, maxBytes, fs, u, id, now).1.value;
      && r.artifactId == id && r.sha256 == c.sha(u.data) && r.sizeBytes == |u.data| && r.registeredAt == now
      && r.contentType == u.contentType && r.filename == u.filename && r.runId.None? && r.evidenceId.None?
    ensures BackingPresent(Put(c, maxBytes, fs, u, id, now).0.volume)
    ensures BlobsNamed(c, Put(c, maxBytes, fs, u, id, now).0.volume)
    ensures forall d :: d in fs.volume.blobs ==>
      d in Put(c, maxBytes, fs, u, id, now).0.volume.blobs
      && Put(c, maxBytes, fs, u, id, now).0.volume.blobs[d] == fs.volume.blobs[d]
  {
    assert c.decode(c.encode(RecordFor(c, u, id, now))) == Some(RecordFor(c, u, id, now));
  }

  /** Two registrations of the same bytes are two artifacts sharing one blob. */
  lemma SameBytesShareOneBlob(c: Codec, maxBytes: nat, fs: Fs, u: Upload, u': Upload, id: string, id': string,
                              now: DateTime, now': DateTime)
    requires u.data == u'.data && id != id'
    requires Put(c, maxBytes, fs, u, id, now).1.Ok? && PutRefusal(c, maxBytes, u').None?
    ensures var (fs1, r1) := Put(c, maxBytes, fs, u, id, now);
            var (fs2, r2) := Put(c, maxBytes, fs1, u', id', now');
            && r2.Ok? && r1.value.artifactId != r2.value.artifactId && r1.value.uri == r2.value.uri
            && fs2.volume.blobs == fs1.volume.blobs
            && id in fs2.volume.sidecars && id' in fs2.volume.sidecars
  {
  }

  predicate PutsUnder(calls: seq<Call>, id: string) {
    exists i :: 0 <= i < |calls| && calls[i].CallPut? && calls[i].id == id
  }

  lemma {:induction false} SidecarSurvives(c: Codec, maxBytes: nat, fs: Fs, calls: seq<Call>, id: string)
    requires id in fs.volume.sidecars && !PutsUnder(calls, id)
    ensures id in AfterAll(c, maxBytes, fs, calls).volume.sidecars
    ensures AfterAll(c, maxBytes, fs, calls).volume.sidecars[id] == fs.volume.sidecars[id]
    decreases |calls|
  {
    if calls != [] {
      var fs1 := After(c, maxBytes, fs, calls[0]);
      assert calls[0].CallPut? ==> calls[0].id != id;
      assert forall i :: 0 <= i < |calls[1..]| ==> calls[1..][i] == calls[i + 1];
      SidecarSurvives(c, maxBytes, fs1, calls[1..], id);
    }
  }

  /** Verified reads: after any further calls, and then any corruption of any blobs whatsoever,
      `get` either fails or returns exactly the bytes that were put. */
  lemma GetReturnsOriginalOrFails(c: Codec, maxBytes: nat, fs: Fs, u: Upload, id: string, now: DateTime,
                                  calls: seq<Call>, corrupted: map<string, Bytes>)
    requires Faithful(c) && ShaInjective(c) && !PutsUnder(calls, id)
    requires Put(c, maxBytes, fs, u, id, now).1.Ok?
    ensures var later := AfterAll(c, maxBytes, Put(c, maxBytes, fs, u, id, now).0, calls);
            var r := Get(c, later.(volume := later.volume.(blobs := corrupted)), id);
            r.Ok? ==> r.value == u.data
  {
    var fs1 := Put(c, maxBytes, fs, u, id, now).0;
    SidecarSurvives(c, maxBytes, fs1, calls, id);
    assert c.decode(c.encode(RecordFor(c, u, id, now))) == Some(RecordFor(c, u, id, now));
  }
}
