/** Verified reads on the running service.  `get` reads the sidecar and then the blob, with no lock;
    between the two, and before them, anything may happen: uploads, crashes, restarts, loss of the
    volume, and corruption of any blob. */
module ServiceReads {
  import opened Wrappers
  import opened Contract
  import opened Volumes
  import opened FsStore
  import opened Service
  import opened ServiceSafety
  import opened ServiceHistory

  /** What the store object can see. */
  function Seen(s: State): Fs { Fs(s.shared.volume, s.shared.initialised) }

  /** `get` with its two reads apart: the sidecar in `s`, the blob in `v'`. */
  function GetAcross(w: World, s: State, v': Volume, id: string): Result<Bytes> {
    var r := Stat(w.codec, Seen(s), id);
    if r.Err? then Err(r.error) else ReadBlob(w.codec, v', r.value)
  }

  /** What reading an upload back should come to: its bytes when they are there unchanged, a checksum
      mismatch when they were changed, a storage failure when they are gone. */
  function Expected(w: World, v: Volume, data: Bytes): Result<Bytes> {
    if w.codec.sha(data) !in v.blobs then Err(ArtifactStoreError)
    else if v.blobs[w.codec.sha(data)] == data then Ok(data)
    else Err(ChecksumMismatch)
  }

  /** The sidecar of an id, and a request that drew the id and uploaded what the sidecar describes. */
  lemma SidecarOf(w: World, s: State, id: string) returns (rid: Rid, record: ArtifactRecord)
    requires Faithful(w.codec) && SidecarsOwned(w, s) && id in s.shared.volume.sidecars
    ensures Minter(s.requests, rid, id)
    ensures record == RecordFor(w.codec, s.requests[rid].form.upload, id, record.registeredAt)
    ensures w.codec.decode(s.shared.volume.sidecars[id]) == Some(record)
  {
    assert SidecarOwned(w, s, id);
    rid :| Minter(s.requests, rid, id) && Describes(w, s.shared.volume.sidecars[id], s.requests[rid].form, id);
    var now :| s.shared.volume.sidecars[id] == w.codec.encode(RecordFor(w.codec, s.requests[rid].form.upload, id, now));
    record := RecordFor(w.codec, s.requests[rid].form.upload, id, now);
    assert w.codec.decode(w.codec.encode(record)) == Some(record);
  }

  lemma ReadIsExpected(w: World, s: State, v': Volume, id: string) returns (rid: Rid)
    requires Faithful(w.codec) && ShaInjective(w.codec) && SidecarsOwned(w, s)
    requires id in s.shared.volume.sidecars && !UnsafeId(id)
    ensures Minter(s.requests, rid, id)
    ensures GetAcross(w, s, v', id) == Expected(w, v', s.requests[rid].form.upload.data)
    ensures Stat(w.codec, Seen(s), id).Ok?
    ensures Stat(w.codec, Seen(s), id).value.sha256 == w.codec.sha(s.requests[rid].form.upload.data)
    ensures Stat(w.codec, Seen(s), id).value.sizeBytes == |s.requests[rid].form.upload.data|
  {
    var record;
    rid, record := SidecarOf(w, s, id);
  }

  lemma RunOwns(w: World, s0: State, steps: seq<Step>, s: State)
    requires Faithful(w.codec) && Initial(w, s0) && Reaches(w, s0, steps, s)
    ensures Inv(w, s) && Owned(w, s)
  {
    RunKeepsInv(w, s0, steps, s);
    RunKeepsOwned(w, s0, steps, s);
  }

  /** Reads are verified: whatever happened before the sidecar was read, and between that and reading
      the blob, `get` comes to exactly what reading that upload back should come to.  In particular
      it never returns other bytes than those uploaded under the id. */
  lemma VerifiedRead(w: World, s0: State, before: seq<Step>, s: State, between: seq<Step>, s': State, id: string)
    returns (rid: Rid)
    requires Faithful(w.codec) && ShaInjective(w.codec)
    requires Initial(w, s0) && Reaches(w, s0, before, s) && Reaches(w, s, between, s')
    requires id in s.shared.volume.sidecars && !UnsafeId(id)
    ensures Minter(s'.requests, rid, id)
    ensures GetAcross(w, s, s'.shared.volume, id) == Expected(w, s'.shared.volume, s'.requests[rid].form.upload.data)
  {
    RunOwns(w, s0, before, s);
    RunKeepsRequests(w, s, between, s');
    rid := ReadIsExpected(w, s, s'.shared.volume, id);
  }

  lemma HeldIsReadable(w: World, s: State, id: string) returns (rid: Rid)
    requires Faithful(w.codec) && ShaInjective(w.codec) && SidecarsOwned(w, s) && AllHeld(w, s.shared)
    requires id in s.shared.db.artifacts && !UnsafeId(id)
    ensures Minter(s.requests, rid, id) && Get(w.codec, Seen(s), id) == Ok(s.requests[rid].form.upload.data)
    ensures s.shared.db.artifacts[id].record.sha256 == w.codec.sha(s.requests[rid].form.upload.data)
    ensures s.shared.db.artifacts[id].record.sizeBytes == |s.requests[rid].form.upload.data|
  {
    var a := s.shared.db.artifacts[id].record;
    assert Held(w.codec, s.shared.volume, id, a.sha256, a.sizeBytes);
    rid := ReadIsExpected(w, s, s.shared.volume, id);
  }

  /** Over a ready volume an asserted artifact reads back: with the provisos of honest readiness,
      `get` of every registered id succeeds with the bytes of the upload that drew the id, and they
      have the digest and the length the metadata records. */
  lemma AssertedIsReadable(w: World, s0: State, steps: seq<Step>, s: State, id: string) returns (rid: Rid)
    requires Faithful(w.codec) && ShaInjective(w.codec) && Initial(w, s0) && Reaches(w, s0, steps, s)
    requires !s.rebuilt && !s.corrupted && BackingPresent(s.shared.volume)
    requires id in s.shared.db.artifacts && !UnsafeId(id)
    ensures Minter(s.requests, rid, id) && Get(w.codec, Seen(s), id) == Ok(s.requests[rid].form.upload.data)
    ensures s.shared.db.artifacts[id].record.sha256 == w.codec.sha(s.requests[rid].form.upload.data)
    ensures s.shared.db.artifacts[id].record.sizeBytes == |s.requests[rid].form.upload.data|
  {
    RunOwns(w, s0, steps, s);
    ReadinessIsHonest(w, s0, steps, s);
    rid := HeldIsReadable(w, s, id);
  }
}
