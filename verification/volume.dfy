/** The artifact volume: what can be on it, and the operations both the sequential store and
    the interleaved service perform on it. */
module Volumes {
  import opened Wrappers
  import opened Timestamps
  import opened Contract
  import opened Metadata

  newtype Byte = x: int | 0 <= x < 256

  type Bytes = seq<Byte>

  /** `blobs/` by digest, `index/` by artifact id, the `store.json` marker, and temporary files
      by writer.  Canonical files hold whatever bytes were moved into place. */
  datatype Volume = Volume(root: bool, blobsDir: bool, indexDir: bool, marker: bool,
                           blobs: map<string, Bytes>, sidecars: map<string, Bytes>, temps: map<nat, Bytes>)

  const BARE: Volume := Volume(false, false, false, false, map[], map[], map[])

  /** Root, `blobs/`, `index/` and the marker all present: the one check every path is built on. */
  predicate BackingPresent(v: Volume) { v.root && v.blobsDir && v.indexDir && v.marker }

  /** SHA-256 as hexadecimal text, the JSON form of a sidecar, and the URI of a blob path. */
  datatype Codec = Codec(sha: Bytes -> string, encode: ArtifactRecord -> Bytes, decode: Bytes -> Option<ArtifactRecord>,
                         uri: string -> string)

  ghost predicate Faithful(c: Codec) { forall r :: c.decode(c.encode(r)) == Some(r) }

  ghost predicate ShaInjective(c: Codec) { forall a, b :: c.sha(a) == c.sha(b) ==> a == b }

  /** One registration request as it reaches the artifact store. */
  datatype Upload = Upload(data: Bytes, contentType: string, filename: string, declared: Option<string>)

  function LowerChar(c: char): char { if 'A' <= c <= 'Z' then c - 'A' + 'a' else c }

  function Lower(s: string): (r: string)
    ensures |r| == |s|
  {
    if s == "" then "" else [LowerChar(s[0])] + Lower(s[1..])
  }

  predicate DeclaredWrongly(c: Codec, u: Upload) {
    u.declared.Some? && Lower(u.declared.value) != c.sha(u.data)
  }

  /** The two texts agree once the first one's capital letters are made small. */
  predicate SameDigest(declared: string, digest: string) {
    && |declared| == |digest|
    && forall i :: 0 <= i < |digest| ==>
         digest[i] == if 'A' <= declared[i] <= 'Z' then (declared[i] as int + 32) as char else declared[i]
  }

  lemma {:induction false} LowerAt(s: string, i: nat)
    requires i < |s|
    ensures Lower(s)[i] == if 'A' <= s[i] <= 'Z' then (s[i] as int + 32) as char else s[i]
  {
    if i > 0 { LowerAt(s[1..], i - 1); }
  }

  lemma DeclaredWronglyMeans(c: Codec, u: Upload)
    ensures DeclaredWrongly(c, u) <==> u.declared.Some? && !SameDigest(u.declared.value, c.sha(u.data))
  {
    if u.declared.Some? {
      var d := u.declared.value;
      forall i | 0 <= i < |d|
        ensures Lower(d)[i] == if 'A' <= d[i] <= 'Z' then (d[i] as int + 32) as char else d[i]
      {
        LowerAt(d, i);
      }
      if |Lower(d)| == |c.sha(u.data)| && SameDigest(d, c.sha(u.data)) { assert Lower(d) == c.sha(u.data); }
    }
  }

  predicate RightDigest(c: Codec, u: Upload) { u.declared.Some? ==> SameDigest(u.declared.value, c.sha(u.data)) }

  /** The record is of the bytes that were uploaded, described as they were. */
  predicate RecordsUpload(c: Codec, a: ArtifactRecord, u: Upload) {
    a.sha256 == c.sha(u.data) && a.sizeBytes == |u.data| && a.contentType == u.contentType && a.filename == u.filename
  }

  /** What `put` checks before it touches the disk, in its order. */
  function PutRefusal(c: Codec, maxBytes: nat, u: Upload): Option<Error> {
    if Blank(u.contentType) || Blank(u.filename) || |u.data| > maxBytes then Some(ArtifactStoreError)
    else if DeclaredWrongly(c, u) then Some(ChecksumMismatch)
    else None
  }

  function RecordFor(c: Codec, u: Upload, id: string, now: DateTime): ArtifactRecord {
    ArtifactRecord(id, c.sha(u.data), |u.data|, u.contentType, u.filename, c.uri(c.sha(u.data)), now, None, None)
  }

  // Every atomic write first re-creates the directories above its target; none re-creates the marker.

  function WithBlobsDir(v: Volume): Volume { v.(root := true, blobsDir := true) }

  function WithIndexDir(v: Volume): Volume { v.(root := true, indexDir := true) }

  function WithLayout(v: Volume): Volume { v.(root := true, blobsDir := true, indexDir := true) }

  function WithMarker(v: Volume): Volume { v.(root := true, marker := true) }

  /** The stored bytes hash to the name they are stored under. */
  ghost predicate BlobsNamed(c: Codec, v: Volume) {
    forall d :: d in v.blobs ==> c.sha(v.blobs[d]) == d
  }

  /** The sidecar is there, is readable, and describes the record. */
  predicate SidecarFor(c: Codec, v: Volume, id: string, sha256: string, size: nat) {
    id in v.sidecars &&
    var r := c.decode(v.sidecars[id]);
    r.Some? && r.value.artifactId == id && r.value.sha256 == sha256 && r.value.sizeBytes == size
  }

  /** The volume holds a registered artifact: its sidecar, and a blob with the recorded digest
      and length. */
  predicate Held(c: Codec, v: Volume, id: string, sha256: string, size: nat) {
    && SidecarFor(c, v, id, sha256, size)
    && sha256 in v.blobs && c.sha(v.blobs[sha256]) == sha256 && |v.blobs[sha256]| == size
  }
}
