/**
 What a storage backend holds and what each call to it does: stored blobs with
 the checksums the provider computed, open multipart uploads with their parts,
 and the calls of `file.go` and `s3.go` as functions over them.
 */
module Storage {
  import opened Wrappers
  import opened Content
  import opened Table

  datatype Kind = FileKind | S3Kind

  /**
   Everything the protocol treats as given.  The digests, the content-type
   detector and the ETag are uninterpreted functions; the key scheme is a pair
   of functions that `Keys.SchemeMeetsLaw` instantiates.
   */
  datatype Env = Env(
    kind: Kind,
    sha: Bytes -> string,
    crc: Bytes -> string,
    etag: Bytes -> string,
    detect: Bytes -> string,
    keyOf: (int, string) -> string,
    ownerOf: string -> Option<int>,
    ttl: Time,
    maxAge: Time)

  ghost predicate KeyLaw(keyOf: (int, string) -> string, ownerOf: string -> Option<int>) {
    forall id, filename {:trigger keyOf(id, filename)} :: 1 <= id <= MAX_ID ==>
      ownerOf(keyOf(id, filename)) == Some(id) && NotBlank(keyOf(id, filename))
  }

  ghost predicate DigestLaw(sha: Bytes -> string, crc: Bytes -> string, detect: Bytes -> string) {
    forall b: Bytes {:trigger sha(b)} {:trigger crc(b)} {:trigger detect(b)} ::
      IsLowerHex(sha(b), 64) && IsLowerHex(crc(b), 16) && detect(b) != ""
  }

  ghost predicate EnvOk(env: Env) {
    KeyLaw(env.keyOf, env.ownerOf) && DigestLaw(env.sha, env.crc, env.detect) && env.ttl > 0
  }

  /**
   A stored blob.  `sha` and `crc` are the checksums the provider reports for
   it; `via` is history, naming the multipart upload that assembled it.
   */
  datatype Blob = Blob(
    body: Bytes,
    sha: Option<string>,
    crc: Option<string>,
    composite: bool,
    via: Option<string>,
    modified: Time)

  datatype Part = Part(body: Bytes, crc: string)

  datatype Upload = Upload(key: string, parts: map<int, Part>, full: bool, initiated: Time)

  /** One entry of a part listing, as completion names it. */
  datatype NamedPart = NamedPart(number: int, etag: string, crc: string, size: int)

  const MAX_PARTS := 10_000
  const MULTIPART_THRESHOLD := 100 * 1024 * 1024
  const HEAD_BYTES := 3072

  // ------------------------------------------------------------- single writes

  /** The blob that an accepted single PUT of `body` stores. */
  function PutBlob(env: Env, body: Bytes, now: Time): Blob {
    Blob(body, if env.kind.S3Kind? then Some(env.sha(body)) else None, None, false, None, now)
  }

  /** A signed PUT admits only the declared length and SHA-256. */
  predicate Admits(env: Env, size: int, sha: string, body: Bytes) {
    |body| == size && env.sha(body) == sha
  }

  datatype Verdict = Verified | Missing | Mismatch | Unvouched

  /** `verify`: the size alone for files, a full-object checksum for S3. */
  function Verify(env: Env, objects: map<string, Blob>, key: string, content: Declaration): Verdict {
    if key !in objects then Missing
    else
      var blob := objects[key];
      if |blob.body| != content.size then Mismatch
      else if env.kind.FileKind? then Verified
      else if blob.composite then Unvouched
      else if blob.sha.Some? && blob.sha.value != content.sha then Mismatch
      else if blob.crc.Some? && blob.crc.value != content.crc then Mismatch
      else if blob.sha.None? && blob.crc.None? then Unvouched
      else Verified
  }

  function Head(body: Bytes): Bytes {
    if |body| <= HEAD_BYTES then body else body[..HEAD_BYTES]
  }

  // ---------------------------------------------------------- multipart uploads

  /** The part numbers above `marker`, ascending, as a listing reports them. */
  function Ascending(parts: map<int, Part>, marker: int): seq<int>
    decreases MAX_PARTS - marker
  {
    if marker >= MAX_PARTS then []
    else if marker + 1 in parts then [marker + 1] + Ascending(parts, marker + 1)
    else Ascending(parts, marker + 1)
  }

  function Named(env: Env, parts: map<int, Part>, numbers: seq<int>): seq<NamedPart>
    requires forall i | 0 <= i < |numbers| :: numbers[i] in parts
  {
    seq(|numbers|, i requires 0 <= i < |numbers| =>
      NamedPart(numbers[i], env.etag(parts[numbers[i]].body), parts[numbers[i]].crc, |parts[numbers[i]].body|))
  }

  function TotalSize(named: seq<NamedPart>): int {
    if named == [] then 0 else TotalSize(named[..|named| - 1]) + named[|named| - 1].size
  }

  /** Completion accepts parts it still holds, named by ETag and checksum, in order. */
  predicate Completes(env: Env, parts: map<int, Part>, named: seq<NamedPart>) {
    && named != []
    && (forall i | 0 <= i < |named| - 1 :: named[i].number < named[i + 1].number)
    && (forall i | 0 <= i < |named| ::
          && named[i].number in parts
          && env.etag(parts[named[i].number].body) == named[i].etag
          && parts[named[i].number].crc == named[i].crc)
  }

  function Concat(parts: map<int, Part>, numbers: seq<int>): Bytes
    requires forall i | 0 <= i < |numbers| :: numbers[i] in parts
  {
    if numbers == [] then [] else Concat(parts, numbers[..|numbers| - 1]) + parts[numbers[|numbers| - 1]].body
  }

  function Numbers(named: seq<NamedPart>): seq<int> {
    seq(|named|, i requires 0 <= i < |named| => named[i].number)
  }

  function Assembled(env: Env, upload: string, open: Upload, named: seq<NamedPart>, now: Time): Blob
    requires Completes(env, open.parts, named)
  {
    var body := Concat(open.parts, Numbers(named));
    Blob(body, None, if open.full then Some(env.crc(body)) else None, false, Some(upload), now)
  }
}
