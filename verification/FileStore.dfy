/** The file backend: bounded streaming writes renamed into place, and the walk that cleanup lists. */
module FileStore {
  import opened Wrappers
  import opened Table
  import opened Hashing
  import Keys
  import Storage

  type Path = seq<string>

  datatype File = File(body: Bytes, modified: Time)

  datatype PutResult = Stored | BadKey | ReadFailed | ContentMismatch

  /**
   What a bounded write of a reader against a declaration comes to.  The largest
   declarable size is refused whatever arrives, because one byte more wraps.
   */
  function PutOutcome<S>(hash: Hash<S>, reader: Reader, size: int, sha: string): PutResult {
    var body := Body(reader.chunks);
    if size == MAX_INT64 || |body| > size then ContentMismatch
    else if reader.fails then ReadFailed
    else if |body| == size && Sum(hash, body) == sha then Stored
    else ContentMismatch
  }

  /**
   A write is stored exactly when the machine's target would admit its body,
   unless the reader failed or the size is the largest integer.
   */
  lemma StoredIsAdmitted<S>(hash: Hash<S>, env: Storage.Env, reader: Reader, size: int, sha: string)
    requires forall body :: env.sha(body) == Sum(hash, body)
    ensures PutOutcome(hash, reader, size, sha).Stored?
            <==> Storage.Admits(env, size, sha, Body(reader.chunks)) && !reader.fails && size != MAX_INT64
  {
  }

  function Limited(body: Bytes, n: int): Bytes {
    if n <= 0 then [] else if |body| <= n then body else body[..n]
  }

  // ------------------------------------------------------------------------ walk

  /** What a directory walk meets: an entry may vanish or fail, and only files have times. */
  datatype Entry = Vanished | Failed | Directory | Found(key: string, modified: Time)

  /** The keys a walk reports before its first failure. */
  function Walked(entries: seq<Entry>, before: Time): seq<string> {
    if entries == [] || entries[0].Failed? then []
    else (if entries[0].Found? && entries[0].modified < before then [entries[0].key] else [])
         + Walked(entries[1..], before)
  }

  /** The walk came to this entry, a file older than the cutoff under this key. */
  predicate Reached(entries: seq<Entry>, i: nat, key: string, before: Time)
    requires i < |entries|
  {
    && (forall j | 0 <= j <= i :: !entries[j].Failed?)
    && match entries[i] case Found(k, at) => k == key && at < before case _ => false
  }

  lemma {:induction false} WalkedExactly(entries: seq<Entry>, key: string, before: Time)
    ensures key in Walked(entries, before) <==> exists i :: 0 <= i < |entries| && Reached(entries, i, key, before)
  {
    if entries != [] && !entries[0].Failed? {
      var rest := entries[1..];
      WalkedExactly(rest, key, before);
      if i :| 0 <= i < |rest| && Reached(rest, i, key, before) {
        assert forall j | 0 < j <= i + 1 :: entries[j] == rest[j - 1];
        assert Reached(entries, i + 1, key, before);
      }
      if i :| 0 < i < |entries| && Reached(entries, i, key, before) {
        assert forall j | 0 <= j < i :: rest[j] == entries[j + 1];
        assert Reached(rest, i - 1, key, before);
      }
      assert Reached(entries, 0, key, before)
          <==> entries[0].Found? && entries[0].key == key && entries[0].modified < before;
    }
  }

  /** `expiredObjects` keeps what it saw when the walk fails, unlike an S3 listing. */
  method ExpiredObjects(entries: seq<Entry>, before: Time) returns (keys: seq<string>, failed: bool)
    ensures keys == Walked(entries, before)
    ensures forall key :: key in keys <==> exists i :: 0 <= i < |entries| && Reached(entries, i, key, before)
    ensures failed <==> exists i :: 0 <= i < |entries| && entries[i].Failed?
  {
    forall key
      ensures key in Walked(entries, before) <==> exists i :: 0 <= i < |entries| && Reached(entries, i, key, before)
    {
      WalkedExactly(entries, key, before);
    }
    keys, failed := [], false;
    for i := 0 to |entries|
      invariant keys + Walked(entries[i..], before) == Walked(entries, before)
      invariant forall j | 0 <= j < i :: !entries[j].Failed?
    {
      assert entries[i..][1..] == entries[i + 1..];
      if entries[i].Failed? {
        return keys, true;
      }
      if entries[i].Found? && entries[i].modified < before {
        assert keys + ([entries[i].key] + Walked(entries[i + 1..], before))
               == keys + [entries[i].key] + Walked(entries[i + 1..], before);
        keys := keys + [entries[i].key];
      }
    }
  }

  // ------------------------------------------------------------------------ store

  class Store<S> {
    const root: Path
    const hash: Hash<S>
    var files: map<Path, File>
    var now: Time

    constructor (root: Path, hash: Hash<S>)
      ensures this.root == root && this.hash == hash && files == map[]
    {
      this.root, this.hash := root, hash;
      files, now := map[], 0;
    }

    /** `io.Copy` of a limited reader into a file and a hash: it stops reading at the limit. */
    method CopyLimited(reader: Reader, n: int) returns (tmp: Bytes, state: S, failed: bool)
      ensures tmp == Limited(Body(reader.chunks), n) && state == Absorb(hash, hash.start, tmp)
      ensures failed <==> reader.fails && |Body(reader.chunks)| < n
    {
      var limit, i := n, 0;
      tmp, state := [], hash.start;
      while i < |reader.chunks| && limit > 0
        invariant 0 <= i <= |reader.chunks| && state == Absorb(hash, hash.start, tmp) && limit == n - |tmp|
        invariant limit > 0 ==> tmp == Body(reader.chunks[..i])
        invariant n > 0 ==> limit >= 0 && tmp == Limited(Body(reader.chunks[..i]), n)
        invariant n <= 0 ==> tmp == []
      {
        var chunk := if |reader.chunks[i]| > limit then reader.chunks[i][..limit] else reader.chunks[i];
        BodyNext(reader.chunks, i);
        AbsorbAppend(hash, hash.start, tmp, chunk);
        tmp, state, limit := tmp + chunk, Absorb(hash, state, chunk), limit - |chunk|;
        i := i + 1;
      }
      BodyPrefix(reader.chunks, i);
      assert reader.chunks[..|reader.chunks|] == reader.chunks;
      failed := limit > 0 && reader.fails;
    }

    /**
     Streams at most one byte more than declared into a temporary file, hashing as
     it goes, and renames it into place only if it is the declared content.
     */
    method Put(key: string, reader: Reader, size: int, sha: string) returns (r: PutResult)
      requires -MAX_INT64 - 1 <= size <= MAX_INT64
      modifies this`files
      ensures r == if Keys.Resolve(root, key).None? then BadKey else PutOutcome(hash, reader, size, sha)
      ensures r.BadKey? <==> Keys.Resolve(root, key).None?
      ensures r.Stored? <==>
                && !r.BadKey? && !reader.fails && |Body(reader.chunks)| == size < MAX_INT64
                && Sum(hash, Body(reader.chunks)) == sha
      ensures r.ReadFailed? <==> !r.BadKey? && reader.fails && |Body(reader.chunks)| <= size < MAX_INT64
      ensures files == if r.Stored? then old(files)[Keys.Resolve(root, key).value := File(Body(reader.chunks), now)]
                       else old(files)
    {
      hide Keys.Resolve, Body, Absorb;
      var path := Keys.Resolve(root, key);
      if path.None? {
        return BadKey;
      }
      var tmp, state, failed := CopyLimited(reader, AddInt64(size, 1));
      if failed {
        return ReadFailed;
      }
      if |tmp| != size || hash.finish(state) != sha {
        return ContentMismatch;
      }
      files := files[path.value := File(tmp, now)];
      return Stored;
    }

    /** Deleting what is not there succeeds. */
    method Delete(key: string) returns (ok: bool)
      modifies this`files
      ensures ok <==> Keys.Resolve(root, key).Some?
      ensures files == if ok then old(files) - {Keys.Resolve(root, key).value} else old(files)
    {
      var path := Keys.Resolve(root, key);
      if path.None? {
        return false;
      }
      files := files - {path.value};
      return true;
    }
  }
}
