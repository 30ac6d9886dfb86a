/**
 The inductive invariant of the lifecycle, in rely-guarantee form: what always
 holds of the shared state, what each program counter knows, and the relation
 `Guarantee` that every step of every participant keeps.
 */
module Invariant {
  import opened Wrappers
  import opened Table
  import opened Storage
  import opened Protocol

  // ------------------------------------------------------------ state predicates

  /** The row is gone or expired, and its identifier will never be handed out again. */
  ghost predicate Dead(sh: Shared, id: int) {
    id < sh.nextId && (id in sh.rows ==> !sh.rows[id].Visible())
  }

  /** The row is no longer pending, and cannot be again. */
  ghost predicate Settled(sh: Shared, id: int) {
    id < sh.nextId && (id in sh.rows ==> !sh.rows[id].Pending())
  }

  function BirthKey(env: Env, sh: Shared, id: int): string
    requires id in sh.born
  {
    env.keyOf(id, sh.born[id].filename)
  }

  /** A blob is what the birth of its identifier declared. */
  ghost predicate IsDeclared(env: Env, birth: Birth, blob: Blob) {
    && |blob.body| == birth.content.size
    && (if birth.mode.Direct? then env.sha(blob.body) == birth.content.sha
        else env.crc(blob.body) == birth.content.crc)
  }

  ghost predicate HoldsDeclared(env: Env, sh: Shared, id: int)
    requires id in sh.born
  {
    BirthKey(env, sh, id) in sh.objects && IsDeclared(env, sh.born[id], sh.objects[BirthKey(env, sh, id)])
  }

  /** Bytes published before declarations existed are vouched for by SHA-256. */
  ghost predicate HoldsLegacy(env: Env, sh: Shared, id: int, row: Row) {
    && row.size.Some? && row.sha.Some?
    && RowKey(env, id, row) in sh.objects
    && |sh.objects[RowKey(env, id, row)].body| == row.size.value
    && env.sha(sh.objects[RowKey(env, id, row)].body) == row.sha.value
  }

  ghost predicate Holds(env: Env, sh: Shared, id: int)
    requires id in sh.rows
  {
    if id in sh.born then HoldsDeclared(env, sh, id) else HoldsLegacy(env, sh, id, sh.rows[id])
  }

  ghost predicate OfBirth(row: Row, birth: Birth) {
    && row.filename == birth.filename
    && row.size == Some(birth.content.size)
    && row.sha == Some(birth.content.sha)
    && row.crc == Some(birth.content.crc)
  }

  ghost predicate RecordedBy(sh: Shared, id: int, row: Row) {
    row.upload.Some? ==> row.upload.value in sh.recorded && sh.recorded[row.upload.value] == id
  }

  ghost predicate BornRow(env: Env, sh: Shared, id: int)
    requires id in sh.rows && id in sh.born
  {
    && OfBirth(sh.rows[id], sh.born[id])
    && RecordedBy(sh, id, sh.rows[id])
    && (sh.rows[id].storageKey.Some? ==> sh.rows[id].storageKey.value == BirthKey(env, sh, id))
  }

  /** A row from before the declaration migration is published or expired. */
  ghost predicate LegacyRow(env: Env, id: int, row: Row) {
    && (row.Visible() ==> row.Available())
    && (row.storageKey.Some? ==> env.ownerOf(row.storageKey.value) == Some(id))
  }

  ghost predicate NotAhead(sh: Shared, row: Row) {
    row.Pending() ==> row.updatedAt <= sh.now
  }

  /** `time` is no later than the last refresh of a row that is still pending. */
  ghost predicate RefreshedSince(sh: Shared, id: int, time: Time) {
    id < sh.nextId && (id in sh.rows && sh.rows[id].Pending() ==> time <= sh.rows[id].updatedAt)
  }

  ghost predicate RowsOk(env: Env, sh: Shared) {
    && 1 <= sh.nextId <= MAX_ID + 1
    && (forall id | id in sh.rows :: 1 <= id < sh.nextId && ValidRow(sh.rows[id]) && NotAhead(sh, sh.rows[id]))
    && (forall id | id in sh.born :: 1 <= id < sh.nextId && (sh.born[id].mode.Multipart? ==> env.kind.S3Kind?))
    && (forall id | id in sh.rows && id in sh.born :: BornRow(env, sh, id))
    && (forall id | id in sh.rows && id !in sh.born :: LegacyRow(env, id, sh.rows[id]))
  }

  ghost predicate BlobOk(env: Env, sh: Shared, id: int, blob: Blob)
    requires id in sh.born
  {
    && !blob.composite
    && (sh.born[id].mode.Direct? ==>
          && IsDeclared(env, sh.born[id], blob)
          && blob.via.None? && blob.crc.None?
          && blob.sha == if env.kind.S3Kind? then Some(env.sha(blob.body)) else None)
    && (sh.born[id].mode.Multipart? ==>
          && blob.sha.None? && blob.crc == Some(env.crc(blob.body))
          && blob.via.Some? && blob.via.value in sh.recorded && sh.recorded[blob.via.value] == id
          && blob.via.value !in sh.uploads)
  }

  ghost predicate ObjectsOk(env: Env, sh: Shared) {
    && (forall key | key in sh.objects :: Known(env, sh, key))
    && (forall id | id in sh.born && BirthKey(env, sh, id) in sh.objects ::
          BlobOk(env, sh, id, sh.objects[BirthKey(env, sh, id)]))
  }

  /** Part targets and completions reach only the one upload a row ever records. */
  ghost predicate UploadsOk(env: Env, sh: Shared) {
    && sh.uploads.Keys <= sh.issued.Keys
    && IssuedFor(sh)
    && (forall u | u in sh.recorded :: RecordOk(env, sh, u))
    && (forall u, v | u in sh.recorded && v in sh.recorded && sh.recorded[u] == sh.recorded[v] :: u == v)
  }

  ghost predicate IssuedFor(sh: Shared) {
    forall u | u in sh.recorded :: u in sh.issued && sh.issued[u] == sh.recorded[u]
  }

  ghost predicate RecordOk(env: Env, sh: Shared, u: string)
    requires u in sh.recorded
  {
    var id := sh.recorded[u];
    && id in sh.born && sh.born[id].mode.Multipart?
    && (u in sh.uploads ==>
          && sh.uploads[u].key == BirthKey(env, sh, id) && sh.uploads[u].full
          && (Dead(sh, id) || (id in sh.rows && sh.rows[id].upload == Some(u))))
  }

  ghost predicate TargetOk(env: Env, sh: Shared, t: Target) {
    && t.id in sh.born && t.key == BirthKey(env, sh, t.id)
    && t.expires == t.signed + env.ttl && RefreshedSince(sh, t.id, t.refreshed)
    && match t
       case PutTarget(id, _, size, sha, _, _, _) =>
         sh.born[id].mode.Direct? && size == sh.born[id].content.size && sha == sh.born[id].content.sha
       case PartTarget(id, _, upload, number, _, _, _, _) =>
         upload in sh.recorded && sh.recorded[upload] == id && 1 <= number <= MAX_PARTS
  }

  ghost predicate TargetsOk(env: Env, sh: Shared) {
    sh.accepted <= sh.targets && forall t | t in sh.targets :: TargetOk(env, sh, t)
  }

  ghost predicate PublishedOk(sh: Shared) {
    && (forall id | id in sh.published :: id < sh.nextId && (id in sh.rows ==> sh.rows[id] == sh.published[id]))
    && (forall id | id in sh.rows && sh.rows[id].Available() :: id in sh.published)
    && (forall id | id in sh.published :: sh.published[id].Available())
  }

  ghost predicate BytesOk(env: Env, sh: Shared) {
    forall id | id in sh.rows && sh.rows[id].Available() :: Holds(env, sh, id)
  }

  ghost predicate SharedInv(env: Env, sh: Shared) {
    RowsOk(env, sh) && ObjectsOk(env, sh) && UploadsOk(env, sh) && TargetsOk(env, sh) && PublishedOk(sh)
      && BytesOk(env, sh)
  }

  // ------------------------------------------------------- what operations know

  ghost predicate Snapshot(sh: Shared, id: int, row: Row) {
    && id in sh.born && OfBirth(row, sh.born[id])
    && row.storageKey.None? && RecordedBy(sh, id, row) && RefreshedSince(sh, id, row.updatedAt)
  }

  ghost predicate Stored(env: Env, sh: Shared, id: int) {
    id in sh.born && (Dead(sh, id) || HoldsDeclared(env, sh, id))
  }

  ghost predicate Closed(sh: Shared, row: Row) {
    row.upload.Some? && row.upload.value in sh.issued && row.upload.value !in sh.uploads
  }

  /** The row, if it is still visible, records no upload. */
  ghost predicate Cleared(sh: Shared, id: int) {
    id in sh.rows && sh.rows[id].Visible() ==> sh.rows[id].upload.None?
  }

  ghost predicate Opener(sh: Shared, pid: Pid, id: int, row: Row) {
    && Snapshot(sh, id, row)
    && sh.born[id].mode.Multipart? && sh.born[id].creator == pid
    && forall u | u in sh.recorded :: sh.recorded[u] != id
  }

  ghost predicate DeadKey(env: Env, sh: Shared, id: int, row: Row) {
    Dead(sh, id) && env.ownerOf(RowKey(env, id, row)) == Some(id)
  }

  ghost predicate Known(env: Env, sh: Shared, key: string) {
    env.ownerOf(key).Some? ==> env.ownerOf(key).value < sh.nextId
  }

  /** No visible row has its bytes at this key, now or ever. */
  ghost predicate Unowned(env: Env, sh: Shared, key: string) {
    env.ownerOf(key).Some? ==>
      var id := env.ownerOf(key).value;
      Dead(sh, id) || (id < sh.nextId && id in sh.rows && RowKey(env, id, sh.rows[id]) != key)
  }

  ghost predicate ThenInv(env: Env, sh: Shared, after: Then) {
    after.NextClaims? ==>
      forall i | 0 <= i < |after.claims| :: DeadKey(env, sh, after.claims[i].id, after.claims[i].row)
  }

  ghost predicate AllKnown(env: Env, sh: Shared, keys: seq<string>) {
    forall i | 0 <= i < |keys| :: Known(env, sh, keys[i])
  }

  ghost predicate AllUnowned(env: Env, sh: Shared, keys: seq<string>) {
    forall i | 0 <= i < |keys| :: Unowned(env, sh, keys[i])
  }

  ghost predicate CreateInv(env: Env, sh: Shared, pid: Pid, loc: CreateLoc) {
    match loc
    case Insert(op) => op.Write? ==> op.contentType != ""
    case SignPut(id, row) => Snapshot(sh, id, row) && sh.born[id].mode.Direct?
    case OpenUpload(id, row) => Opener(sh, pid, id, row)
    case RecordUpload(id, row, upload) =>
      && Opener(sh, pid, id, row)
      && upload in sh.issued && sh.issued[upload] == id
      && (upload in sh.uploads ==> sh.uploads[upload].key == BirthKey(env, sh, id) && sh.uploads[upload].full)
    case AbortUnrecorded(id, row, upload) => true
  }

  ghost predicate WriteInv(env: Env, sh: Shared, loc: WriteLoc) {
    match loc
    case PutBody(id, row, contentType, body) =>
      && Snapshot(sh, id, row) && sh.born[id].mode.Direct? && contentType != ""
      && Admits(env, sh.born[id].content.size, sh.born[id].content.sha, body)
    case PublishWrite(id, row, contentType) => Snapshot(sh, id, row) && Stored(env, sh, id) && contentType != ""
    case PublishWriteGet(id, row) => Snapshot(sh, id, row) && Settled(sh, id)
    case UnwindWrite(id, row) => Snapshot(sh, id, row)
  }

  ghost predicate FinalizeInv(env: Env, sh: Shared, loc: FinalizeLoc) {
    match loc
    case FinRefresh(id) => id < sh.nextId
    case FinRefreshGet(id) => Settled(sh, id)
    case FinList(id, row, _, marker) => Snapshot(sh, id, row) && row.upload.Some? && 0 <= marker <= MAX_PARTS
    case FinComplete(id, row, _) => Snapshot(sh, id, row) && row.upload.Some?
    case FinClear(id, row) => Snapshot(sh, id, row) && Closed(sh, row)
    case FinClearGet(id, row) => Snapshot(sh, id, row) && Closed(sh, row) && Cleared(sh, id)
    case FinVerify(id, row) => Snapshot(sh, id, row)
    case FinHead(id, row) => Snapshot(sh, id, row) && Stored(env, sh, id)
    case FinPublish(id, row, contentType) => Snapshot(sh, id, row) && Stored(env, sh, id) && contentType != ""
    case FinPublishGet(id) => Settled(sh, id)
    case _ => true
  }

  ghost predicate PartInv(sh: Shared, loc: PartLoc) {
    match loc
    case PartGet(_, _, number, _) => 1 <= number <= MAX_PARTS
    case PartRefresh(_, number, _) => 1 <= number <= MAX_PARTS
    case PartSign(id, row, number, _) => Snapshot(sh, id, row) && row.upload.Some? && 1 <= number <= MAX_PARTS
  }

  ghost predicate RemoveInv(env: Env, sh: Shared, loc: RemoveLoc) {
    match loc
    case DelGet(_, _) => true
    case DelRow(_, after) => ThenInv(env, sh, after)
    case RemoveUpload(id, row, after) => DeadKey(env, sh, id, row) && ThenInv(env, sh, after)
    case RemoveBlob(id, row, _, after) => DeadKey(env, sh, id, row) && ThenInv(env, sh, after)
    case DropExpired(_, after) => ThenInv(env, sh, after)
  }

  ghost predicate SweepInv(env: Env, sh: Shared, loc: SweepLoc) {
    match loc
    case SweepClaim(start) => start <= sh.now
    case ObjectList(_, keys) => AllKnown(env, sh, keys)
    case ObjectLookup(keys) => AllKnown(env, sh, keys)
    case ObjectDelete(doomed, keys) => AllUnowned(env, sh, doomed) && AllKnown(env, sh, keys)
    case _ => true
  }

  ghost predicate LocInv(env: Env, sh: Shared, pid: Pid, loc: Loc) {
    match loc
    case Creating(at) => CreateInv(env, sh, pid, at)
    case Writing(at) => WriteInv(env, sh, at)
    case Finalizing(at) => FinalizeInv(env, sh, at)
    case Signing(at) => PartInv(sh, at)
    case Removing(at) => RemoveInv(env, sh, at)
    case Sweeping(at) => SweepInv(env, sh, at)
    case Returned(id, row) => id in sh.published && sh.published[id] == row
    case Finished => true
  }

  ghost predicate Inv(env: Env, s: State) {
    SharedInv(env, s.sh) && forall pid | pid in s.procs :: LocInv(env, s.sh, pid, s.procs[pid])
  }

  // ------------------------------------------------------------------ guarantee

  /** A row keeps its declaration and key; expiry and publication are final. */
  ghost predicate RowStep(env: Env, id: int, a: Row, b: Row) {
    && a.prefix == b.prefix && a.filename == b.filename && a.createdAt == b.createdAt
    && a.size == b.size && a.sha == b.sha && a.crc == b.crc
    && RowKey(env, id, a) == RowKey(env, id, b)
    && (a.expiredAt.Some? ==> b.expiredAt.Some? && a.expiredAt.value <= b.expiredAt.value)
    && (a.Available() ==> a == b)
    && (b.Pending() ==> a.updatedAt <= b.updatedAt)
  }

  ghost predicate RowsForward(env: Env, a: Shared, b: Shared) {
    && a.nextId <= b.nextId
    && (forall id | id in b.rows && id < a.nextId :: id in a.rows && RowStep(env, id, a.rows[id], b.rows[id]))
  }

  ghost predicate HistoryForward(a: Shared, b: Shared) {
    && (forall id | id in a.born :: id in b.born && b.born[id] == a.born[id])
    && (forall id | id in b.born && id !in a.born :: a.nextId <= id)
    && (forall u | u in a.issued :: u in b.issued && b.issued[u] == a.issued[u])
    && (forall u | u in a.recorded :: u in b.recorded && b.recorded[u] == a.recorded[u])
    && (forall id | id in a.published :: id in b.published && b.published[id] == a.published[id])
    && a.targets <= b.targets
    && a.now <= b.now
  }

  ghost predicate UploadsForward(a: Shared, b: Shared) {
    forall u | u in b.uploads && u in a.issued ::
      u in a.uploads && b.uploads[u].key == a.uploads[u].key && b.uploads[u].full == a.uploads[u].full
      && b.uploads[u].initiated == a.uploads[u].initiated
  }

  /** Declared bytes stay in place until their row is dead. */
  ghost predicate BytesForward(env: Env, a: Shared, b: Shared)
    requires forall id | id in a.born :: id in b.born
  {
    forall id | id in a.born && HoldsDeclared(env, a, id) :: Dead(b, id) || HoldsDeclared(env, b, id)
  }

  ghost predicate Guarantee(env: Env, a: Shared, b: Shared) {
    RowsForward(env, a, b) && HistoryForward(a, b) && UploadsForward(a, b) && BytesForward(env, a, b)
  }

  /**
   What a single step may do to rows: referenced rows stay, publication takes a
   pending row, an upload appears on a row only by being recorded, and a claim
   takes a row that waited long enough.
   */
  ghost predicate RowFacts(env: Env, a: Shared, b: Shared) {
    && (forall id | id in a.rows && id in a.refs :: id in b.rows)
    && (forall id | id in b.published && id !in a.published ::
          id in a.rows && a.rows[id].Pending() && id in b.rows && b.rows[id].Available())
    && (forall id | id in b.rows && b.rows[id].upload.Some? ::
          || (id in a.rows && a.rows[id].upload == b.rows[id].upload)
          || (b.rows[id].upload.value in b.recorded && b.rows[id].upload.value !in a.recorded))
    && (forall id | id in a.rows && id in b.rows && a.rows[id].expiredAt != b.rows[id].expiredAt ::
          && b.rows[id].expiredAt == Some(a.now)
          && Claimable(a.rows[id], a.now - env.maxAge, a.now - RETRY_DELAY))
  }

  /**
   What a single step may do to bytes: erase at keys nobody owns, and never
   again write at the key of an assembled upload.
   */
  ghost predicate ByteFacts(env: Env, a: Shared, b: Shared) {
    && (forall key | key in a.objects && key !in b.objects :: Unowned(env, a, key))
    && (forall u | Sealed(env, a, u) && BirthKey(env, a, a.recorded[u]) in b.objects ::
          && BirthKey(env, a, a.recorded[u]) in a.objects
          && b.objects[BirthKey(env, a, a.recorded[u])] == a.objects[BirthKey(env, a, a.recorded[u])])
  }

  /** A recorded upload that is open no more. */
  ghost predicate Sealed(env: Env, sh: Shared, u: string) {
    u in sh.recorded && u in sh.issued && u !in sh.uploads
    && sh.recorded[u] in sh.born && sh.born[sh.recorded[u]].mode.Multipart?
  }

  ghost predicate StepFacts(env: Env, a: Shared, b: Shared) {
    RowFacts(env, a, b) && ByteFacts(env, a, b)
  }

  /** No upload of an identifier created by `pid` was recorded. */
  ghost predicate NoRecordBy(a: Shared, b: Shared, pid: Pid) {
    forall u | u in b.recorded && u !in a.recorded ::
      b.recorded[u] in b.born && b.born[b.recorded[u]].creator != pid
  }

  ghost predicate Opening(loc: Loc) {
    loc.Creating? && (loc.creating.OpenUpload? || loc.creating.RecordUpload?)
  }

  // ------------------------------------------------------------------ stability

  lemma DeadStable(env: Env, a: Shared, b: Shared, id: int)
    requires Guarantee(env, a, b) && Dead(a, id)
    ensures Dead(b, id)
  {
  }

  lemma UnownedStable(env: Env, a: Shared, b: Shared, key: string)
    requires Guarantee(env, a, b) && Unowned(env, a, key)
    ensures Unowned(env, b, key)
  {
  }

  lemma ThenStable(env: Env, a: Shared, b: Shared, after: Then)
    requires Guarantee(env, a, b) && ThenInv(env, a, after)
    ensures ThenInv(env, b, after)
  {
  }

  lemma SnapshotStable(env: Env, a: Shared, b: Shared, id: int, row: Row)
    requires Guarantee(env, a, b) && Snapshot(a, id, row)
    ensures Snapshot(b, id, row) && b.born[id] == a.born[id]
  {
  }

  lemma CreateStable(env: Env, a: Shared, b: Shared, pid: Pid, loc: CreateLoc)
    requires Guarantee(env, a, b) && CreateInv(env, a, pid, loc)
    requires loc.OpenUpload? || loc.RecordUpload? ==> NoRecordBy(a, b, pid)
    ensures CreateInv(env, b, pid, loc)
  {
  }

  lemma WriteStable(env: Env, a: Shared, b: Shared, loc: WriteLoc)
    requires Guarantee(env, a, b) && WriteInv(env, a, loc)
    ensures WriteInv(env, b, loc)
  {
  }

  /** A row whose one upload was recorded and cleared never records another. */
  lemma ClearedStable(env: Env, a: Shared, b: Shared, id: int, row: Row)
    requires Guarantee(env, a, b) && RowFacts(env, a, b) && SharedInv(env, b)
    requires Snapshot(a, id, row) && row.upload.Some? && Cleared(a, id)
    ensures Cleared(b, id)
  {
    hide ValidRow, TargetsOk, ObjectsOk, BytesOk, PublishedOk, BytesForward, UploadsForward;
    if id in b.rows && b.rows[id].Visible() {
      assert RowStep(env, id, a.rows[id], b.rows[id]) && BornRow(env, b, id);
    }
  }

  lemma FinalizeStable(env: Env, a: Shared, b: Shared, loc: FinalizeLoc)
    requires Guarantee(env, a, b) && RowFacts(env, a, b) && SharedInv(env, b) && FinalizeInv(env, a, loc)
    ensures FinalizeInv(env, b, loc)
  {
    hide SharedInv, RowFacts, Cleared;
    if loc.FinClearGet? {
      ClearedStable(env, a, b, loc.id, loc.row);
    }
  }

  lemma RemoveStable(env: Env, a: Shared, b: Shared, loc: RemoveLoc)
    requires Guarantee(env, a, b) && RemoveInv(env, a, loc)
    ensures RemoveInv(env, b, loc)
  {
  }

  lemma SweepStable(env: Env, a: Shared, b: Shared, loc: SweepLoc)
    requires Guarantee(env, a, b) && SweepInv(env, a, loc)
    ensures SweepInv(env, b, loc)
  {
  }

  /** What an operation knows survives every step that keeps the guarantee. */
  lemma LocStable(env: Env, a: Shared, b: Shared, pid: Pid, loc: Loc)
    requires Guarantee(env, a, b) && StepFacts(env, a, b) && SharedInv(env, b) && LocInv(env, a, pid, loc)
    requires Opening(loc) ==> NoRecordBy(a, b, pid)
    ensures LocInv(env, b, pid, loc)
  {
    hide SharedInv, RowFacts, ByteFacts;
    match loc
    case Creating(at) => CreateStable(env, a, b, pid, at);
    case Writing(at) => WriteStable(env, a, b, at);
    case Finalizing(at) => FinalizeStable(env, a, b, at);
    case Signing(at) =>
      if at.PartSign? {
        SnapshotStable(env, a, b, at.id, at.row);
      }
    case Removing(at) => RemoveStable(env, a, b, at);
    case Sweeping(at) => SweepStable(env, a, b, at);
    case Returned(_, _) =>
    case Finished =>
  }
}
