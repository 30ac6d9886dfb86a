/**
 The blob lifecycle as one state machine.  Every SQL statement and every call
 to storage is one atomic step of some running operation; between any two steps
 any other operation, uploader or application may act.  A step may also fail
 before its effect, or take effect and lose its response.
 */
module Protocol {
  import opened Wrappers
  import opened Content
  import opened Table
  import opened Storage

  type Pid = nat

  const CLEANUP_BATCH := 100
  const RETRY_DELAY: Time := 3_600_000_000_000

  datatype Mode = Direct | Multipart

  /** What was declared when an identifier was handed out, and by which operation. */
  datatype Birth = Birth(filename: string, content: Declaration, mode: Mode, creator: Pid)

  /** A signed upload target.  `refreshed` is the row's `updated_at` when it was signed. */
  datatype Target =
    | PutTarget(id: int, key: string, size: int, sha: string, signed: Time, refreshed: Time, expires: Time)
    | PartTarget(id: int, key: string, upload: string, number: int, crc: string, signed: Time, refreshed: Time,
                 expires: Time)

  /**
   Registry, storage, references and clock.  The last four fields are history
   that no operation reads: what each identifier was born with, every upload
   identifier ever handed out and for which object, which row recorded it, and
   every row published.
   */
  datatype Shared = Shared(
    rows: Rows,
    nextId: int,
    refs: multiset<int>,
    objects: map<string, Blob>,
    uploads: map<string, Upload>,
    targets: set<Target>,
    accepted: set<Target>,
    now: Time,
    born: map<int, Birth>,
    issued: map<string, int>,
    recorded: map<string, int>,
    published: map<int, Row>)

  datatype Claimed = Claimed(id: int, row: Row)

  datatype Listed = Listed(key: string, upload: string)

  /** What follows the removal of one object's bytes. */
  datatype Then =
    | Stop
    | NextIds(ids: seq<int>)
    | NextClaims(claims: seq<Claimed>)

  datatype Op =
    | Begin(prefix: string, filename: string, content: Declaration)
    | BeginDirect(prefix: string, filename: string, content: Declaration)
    | Write(prefix: string, filename: string, contentType: string, body: Bytes)
    | Finalize(id: int, prefix: string)
    | PresignPart(id: int, prefix: string, number: int, crc: string)
    | Delete(id: int, prefix: string)
    | DeleteUnreferenced(ids: seq<int>)
    | SweepExpired
    | SweepUnreferenced(prefixes: set<string>)
    | SweepObjects
    | SweepUploads

  // Program counters, each with its locals, one type for each kind of operation.

  /** createPending, then the upload action. */
  datatype CreateLoc =
    | Insert(op: Op)
    | SignPut(id: int, row: Row)
    | OpenUpload(id: int, row: Row)
    | RecordUpload(id: int, row: Row, upload: string)
    | AbortUnrecorded(id: int, row: Row, upload: string)

  /** The rest of Write. */
  datatype WriteLoc =
    | PutBody(id: int, row: Row, contentType: string, body: Bytes)
    | PublishWrite(id: int, row: Row, contentType: string)
    | PublishWriteGet(id: int, row: Row)
    | UnwindWrite(id: int, row: Row)

  datatype FinalizeLoc =
    | FinGet(id: int, prefix: string)
    | FinRefresh(id: int)
    | FinRefreshGet(id: int)
    | FinList(id: int, row: Row, named: seq<NamedPart>, marker: int)
    | FinComplete(id: int, row: Row, named: seq<NamedPart>)
    | FinClear(id: int, row: Row)
    | FinClearGet(id: int, row: Row)
    | FinVerify(id: int, row: Row)
    | FinHead(id: int, row: Row)
    | FinPublish(id: int, row: Row, contentType: string)
    | FinPublishGet(id: int)

  /** PresignMultipartPart. */
  datatype PartLoc =
    | PartGet(id: int, prefix: string, number: int, crc: string)
    | PartRefresh(id: int, number: int, crc: string)
    | PartSign(id: int, row: Row, number: int, crc: string)

  /** Delete, DeleteUnreferenced and removeBytes. */
  datatype RemoveLoc =
    | DelGet(id: int, prefix: string)
    | DelRow(id: int, after: Then)
    | RemoveUpload(id: int, row: Row, after: Then)
    | RemoveBlob(id: int, row: Row, clean: bool, after: Then)
    | DropExpired(id: int, after: Then)

  /** Cleanup sweeps; `start` is when the sweep read the clock. */
  datatype SweepLoc =
    | SweepClaim(start: Time)
    | SweepList(start: Time, prefixes: set<string>)
    | ObjectList(start: Time, keys: seq<string>)
    | ObjectLookup(keys: seq<string>)
    | ObjectDelete(doomed: seq<string>, keys: seq<string>)
    | UploadList(start: Time, listed: seq<Listed>)
    | UploadLookup(start: Time, listed: seq<Listed>)
    | UploadAbort(start: Time, orphans: seq<Listed>, listed: seq<Listed>)

  /** `Returned` is an operation that finished with the row it published or found published. */
  datatype Loc =
    | Creating(creating: CreateLoc)
    | Writing(writing: WriteLoc)
    | Finalizing(finalizing: FinalizeLoc)
    | Signing(signing: PartLoc)
    | Removing(removing: RemoveLoc)
    | Sweeping(sweeping: SweepLoc)
    | Returned(id: int, row: Row)
    | Finished

  datatype State = State(sh: Shared, procs: map<Pid, Loc>)

  /** A call succeeds, fails before its effect, or takes effect and loses its response. */
  datatype Fault = NoFault | FailBefore | LoseResponse

  /** What the registry or the provider chooses freely in one call. */
  datatype Choice = Choice(upload: string, pageSize: nat, ids: seq<int>, keys: seq<string>, listed: seq<Listed>,
                           more: bool)

  datatype Event =
    | Start(pid: Pid, op: Op)
    | Step(pid: Pid, fault: Fault, choice: Choice)
    | Tick(elapsed: nat)
    | Accept(target: Target)
    | LandPut(target: Target, body: Bytes)
    | LandPart(target: Target, body: Bytes)
    | Attach(id: int)
    | Detach(id: int)

  // ------------------------------------------------------------------- helpers

  /** Where an object's bytes live; it keeps one key for life. */
  function RowKey(env: Env, id: int, row: Row): string {
    if row.storageKey.Some? then row.storageKey.value else env.keyOf(id, row.filename)
  }

  function RowContent(row: Row): Declaration
    requires row.Declared()
  {
    Declaration(row.size.value, row.sha.value, row.crc.value)
  }

  function ModeOf(env: Env, op: Op): Mode {
    if op.Begin? && env.kind.S3Kind? && op.content.size > MULTIPART_THRESHOLD then Multipart else Direct
  }

  predicate Creates(op: Op) { op.Begin? || op.BeginDirect? || op.Write? }

  function DeclaredBy(env: Env, op: Op): Declaration
    requires Creates(op)
  {
    if op.Write? then Declaration(|op.body|, env.sha(op.body), env.crc(op.body)) else op.content
  }

  function First(op: Op, now: Time): Loc {
    match op
    case Begin(_, _, _) => Creating(Insert(op))
    case BeginDirect(_, _, _) => Creating(Insert(op))
    case Write(_, _, contentType, _) => if contentType == "" then Finished else Creating(Insert(op))
    case Finalize(id, prefix) => Finalizing(FinGet(id, prefix))
    case PresignPart(id, prefix, number, crc) =>
      if 1 <= number <= MAX_PARTS && IsLowerHex(crc, 16) then Signing(PartGet(id, prefix, number, crc)) else Finished
    case Delete(id, prefix) => Removing(DelGet(id, prefix))
    case DeleteUnreferenced(ids) => NextId(ids)
    case SweepExpired => Sweeping(SweepClaim(now))
    case SweepUnreferenced(prefixes) => Sweeping(SweepList(now, prefixes))
    case SweepObjects => Sweeping(ObjectList(now, []))
    case SweepUploads => Sweeping(UploadList(now, []))
  }

  function NextId(ids: seq<int>): Loc {
    if ids == [] then Finished else Removing(DelRow(ids[0], NextIds(ids[1..])))
  }

  /** `removeBytes`: abort the recorded upload, if any, then delete the key. */
  function Remove(env: Env, id: int, row: Row, after: Then): Loc {
    if row.upload.Some? && env.kind.S3Kind? then Removing(RemoveUpload(id, row, after))
    else Removing(RemoveBlob(id, row, true, after))
  }

  function Resume(env: Env, after: Then): Loc {
    match after
    case Stop => Finished
    case NextIds(ids) => NextId(ids)
    case NextClaims(claims) =>
      if claims == [] then Finished else Remove(env, claims[0].id, claims[0].row, NextClaims(claims[1..]))
  }

  predicate OwnedKey(env: Env, rows: Rows, key: string) {
    var owner := env.ownerOf(key);
    && owner.Some? && owner.value in rows && rows[owner.value].Visible()
    && RowKey(env, owner.value, rows[owner.value]) == key
  }

  /** The keys of a batch that name an identifier but belong to no visible row. */
  function Doomed(env: Env, rows: Rows, keys: seq<string>): seq<string> {
    if keys == [] then []
    else if env.ownerOf(keys[0]).Some? && !OwnedKey(env, rows, keys[0]) then [keys[0]] + Doomed(env, rows, keys[1..])
    else Doomed(env, rows, keys[1..])
  }

  predicate OwnedUpload(env: Env, rows: Rows, item: Listed) {
    var owner := env.ownerOf(item.key);
    && owner.Some? && owner.value in rows && rows[owner.value].Visible()
    && rows[owner.value].upload == Some(item.upload)
  }

  function Orphans(env: Env, rows: Rows, listed: seq<Listed>): seq<Listed> {
    if listed == [] then []
    else if OwnedUpload(env, rows, listed[0]) then Orphans(env, rows, listed[1..])
    else [listed[0]] + Orphans(env, rows, listed[1..])
  }

  function Batch<T>(items: seq<T>): seq<T> {
    if |items| <= CLEANUP_BATCH then items else items[..CLEANUP_BATCH]
  }

  function Rest<T>(items: seq<T>): seq<T> {
    if |items| <= CLEANUP_BATCH then [] else items[CLEANUP_BATCH..]
  }

  // ----------------------------------------------------- effects on shared state

  function InsertRow(sh: Shared, row: Row, birth: Birth): Shared {
    sh.(rows := sh.rows[sh.nextId := row], born := sh.born[sh.nextId := birth], nextId := sh.nextId + 1)
  }

  function WriteRow(sh: Shared, id: int, row: Row): Shared {
    sh.(rows := sh.rows[id := row])
  }

  function Publish(sh: Shared, id: int, row: Row): Shared {
    sh.(rows := sh.rows[id := row], published := sh.published[id := row])
  }

  function RemoveRow(sh: Shared, id: int): Shared {
    sh.(rows := sh.rows - {id})
  }

  function StoreBlob(sh: Shared, key: string, blob: Blob): Shared {
    sh.(objects := sh.objects[key := blob])
  }

  function EraseBlob(sh: Shared, key: string): Shared {
    sh.(objects := sh.objects - {key})
  }

  /** The provider knows an upload by its key and its identifier together. */
  function CloseUpload(sh: Shared, key: string, upload: string): Shared {
    if upload in sh.uploads && sh.uploads[upload].key == key then sh.(uploads := sh.uploads - {upload}) else sh
  }

  function Completed(sh: Shared, upload: string, key: string, blob: Blob): Shared {
    sh.(objects := sh.objects[key := blob], uploads := sh.uploads - {upload})
  }

  // --------------------------------------------------- one call of one operation

  function CallCreate(env: Env, sh: Shared, pid: Pid, loc: CreateLoc, c: Choice): (Shared, Loc)
  {
    match loc
    case Insert(op) =>
      if !Creates(op) || !DeclaredBy(env, op).Valid() || sh.nextId > MAX_ID then (sh, Finished)
      else
        var content := DeclaredBy(env, op);
        var row := NewRow(op.prefix, op.filename, content, sh.now);
        var id := sh.nextId;
        (InsertRow(sh, row, Birth(op.filename, content, ModeOf(env, op), pid)),
         if op.Write? then Writing(PutBody(id, row, op.contentType, op.body))
         else if ModeOf(env, op).Multipart? then Creating(OpenUpload(id, row))
         else Creating(SignPut(id, row)))
    case SignPut(id, row) =>
      if !row.Declared() then (sh, Finished)
      else
        var t :=
          PutTarget(id, RowKey(env, id, row), row.size.value, row.sha.value, sh.now, row.updatedAt, sh.now + env.ttl);
        (sh.(targets := sh.targets + {t}), Finished)
    case OpenUpload(id, row) =>
      if c.upload in sh.issued then (sh, Creating(loc))
      else
        var open := Upload(RowKey(env, id, row), map[], true, sh.now);
        (sh.(uploads := sh.uploads[c.upload := open], issued := sh.issued[c.upload := id]),
         Creating(RecordUpload(id, row, c.upload)))
    case RecordUpload(id, row, upload) =>
      var result := RecordUploadID(sh.rows, id, upload, sh.now);
      if result.Updated? then
        (sh.(rows := sh.rows[id := result.row], recorded := sh.recorded[upload := id]), Finished)
      else (sh, Creating(AbortUnrecorded(id, row, upload)))
    case AbortUnrecorded(id, row, upload) =>
      (CloseUpload(sh, RowKey(env, id, row), upload), Removing(DelGet(id, row.prefix)))
  }

  function CallWrite(env: Env, sh: Shared, loc: WriteLoc): (Shared, Loc)
  {
    match loc
    case PutBody(id, row, contentType, body) =>
      if row.Declared() && env.sha(body) == row.sha.value && (env.kind.S3Kind? || |body| == row.size.value)
      then (StoreBlob(sh, RowKey(env, id, row), PutBlob(env, body, sh.now)),
            Writing(PublishWrite(id, row, contentType)))
      else (sh, Removing(DelRow(id, Stop)))
    case PublishWrite(id, row, contentType) =>
      var result := MarkAvailable(sh.rows, id, contentType, RowKey(env, id, row), sh.now);
      if result.Updated? then (Publish(sh, id, result.row), Returned(id, result.row))
      else if result.NoRow? then (sh, Writing(PublishWriteGet(id, row)))
      else (sh, Writing(UnwindWrite(id, row)))
    case PublishWriteGet(id, row) =>
      var current := GetByID(sh.rows, id);
      if current.Some? && current.value.Available() then (sh, Returned(id, current.value))
      else (sh, Writing(UnwindWrite(id, row)))
    case UnwindWrite(id, row) =>
      if GetByID(sh.rows, id).None? then (sh, Remove(env, id, row, Stop))
      else if id in sh.refs then (sh, Finished)
      else (RemoveRow(sh, id), Remove(env, id, sh.rows[id], Stop))
  }

  /** After the registry returned a pending row: the declaration, then the upload. */
  function Prepared(id: int, row: Row): Loc {
    if !row.Declared() then Finished
    else if row.upload.Some? then Finalizing(FinList(id, row, [], 0))
    else Finalizing(FinVerify(id, row))
  }

  /** One page of a part listing, `pageSize` entries at most and never empty. */
  function Page(parts: map<int, Part>, marker: int, pageSize: nat): seq<int> {
    var above := Ascending(parts, marker);
    if |above| <= pageSize + 1 then above else above[..pageSize + 1]
  }

  /** What the listing loop does after its last page. */
  function Listing(id: int, row: Row, named: seq<NamedPart>): Loc
    requires row.Declared()
  {
    if named == [] || TotalSize(named) != row.size.value then Finished else Finalizing(FinComplete(id, row, named))
  }

  lemma PageInParts(parts: map<int, Part>, marker: int, pageSize: nat)
    ensures forall i | 0 <= i < |Page(parts, marker, pageSize)| ::
              Page(parts, marker, pageSize)[i] in parts && marker < Page(parts, marker, pageSize)[i] <= MAX_PARTS
    ensures |Page(parts, marker, pageSize)| < |Ascending(parts, marker)| ==> Page(parts, marker, pageSize) != []
  {
    AscendingInParts(parts, marker);
  }

  lemma AscendingInParts(parts: map<int, Part>, marker: int)
    ensures forall i | 0 <= i < |Ascending(parts, marker)| ::
              Ascending(parts, marker)[i] in parts && marker < Ascending(parts, marker)[i] <= MAX_PARTS
    decreases MAX_PARTS - marker
  {
    if marker < MAX_PARTS {
      AscendingInParts(parts, marker + 1);
    }
  }

  function CallFinalize(env: Env, sh: Shared, loc: FinalizeLoc, c: Choice): (Shared, Loc)
  {
    match loc
    case FinGet(id, prefix) =>
      var current := GetByID(sh.rows, id);
      if current.None? || current.value.prefix != prefix then (sh, Finished)
      else if current.value.Available() then (sh, Returned(id, current.value))
      else (sh, Finalizing(FinRefresh(id)))
    case FinRefresh(id) =>
      var result := RefreshPending(sh.rows, id, sh.now);
      if result.Updated? then (WriteRow(sh, id, result.row), Prepared(id, result.row))
      else (sh, Finalizing(FinRefreshGet(id)))
    case FinRefreshGet(id) =>
      var current := GetByID(sh.rows, id);
      if current.Some? && current.value.Available() then (sh, Returned(id, current.value)) else (sh, Finished)
    case FinList(id, row, named, marker) =>
      if env.kind.FileKind? || row.upload.None? || !row.Declared() then (sh, Finished)
      else
        var upload := row.upload.value;
        if upload !in sh.uploads || sh.uploads[upload].key != RowKey(env, id, row)
        then (sh, Finalizing(FinClear(id, row)))
        else
          var parts := sh.uploads[upload].parts;
          var page := Page(parts, marker, c.pageSize);
          PageInParts(parts, marker, c.pageSize);
          var listed := named + Named(env, parts, page);
          if |page| < |Ascending(parts, marker)| then (sh, Finalizing(FinList(id, row, listed, page[|page| - 1])))
          else (sh, Listing(id, row, listed))
    case FinComplete(id, row, named) =>
      if row.upload.None? then (sh, Finished)
      else
        var upload := row.upload.value;
        if upload !in sh.uploads || sh.uploads[upload].key != RowKey(env, id, row)
        then (sh, Finalizing(FinClear(id, row)))
        else if !Completes(env, sh.uploads[upload].parts, named) then (sh, Finished)
        else
          (Completed(sh, upload, RowKey(env, id, row), Assembled(env, upload, sh.uploads[upload], named, sh.now)),
           Finalizing(FinClear(id, row)))
    case FinClear(id, row) =>
      if row.upload.None? then (sh, Finished)
      else
        var result := ClearUploadID(sh.rows, id, row.upload.value, sh.now);
        if result.Updated? then (WriteRow(sh, id, result.row), Finalizing(FinVerify(id, row)))
        else (sh, Finalizing(FinClearGet(id, row)))
    case FinClearGet(id, row) =>
      var current := GetByID(sh.rows, id);
      if current.Some? && current.value.upload.None? then (sh, Finalizing(FinVerify(id, row))) else (sh, Finished)
    case FinVerify(id, row) =>
      if row.Declared() && Verify(env, sh.objects, RowKey(env, id, row), RowContent(row)).Verified? then
        (sh, if row.size.value == 0 then Finalizing(FinPublish(id, row, env.detect([])))
             else Finalizing(FinHead(id, row)))
      else (sh, Finished)
    case FinHead(id, row) =>
      var key := RowKey(env, id, row);
      if key in sh.objects then (sh, Finalizing(FinPublish(id, row, env.detect(Head(sh.objects[key].body)))))
      else (sh, Finished)
    case FinPublish(id, row, contentType) =>
      var result := MarkAvailable(sh.rows, id, contentType, RowKey(env, id, row), sh.now);
      if result.Updated? then (Publish(sh, id, result.row), Returned(id, result.row))
      else if result.NoRow? then (sh, Finalizing(FinPublishGet(id)))
      else (sh, Finished)
    case FinPublishGet(id) =>
      var current := GetByID(sh.rows, id);
      if current.Some? && current.value.Available() then (sh, Returned(id, current.value)) else (sh, Finished)
  }

  function CallPart(env: Env, sh: Shared, loc: PartLoc): (Shared, Loc)
  {
    match loc
    case PartGet(id, prefix, number, crc) =>
      var current := GetByID(sh.rows, id);
      if env.kind.FileKind? || current.None? || current.value.prefix != prefix || current.value.Available()
      then (sh, Finished)
      else (sh, Signing(PartRefresh(id, number, crc)))
    case PartRefresh(id, number, crc) =>
      var result := RefreshPending(sh.rows, id, sh.now);
      if !result.Updated? then (sh, Finished)
      else if result.row.upload.None? then (WriteRow(sh, id, result.row), Finished)
      else (WriteRow(sh, id, result.row), Signing(PartSign(id, result.row, number, crc)))
    case PartSign(id, row, number, crc) =>
      if row.upload.None? then (sh, Finished)
      else
        var t :=
          PartTarget(id, RowKey(env, id, row), row.upload.value, number, crc, sh.now, row.updatedAt, sh.now + env.ttl);
        (sh.(targets := sh.targets + {t}), Finished)
  }

  function CallRemove(env: Env, sh: Shared, loc: RemoveLoc): (Shared, Loc)
  {
    match loc
    case DelGet(id, prefix) =>
      var current := GetByID(sh.rows, id);
      if current.None? || current.value.prefix != prefix then (sh, Finished) else (sh, Removing(DelRow(id, Stop)))
    case DelRow(id, after) =>
      if GetByID(sh.rows, id).None? || id in sh.refs then (sh, Resume(env, after))
      else (RemoveRow(sh, id), Remove(env, id, sh.rows[id], after))
    case RemoveUpload(id, row, after) =>
      if row.upload.None? then (sh, Removing(RemoveBlob(id, row, true, after)))
      else (CloseUpload(sh, RowKey(env, id, row), row.upload.value), Removing(RemoveBlob(id, row, true, after)))
    case RemoveBlob(id, row, clean, after) =>
      (EraseBlob(sh, RowKey(env, id, row)),
       if clean && after.NextClaims? then Removing(DropExpired(id, after)) else Resume(env, after))
    case DropExpired(id, after) =>
      if id !in sh.rows || sh.rows[id].Visible() || id in sh.refs then (sh, Resume(env, after))
      else (RemoveRow(sh, id), Resume(env, after))
  }

  predicate MayClaim(env: Env, sh: Shared, start: Time, ids: seq<int>) {
    && |ids| <= CLEANUP_BATCH
    && forall i | 0 <= i < |ids| ::
         ids[i] in sh.rows && Claimable(sh.rows[ids[i]], start - env.maxAge, start - RETRY_DELAY)
  }

  predicate MayDiscard(env: Env, sh: Shared, start: Time, prefixes: set<string>, ids: seq<int>) {
    && |ids| <= CLEANUP_BATCH
    && forall id | id in ids ::
         id in sh.rows && id !in sh.refs && sh.rows[id].Visible() && sh.rows[id].prefix in prefixes
           && sh.rows[id].availableAt.Some? && sh.rows[id].availableAt.value < start - env.maxAge
  }

  predicate OldKeys(env: Env, sh: Shared, start: Time, keys: seq<string>) {
    forall key | key in keys :: key in sh.objects && sh.objects[key].modified < start - env.maxAge
  }

  predicate OldUploads(env: Env, sh: Shared, start: Time, listed: seq<Listed>) {
    forall item | item in listed :: item.upload in sh.uploads && sh.uploads[item.upload].key == item.key
      && sh.uploads[item.upload].initiated < start - env.maxAge
  }

  function Claims(rows: Rows, ids: seq<int>): seq<Claimed>
    requires forall i | 0 <= i < |ids| :: ids[i] in rows
  {
    seq(|ids|, i requires 0 <= i < |ids| => Claimed(ids[i], rows[ids[i]]))
  }

  function CallSweep(env: Env, sh: Shared, loc: SweepLoc, c: Choice): (Shared, Loc)
  {
    match loc
    case SweepClaim(start) =>
      if !MayClaim(env, sh, start, c.ids) then (sh, Sweeping(loc))
      else
        var rows := Claim(sh.rows, c.ids, sh.now);
        (sh.(rows := rows), Resume(env, NextClaims(Claims(rows, c.ids))))
    case SweepList(start, prefixes) =>
      if !MayDiscard(env, sh, start, prefixes, c.ids) then (sh, Sweeping(loc)) else (sh, NextId(c.ids))
    case ObjectList(start, keys) =>
      if !OldKeys(env, sh, start, c.keys) then (sh, Sweeping(loc))
      else if c.more then (sh, Sweeping(ObjectList(start, keys + c.keys)))
      else (sh, Sweeping(ObjectLookup(keys + c.keys)))
    case ObjectLookup(keys) =>
      if keys == [] then (sh, Finished) else (sh, Sweeping(ObjectDelete(Doomed(env, sh.rows, Batch(keys)), Rest(keys))))
    case ObjectDelete(doomed, keys) =>
      if doomed == [] then (sh, Sweeping(ObjectLookup(keys)))
      else (EraseBlob(sh, doomed[0]), Sweeping(ObjectDelete(doomed[1..], keys)))
    case UploadList(start, listed) =>
      if env.kind.FileKind? then (sh, Finished)
      else if !OldUploads(env, sh, start, c.listed) then (sh, Sweeping(loc))
      else if c.more then (sh, Sweeping(UploadList(start, listed + c.listed)))
      else (sh, Sweeping(UploadLookup(start, listed + c.listed)))
    case UploadLookup(start, listed) =>
      if listed == [] then (sh, Finished)
      else (sh, Sweeping(UploadAbort(start, Orphans(env, sh.rows, Batch(listed)), Rest(listed))))
    case UploadAbort(start, orphans, listed) =>
      if orphans == [] then (sh, Sweeping(UploadLookup(start, listed)))
      else (CloseUpload(sh, orphans[0].key, orphans[0].upload), Sweeping(UploadAbort(start, orphans[1..], listed)))
  }

  function Call(env: Env, sh: Shared, pid: Pid, loc: Loc, c: Choice): (Shared, Loc) {
    match loc
    case Creating(at) => CallCreate(env, sh, pid, at, c)
    case Writing(at) => CallWrite(env, sh, at)
    case Finalizing(at) => CallFinalize(env, sh, at, c)
    case Signing(at) => CallPart(env, sh, at)
    case Removing(at) => CallRemove(env, sh, at)
    case Sweeping(at) => CallSweep(env, sh, at, c)
    case _ => (sh, loc)
  }

  function CreateError(loc: CreateLoc): Loc {
    match loc
    case Insert(_) => Finished
    case SignPut(id, row) => Removing(DelGet(id, row.prefix))
    case OpenUpload(id, row) => Removing(DelGet(id, row.prefix))
    case RecordUpload(id, row, upload) => Creating(AbortUnrecorded(id, row, upload))
    case AbortUnrecorded(id, row, _) => Removing(DelGet(id, row.prefix))
  }

  function WriteError(loc: WriteLoc): Loc {
    match loc
    case PutBody(id, _, _, _) => Removing(DelRow(id, Stop))
    case PublishWrite(id, row, _) => Writing(UnwindWrite(id, row))
    case PublishWriteGet(id, row) => Writing(UnwindWrite(id, row))
    case UnwindWrite(_, _) => Finished
  }

  function RemoveError(env: Env, loc: RemoveLoc): Loc {
    match loc
    case DelGet(_, _) => Finished
    case DelRow(_, after) => Resume(env, after)
    case RemoveUpload(id, row, after) => Removing(RemoveBlob(id, row, false, after))
    case RemoveBlob(_, _, _, after) => Resume(env, after)
    case DropExpired(_, after) => Resume(env, after)
  }

  function SweepError(env: Env, loc: SweepLoc): Loc {
    match loc
    // A walk of the file store keeps the keys it saw; an S3 listing does not.
    case ObjectList(_, keys) => if env.kind.FileKind? then Sweeping(ObjectLookup(keys)) else Finished
    case ObjectLookup(keys) => Sweeping(ObjectLookup(Rest(keys)))
    case ObjectDelete(doomed, keys) =>
      Sweeping(if doomed == [] then ObjectLookup(keys) else ObjectDelete(doomed[1..], keys))
    case UploadLookup(start, listed) => Sweeping(UploadLookup(start, Rest(listed)))
    case UploadAbort(start, orphans, listed) =>
      Sweeping(if orphans == [] then UploadLookup(start, listed) else UploadAbort(start, orphans[1..], listed))
    case _ => Finished
  }

  /** Where an operation continues when its call reported an error. */
  function OnError(env: Env, loc: Loc): Loc {
    match loc
    case Creating(at) => CreateError(at)
    case Writing(at) => WriteError(at)
    case Removing(at) => RemoveError(env, at)
    case Sweeping(at) => SweepError(env, at)
    case Returned(_, _) => loc
    case _ => Finished
  }

  function StepOf(env: Env, sh: Shared, pid: Pid, loc: Loc, fault: Fault, c: Choice): (Shared, Loc) {
    match fault
    case NoFault => Call(env, sh, pid, loc, c)
    case FailBefore => (sh, OnError(env, loc))
    case LoseResponse => (Call(env, sh, pid, loc, c).0, OnError(env, loc))
  }

  // ------------------------------------------------------ uploaders, applications

  /** A request under a signed target is accepted when it starts, until the target expires. */
  predicate Accepts(sh: Shared, t: Target) {
    t in sh.targets && sh.now < t.expires
  }

  /** The body of an accepted request lands once it has streamed, however long that takes. */
  predicate PutLands(env: Env, sh: Shared, t: Target, body: Bytes) {
    t in sh.accepted && t.PutTarget? && Admits(env, t.size, t.sha, body)
  }

  predicate PartLands(env: Env, sh: Shared, t: Target, body: Bytes) {
    && t in sh.accepted && t.PartTarget?
    && t.upload in sh.uploads && sh.uploads[t.upload].key == t.key
    && env.crc(body) == t.crc
  }

  function StorePart(env: Env, sh: Shared, t: Target, body: Bytes): Shared
    requires PartLands(env, sh, t, body)
  {
    var open := sh.uploads[t.upload];
    sh.(uploads := sh.uploads[t.upload := open.(parts := open.parts[t.number := Part(body, t.crc)])])
  }

  function Apply(env: Env, s: State, e: Event): State {
    match e
    case Start(pid, op) =>
      if pid in s.procs then s else s.(procs := s.procs[pid := First(op, s.sh.now)])
    case Step(pid, fault, c) =>
      if pid !in s.procs then s
      else
        var (sh, loc) := StepOf(env, s.sh, pid, s.procs[pid], fault, c);
        State(sh, s.procs[pid := loc])
    case Tick(elapsed) => s.(sh := s.sh.(now := s.sh.now + elapsed))
    case Accept(t) =>
      if Accepts(s.sh, t) then s.(sh := s.sh.(accepted := s.sh.accepted + {t})) else s
    case LandPut(t, body) =>
      if PutLands(env, s.sh, t, body) then s.(sh := StoreBlob(s.sh, t.key, PutBlob(env, body, s.sh.now))) else s
    case LandPart(t, body) =>
      if PartLands(env, s.sh, t, body) then s.(sh := StorePart(env, s.sh, t, body)) else s
    case Attach(id) => if id in s.sh.rows then s.(sh := s.sh.(refs := s.sh.refs + multiset{id})) else s
    case Detach(id) => s.(sh := s.sh.(refs := s.sh.refs - multiset{id}))
  }

  function Run(env: Env, s: State, events: seq<Event>): State {
    if events == [] then s else Apply(env, Run(env, s, events[..|events| - 1]), events[|events| - 1])
  }
}
