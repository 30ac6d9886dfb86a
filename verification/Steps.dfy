/** Every event, at every program counter, keeps the invariant; so every run does. */
module Steps {
  import opened Table
  import opened Storage
  import opened Protocol
  import opened Invariant
  import opened Effects

  /** A call keeps the shared invariant and leaves its operation knowing what it needs. */
  ghost predicate Good(env: Env, a: Shared, pid: Pid, result: (Shared, Loc)) {
    Kept(env, a, result.0) && LocInv(env, result.0, pid, result.1)
  }

  // ------------------------------------------------------------------- creation

  lemma InsertGood(env: Env, a: Shared, pid: Pid, op: Op, c: Choice)
    requires EnvOk(env) && SharedInv(env, a) && CreateInv(env, a, pid, Insert(op))
    ensures Good(env, a, pid, CallCreate(env, a, pid, Insert(op), c))
  {
    hide SharedInv, Guarantee, StepFacts;
    KeptSame(env, a);
    if Creates(op) && DeclaredBy(env, op).Valid() && a.nextId <= MAX_ID {
      var content := DeclaredBy(env, op);
      KeptInsert(env, a, NewRow(op.prefix, op.filename, content, a.now),
                 Birth(op.filename, content, ModeOf(env, op), pid), op.prefix);
    }
  }

  lemma SignGood(env: Env, a: Shared, pid: Pid, id: int, row: Row, c: Choice)
    requires SharedInv(env, a) && CreateInv(env, a, pid, SignPut(id, row))
    ensures Good(env, a, pid, CallCreate(env, a, pid, SignPut(id, row), c))
  {
    hide SharedInv, Guarantee, StepFacts;
    KeptTarget(env, a, PutTarget(id, RowKey(env, id, row), row.size.value, row.sha.value, a.now, row.updatedAt,
                                 a.now + env.ttl));
  }

  lemma OpenGood(env: Env, a: Shared, pid: Pid, id: int, row: Row, c: Choice)
    requires SharedInv(env, a) && CreateInv(env, a, pid, OpenUpload(id, row))
    ensures Good(env, a, pid, CallCreate(env, a, pid, OpenUpload(id, row), c))
  {
    hide SharedInv, Guarantee, StepFacts;
    KeptSame(env, a);
    if c.upload !in a.issued {
      KeptOpen(env, a, id, c.upload, Upload(RowKey(env, id, row), map[], true, a.now));
    }
  }

  lemma RecordGood(env: Env, a: Shared, pid: Pid, id: int, row: Row, upload: string, c: Choice)
    requires SharedInv(env, a) && CreateInv(env, a, pid, RecordUpload(id, row, upload))
    ensures Good(env, a, pid, CallCreate(env, a, pid, RecordUpload(id, row, upload), c))
  {
    hide SharedInv, Guarantee, StepFacts;
    KeptSame(env, a);
    if RecordUploadID(a.rows, id, upload, a.now).Updated? {
      KeptRecord(env, a, pid, id, row, upload);
    }
  }

  lemma CreateGood(env: Env, a: Shared, pid: Pid, loc: CreateLoc, c: Choice)
    requires EnvOk(env) && SharedInv(env, a) && CreateInv(env, a, pid, loc)
    ensures Good(env, a, pid, CallCreate(env, a, pid, loc, c))
  {
    hide SharedInv, Guarantee, StepFacts;
    match loc
    case Insert(op) => InsertGood(env, a, pid, op, c);
    case SignPut(id, row) => SignGood(env, a, pid, id, row, c);
    case OpenUpload(id, row) => OpenGood(env, a, pid, id, row, c);
    case RecordUpload(id, row, upload) => RecordGood(env, a, pid, id, row, upload, c);
    case AbortUnrecorded(id, row, upload) => KeptClose(env, a, RowKey(env, id, row), upload);
  }

  // ---------------------------------------------------------------------- Write

  lemma StoredOpen(env: Env, a: Shared, id: int)
    requires SharedInv(env, a) && id in a.born
    ensures id < a.nextId
  {
  }

  /** Publishing, for Write and Finalize alike. */
  lemma PublishGood(env: Env, a: Shared, pid: Pid, id: int, row: Row, contentType: string)
    requires SharedInv(env, a) && Snapshot(a, id, row) && Stored(env, a, id)
    ensures var result := MarkAvailable(a.rows, id, contentType, RowKey(env, id, row), a.now);
            && (result.Updated? ==> Good(env, a, pid, (Publish(a, id, result.row), Returned(id, result.row))))
            && (result.NoRow? ==> Settled(a, id))
  {
    hide SharedInv, Guarantee, StepFacts;
    StoredOpen(env, a, id);
    if MarkAvailable(a.rows, id, contentType, RowKey(env, id, row), a.now).Updated? {
      KeptPublish(env, a, id, contentType);
    }
  }

  lemma PutGood(env: Env, a: Shared, pid: Pid, loc: WriteLoc)
    requires EnvOk(env) && SharedInv(env, a) && WriteInv(env, a, loc) && loc.PutBody?
    ensures Good(env, a, pid, CallWrite(env, a, loc))
  {
    hide SharedInv, Guarantee, StepFacts;
    KeptPut(env, a, loc.id, loc.body);
  }

  /** The row found available is the one that was published. */
  lemma FoundPublished(env: Env, a: Shared, id: int)
    requires SharedInv(env, a)
    ensures var current := GetByID(a.rows, id);
            current.Some? && current.value.Available() ==> id in a.published && a.published[id] == current.value
  {
  }

  /** Deleting a row leaves its key for removal, with nothing alive to own it. */
  lemma DeletedRow(env: Env, a: Shared, id: int)
    requires EnvOk(env) && SharedInv(env, a) && id in a.rows && id !in a.refs
    ensures Kept(env, a, RemoveRow(a, id)) && DeadKey(env, RemoveRow(a, id), id, a.rows[id])
  {
    KeptRemoveRow(env, a, id);
    RowKeyParses(env, a, id);
  }

  lemma GoneRow(env: Env, a: Shared, id: int, row: Row)
    requires EnvOk(env) && SharedInv(env, a) && Snapshot(a, id, row) && GetByID(a.rows, id).None?
    ensures DeadKey(env, a, id, row)
  {
  }

  lemma UnwindGood(env: Env, a: Shared, pid: Pid, id: int, row: Row)
    requires EnvOk(env) && SharedInv(env, a) && Snapshot(a, id, row)
    ensures Good(env, a, pid, CallWrite(env, a, UnwindWrite(id, row)))
  {
    hide SharedInv, Guarantee, StepFacts, EnvOk;
    KeptSame(env, a);
    if GetByID(a.rows, id).None? {
      GoneRow(env, a, id, row);
    } else if id !in a.refs {
      DeletedRow(env, a, id);
    }
  }

  lemma WriteGood(env: Env, a: Shared, pid: Pid, loc: WriteLoc)
    requires EnvOk(env) && SharedInv(env, a) && WriteInv(env, a, loc)
    ensures Good(env, a, pid, CallWrite(env, a, loc))
  {
    hide SharedInv, Guarantee, StepFacts;
    KeptSame(env, a);
    match loc
    case PutBody(_, _, _, _) => PutGood(env, a, pid, loc);
    case PublishWrite(id, row, contentType) => PublishGood(env, a, pid, id, row, contentType);
    case PublishWriteGet(id, row) => FoundPublished(env, a, id);
    case UnwindWrite(id, row) => UnwindGood(env, a, pid, id, row);
  }

  // ------------------------------------------------------------------- Finalize

  /** A visible pending row carries the declaration it was born with. */
  lemma PendingSnapshot(env: Env, a: Shared, id: int)
    requires SharedInv(env, a) && id in a.rows && a.rows[id].Pending()
    ensures Snapshot(a, id, a.rows[id]) && a.rows[id].Declared()
  {
  }

  lemma RefreshGood(env: Env, a: Shared, id: int)
    requires SharedInv(env, a) && RefreshPending(a.rows, id, a.now).Updated?
    ensures var row := RefreshPending(a.rows, id, a.now).row;
            Kept(env, a, WriteRow(a, id, row)) && Snapshot(WriteRow(a, id, row), id, row) && row.Declared()
  {
    hide SharedInv, Guarantee, StepFacts;
    PendingSnapshot(env, a, id);
    KeptTouch(env, a, id, RefreshPending(a.rows, id, a.now).row);
  }

  lemma FinRefreshGood(env: Env, a: Shared, pid: Pid, id: int, c: Choice)
    requires SharedInv(env, a) && id < a.nextId
    ensures Good(env, a, pid, CallFinalize(env, a, FinRefresh(id), c))
  {
    hide SharedInv, Guarantee, StepFacts;
    if RefreshPending(a.rows, id, a.now).Updated? {
      RefreshGood(env, a, id);
    } else {
      KeptSame(env, a);
    }
  }

  /** The upload a snapshot records was issued for it, and is open at its key or closed for good. */
  lemma SnapshotUpload(env: Env, a: Shared, id: int, row: Row)
    requires SharedInv(env, a) && Snapshot(a, id, row) && row.upload.Some?
    ensures var u := row.upload.value;
            && u in a.recorded && u in a.issued
            && (u in a.uploads ==> a.uploads[u].key == RowKey(env, id, row))
  {
  }

  lemma CompleteGood(env: Env, a: Shared, pid: Pid, id: int, row: Row, named: seq<NamedPart>, c: Choice)
    requires EnvOk(env) && SharedInv(env, a) && FinalizeInv(env, a, FinComplete(id, row, named))
    ensures Good(env, a, pid, CallFinalize(env, a, FinComplete(id, row, named), c))
  {
    hide SharedInv, Guarantee, StepFacts, EnvOk, Assembled;
    var upload := row.upload.value;
    KeptSame(env, a);
    SnapshotUpload(env, a, id, row);
    if upload in a.uploads && Completes(env, a.uploads[upload].parts, named) {
      KeptComplete(env, a, upload, named);
    }
  }

  lemma ListGood(env: Env, a: Shared, pid: Pid, loc: FinalizeLoc, c: Choice)
    requires SharedInv(env, a) && FinalizeInv(env, a, loc) && loc.FinList?
    ensures Good(env, a, pid, CallFinalize(env, a, loc, c))
  {
    hide SharedInv, Guarantee, StepFacts, Page, Ascending, Named, TotalSize;
    KeptSame(env, a);
    SnapshotUpload(env, a, loc.id, loc.row);
    if loc.row.upload.value in a.uploads {
      PageInParts(a.uploads[loc.row.upload.value].parts, loc.marker, c.pageSize);
    }
  }

  lemma ClearGood(env: Env, a: Shared, pid: Pid, id: int, row: Row, c: Choice)
    requires SharedInv(env, a) && FinalizeInv(env, a, FinClear(id, row))
    ensures Good(env, a, pid, CallFinalize(env, a, FinClear(id, row), c))
  {
    hide SharedInv, Guarantee, StepFacts;
    var result := ClearUploadID(a.rows, id, row.upload.value, a.now);
    if result.Updated? {
      RecordedPending(env, a, id);
      KeptTouch(env, a, id, result.row);
      SnapshotStable(env, a, WriteRow(a, id, result.row), id, row);
    } else {
      KeptSame(env, a);
      OneUpload(env, a, id, row);
    }
  }

  /** The upload a row records, if any, is the one its snapshot recorded. */
  lemma OneUpload(env: Env, a: Shared, id: int, row: Row)
    requires SharedInv(env, a) && Snapshot(a, id, row) && row.upload.Some?
    ensures id in a.rows ==> a.rows[id].upload.None? || a.rows[id].upload == row.upload
  {
    if id in a.rows {
      assert BornRow(env, a, id);
    }
  }

  lemma RecordedPending(env: Env, a: Shared, id: int)
    requires SharedInv(env, a) && id in a.rows && a.rows[id].Visible() && a.rows[id].upload.Some?
    ensures a.rows[id].Pending()
  {
  }

  /** The provider's record of a stored blob decides whether it is the declared one. */
  lemma VerifiedIsDeclared(env: Env, a: Shared, id: int, row: Row)
    requires SharedInv(env, a) && Snapshot(a, id, row)
    requires Verify(env, a.objects, RowKey(env, id, row), RowContent(row)).Verified?
    ensures HoldsDeclared(env, a, id)
  {
  }

  lemma VerifyGood(env: Env, a: Shared, pid: Pid, id: int, row: Row, c: Choice)
    requires EnvOk(env) && SharedInv(env, a) && FinalizeInv(env, a, FinVerify(id, row))
    ensures Good(env, a, pid, CallFinalize(env, a, FinVerify(id, row), c))
  {
    hide SharedInv, Guarantee, StepFacts, Verify;
    KeptSame(env, a);
    if Verify(env, a.objects, RowKey(env, id, row), RowContent(row)).Verified? {
      VerifiedIsDeclared(env, a, id, row);
      assert env.detect([]) != "";
    }
  }

  lemma HeadGood(env: Env, a: Shared, pid: Pid, id: int, row: Row, c: Choice)
    requires EnvOk(env) && SharedInv(env, a) && FinalizeInv(env, a, FinHead(id, row))
    ensures Good(env, a, pid, CallFinalize(env, a, FinHead(id, row), c))
  {
    hide SharedInv, Guarantee, StepFacts, Head;
    KeptSame(env, a);
    if RowKey(env, id, row) in a.objects {
      assert env.detect(Head(a.objects[RowKey(env, id, row)].body)) != "";
    }
  }

  lemma VisibleKnown(env: Env, a: Shared, id: int)
    requires SharedInv(env, a)
    ensures id in a.rows ==> id < a.nextId
  {
  }

  lemma FinalizeGood(env: Env, a: Shared, pid: Pid, loc: FinalizeLoc, c: Choice)
    requires EnvOk(env) && SharedInv(env, a) && FinalizeInv(env, a, loc)
    ensures Good(env, a, pid, CallFinalize(env, a, loc, c))
  {
    hide SharedInv, Guarantee, StepFacts, EnvOk;
    KeptSame(env, a);
    match loc
    case FinGet(id, _) => FoundPublished(env, a, id); VisibleKnown(env, a, id);
    case FinRefresh(id) => FinRefreshGood(env, a, pid, id, c);
    case FinRefreshGet(id) => FoundPublished(env, a, id);
    case FinList(_, _, _, _) => ListGood(env, a, pid, loc, c);
    case FinComplete(id, row, named) => CompleteGood(env, a, pid, id, row, named, c);
    case FinClear(id, row) => ClearGood(env, a, pid, id, row, c);
    case FinClearGet(_, _) =>
    case FinVerify(id, row) => VerifyGood(env, a, pid, id, row, c);
    case FinHead(id, row) => HeadGood(env, a, pid, id, row, c);
    case FinPublish(id, row, contentType) => PublishGood(env, a, pid, id, row, contentType);
    case FinPublishGet(id) => FoundPublished(env, a, id);
  }

  lemma PartGood(env: Env, a: Shared, pid: Pid, loc: PartLoc)
    requires SharedInv(env, a) && PartInv(a, loc)
    ensures Good(env, a, pid, CallPart(env, a, loc))
  {
    hide SharedInv, Guarantee, StepFacts;
    KeptSame(env, a);
    match loc
    case PartGet(_, _, _, _) =>
    case PartRefresh(id, _, _) =>
      if RefreshPending(a.rows, id, a.now).Updated? {
        RefreshGood(env, a, id);
      }
    case PartSign(id, row, number, crc) =>
      KeptTarget(env, a, PartTarget(id, RowKey(env, id, row), row.upload.value, number, crc, a.now, row.updatedAt,
                                    a.now + env.ttl));
  }

  // -------------------------------------------------------------------- removal

  lemma ResumeGood(env: Env, a: Shared, pid: Pid, after: Then)
    requires ThenInv(env, a, after)
    ensures LocInv(env, a, pid, Resume(env, after))
  {
  }

  lemma DelRowGood(env: Env, a: Shared, pid: Pid, id: int, after: Then)
    requires EnvOk(env) && SharedInv(env, a) && ThenInv(env, a, after)
    ensures Good(env, a, pid, CallRemove(env, a, DelRow(id, after)))
  {
    hide SharedInv, Guarantee, StepFacts, EnvOk;
    KeptSame(env, a);
    ResumeGood(env, a, pid, after);
    if id in a.rows && id !in a.refs {
      DeletedRow(env, a, id);
      ThenStable(env, a, RemoveRow(a, id), after);
    }
  }

  lemma DeadUnowned(env: Env, a: Shared, id: int, row: Row)
    requires DeadKey(env, a, id, row)
    ensures Unowned(env, a, RowKey(env, id, row))
  {
  }

  lemma EraseGood(env: Env, a: Shared, pid: Pid, loc: RemoveLoc)
    requires EnvOk(env) && SharedInv(env, a) && RemoveInv(env, a, loc) && loc.RemoveBlob?
    ensures Good(env, a, pid, CallRemove(env, a, loc))
  {
    hide SharedInv, Guarantee, StepFacts, EnvOk;
    var key := RowKey(env, loc.id, loc.row);
    DeadUnowned(env, a, loc.id, loc.row);
    KeptErase(env, a, key);
    ThenStable(env, a, EraseBlob(a, key), loc.after);
    ResumeGood(env, EraseBlob(a, key), pid, loc.after);
  }

  lemma AbortGood(env: Env, a: Shared, pid: Pid, loc: RemoveLoc)
    requires SharedInv(env, a) && RemoveInv(env, a, loc) && loc.RemoveUpload?
    ensures Good(env, a, pid, CallRemove(env, a, loc))
  {
    hide SharedInv, Guarantee, StepFacts;
    KeptSame(env, a);
    if loc.row.upload.Some? {
      KeptClose(env, a, RowKey(env, loc.id, loc.row), loc.row.upload.value);
    }
    RemoveStable(env, a, CallRemove(env, a, loc).0, loc);
  }

  lemma DropGood(env: Env, a: Shared, pid: Pid, id: int, after: Then)
    requires SharedInv(env, a) && ThenInv(env, a, after)
    ensures Good(env, a, pid, CallRemove(env, a, DropExpired(id, after)))
  {
    hide SharedInv, Guarantee, StepFacts;
    KeptSame(env, a);
    if id in a.rows && id !in a.refs {
      KeptRemoveRow(env, a, id);
    }
    var b := CallRemove(env, a, DropExpired(id, after)).0;
    ThenStable(env, a, b, after);
    ResumeGood(env, b, pid, after);
  }

  lemma RemoveGood(env: Env, a: Shared, pid: Pid, loc: RemoveLoc)
    requires EnvOk(env) && SharedInv(env, a) && RemoveInv(env, a, loc)
    ensures Good(env, a, pid, CallRemove(env, a, loc))
  {
    hide SharedInv, Guarantee, StepFacts, EnvOk;
    match loc
    case DelGet(_, _) => KeptSame(env, a);
    case DelRow(id, after) => DelRowGood(env, a, pid, id, after);
    case RemoveUpload(_, _, _) => AbortGood(env, a, pid, loc);
    case RemoveBlob(_, _, _, _) => EraseGood(env, a, pid, loc);
    case DropExpired(id, after) => DropGood(env, a, pid, id, after);
  }

  // ------------------------------------------------------------------- cleanup

  /** Claimed rows are expired from the claim on, whoever removes them. */
  lemma ClaimedDead(env: Env, a: Shared, start: Time, ids: seq<int>)
    requires EnvOk(env) && SharedInv(env, a) && MayClaim(env, a, start, ids)
    ensures var b := a.(rows := Claim(a.rows, ids, a.now)); ThenInv(env, b, NextClaims(Claims(b.rows, ids)))
  {
  }

  lemma ClaimGood(env: Env, a: Shared, pid: Pid, start: Time, c: Choice)
    requires EnvOk(env) && SharedInv(env, a) && start <= a.now
    ensures Good(env, a, pid, CallSweep(env, a, SweepClaim(start), c))
  {
    hide SharedInv, Guarantee, StepFacts, EnvOk;
    if MayClaim(env, a, start, c.ids) {
      KeptClaim(env, a, start, c.ids);
      ClaimedDead(env, a, start, c.ids);
      var b := a.(rows := Claim(a.rows, c.ids, a.now));
      ResumeGood(env, b, pid, NextClaims(Claims(b.rows, c.ids)));
    } else {
      KeptSame(env, a);
    }
  }

  /** A key with no visible owner at lookup never gets one. */
  lemma {:induction false} DoomedUnowned(env: Env, a: Shared, keys: seq<string>)
    requires SharedInv(env, a) && AllKnown(env, a, keys)
    ensures AllUnowned(env, a, Doomed(env, a.rows, keys))
  {
    if keys != [] {
      DoomedUnowned(env, a, keys[1..]);
      assert Known(env, a, keys[0]);
    }
  }

  lemma ListedKnown(env: Env, a: Shared, start: Time, keys: seq<string>)
    requires SharedInv(env, a) && OldKeys(env, a, start, keys)
    ensures AllKnown(env, a, keys)
  {
  }

  lemma DeleteGood(env: Env, a: Shared, pid: Pid, loc: SweepLoc, c: Choice)
    requires EnvOk(env) && SharedInv(env, a) && SweepInv(env, a, loc) && loc.ObjectDelete?
    ensures Good(env, a, pid, CallSweep(env, a, loc, c))
  {
    hide SharedInv, Guarantee, StepFacts, EnvOk;
    KeptSame(env, a);
    if loc.doomed != [] {
      KeptErase(env, a, loc.doomed[0]);
      SweepStable(env, a, EraseBlob(a, loc.doomed[0]), loc);
    }
  }

  lemma SweepGood(env: Env, a: Shared, pid: Pid, loc: SweepLoc, c: Choice)
    requires EnvOk(env) && SharedInv(env, a) && SweepInv(env, a, loc)
    ensures Good(env, a, pid, CallSweep(env, a, loc, c))
  {
    hide SharedInv, Guarantee, StepFacts, EnvOk, Doomed, Orphans;
    KeptSame(env, a);
    match loc
    case SweepClaim(start) => ClaimGood(env, a, pid, start, c);
    case ObjectList(start, keys) =>
      if OldKeys(env, a, start, c.keys) {
        ListedKnown(env, a, start, c.keys);
      }
    case ObjectLookup(keys) => DoomedUnowned(env, a, Batch(keys));
    case ObjectDelete(_, _) => DeleteGood(env, a, pid, loc, c);
    case UploadAbort(_, orphans, _) =>
      if orphans != [] {
        KeptClose(env, a, orphans[0].key, orphans[0].upload);
      }
    case _ =>
  }

  // -------------------------------------------------------------- whole machine

  lemma CallGood(env: Env, a: Shared, pid: Pid, loc: Loc, c: Choice)
    requires EnvOk(env) && SharedInv(env, a) && LocInv(env, a, pid, loc)
    ensures Good(env, a, pid, Call(env, a, pid, loc, c))
  {
    hide SharedInv, Guarantee, StepFacts, EnvOk, Good, CallCreate, CallWrite, CallFinalize, CallPart, CallRemove,
         CallSweep;
    match loc
    case Creating(at) => CreateGood(env, a, pid, at, c);
    case Writing(at) => WriteGood(env, a, pid, at);
    case Finalizing(at) => FinalizeGood(env, a, pid, at, c);
    case Signing(at) => PartGood(env, a, pid, at);
    case Removing(at) => RemoveGood(env, a, pid, at);
    case Sweeping(at) => SweepGood(env, a, pid, at, c);
    case _ => IdleGood(env, a, pid, loc);
  }

  lemma IdleGood(env: Env, a: Shared, pid: Pid, loc: Loc)
    requires SharedInv(env, a) && LocInv(env, a, pid, loc)
    ensures Good(env, a, pid, (a, loc))
  {
    hide SharedInv, Guarantee, StepFacts;
    KeptSame(env, a);
  }

  lemma ErrorGood(env: Env, a: Shared, pid: Pid, loc: Loc)
    requires LocInv(env, a, pid, loc)
    ensures LocInv(env, a, pid, OnError(env, loc)) && !Opening(OnError(env, loc))
  {
    match loc
    case Removing(at) =>
      if !at.DelGet? {
        ResumeGood(env, a, pid, at.after);
      }
    case _ =>
  }

  lemma StepGood(env: Env, a: Shared, pid: Pid, loc: Loc, fault: Fault, c: Choice)
    requires EnvOk(env) && SharedInv(env, a) && LocInv(env, a, pid, loc)
    ensures Good(env, a, pid, StepOf(env, a, pid, loc, fault, c))
  {
    hide SharedInv, Guarantee, StepFacts, EnvOk, Call, OnError, LocInv;
    match fault
    case NoFault => CallGood(env, a, pid, loc, c);
    case FailBefore => KeptSame(env, a); ErrorGood(env, a, pid, loc);
    case LoseResponse =>
      CallGood(env, a, pid, loc, c);
      ErrorGood(env, a, pid, loc);
      LocStable(env, a, Call(env, a, pid, loc, c).0, pid, OnError(env, loc));
  }

  lemma CreateRecords(env: Env, a: Shared, pid: Pid, loc: CreateLoc, c: Choice)
    ensures var b := CallCreate(env, a, pid, loc, c).0;
            if loc.RecordUpload?
            then b.born == a.born && (b.recorded == a.recorded || b.recorded == a.recorded[loc.upload := loc.id])
            else b.recorded == a.recorded
  {
    hide RecordUploadID, ModeOf;
  }

  lemma PartRecords(env: Env, a: Shared, loc: PartLoc)
    ensures CallPart(env, a, loc).0.recorded == a.recorded
  {
  }

  lemma WriteRecords(env: Env, a: Shared, loc: WriteLoc)
    ensures CallWrite(env, a, loc).0.recorded == a.recorded
  {
  }

  lemma FinalizeRecords(env: Env, a: Shared, loc: FinalizeLoc, c: Choice)
    ensures CallFinalize(env, a, loc, c).0.recorded == a.recorded
  {
  }

  lemma RemoveRecords(env: Env, a: Shared, loc: RemoveLoc)
    ensures CallRemove(env, a, loc).0.recorded == a.recorded
  {
  }

  lemma SweepRecords(env: Env, a: Shared, loc: SweepLoc, c: Choice)
    ensures CallSweep(env, a, loc, c).0.recorded == a.recorded
  {
  }

  /** Only `RecordMultipartUploadID` changes which uploads are recorded. */
  lemma CallRecords(env: Env, a: Shared, pid: Pid, loc: Loc, c: Choice)
    ensures var b := Call(env, a, pid, loc, c).0;
            if loc.Creating? && loc.creating.RecordUpload?
            then b.born == a.born
                 && (b.recorded == a.recorded || b.recorded == a.recorded[loc.creating.upload := loc.creating.id])
            else b.recorded == a.recorded
  {
    hide CallCreate, CallWrite, CallFinalize, CallPart, CallRemove, CallSweep;
    match loc
    case Creating(at) => CreateRecords(env, a, pid, at, c);
    case Signing(at) => PartRecords(env, a, at);
    case Writing(at) => WriteRecords(env, a, at);
    case Finalizing(at) => FinalizeRecords(env, a, at, c);
    case Removing(at) => RemoveRecords(env, a, at);
    case Sweeping(at) => SweepRecords(env, a, at, c);
    case _ =>
  }

  /** Only an upload's own creator records it. */
  lemma RecordsOwn(env: Env, a: Shared, pid: Pid, loc: Loc, fault: Fault, c: Choice, other: Pid)
    requires LocInv(env, a, pid, loc) && other != pid
    ensures NoRecordBy(a, StepOf(env, a, pid, loc, fault, c).0, other)
  {
    hide Call, OnError;
    CallRecords(env, a, pid, loc, c);
  }

  lemma FirstGood(env: Env, a: Shared, pid: Pid, op: Op)
    ensures LocInv(env, a, pid, First(op, a.now))
  {
  }

  /** What an uploader or an application does to the shared state keeps the invariant. */
  lemma OutsiderGood(env: Env, s: State, e: Event)
    requires EnvOk(env) && SharedInv(env, s.sh) && !e.Step? && !e.Start?
    ensures Kept(env, s.sh, Apply(env, s, e).sh)
    ensures Apply(env, s, e).sh.recorded == s.sh.recorded && Apply(env, s, e).procs == s.procs
  {
    hide SharedInv, Guarantee, StepFacts;
    var a := s.sh;
    KeptSame(env, a);
    match e
    case Tick(elapsed) => KeptOutside(env, a, a.now + elapsed, a.refs);
    case Attach(id) => KeptOutside(env, a, a.now, a.refs + multiset{id});
    case Detach(id) => KeptOutside(env, a, a.now, a.refs - multiset{id});
    case Accept(t) =>
      if Accepts(a, t) {
        KeptAccepted(env, a, t);
      }
    case LandPut(t, body) =>
      if PutLands(env, a, t, body) {
        IssuedTarget(env, a, t);
        KeptPut(env, a, t.id, body);
      }
    case LandPart(t, body) =>
      if PartLands(env, a, t, body) {
        KeptPart(env, a, t, body);
      }
  }

  lemma IssuedTarget(env: Env, a: Shared, t: Target)
    requires SharedInv(env, a) && t in a.targets + a.accepted
    ensures TargetOk(env, a, t)
  {
  }

  lemma StepApplies(env: Env, s: State, e: Event)
    requires EnvOk(env) && Inv(env, s) && e.Step? && e.pid in s.procs
    ensures Inv(env, Apply(env, s, e)) && Guarantee(env, s.sh, Apply(env, s, e).sh)
            && StepFacts(env, s.sh, Apply(env, s, e).sh)
  {
    hide SharedInv, Guarantee, StepFacts, EnvOk, LocInv, StepOf;
    var t := Apply(env, s, e);
    StepGood(env, s.sh, e.pid, s.procs[e.pid], e.fault, e.choice);
    forall p | p in t.procs ensures LocInv(env, t.sh, p, t.procs[p]) {
      if p != e.pid {
        RecordsOwn(env, s.sh, e.pid, s.procs[e.pid], e.fault, e.choice, p);
        LocStable(env, s.sh, t.sh, p, s.procs[p]);
      }
    }
  }

  lemma OutsiderApplies(env: Env, s: State, e: Event)
    requires EnvOk(env) && Inv(env, s) && !e.Step? && !e.Start?
    ensures Inv(env, Apply(env, s, e)) && Guarantee(env, s.sh, Apply(env, s, e).sh)
            && StepFacts(env, s.sh, Apply(env, s, e).sh)
  {
    hide SharedInv, Guarantee, StepFacts, EnvOk, LocInv, Apply;
    var t := Apply(env, s, e);
    OutsiderGood(env, s, e);
    forall p | p in t.procs ensures LocInv(env, t.sh, p, t.procs[p]) {
      LocStable(env, s.sh, t.sh, p, s.procs[p]);
    }
  }

  lemma ApplyGood(env: Env, s: State, e: Event)
    requires EnvOk(env) && Inv(env, s)
    ensures Inv(env, Apply(env, s, e)) && Guarantee(env, s.sh, Apply(env, s, e).sh)
            && StepFacts(env, s.sh, Apply(env, s, e).sh)
  {
    hide SharedInv, Guarantee, StepFacts, EnvOk, LocInv, StepOf, First;
    if e.Step? && e.pid in s.procs {
      StepApplies(env, s, e);
    } else if e.Step? {
      KeptSame(env, s.sh);
    } else if e.Start? {
      KeptSame(env, s.sh);
      FirstGood(env, s.sh, e.pid, e.op);
    } else {
      OutsiderApplies(env, s, e);
    }
  }

  lemma {:induction false} RunGood(env: Env, s: State, events: seq<Event>)
    requires EnvOk(env) && Inv(env, s)
    ensures Inv(env, Run(env, s, events))
  {
    hide Inv, Guarantee, EnvOk, Apply;
    if events != [] {
      RunGood(env, s, events[..|events| - 1]);
      ApplyGood(env, Run(env, s, events[..|events| - 1]), events[|events| - 1]);
    }
  }
}
