/**
 Each effect a step can have on the shared state keeps the invariant and the
 guarantee.  Effects on the registry leave storage alone and the other way
 round, so each lemma below carries one clause of the invariant over one effect.
 */
module Effects {
  import opened Wrappers
  import opened Table
  import opened Storage
  import opened Protocol
  import opened Invariant

  ghost predicate Kept(env: Env, a: Shared, b: Shared) {
    SharedInv(env, b) && Guarantee(env, a, b) && StepFacts(env, a, b)
  }

  lemma KeptSame(env: Env, a: Shared)
    requires SharedInv(env, a)
    ensures Kept(env, a, a)
  {
  }

  // -------------------------------------------------------- clauses carried over

  lemma TargetsCarry(env: Env, a: Shared, b: Shared)
    requires TargetsOk(env, a) && b.targets == a.targets && b.accepted == a.accepted && HistoryForward(a, b)
             && RowsForward(env, a, b)
    ensures TargetsOk(env, b)
  {
  }

  lemma ObjectsCarry(env: Env, a: Shared, b: Shared)
    requires ObjectsOk(env, a) && b.born == a.born && b.nextId == a.nextId && HistoryForward(a, b)
    requires UploadsForward(a, b) && IssuedFor(a)
    requires b.objects == a.objects
    ensures ObjectsOk(env, b)
  {
  }

  lemma BytesCarry(env: Env, a: Shared, b: Shared)
    requires BytesOk(env, a) && RowsOk(env, a) && b.objects == a.objects && HistoryForward(a, b)
             && RowsForward(env, a, b)
    requires forall id | id in b.rows && b.rows[id].Available() :: id in a.rows && a.rows[id].Available()
    ensures BytesOk(env, b) && BytesForward(env, a, b)
  {
  }

  /** Enough for an effect on the registry: storage and its targets are untouched. */
  lemma KeptRegistry(env: Env, a: Shared, b: Shared)
    requires SharedInv(env, a)
    requires b == a.(rows := b.rows, published := b.published, recorded := b.recorded)
    requires RowsOk(env, b) && RowsForward(env, a, b) && UploadsOk(env, b) && PublishedOk(b) && HistoryForward(a, b)
    requires BytesOk(env, b) && BytesForward(env, a, b) && RowFacts(env, a, b)
    ensures Kept(env, a, b)
  {
    TargetsCarry(env, a, b);
    ObjectsCarry(env, a, b);
  }

  /** Enough for an effect on storage: the registry and the targets are untouched. */
  lemma KeptStorage(env: Env, a: Shared, b: Shared)
    requires SharedInv(env, a)
    requires b == a.(objects := b.objects, uploads := b.uploads, issued := b.issued)
    requires ObjectsOk(env, b) && UploadsOk(env, b) && UploadsForward(a, b) && HistoryForward(a, b)
    requires BytesOk(env, b) && BytesForward(env, a, b) && ByteFacts(env, a, b)
    ensures Kept(env, a, b)
  {
    RowsCarry(env, a, b);
    TargetsCarry(env, a, b);
  }

  lemma RowsCarry(env: Env, a: Shared, b: Shared)
    requires RowsOk(env, a) && b.rows == a.rows && b.born == a.born && b.recorded == a.recorded && b.nextId == a.nextId
             && a.now <= b.now
    ensures RowsOk(env, b) && RowsForward(env, a, b)
  {
  }

  // -------------------------------------------------------- identifiers, targets

  lemma InsertRows(env: Env, a: Shared, row: Row, birth: Birth, prefix: string)
    requires RowsOk(env, a) && a.nextId <= MAX_ID && birth.content.Valid()
    requires birth.mode.Multipart? ==> env.kind.S3Kind?
    requires row == NewRow(prefix, birth.filename, birth.content, a.now)
    ensures RowsOk(env, InsertRow(a, row, birth)) && RowsForward(env, a, InsertRow(a, row, birth))
  {
    var b := InsertRow(a, row, birth);
    forall id | id in b.rows && id in b.born ensures BornRow(env, b, id) {
      if id != a.nextId {
        assert BornRow(env, a, id);
      }
    }
  }

  lemma InsertObjects(env: Env, a: Shared, row: Row, birth: Birth)
    requires KeyLaw(env.keyOf, env.ownerOf) && ObjectsOk(env, a) && 1 <= a.nextId <= MAX_ID && a.nextId !in a.born
    ensures ObjectsOk(env, InsertRow(a, row, birth))
  {
  }

  lemma InsertUploads(env: Env, a: Shared, row: Row, birth: Birth)
    requires UploadsOk(env, a) && a.nextId !in a.born
    ensures UploadsOk(env, InsertRow(a, row, birth))
    ensures forall u | u in a.recorded :: a.recorded[u] != a.nextId
  {
  }

  lemma InsertForward(env: Env, a: Shared, row: Row, birth: Birth)
    requires PublishedOk(a) && a.nextId !in a.born && a.nextId !in a.rows && !row.Available() && row.upload.None?
    requires forall u | u in a.recorded :: a.recorded[u] != a.nextId
    ensures var b := InsertRow(a, row, birth);
            PublishedOk(b) && HistoryForward(a, b) && UploadsForward(a, b) && StepFacts(env, a, b)
  {
  }

  lemma KeptInsert(env: Env, a: Shared, row: Row, birth: Birth, prefix: string)
    requires EnvOk(env) && SharedInv(env, a) && a.nextId <= MAX_ID
    requires birth.content.Valid() && (birth.mode.Multipart? ==> env.kind.S3Kind?)
    requires row == NewRow(prefix, birth.filename, birth.content, a.now)
    ensures Kept(env, a, InsertRow(a, row, birth))
    ensures Snapshot(InsertRow(a, row, birth), a.nextId, row)
    ensures forall u | u in a.recorded :: a.recorded[u] != a.nextId
  {
    hide ValidRow, BornRow, LegacyRow, ObjectsOk, UploadsOk, TargetsOk, BytesOk, PublishedOk, StepFacts,
         RowsForward, HistoryForward, UploadsForward, BytesForward;
    var b := InsertRow(a, row, birth);
    InsertRows(env, a, row, birth, prefix);
    InsertObjects(env, a, row, birth);
    InsertUploads(env, a, row, birth);
    InsertForward(env, a, row, birth);
    TargetsCarry(env, a, b);
    InsertBytes(env, a, row, birth);
  }

  lemma InsertBytes(env: Env, a: Shared, row: Row, birth: Birth)
    requires BytesOk(env, a) && a.nextId !in a.born && a.nextId !in a.rows && !row.Available()
    ensures BytesOk(env, InsertRow(a, row, birth)) && HistoryForward(a, InsertRow(a, row, birth))
    ensures BytesForward(env, a, InsertRow(a, row, birth))
  {
  }

  lemma KeptTarget(env: Env, a: Shared, t: Target)
    requires SharedInv(env, a) && TargetOk(env, a, t)
    ensures Kept(env, a, a.(targets := a.targets + {t}))
  {
    var b := a.(targets := a.targets + {t});
    forall x | x in b.targets ensures TargetOk(env, b, x) {
      assert TargetOk(env, a, x);
    }
    OutsideCarry(env, a, b);
  }

  /** Targets, clock and references are outside the clauses on rows, uploads and bytes. */
  lemma OutsideCarry(env: Env, a: Shared, b: Shared)
    requires SharedInv(env, a) && b == a.(targets := b.targets, accepted := b.accepted, now := b.now, refs := b.refs)
    requires a.now <= b.now && a.targets <= b.targets
    ensures RowsOk(env, b) && ObjectsOk(env, b) && UploadsOk(env, b) && PublishedOk(b) && BytesOk(env, b)
    ensures Guarantee(env, a, b) && StepFacts(env, a, b)
  {
    RowsCarry(env, a, b);
    ObjectsCarry(env, a, b);
    BytesCarry(env, a, b);
    forall u | u in b.recorded ensures RecordOk(env, b, u) {
      assert RecordOk(env, a, u);
    }
  }

  lemma KeptAccepted(env: Env, a: Shared, t: Target)
    requires SharedInv(env, a) && t in a.targets
    ensures Kept(env, a, a.(accepted := a.accepted + {t}))
  {
    var b := a.(accepted := a.accepted + {t});
    OutsideCarry(env, a, b);
    forall x | x in b.targets ensures TargetOk(env, b, x) {
      assert TargetOk(env, a, x);
    }
  }

  lemma KeptOutside(env: Env, a: Shared, now: Time, refs: multiset<int>)
    requires SharedInv(env, a) && a.now <= now
    ensures Kept(env, a, a.(now := now, refs := refs))
  {
    var b := a.(now := now, refs := refs);
    OutsideCarry(env, a, b);
    TargetsCarry(env, a, b);
  }

  // ----------------------------------------------------------------------- rows

  lemma RecordUploads(env: Env, a: Shared, b: Shared, id: int, upload: string)
    requires UploadsOk(env, a) && id in a.born && a.born[id].mode.Multipart?
    requires upload in a.issued && a.issued[upload] == id
    requires forall u | u in a.recorded :: a.recorded[u] != id
    requires upload in a.uploads ==> a.uploads[upload].key == BirthKey(env, a, id) && a.uploads[upload].full
    requires id in b.rows && b.rows[id].upload == Some(upload)
    requires b == a.(rows := a.rows[id := b.rows[id]], recorded := a.recorded[upload := id])
    ensures UploadsOk(env, b) && upload !in a.recorded
  {
    forall u | u in b.recorded ensures RecordOk(env, b, u) {
      if u != upload {
        assert RecordOk(env, a, u);
      }
    }
  }

  lemma RecordRows(env: Env, a: Shared, b: Shared, id: int, upload: string)
    requires RowsOk(env, a) && RecordUploadID(a.rows, id, upload, a.now).Updated? && upload !in a.recorded
             && id in a.born
    requires b == a.(rows := a.rows[id := RecordUploadID(a.rows, id, upload, a.now).row],
                     recorded := a.recorded[upload := id])
    ensures RowsOk(env, b) && RowsForward(env, a, b)
  {
    forall i | i in b.rows && i in b.born ensures BornRow(env, b, i) {
      assert BornRow(env, a, i);
    }
  }

  lemma RecordFacts(env: Env, a: Shared, b: Shared, id: int, upload: string)
    requires PublishedOk(a) && id in a.rows && a.rows[id].Pending() && id in b.rows && upload !in a.recorded
    requires b.rows[id] == a.rows[id].(upload := Some(upload), updatedAt := a.now)
    requires b == a.(rows := a.rows[id := b.rows[id]], recorded := a.recorded[upload := id])
    ensures PublishedOk(b) && RowFacts(env, a, b) && HistoryForward(a, b)
  {
  }

  /** The only upload a row ever records is the one its creator opened for it. */
  lemma KeptRecord(env: Env, a: Shared, pid: Pid, id: int, row: Row, upload: string)
    requires SharedInv(env, a) && Opener(a, pid, id, row)
    requires upload in a.issued && a.issued[upload] == id
    requires upload in a.uploads ==> a.uploads[upload].key == BirthKey(env, a, id) && a.uploads[upload].full
    requires RecordUploadID(a.rows, id, upload, a.now).Updated?
    ensures Kept(env, a, a.(rows := a.rows[id := RecordUploadID(a.rows, id, upload, a.now).row],
                            recorded := a.recorded[upload := id]))
  {
    hide RowsOk, UploadsOk, ObjectsOk, TargetsOk, PublishedOk, BytesOk, RowsForward, UploadsForward, BytesForward,
         RowFacts, ByteFacts, HistoryForward;
    var b :=
      a.(rows := a.rows[id := RecordUploadID(a.rows, id, upload, a.now).row], recorded := a.recorded[upload := id]);
    RecordUploads(env, a, b, id, upload);
    RecordRows(env, a, b, id, upload);
    RecordFacts(env, a, b, id, upload);
    BytesCarry(env, a, b);
    KeptRegistry(env, a, b);
  }

  lemma TouchRows(env: Env, a: Shared, id: int, row: Row)
    requires RowsOk(env, a) && id in a.rows && a.rows[id].Pending()
    requires row == a.rows[id].(updatedAt := a.now, upload := row.upload)
    requires row.upload == a.rows[id].upload || row.upload.None?
    ensures RowsOk(env, WriteRow(a, id, row)) && RowsForward(env, a, WriteRow(a, id, row))
  {
    var b := WriteRow(a, id, row);
    forall i | i in b.rows && i in b.born ensures BornRow(env, b, i) {
      assert BornRow(env, a, i);
    }
    forall i | i in b.rows && i !in b.born ensures LegacyRow(env, i, b.rows[i]) {
      assert LegacyRow(env, i, a.rows[i]);
    }
  }

  lemma TouchUploads(env: Env, a: Shared, id: int, row: Row)
    requires UploadsOk(env, a) && id in a.rows && row.expiredAt == a.rows[id].expiredAt
    requires row.upload == a.rows[id].upload || Closed(a, a.rows[id])
    ensures UploadsOk(env, WriteRow(a, id, row))
  {
  }

  /** Refreshing and clearing touch only a pending row's clock and upload. */
  lemma KeptTouch(env: Env, a: Shared, id: int, row: Row)
    requires SharedInv(env, a) && id in a.rows && a.rows[id].Pending()
    requires row == a.rows[id].(updatedAt := a.now, upload := row.upload)
    requires row.upload == a.rows[id].upload || (row.upload.None? && Closed(a, a.rows[id]))
    ensures Kept(env, a, WriteRow(a, id, row))
  {
    hide ValidRow, BlobOk, RecordOk, TargetOk, Holds, LegacyRow;
    var b := WriteRow(a, id, row);
    TouchRows(env, a, id, row);
    TouchUploads(env, a, id, row);
    BytesCarry(env, a, b);
    KeptRegistry(env, a, b);
  }

  lemma PublishRows(env: Env, a: Shared, id: int, row: Row)
    requires RowsOk(env, a) && id in a.born && id in a.rows && a.rows[id].Pending() && ValidRow(row)
    requires row == a.rows[id].(contentType := row.contentType, storageKey := Some(BirthKey(env, a, id)),
                                availableAt := Some(a.now), updatedAt := a.now)
    ensures RowsOk(env, Publish(a, id, row)) && RowsForward(env, a, Publish(a, id, row))
  {
  }

  lemma PublishUploads(env: Env, a: Shared, id: int, row: Row)
    requires UploadsOk(env, a) && id in a.rows && row.expiredAt == a.rows[id].expiredAt
             && row.upload == a.rows[id].upload
    ensures UploadsOk(env, Publish(a, id, row))
  {
  }

  lemma PublishBytes(env: Env, a: Shared, id: int, row: Row)
    requires BytesOk(env, a) && id in a.born && HoldsDeclared(env, a, id)
    ensures BytesOk(env, Publish(a, id, row)) && BytesForward(env, a, Publish(a, id, row))
  {
  }

  lemma PublishOnce(env: Env, a: Shared, id: int, row: Row)
    requires PublishedOk(a) && RowsOk(env, a) && id in a.rows && !a.rows[id].Available() && row.Available()
    ensures PublishedOk(Publish(a, id, row)) && id !in a.published
  {
  }

  /** Publication happens only over the declared bytes. */
  lemma KeptPublish(env: Env, a: Shared, id: int, contentType: string)
    requires SharedInv(env, a) && Stored(env, a, id)
    requires MarkAvailable(a.rows, id, contentType, BirthKey(env, a, id), a.now).Updated?
    ensures Kept(env, a, Publish(a, id, MarkAvailable(a.rows, id, contentType, BirthKey(env, a, id), a.now).row))
    ensures id !in a.published
  {
    hide ValidRow, BlobOk, RecordOk, TargetOk, Holds, LegacyRow;
    var row := MarkAvailable(a.rows, id, contentType, BirthKey(env, a, id), a.now).row;
    PublishRows(env, a, id, row);
    PublishUploads(env, a, id, row);
    PublishBytes(env, a, id, row);
    PublishOnce(env, a, id, row);
    KeptRegistry(env, a, Publish(a, id, row));
  }

  lemma DropRows(env: Env, a: Shared, id: int)
    requires RowsOk(env, a)
    ensures RowsOk(env, RemoveRow(a, id)) && RowsForward(env, a, RemoveRow(a, id))
  {
  }

  lemma DropUploads(env: Env, a: Shared, id: int)
    requires UploadsOk(env, a) && id < a.nextId
    ensures UploadsOk(env, RemoveRow(a, id))
  {
  }

  lemma KeptRemoveRow(env: Env, a: Shared, id: int)
    requires SharedInv(env, a) && id in a.rows && id !in a.refs
    ensures Kept(env, a, RemoveRow(a, id)) && Dead(RemoveRow(a, id), id)
  {
    var b := RemoveRow(a, id);
    DropRows(env, a, id);
    DropUploads(env, a, id);
    BytesCarry(env, a, b);
    KeptRegistry(env, a, b);
  }

  lemma ClaimedRowValid(row: Row, now: Time)
    requires ValidRow(row) && row.availableAt.None?
    ensures ValidRow(row.(expiredAt := Some(now)))
  {
  }

  lemma ClaimRows(env: Env, a: Shared, start: Time, ids: seq<int>)
    requires RowsOk(env, a) && MayClaim(env, a, start, ids) && start <= a.now
    ensures RowsOk(env, a.(rows := Claim(a.rows, ids, a.now)))
    ensures RowsForward(env, a, a.(rows := Claim(a.rows, ids, a.now)))
  {
    hide ValidRow, ColumnChecks, StateCheck, ExpiryCheck;
    var b := a.(rows := Claim(a.rows, ids, a.now));
    forall id | id in b.rows ensures ValidRow(b.rows[id]) {
      if id in ids {
        ClaimedRowValid(a.rows[id], a.now);
      }
    }
    forall id | id in b.rows && id in b.born ensures BornRow(env, b, id) {
      assert BornRow(env, a, id);
    }
    forall id | id in b.rows && id !in b.born ensures LegacyRow(env, id, b.rows[id]) {
      assert LegacyRow(env, id, a.rows[id]);
    }
  }

  lemma ClaimUploads(env: Env, a: Shared, ids: seq<int>)
    requires UploadsOk(env, a)
    ensures UploadsOk(env, a.(rows := Claim(a.rows, ids, a.now)))
  {
  }

  lemma ClaimPublished(env: Env, a: Shared, start: Time, ids: seq<int>)
    requires PublishedOk(a) && MayClaim(env, a, start, ids)
    ensures PublishedOk(a.(rows := Claim(a.rows, ids, a.now)))
  {
  }

  lemma ClaimFacts(env: Env, a: Shared, start: Time, ids: seq<int>)
    requires MayClaim(env, a, start, ids) && start <= a.now && PublishedOk(a)
    ensures RowFacts(env, a, a.(rows := Claim(a.rows, ids, a.now)))
            && HistoryForward(a, a.(rows := Claim(a.rows, ids, a.now)))
    ensures forall id | id in a.rows :: Claim(a.rows, ids, a.now)[id].Available() == a.rows[id].Available()
  {
  }

  lemma KeptClaim(env: Env, a: Shared, start: Time, ids: seq<int>)
    requires SharedInv(env, a) && MayClaim(env, a, start, ids) && start <= a.now
    ensures Kept(env, a, a.(rows := Claim(a.rows, ids, a.now)))
  {
    hide RowsOk, UploadsOk, ObjectsOk, TargetsOk, PublishedOk, BytesOk, RowsForward, UploadsForward, BytesForward,
         RowFacts, ByteFacts, HistoryForward;
    var b := a.(rows := Claim(a.rows, ids, a.now));
    ClaimRows(env, a, start, ids);
    ClaimUploads(env, a, ids);
    ClaimPublished(env, a, start, ids);
    ClaimFacts(env, a, start, ids);
    BytesCarry(env, a, b);
    KeptRegistry(env, a, b);
  }

  // -------------------------------------------------------------------- uploads

  /** Enough for an effect on open uploads that opens no recorded one. */
  lemma UploadsCarry(env: Env, a: Shared, b: Shared)
    requires UploadsOk(env, a) && b == a.(uploads := b.uploads, issued := b.issued)
    requires b.uploads.Keys <= b.issued.Keys && UploadsForward(a, b) && HistoryForward(a, b)
    ensures UploadsOk(env, b)
  {
  }

  lemma KeptUploads(env: Env, a: Shared, b: Shared)
    requires SharedInv(env, a) && b == a.(uploads := b.uploads, issued := b.issued)
    requires b.uploads.Keys <= b.issued.Keys && UploadsForward(a, b) && HistoryForward(a, b)
    ensures Kept(env, a, b)
  {
    UploadsCarry(env, a, b);
    ObjectsCarry(env, a, b);
    RowsCarry(env, a, b);
    BytesCarry(env, a, b);
    KeptStorage(env, a, b);
  }

  lemma KeptOpen(env: Env, a: Shared, id: int, upload: string, open: Upload)
    requires SharedInv(env, a) && upload !in a.issued
    ensures Kept(env, a, a.(uploads := a.uploads[upload := open], issued := a.issued[upload := id]))
  {
    KeptUploads(env, a, a.(uploads := a.uploads[upload := open], issued := a.issued[upload := id]));
  }

  lemma KeptClose(env: Env, a: Shared, key: string, upload: string)
    requires SharedInv(env, a)
    ensures Kept(env, a, CloseUpload(a, key, upload))
  {
    KeptUploads(env, a, CloseUpload(a, key, upload));
  }

  lemma KeptPart(env: Env, a: Shared, t: Target, body: Bytes)
    requires SharedInv(env, a) && PartLands(env, a, t, body)
    ensures Kept(env, a, StorePart(env, a, t, body))
  {
    KeptUploads(env, a, StorePart(env, a, t, body));
  }

  // --------------------------------------------------------------------- bytes

  /** Storing at one identifier's key leaves every other row's bytes alone. */
  lemma BytesElsewhere(env: Env, a: Shared, b: Shared, id: int, blob: Blob)
    requires KeyLaw(env.keyOf, env.ownerOf) && RowsOk(env, a) && BytesOk(env, a) && id in a.born
    requires b.rows == a.rows && b.born == a.born && b.nextId == a.nextId
    requires b.objects == a.objects[BirthKey(env, a, id) := blob]
    requires HoldsDeclared(env, a, id) ==> HoldsDeclared(env, b, id)
    ensures BytesOk(env, b) && BytesForward(env, a, b)
  {
    forall i | i in b.rows && b.rows[i].Available() ensures Holds(env, b, i) {
      assert Holds(env, a, i);
      if i !in b.born {
        assert LegacyRow(env, i, a.rows[i]);
      }
    }
    forall i | i in a.born && HoldsDeclared(env, a, i) ensures HoldsDeclared(env, b, i) {
      if i != id {
        assert BirthKey(env, b, i) != BirthKey(env, a, id);
      }
    }
  }

  lemma ObjectsElsewhere(env: Env, a: Shared, b: Shared, id: int, blob: Blob)
    requires KeyLaw(env.keyOf, env.ownerOf) && RowsOk(env, a) && ObjectsOk(env, a) && id in a.born
    requires b.born == a.born && b.nextId == a.nextId && b.recorded == a.recorded
    requires b.objects == a.objects[BirthKey(env, a, id) := blob] && BlobOk(env, b, id, blob)
    requires b.uploads.Keys <= a.uploads.Keys
    ensures ObjectsOk(env, b)
  {
  }

  /** A single PUT can only store what the identifier declared. */
  lemma KeptPut(env: Env, a: Shared, id: int, body: Bytes)
    requires EnvOk(env) && SharedInv(env, a) && id in a.born && a.born[id].mode.Direct?
    requires Admits(env, a.born[id].content.size, a.born[id].content.sha, body)
    ensures Kept(env, a, StoreBlob(a, BirthKey(env, a, id), PutBlob(env, body, a.now)))
    ensures HoldsDeclared(env, StoreBlob(a, BirthKey(env, a, id), PutBlob(env, body, a.now)), id)
  {
    var blob := PutBlob(env, body, a.now);
    var b := StoreBlob(a, BirthKey(env, a, id), blob);
    ObjectsElsewhere(env, a, b, id, blob);
    BytesElsewhere(env, a, b, id, blob);
    ObjectsUploads(env, a, b);
    KeptStorage(env, a, b);
  }

  lemma ObjectsUploads(env: Env, a: Shared, b: Shared)
    requires UploadsOk(env, a) && b == a.(objects := b.objects, uploads := b.uploads)
    requires b.uploads.Keys <= a.uploads.Keys && forall u | u in b.uploads :: b.uploads[u] == a.uploads[u]
    ensures UploadsOk(env, b)
  {
  }

  lemma NotYetAssembled(env: Env, a: Shared, upload: string)
    requires ObjectsOk(env, a) && UploadsOk(env, a) && upload in a.recorded && upload in a.uploads
    ensures RecordOk(env, a, upload) && BirthKey(env, a, a.recorded[upload]) !in a.objects
  {
  }

  /** Completion assembles at the key of the row that recorded the upload, once. */
  lemma KeptComplete(env: Env, a: Shared, upload: string, named: seq<NamedPart>)
    requires EnvOk(env) && SharedInv(env, a) && upload in a.recorded && upload in a.uploads
    requires Completes(env, a.uploads[upload].parts, named)
    ensures Kept(env, a,
                 Completed(a, upload, a.uploads[upload].key, Assembled(env, upload, a.uploads[upload], named, a.now)))
  {
    hide ValidRow, BlobOk, RecordOk, TargetOk, Holds, LegacyRow;
    var id := a.recorded[upload];
    NotYetAssembled(env, a, upload);
    var blob := Assembled(env, upload, a.uploads[upload], named, a.now);
    var b := Completed(a, upload, BirthKey(env, a, id), blob);
    ObjectsElsewhere(env, a, b, id, blob);
    BytesElsewhere(env, a, b, id, blob);
    ObjectsUploads(env, a, b);
    KeptStorage(env, a, b);
  }

  /** Bytes are erased only at keys that no visible row owns. */
  lemma KeptErase(env: Env, a: Shared, key: string)
    requires EnvOk(env) && SharedInv(env, a) && Unowned(env, a, key)
    ensures Kept(env, a, EraseBlob(a, key))
  {
    var b := EraseBlob(a, key);
    EraseBytes(env, a, key);
    EraseObjects(env, a, key);
    ObjectsUploads(env, a, b);
    KeptStorage(env, a, b);
  }

  lemma EraseObjects(env: Env, a: Shared, key: string)
    requires ObjectsOk(env, a)
    ensures ObjectsOk(env, EraseBlob(a, key))
  {
  }

  lemma EraseBytes(env: Env, a: Shared, key: string)
    requires KeyLaw(env.keyOf, env.ownerOf) && RowsOk(env, a) && BytesOk(env, a) && Unowned(env, a, key)
    ensures BytesOk(env, EraseBlob(a, key)) && BytesForward(env, a, EraseBlob(a, key))
  {
  }

  /** A row's key leads back to its identifier. */
  lemma RowKeyParses(env: Env, a: Shared, id: int)
    requires KeyLaw(env.keyOf, env.ownerOf) && RowsOk(env, a) && id in a.rows
    ensures env.ownerOf(RowKey(env, id, a.rows[id])) == Some(id)
    ensures id in a.born ==> RowKey(env, id, a.rows[id]) == BirthKey(env, a, id)
  {
  }
}
