/** The cleanup sweeps of one replica, batch by batch over what the backend lists. */
module Cleanup {
  import opened Wrappers
  import opened Table
  import opened Storage
  import opened Protocol
  import opened Registry

  /** The key names an identifier, but no visible row keeps its bytes there. */
  predicate Removable(env: Env, rows: Rows, key: string) {
    env.ownerOf(key).Some? && !OwnedKey(env, rows, key)
  }

  /** The rows' own keys name the rows. */
  ghost predicate KeysNameRows(env: Env, rows: Rows) {
    forall id | id in rows :: env.ownerOf(RowKey(env, id, rows[id])) == Some(id)
  }

  /** A row that has not expired keeps its bytes here. */
  ghost predicate InUse(env: Env, rows: Rows, key: string) {
    exists id :: id in rows && rows[id].expiredAt == None && RowKey(env, id, rows[id]) == key
  }

  /** The row that this key names has not expired and records this upload. */
  ghost predicate UploadInUse(env: Env, rows: Rows, key: string, upload: string) {
    exists id :: env.ownerOf(key) == Some(id) && id in rows && rows[id].expiredAt == None
                 && rows[id].upload == Some(upload)
  }

  /** The sweep's lookups decide exactly what is in use. */
  lemma OwnedExactly(env: Env, rows: Rows, key: string, upload: string)
    requires KeysNameRows(env, rows)
    ensures OwnedKey(env, rows, key) <==> InUse(env, rows, key)
    ensures OwnedUpload(env, rows, Listed(key, upload)) <==> UploadInUse(env, rows, key, upload)
  {
  }

  function Keys(listed: seq<Listed>): seq<string> {
    seq(|listed|, i requires 0 <= i < |listed| => listed[i].key)
  }

  /** From `start` to `end` is one whole batch of a listing of `n`, the last one possibly short. */
  predicate IsBatch(start: nat, end: nat, n: nat) {
    && start % CLEANUP_BATCH == 0 && start < end <= n
    && (end == start + CLEANUP_BATCH || (end == n && end < start + CLEANUP_BATCH))
  }

  /** The batch holding this index was resolved; one that names no identifier needs no lookup. */
  ghost predicate Answered(env: Env, keys: seq<string>, i: nat, resolves: nat -> bool) {
    resolves(i / CLEANUP_BATCH)
    || forall j | 0 <= j < |keys| && j / CLEANUP_BATCH == i / CLEANUP_BATCH :: env.ownerOf(keys[j]).None?
  }

  ghost predicate Swept(env: Env, rows: Rows, keys: seq<string>, resolves: nat -> bool, broken: set<string>, i: nat)
    requires i < |keys|
  {
    Answered(env, keys, i, resolves) && Removable(env, rows, keys[i]) && keys[i] !in broken
  }

  ghost predicate Aborted(env: Env, rows: Rows, listed: seq<Listed>, resolves: nat -> bool, broken: set<string>, i: nat)
    requires i < |listed|
  {
    Answered(env, Keys(listed), i, resolves) && !OwnedUpload(env, rows, listed[i]) && listed[i].upload !in broken
  }

  /** The machine's filter keeps exactly the removable keys of a listing. */
  lemma {:induction false} DoomedExactly(env: Env, rows: Rows, keys: seq<string>, key: string)
    ensures key in Doomed(env, rows, keys) <==> key in keys && Removable(env, rows, key)
  {
    if keys != [] {
      DoomedExactly(env, rows, keys[1..], key);
    }
  }

  /** The keys under which these objects keep their bytes. */
  function KeysOf(env: Env, objects: seq<Object>): set<string> {
    if objects == [] then {}
    else
      var last := objects[|objects| - 1];
      KeysOf(env, objects[..|objects| - 1]) + {RowKey(env, last.id, last.row)}
  }

  /** The identifiers of these objects that nothing references. */
  function IdsOf(objects: seq<Object>, refs: multiset<int>): set<int> {
    if objects == [] then {}
    else
      var last := objects[|objects| - 1];
      IdsOf(objects[..|objects| - 1], refs) + if last.id in refs then {} else {last.id}
  }

  function Ids(objects: seq<Object>): seq<int> {
    seq(|objects|, i requires 0 <= i < |objects| => objects[i].id)
  }

  /** The row records an upload that is open at the row's key. */
  predicate HasOpenUpload(env: Env, uploads: map<string, Upload>, id: int, row: Row) {
    env.kind.S3Kind? && row.upload.Some? && row.upload.value in uploads
      && uploads[row.upload.value].key == RowKey(env, id, row)
  }

  /** The open uploads that these objects record. */
  function UploadsOf(env: Env, uploads: map<string, Upload>, objects: seq<Object>): set<string> {
    if objects == [] then {}
    else
      var last := objects[|objects| - 1];
      UploadsOf(env, uploads, objects[..|objects| - 1])
      + if HasOpenUpload(env, uploads, last.id, last.row) then {last.row.upload.value} else {}
  }

  /** A removal of claimed objects takes the key of each of them. */
  lemma {:induction false} KeysOfExactly(env: Env, objects: seq<Object>, key: string)
    ensures key in KeysOf(env, objects)
            <==> exists i :: 0 <= i < |objects| && RowKey(env, objects[i].id, objects[i].row) == key
  {
    if objects != [] {
      var front := objects[..|objects| - 1];
      KeysOfExactly(env, front, key);
      assert forall i | 0 <= i < |front| :: front[i] == objects[i];
    }
  }

  /** And it closes the open uploads they record. */
  lemma {:induction false} UploadsOfExactly(env: Env, uploads: map<string, Upload>, objects: seq<Object>, u: string)
    ensures u in UploadsOf(env, uploads, objects)
            <==> u in uploads && exists i :: 0 <= i < |objects| && Records(env, uploads[u].key, u, objects[i])
  {
    if objects != [] {
      var front := objects[..|objects| - 1];
      UploadsOfExactly(env, uploads, front, u);
      assert forall i | 0 <= i < |front| :: front[i] == objects[i];
    }
  }

  /** The object's row records this upload, and its bytes live at the upload's key, on S3. */
  predicate Records(env: Env, key: string, upload: string, item: Object) {
    env.kind.S3Kind? && item.row.upload == Some(upload) && RowKey(env, item.id, item.row) == key
  }

  function UploadsOfAll(env: Env, uploads: map<string, Upload>, rows: Rows, ids: set<int>): set<string>
    requires ids <= rows.Keys
  {
    set id | id in ids && HasOpenUpload(env, uploads, id, rows[id]) :: rows[id].upload.value
  }

  /** What an orphan sweep leaves: the young, the unparsable and the owned. */
  function LeftObjects(env: Env, rows: Rows, objects: map<string, Blob>, before: Time): map<string, Blob> {
    map key | key in objects && !(objects[key].modified < before && Removable(env, rows, key)) :: objects[key]
  }

  function LeftUploads(env: Env, rows: Rows, uploads: map<string, Upload>, before: Time): map<string, Upload> {
    if env.kind.FileKind? then uploads
    else
      map u | u in uploads && !(uploads[u].initiated < before && !OwnedUpload(env, rows, Listed(uploads[u].key, u))) ::
        uploads[u]
  }

  /** Of what is older than the cutoff, an orphan sweep leaves what is in use; of the rest, everything. */
  lemma LeftInUse(env: Env, rows: Rows, objects: map<string, Blob>, uploads: map<string, Upload>, before: Time)
    requires KeysNameRows(env, rows)
    ensures var left := LeftObjects(env, rows, objects, before);
            && (forall key | key in objects :: key in left
                  <==> objects[key].modified >= before || env.ownerOf(key).None? || InUse(env, rows, key))
            && (forall key | key in left :: key in objects && left[key] == objects[key])
    ensures var left := LeftUploads(env, rows, uploads, before);
            && (forall u | u in uploads :: u in left
                  <==> uploads[u].initiated >= before || env.kind.FileKind?
                       || UploadInUse(env, rows, uploads[u].key, u))
            && (forall u | u in left :: u in uploads && left[u] == uploads[u])
  {
    hide OwnedKey, OwnedUpload, InUse, UploadInUse, KeysNameRows;
    forall key ensures OwnedKey(env, rows, key) <==> InUse(env, rows, key) {
      OwnedExactly(env, rows, key, "");
    }
    forall key, u ensures OwnedUpload(env, rows, Listed(key, u)) <==> UploadInUse(env, rows, key, u) {
      OwnedExactly(env, rows, key, u);
    }
  }

  class Sweeper {
    const env: Env
    const registry: Store
    var objects: map<string, Blob>
    var uploads: map<string, Upload>

    ghost predicate Valid()
      reads this, registry
    {
      registry.Valid() && KeysNameRows(env, registry.rows)
    }

    constructor (env: Env, registry: Store)
      ensures this.env == env && this.registry == registry && objects == map[] && uploads == map[]
    {
      this.env, this.registry := env, registry;
      objects, uploads := map[], map[];
    }

    // ------------------------------------------------------------------ orphans

    /** The visible rows that a batch's keys name, or nothing if the lookup failed. */
    method Owners(keys: seq<string>, resolves: bool) returns (owners: Option<map<int, Row>>)
      ensures owners.None? ==> !resolves && exists i :: 0 <= i < |keys| && env.ownerOf(keys[i]).Some?
      ensures owners.Some? ==> resolves || forall i | 0 <= i < |keys| :: env.ownerOf(keys[i]).None?
      ensures owners.Some? ==> forall i | 0 <= i < |keys| && env.ownerOf(keys[i]).Some? ::
                                 var id := env.ownerOf(keys[i]).value;
                                 && (id in owners.value <==> id in registry.rows && registry.rows[id].Visible())
                                 && (id in owners.value ==> owners.value[id] == registry.rows[id])
    {
      var ids := [];
      for i := 0 to |keys|
        invariant forall j | 0 <= j < i && env.ownerOf(keys[j]).Some? :: env.ownerOf(keys[j]).value in ids
        invariant ids != [] <==> exists j :: 0 <= j < i && env.ownerOf(keys[j]).Some?
      {
        if env.ownerOf(keys[i]).Some? {
          ids := ids + [env.ownerOf(keys[i]).value];
        }
      }
      if |ids| == 0 {
        return Some(map[]);
      }
      if !resolves {
        return None;
      }
      var found := registry.ListByIDs(ids);
      return Some(found);
    }

    /** One batch: each removable key of it loses its bytes, unless the delete fails. */
    method SweepBatch(batch: seq<string>, resolves: bool, broken: set<string>)
      modifies this`objects
      ensures var answered := resolves || forall i | 0 <= i < |batch| :: env.ownerOf(batch[i]).None?;
              forall key :: key in objects <==>
                key in old(objects)
                  && !(answered && key in batch && Removable(env, registry.rows, key) && key !in broken)
      ensures forall key | key in objects :: objects[key] == old(objects)[key]
    {
      var owners := Owners(batch, resolves);
      if owners.None? {
        return;
      }
      for i := 0 to |batch|
        invariant forall key :: key in objects <==>
                    key in old(objects) && !(key in batch[..i] && Removable(env, registry.rows, key) && key !in broken)
        invariant forall key | key in objects :: objects[key] == old(objects)[key]
      {
        var key := batch[i];
        var id := env.ownerOf(key);
        if id.Some? {
          assert env.ownerOf(batch[i]).Some?;
          if !(id.value in owners.value && RowKey(env, id.value, owners.value[id.value]) == key) && key !in broken {
            objects := objects - {key};
          }
        }
        assert batch[..i + 1] == batch[..i] + [key];
      }
      assert batch[..|batch|] == batch;
    }

    /**
     The object sweep removes from the whole listing exactly the removable keys of
     the batches whose owners could be looked up; other batches lose nothing.
     */
    method SweepObjects(keys: seq<string>, resolves: nat -> bool, broken: set<string>)
      modifies this`objects
      ensures forall key :: key in objects <==>
                key in old(objects)
                && !(exists i ::
                       0 <= i < |keys| && keys[i] == key && Swept(env, registry.rows, keys, resolves, broken, i))
      ensures forall key | key in objects :: objects[key] == old(objects)[key]
    {
      var start := 0;
      while start < |keys|
        invariant start % CLEANUP_BATCH == 0 || start == |keys|
        invariant 0 <= start <= |keys|
        invariant forall key :: key in objects <==>
                    key in old(objects)
                    && !(exists i ::
                           0 <= i < start && keys[i] == key && Swept(env, registry.rows, keys, resolves, broken, i))
        invariant forall key | key in objects :: objects[key] == old(objects)[key]
      {
        var end := if start + CLEANUP_BATCH <= |keys| then start + CLEANUP_BATCH else |keys|;
        SweepBatch(keys[start..end], resolves(start / CLEANUP_BATCH), broken);
        BatchSwept(env, registry.rows, keys, resolves, broken, start, end);
        start := end;
      }
    }

    static lemma BatchSwept(env: Env, rows: Rows, keys: seq<string>, resolves: nat -> bool, broken: set<string>,
                            start: nat, end: nat)
      requires IsBatch(start, end, |keys|)
      ensures var batch := keys[start..end];
              var answered :=
                resolves(start / CLEANUP_BATCH) || forall i | 0 <= i < |batch| :: env.ownerOf(batch[i]).None?;
              && (forall i | start <= i < end :: Answered(env, keys, i, resolves) <==> answered)
              && (forall key :: (answered && key in batch && Removable(env, rows, key) && key !in broken)
                    <==> exists i ::
                      start <= i < end && keys[i] == key && Swept(env, rows, keys, resolves, broken, i))
    {
      var batch := keys[start..end];
      assert forall j | 0 <= j < |keys| :: j / CLEANUP_BATCH == start / CLEANUP_BATCH <==> start <= j < end;
      assert forall i | 0 <= i < |batch| :: batch[i] == keys[start + i];
      var answered := resolves(start / CLEANUP_BATCH) || forall i | 0 <= i < |batch| :: env.ownerOf(batch[i]).None?;
      forall i | start <= i < end ensures Answered(env, keys, i, resolves) <==> answered {
        assert forall j | start <= j < end :: keys[j] == batch[j - start];
      }
      forall key ensures (answered && key in batch && Removable(env, rows, key) && key !in broken)
             <==> exists i ::
               start <= i < end && keys[i] == key && Swept(env, rows, keys, resolves, broken, i)
      {
        if answered && key in batch && Removable(env, rows, key) && key !in broken {
          var k :| 0 <= k < |batch| && batch[k] == key;
          assert Swept(env, rows, keys, resolves, broken, start + k);
        }
        forall i | start <= i < end && keys[i] == key && Swept(env, rows, keys, resolves, broken, i)
          ensures answered && key in batch && Removable(env, rows, key) && key !in broken
        {
          assert batch[i - start] == key;
        }
      }
    }

    /** One batch of open uploads: each that no visible row records is aborted. */
    method AbortBatch(batch: seq<Listed>, resolves: bool, broken: set<string>)
      modifies this`uploads
      ensures var answered := resolves || forall i | 0 <= i < |batch| :: env.ownerOf(batch[i].key).None?;
              forall u :: u in uploads <==>
                u in old(uploads)
                && !(answered && Listed(old(uploads)[u].key, u) in batch
                     && !OwnedUpload(env, registry.rows, Listed(old(uploads)[u].key, u)) && u !in broken)
      ensures forall u | u in uploads :: uploads[u] == old(uploads)[u]
    {
      var keys := Keys(batch);
      var owners := Owners(keys, resolves);
      assert forall i | 0 <= i < |batch| :: keys[i] == batch[i].key;
      if owners.None? {
        return;
      }
      for i := 0 to |batch|
        invariant forall u :: u in uploads <==>
                    u in old(uploads)
                    && !(Listed(old(uploads)[u].key, u) in batch[..i]
                         && !OwnedUpload(env, registry.rows, Listed(old(uploads)[u].key, u)) && u !in broken)
        invariant forall u | u in uploads :: uploads[u] == old(uploads)[u]
      {
        var item := batch[i];
        var id := env.ownerOf(item.key);
        assert env.ownerOf(keys[i]) == id;
        var owned := id.Some? && id.value in owners.value && owners.value[id.value].upload == Some(item.upload);
        assert owned <==> OwnedUpload(env, registry.rows, item);
        assert batch[..i + 1] == batch[..i] + [item];
        if !owned && item.upload !in broken && item.upload in uploads && uploads[item.upload].key == item.key {
          uploads := uploads - {item.upload};
        }
      }
      assert batch[..|batch|] == batch;
    }

    /** The upload sweep aborts from the whole listing exactly what the resolved batches do not own. */
    method SweepUploads(listed: seq<Listed>, resolves: nat -> bool, broken: set<string>)
      modifies this`uploads
      ensures forall u :: u in uploads <==>
                u in old(uploads)
                && !(exists i :: 0 <= i < |listed| && listed[i] == Listed(old(uploads)[u].key, u)
                                 && Aborted(env, registry.rows, listed, resolves, broken, i))
      ensures forall u | u in uploads :: uploads[u] == old(uploads)[u]
    {
      var start := 0;
      while start < |listed|
        invariant start % CLEANUP_BATCH == 0 || start == |listed|
        invariant 0 <= start <= |listed|
        invariant forall u :: u in uploads <==>
                    u in old(uploads)
                    && !(exists i :: 0 <= i < start && listed[i] == Listed(old(uploads)[u].key, u)
                                     && Aborted(env, registry.rows, listed, resolves, broken, i))
        invariant forall u | u in uploads :: uploads[u] == old(uploads)[u]
      {
        var end := if start + CLEANUP_BATCH <= |listed| then start + CLEANUP_BATCH else |listed|;
        AbortBatch(listed[start..end], resolves(start / CLEANUP_BATCH), broken);
        BatchAborted(env, registry.rows, listed, resolves, broken, start, end);
        start := end;
      }
    }

    static lemma BatchAborted(env: Env, rows: Rows, listed: seq<Listed>, resolves: nat -> bool, broken: set<string>,
                              start: nat, end: nat)
      requires IsBatch(start, end, |listed|)
      ensures var batch := listed[start..end];
              var answered :=
                resolves(start / CLEANUP_BATCH) || forall i | 0 <= i < |batch| :: env.ownerOf(batch[i].key).None?;
              forall item: Listed ::
                (answered && item in batch && !OwnedUpload(env, rows, item) && item.upload !in broken)
                  <==> exists i ::
                    start <= i < end && listed[i] == item && Aborted(env, rows, listed, resolves, broken, i)
    {
      hide OwnedUpload;
      var batch, keys := listed[start..end], Keys(listed);
      BatchSwept(env, rows, keys, resolves, broken, start, end);
      assert forall i | 0 <= i < |batch| :: batch[i] == listed[start + i] && keys[start..end][i] == batch[i].key;
      var answered := resolves(start / CLEANUP_BATCH) || forall i | 0 <= i < |batch| :: env.ownerOf(batch[i].key).None?;
      forall item: Listed ensures (answered && item in batch && !OwnedUpload(env, rows, item) && item.upload !in broken)
             <==> exists i ::
               start <= i < end && listed[i] == item && Aborted(env, rows, listed, resolves, broken, i)
      {
        if answered && item in batch && !OwnedUpload(env, rows, item) && item.upload !in broken {
          var k :| 0 <= k < |batch| && batch[k] == item;
          assert Aborted(env, rows, listed, resolves, broken, start + k);
        }
        forall i | start <= i < end && listed[i] == item && Aborted(env, rows, listed, resolves, broken, i)
          ensures answered && item in batch && !OwnedUpload(env, rows, item) && item.upload !in broken
        {
          assert batch[i - start] == item;
        }
      }
    }

    // ----------------------------------------------------- expired and unreferenced

    /** `removeBytes`: the recorded upload, if any, and then whatever the key holds. */
    method RemoveBytes(id: int, row: Row)
      modifies this`objects, this`uploads
      ensures objects == old(objects) - {RowKey(env, id, row)}
      ensures uploads == if HasOpenUpload(env, old(uploads), id, row) then old(uploads) - {row.upload.value}
                         else old(uploads)
      ensures forall u | u in old(uploads) :: u !in uploads <==>
                env.kind.S3Kind? && row.upload == Some(u) && old(uploads)[u].key == RowKey(env, id, row)
    {
      var key := RowKey(env, id, row);
      if row.upload.Some? && env.kind.S3Kind? {
        if row.upload.value in uploads && uploads[row.upload.value].key == key {
          uploads := uploads - {row.upload.value};
        }
      }
      objects := objects - {key};
    }

    /**
     Removes claimed rows with their bytes; a row that something still references
     stays, expired for good.
     */
    method RemoveClaimed(claimed: seq<Object>)
      requires registry.Valid()
      requires forall i | 0 <= i < |claimed| ::
                 claimed[i].id in registry.rows && !registry.rows[claimed[i].id].Visible()
      requires forall i, j | 0 <= i < j < |claimed| :: claimed[i].id != claimed[j].id
      modifies this`objects, this`uploads, registry`rows
      ensures registry.Valid()
      ensures registry.rows == old(registry.rows) - IdsOf(claimed, registry.refs)
      ensures objects == old(objects) - KeysOf(env, claimed)
      ensures uploads == old(uploads) - UploadsOf(env, old(uploads), claimed)
    {
      hide ValidTable, RowKey, HasOpenUpload;
      for i := 0 to |claimed|
        invariant registry.Valid()
        invariant registry.rows == old(registry.rows) - IdsOf(claimed[..i], registry.refs)
        invariant objects == old(objects) - KeysOf(env, claimed[..i])
        invariant forall j | i <= j < |claimed| :: claimed[j].id in registry.rows
        invariant uploads == old(uploads) - UploadsOf(env, old(uploads), claimed[..i])
      {
        assert claimed[..i + 1][..i] == claimed[..i];
        OpenLess(env, old(uploads), UploadsOf(env, old(uploads), claimed[..i]), claimed[i].id, claimed[i].row);
        RemoveBytes(claimed[i].id, claimed[i].row);
        var _ := registry.DeleteExpiredPending(claimed[i].id);
      }
      assert claimed[..|claimed|] == claimed;
    }

    /** Claims the oldest abandoned uploads and removes each with its bytes. */
    method SweepExpiredUploads() returns (claimed: seq<Object>)
      requires Valid()
      modifies this`objects, this`uploads, registry`rows
      ensures Valid()
      ensures FirstOf(Candidates(old(registry.rows), registry.now - env.maxAge, registry.now - RETRY_DELAY, {}),
                      (a, b) => ClaimedFirst(old(registry.rows), a, b), CLEANUP_BATCH, Ids(claimed))
      ensures LongestAbandoned(old(registry.rows), {}, registry.now - env.maxAge, registry.now - 3_600_000_000_000, 100,
                               Ids(claimed))
      ensures forall i | 0 <= i < |claimed| :: claimed[i].id in old(registry.rows)
                && claimed[i].row == old(registry.rows)[claimed[i].id].(expiredAt := Some(registry.now))
      ensures registry.rows == Claim(old(registry.rows), Ids(claimed), registry.now) - IdsOf(claimed, registry.refs)
      ensures objects == old(objects) - KeysOf(env, claimed)
      ensures uploads == old(uploads) - UploadsOf(env, old(uploads), claimed)
    {
      hide ValidTable, RowKey, HasOpenUpload, KeysNameRows, LongestAbandoned, Claimable, Claim, FirstOf;
      ghost var was := registry.rows;
      claimed := registry.ClaimExpiredPending(registry.now - env.maxAge, registry.now - RETRY_DELAY, CLEANUP_BATCH, {});
      assert Ids(claimed) == seq(|claimed|, i requires 0 <= i < |claimed| => claimed[i].id);
      ClaimedRows(was, registry.now, Candidates(was, registry.now - env.maxAge, registry.now - RETRY_DELAY, {}),
                  (a, b) => ClaimedFirst(was, a, b), claimed);
      ClaimKeepsKeys(env, was, Ids(claimed), registry.now);
      FewerKeys(env, registry.rows, IdsOf(claimed, registry.refs));
      RemoveClaimed(claimed);
    }

    /** Closing a row's upload among uploads of which some are closed already. */
    static lemma OpenLess(env: Env, uploads: map<string, Upload>, closed: set<string>, id: int, row: Row)
      ensures var left := uploads - closed;
              (if HasOpenUpload(env, left, id, row) then left - {row.upload.value} else left)
              == uploads - (closed + if HasOpenUpload(env, uploads, id, row) then {row.upload.value} else {})
    {
      hide RowKey;
    }

    static lemma ClaimedRows(was: Rows, now: Time, candidates: set<int>, before: (int, int) -> bool,
                             claimed: seq<Object>)
      requires FirstOf(candidates, before, CLEANUP_BATCH, Ids(claimed)) && StrictOrder(candidates, before)
      requires candidates <= was.Keys && claimed == Objects(Claim(was, Ids(claimed), now), Ids(claimed))
      ensures forall i | 0 <= i < |claimed| ::
                claimed[i].id in was && claimed[i].row == was[claimed[i].id].(expiredAt := Some(now))
      ensures forall i, j | 0 <= i < j < |claimed| :: claimed[i].id != claimed[j].id
    {
    }

    static lemma FewerKeys(env: Env, rows: Rows, gone: set<int>)
      ensures KeysNameRows(env, rows) ==> KeysNameRows(env, rows - gone)
    {
    }

    static lemma ClaimKeepsKeys(env: Env, rows: Rows, ids: seq<int>, now: Time)
      ensures forall id | id in rows :: RowKey(env, id, Claim(rows, ids, now)[id]) == RowKey(env, id, rows[id])
      ensures KeysNameRows(env, rows) ==> KeysNameRows(env, Claim(rows, ids, now))
    {
    }

    /** Each object that is visible and unreferenced loses its row and its bytes; the others stay. */
    method DeleteUnreferenced(ids: seq<int>)
      requires Valid()
      modifies this`objects, this`uploads, registry`rows
      ensures Valid()
      ensures registry.rows == old(registry.rows) - Deletable(old(registry.rows), registry.refs, ids)
      ensures objects
              == old(objects) - KeysOfAll(env, old(registry.rows), Deletable(old(registry.rows), registry.refs, ids))
      ensures uploads == old(uploads)
                         - UploadsOfAll(env, old(uploads), old(registry.rows),
                                        Deletable(old(registry.rows), registry.refs, ids))
    {
      hide ValidTable, RowKey, HasOpenUpload;
      ghost var was, refs := registry.rows, registry.refs;
      for i := 0 to |ids|
        invariant registry.Valid()
        invariant registry.rows == was - Deletable(was, refs, ids[..i])
        invariant objects == old(objects) - KeysOfAll(env, was, Deletable(was, refs, ids[..i]))
        invariant uploads == old(uploads) - UploadsOfAll(env, old(uploads), was, Deletable(was, refs, ids[..i]))
      {
        var deleted := registry.Delete(ids[i]);
        DeletableNext(was, refs, ids, i);
        if deleted.Ok? {
          OpenLess(env, old(uploads), UploadsOfAll(env, old(uploads), was, Deletable(was, refs, ids[..i])), ids[i],
                   was[ids[i]]);
          RemoveBytes(ids[i], deleted.value.row);
          KeysOfNext(env, was, Deletable(was, refs, ids[..i]), ids[i]);
          UploadsOfNext(env, old(uploads), was, Deletable(was, refs, ids[..i]), ids[i]);
        }
      }
      assert ids[..|ids|] == ids;
    }

    static function Deletable(rows: Rows, refs: multiset<int>, ids: seq<int>): set<int> {
      set id | id in rows && id in ids && rows[id].Visible() && id !in refs
    }

    static function KeysOfAll(env: Env, rows: Rows, ids: set<int>): set<string>
      requires ids <= rows.Keys
    {
      set id | id in ids :: RowKey(env, id, rows[id])
    }

    /** What a deletion of unreferenced identifiers takes, row by row. */
    static lemma DeletionTakes(env: Env, rows: Rows, refs: multiset<int>, ids: seq<int>, uploads: map<string, Upload>)
      ensures var gone := Deletable(rows, refs, ids);
              && (forall id :: id in gone <==> id in ids && id in rows && rows[id].expiredAt == None && refs[id] == 0)
              && (forall key :: key in KeysOfAll(env, rows, gone)
                                <==> exists id :: id in gone && RowKey(env, id, rows[id]) == key)
              && (forall u :: u in UploadsOfAll(env, uploads, rows, gone)
                              <==> u in uploads
                                   && exists id :: id in gone && Records(env, uploads[u].key, u, Object(id, rows[id])))
    {
      var gone := Deletable(rows, refs, ids);
      assert forall id | id in gone ::
          HasOpenUpload(env, uploads, id, rows[id])
          <==> rows[id].upload.Some? && rows[id].upload.value in uploads
               && Records(env, uploads[rows[id].upload.value].key, rows[id].upload.value, Object(id, rows[id]));
    }

    static lemma DeletableNext(rows: Rows, refs: multiset<int>, ids: seq<int>, i: nat)
      requires i < |ids|
      ensures Deletable(rows, refs, ids[..i + 1])
              == Deletable(rows, refs, ids[..i])
                 + if ids[i] in rows && rows[ids[i]].Visible() && ids[i] !in refs then {ids[i]} else {}
    {
    }

    static lemma KeysOfNext(env: Env, rows: Rows, ids: set<int>, id: int)
      requires ids <= rows.Keys && id in rows
      ensures KeysOfAll(env, rows, ids + {id}) == KeysOfAll(env, rows, ids) + {RowKey(env, id, rows[id])}
    {
    }

    static lemma UploadsOfNext(env: Env, uploads: map<string, Upload>, rows: Rows, ids: set<int>, id: int)
      requires ids <= rows.Keys && id in rows
      ensures UploadsOfAll(env, uploads, rows, ids + {id})
              == UploadsOfAll(env, uploads, rows, ids)
                 + if HasOpenUpload(env, uploads, id, rows[id]) then {rows[id].upload.value} else {}
    {
      hide HasOpenUpload;
    }

    /** Removes the first hundred published objects that nothing references, and no upload. */
    method SweepUnreferenced(prefixes: set<string>, before: Time) returns (ids: seq<int>)
      requires Valid()
      modifies this`objects, this`uploads, registry`rows
      ensures Valid()
      ensures FirstOf(Unreferenced(old(registry.rows), registry.refs, prefixes, before), (a, b) => a < b,
                      CLEANUP_BATCH, ids)
      ensures LeastDiscardable(old(registry.rows), registry.refs, prefixes, before, 100, ids)
      ensures forall id | id in old(registry.rows) && old(registry.rows)[id].availableAt.Some?
                          && old(registry.rows)[id].availableAt.value >= before ::
                id in registry.rows && registry.rows[id] == old(registry.rows)[id]
      ensures Members(ids) <= old(registry.rows).Keys && registry.rows == old(registry.rows) - Members(ids)
      ensures objects == old(objects) - KeysOfAll(env, old(registry.rows), Members(ids))
      ensures |Unreferenced(old(registry.rows), registry.refs, prefixes, before)| <= CLEANUP_BATCH ==>
                forall id | id in Unreferenced(old(registry.rows), registry.refs, prefixes, before) ::
                  id !in registry.rows
      ensures uploads == old(uploads)
    {
      hide RowKey;
      ids := [];
      ghost var was := registry.rows;
      ghost var unreferenced := Unreferenced(was, registry.refs, prefixes, before);
      if prefixes != {} {
        var listed := registry.ListUnreferenced(prefixes, before, CLEANUP_BATCH);
        ids := Ids(listed);
        assert ids == seq(|listed|, i requires 0 <= i < |listed| => listed[i].id);
      } else {
        assert unreferenced == {};
      }
      ListedAll(unreferenced, (a, b) => a < b, CLEANUP_BATCH, ids);
      ListsDiscardable(was, registry.refs, prefixes, before, CLEANUP_BATCH, ids);
      KeepsYoung(was, registry.refs, prefixes, before, ids);
      AllDeletable(env, was, registry.refs, prefixes, before, ids, uploads);
      DeleteUnreferenced(ids);
    }

    static lemma KeepsYoung(rows: Rows, refs: multiset<int>, prefixes: set<string>, before: Time, ids: seq<int>)
      requires LeastDiscardable(rows, refs, prefixes, before, CLEANUP_BATCH, ids)
      ensures forall id | id in rows && rows[id].availableAt.Some? && rows[id].availableAt.value >= before ::
                id !in Members(ids)
    {
      forall id | id in ids ensures Discardable(rows, refs, prefixes, before, id) {
      }
    }

    static function Members(ids: seq<int>): set<int> {
      set id | id in ids
    }

    /** An unreferenced object that was listed can be deleted, and records no upload. */
    static lemma AllDeletable(env: Env, rows: Rows, refs: multiset<int>, prefixes: set<string>, before: Time,
                              ids: seq<int>, uploads: map<string, Upload>)
      requires ValidTable(rows)
      requires forall i | 0 <= i < |ids| :: ids[i] in Unreferenced(rows, refs, prefixes, before)
      ensures Deletable(rows, refs, ids) == Members(ids) <= rows.Keys
      ensures UploadsOfAll(env, uploads, rows, Members(ids)) == {}
    {
      hide ColumnChecks, RowKey;
      forall id | id in ids ensures id in Unreferenced(rows, refs, prefixes, before) {
      }
      forall id | id in Members(ids) ensures rows[id].upload.None? {
        assert ValidRow(rows[id]);
      }
    }

    // ------------------------------------------------------------------ the sweep

    method ListObjects(before: Time) returns (keys: seq<string>)
      ensures forall key :: key in keys <==> key in objects && objects[key].modified < before
    {
      keys := [];
      var rest := objects.Keys;
      while rest != {}
        invariant rest <= objects.Keys
        invariant forall key :: key in keys <==> key in objects && key !in rest && objects[key].modified < before
        decreases |rest|
      {
        var key :| key in rest;
        if objects[key].modified < before {
          keys := keys + [key];
        }
        rest := rest - {key};
      }
    }

    method ListUploads(before: Time) returns (listed: seq<Listed>)
      ensures forall item :: item in listed <==>
                item.upload in uploads && uploads[item.upload].key == item.key
                  && uploads[item.upload].initiated < before
    {
      listed := [];
      var rest := uploads.Keys;
      while rest != {}
        invariant rest <= uploads.Keys
        invariant forall item :: item in listed <==>
                    && item.upload in uploads && item.upload !in rest
                    && uploads[item.upload].key == item.key && uploads[item.upload].initiated < before
        decreases |rest|
      {
        var u :| u in rest;
        if uploads[u].initiated < before {
          listed := listed + [Listed(uploads[u].key, u)];
        }
        rest := rest - {u};
      }
    }

    /** Every older key that names an identifier is the key of a visible row. */
    ghost predicate NoOrphanBytes(before: Time)
      reads this, registry
    {
      forall key | key in objects && objects[key].modified < before && env.ownerOf(key).Some? ::
        InUse(env, registry.rows, key)
    }

    /** Every older open upload is recorded on a visible row. */
    ghost predicate NoOrphanUploads(before: Time)
      reads this, registry
    {
      forall u | u in uploads && uploads[u].initiated < before ::
        UploadInUse(env, registry.rows, uploads[u].key, u)
    }

    /** The orphan sweep: of what is older than the cutoff, only what belongs to a visible row is left. */
    method SweepOrphans(before: Time)
      requires Valid()
      modifies this`objects, this`uploads
      ensures Valid()
      ensures objects == LeftObjects(env, registry.rows, old(objects), before)
      ensures uploads == LeftUploads(env, registry.rows, old(uploads), before)
      ensures NoOrphanBytes(before) && (env.kind.S3Kind? ==> NoOrphanUploads(before))
      ensures forall key | key in old(objects) && (old(objects)[key].modified >= before || env.ownerOf(key).None?
                                                   || InUse(env, registry.rows, key)) ::
                key in objects && objects[key] == old(objects)[key]
      ensures forall u | u in old(uploads) && (old(uploads)[u].initiated >= before
                                               || UploadInUse(env, registry.rows, old(uploads)[u].key, u)) ::
                u in uploads && uploads[u] == old(uploads)[u]
    {
      hide OwnedKey, OwnedUpload, ValidTable, InUse, UploadInUse, KeysNameRows;
      LeftInUse(env, registry.rows, objects, uploads, before);
      var keys := ListObjects(before);
      SweepObjects(keys, _ => true, {});
      forall key | key in old(objects)
        ensures key in objects <==> !(old(objects)[key].modified < before && Removable(env, registry.rows, key))
      {
        if key in keys {
          var i :| 0 <= i < |keys| && keys[i] == key;
          assert Swept(env, registry.rows, keys, _ => true, {}, i) <==> Removable(env, registry.rows, key);
        }
      }
      if env.kind.S3Kind? {
        var listed := ListUploads(before);
        SweepUploads(listed, _ => true, {});
        forall u | u in old(uploads)
          ensures var item := Listed(old(uploads)[u].key, u);
                  u in uploads <==> !(old(uploads)[u].initiated < before && !OwnedUpload(env, registry.rows, item))
        {
          var item := Listed(old(uploads)[u].key, u);
          if item in listed {
            var i :| 0 <= i < |listed| && listed[i] == item;
            assert Aborted(env, registry.rows, listed, _ => true, {}, i) <==> !OwnedUpload(env, registry.rows, item);
          }
        }
      }
    }

    /**
     One whole undisturbed sweep, exactly: which rows it claims and which it deletes,
     whose bytes and uploads go with them, and which orphans.  Afterwards nothing
     old is orphaned, every other row is untouched, and every row still visible
     keeps the bytes it had.
     */
    method Sweep(prefixes: set<string>) returns (ghost claimed: seq<Object>, ghost ids: seq<int>)
      requires Valid()
      modifies this`objects, this`uploads, registry`rows
      ensures Valid()
      ensures FirstOf(Candidates(old(registry.rows), registry.now - env.maxAge, registry.now - RETRY_DELAY, {}),
                      (a, b) => ClaimedFirst(old(registry.rows), a, b), CLEANUP_BATCH, Ids(claimed))
      ensures LongestAbandoned(old(registry.rows), {}, registry.now - env.maxAge, registry.now - 3_600_000_000_000, 100,
                               Ids(claimed))
      ensures FirstOf(Unreferenced(old(registry.rows), registry.refs, prefixes, registry.now - env.maxAge),
                      (a, b) => a < b, CLEANUP_BATCH, ids)
      ensures LeastDiscardable(old(registry.rows), registry.refs, prefixes, registry.now - env.maxAge, 100, ids)
      ensures forall i | 0 <= i < |claimed| :: claimed[i].id in old(registry.rows)
                && claimed[i].row == old(registry.rows)[claimed[i].id].(expiredAt := Some(registry.now))
      ensures Members(ids) <= old(registry.rows).Keys
      ensures registry.rows
              == Claim(old(registry.rows), Ids(claimed), registry.now) - IdsOf(claimed, registry.refs) - Members(ids)
      ensures objects == LeftObjects(env, registry.rows,
                                     old(objects) - KeysOf(env, claimed)
                                       - KeysOfAll(env, old(registry.rows), Members(ids)),
                                     registry.now - env.maxAge)
      ensures uploads == LeftUploads(env, registry.rows, old(uploads) - UploadsOf(env, old(uploads), claimed),
                                     registry.now - env.maxAge)
      ensures NoOrphanBytes(registry.now - env.maxAge)
              && (env.kind.S3Kind? ==> NoOrphanUploads(registry.now - env.maxAge))
      ensures forall id | id in old(registry.rows) && id !in Ids(claimed) && id !in ids ::
                id in registry.rows && registry.rows[id] == old(registry.rows)[id]
      ensures forall id | id in registry.rows && registry.rows[id].Visible() ::
                && id in old(registry.rows) && registry.rows[id] == old(registry.rows)[id]
                && var key := RowKey(env, id, registry.rows[id]);
                   key in old(objects) ==> key in objects && objects[key] == old(objects)[key]
    {
      hide ValidTable, Claimable, NoOrphanBytes, NoOrphanUploads, FirstOf, RowKey, KeysOf, KeysOfAll, IdsOf,
           Unreferenced, Claim, UploadsOf, LeftUploads, Candidates, ClaimedFirst, LongestAbandoned, LeastDiscardable,
           KeysNameRows;
      ghost var rows0, before := registry.rows, registry.now - env.maxAge;
      claimed := SweepExpiredUploads();
      ghost var rows1 := registry.rows;
      ClaimedKeys(env, rows0, registry.now, registry.refs, claimed);
      ClaimedUnpublished(rows0, before, registry.now - RETRY_DELAY, (a, b) => ClaimedFirst(rows0, a, b), claimed);
      UnreferencedAfterClaim(env, rows0, registry.refs, prefixes, before, registry.now, claimed);
      ids := SweepUnreferenced(prefixes, registry.now - env.maxAge);
      ListsDiscardable(rows0, registry.refs, prefixes, before, CLEANUP_BATCH, ids);
      SameKeys(env, rows0, registry.refs, registry.now, claimed, Members(ids));
      DeletedKeys(env, rows1, Members(ids));
      SweepOrphans(registry.now - env.maxAge);
      Untouched(rows0, registry.refs, registry.now, claimed, ids);
    }

    static lemma ClaimedUnpublished(rows: Rows, updatedBefore: Time, retryBefore: Time, before: (int, int) -> bool,
                                    claimed: seq<Object>)
      requires FirstOf(Candidates(rows, updatedBefore, retryBefore, {}), before, CLEANUP_BATCH, Ids(claimed))
      ensures forall i | 0 <= i < |claimed| :: claimed[i].id in rows && !rows[claimed[i].id].Available()
    {
      forall i | 0 <= i < |claimed| ensures claimed[i].id in rows && !rows[claimed[i].id].Available() {
        assert Ids(claimed)[i] in Candidates(rows, updatedBefore, retryBefore, {});
      }
    }

    /** A claim takes nothing published, so it changes nothing that is listed as unreferenced. */
    static lemma UnreferencedAfterClaim(env: Env, rows: Rows, refs: multiset<int>, prefixes: set<string>, before: Time,
                                        now: Time, claimed: seq<Object>)
      requires forall i | 0 <= i < |claimed| :: claimed[i].id in rows && !rows[claimed[i].id].Available()
      ensures Unreferenced(Claim(rows, Ids(claimed), now) - IdsOf(claimed, refs), refs, prefixes, before)
              == Unreferenced(rows, refs, prefixes, before)
    {
      IdsOfMembers(claimed, refs);
      forall id | id in rows && rows[id].Available() ensures id !in Ids(claimed) {
      }
    }

    static lemma {:induction false} IdsOfMembers(objects: seq<Object>, refs: multiset<int>)
      ensures forall id :: id in IdsOf(objects, refs) <==> id in Ids(objects) && id !in refs
    {
      if objects != [] {
        var front := objects[..|objects| - 1];
        IdsOfMembers(front, refs);
        assert Ids(objects) == Ids(front) + [objects[|objects| - 1].id];
      }
    }

    static lemma SameKeys(env: Env, rows: Rows, refs: multiset<int>, now: Time, claimed: seq<Object>, ids: set<int>)
      requires ids <= (Claim(rows, Ids(claimed), now) - IdsOf(claimed, refs)).Keys
      ensures ids <= rows.Keys
      ensures KeysOfAll(env, Claim(rows, Ids(claimed), now) - IdsOf(claimed, refs), ids) == KeysOfAll(env, rows, ids)
    {
      var left := Claim(rows, Ids(claimed), now) - IdsOf(claimed, refs);
      assert forall id | id in ids :: RowKey(env, id, left[id]) == RowKey(env, id, rows[id]);
    }

    static lemma Untouched(rows: Rows, refs: multiset<int>, now: Time, claimed: seq<Object>, ids: seq<int>)
      ensures var left := Claim(rows, Ids(claimed), now) - IdsOf(claimed, refs) - Members(ids);
              forall id | id in rows && id !in Ids(claimed) && id !in ids :: id in left && left[id] == rows[id]
    {
      IdsOfMembers(claimed, refs);
    }

    /** Keys of rows that are left are not the keys of rows that were deleted. */
    static lemma DeletedKeys(env: Env, rows: Rows, ids: set<int>)
      requires ids <= rows.Keys && KeysNameRows(env, rows)
      ensures var left := rows - ids;
              forall id | id in left :: left[id] == rows[id] && RowKey(env, id, left[id]) !in KeysOfAll(env, rows, ids)
                && (left[id].Visible() ==> OwnedKey(env, left, RowKey(env, id, left[id])))
    {
    }

    /** Rows left visible by a claim are untouched, and none of their keys is a claimed one. */
    static lemma ClaimedKeys(env: Env, rows: Rows, now: Time, refs: multiset<int>, claimed: seq<Object>)
      requires KeysNameRows(env, rows)
      requires forall i | 0 <= i < |claimed| ::
                 claimed[i].id in rows && claimed[i].row == rows[claimed[i].id].(expiredAt := Some(now))
      ensures var left := Claim(rows, Ids(claimed), now) - IdsOf(claimed, refs);
              forall id | id in left && left[id].Visible() ::
                id in rows && left[id] == rows[id] && RowKey(env, id, left[id]) !in KeysOf(env, claimed)
    {
      var left := Claim(rows, Ids(claimed), now) - IdsOf(claimed, refs);
      forall i | 0 <= i < |claimed|
        ensures env.ownerOf(RowKey(env, claimed[i].id, claimed[i].row)) == Some(claimed[i].id)
      {
        assert RowKey(env, claimed[i].id, claimed[i].row) == RowKey(env, claimed[i].id, rows[claimed[i].id]);
      }
      KeysNameTheirs(env, claimed);
    }

    static lemma {:induction false} KeysNameTheirs(env: Env, objects: seq<Object>)
      requires forall i | 0 <= i < |objects| ::
                 env.ownerOf(RowKey(env, objects[i].id, objects[i].row)) == Some(objects[i].id)
      ensures forall key | key in KeysOf(env, objects) ::
                env.ownerOf(key).Some? && env.ownerOf(key).value in Ids(objects)
    {
      if objects != [] {
        var front := objects[..|objects| - 1];
        KeysNameTheirs(env, front);
        assert Ids(objects) == Ids(front) + [objects[|objects| - 1].id];
      }
    }
  }
}
