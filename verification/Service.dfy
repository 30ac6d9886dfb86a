/**
 Finalize and Write as one replica runs them when nothing disturbs it, over the
 registry and the S3 backend.  A ghost copy of the machine's shared state follows
 along, so the outcome is tied to the machine's own notion of readiness.
 */
module Service {
  import opened Wrappers
  import opened Content
  import opened Table
  import opened Storage
  import opened Protocol
  import opened Invariant
  import opened Effects
  import opened Steps
  import opened PartListing
  import opened Safety
  import opened ContentTypes
  import Registry
  import S3Store

  /** A step of a finalizer touches one row, one key, and at most the upload the row records. */
  ghost predicate OnlyHere(a: Shared, b: Shared, id: int, key: string) {
    && a.rows.Keys == b.rows.Keys && (forall other | other in a.rows && other != id :: b.rows[other] == a.rows[other])
    && (forall k | k != key :: k in a.objects <==> k in b.objects)
    && (forall k | k != key && k in a.objects :: b.objects[k] == a.objects[k])
    && (forall u | u in b.uploads :: u in a.uploads && b.uploads[u] == a.uploads[u])
    && (forall u | u in a.uploads && !(id in a.rows && a.rows[id].upload == Some(u)) :: u in b.uploads)
  }

  /**
   What a refused finalizer leaves of a pending row: a newer clock and nothing else,
   so a missing part can still be added, unless its upload was completed or gone.
   */
  ghost predicate OpenForRetry(env: Env, a: Shared, c: Shared, id: int) {
    && id in a.rows && a.rows[id].Pending()
    && (if a.rows[id].upload.None? || PartsRefused(env, a, id, a.rows[id])
        then c == WriteRow(a, id, a.rows[id].(updatedAt := a.now))
        else id in c.rows && c.rows[id].upload.None?)
  }

  /**
   What publication makes of a pending row: its type is the one its leading bytes
   have, its key and times are set, and no other column changes.
   */
  ghost predicate PublishedFrom(env: Env, was: Row, row: Row, key: string, body: Bytes, now: Time) {
    exists head ::
      && Leads(head, body)
      && row == was.(contentType := env.detect(head), storageKey := Some(key), availableAt := Some(now),
                     upload := None, updatedAt := now)
  }

  /** The row's upload is open, but its parts are missing or do not total the declared size. */
  ghost predicate PartsRefused(env: Env, a: Shared, id: int, row: Row) {
    row.upload.Some? && row.size.Some?
    && var completion := S3Store.CompletionOf(OpenAt(a, RowKey(env, id, row), row.upload.value), row.size.value);
       completion.NotArrived? || completion.WrongSize?
  }

  lemma OnlyHereThen(a: Shared, b: Shared, c: Shared, id: int, key: string)
    requires OnlyHere(a, b, id, key) && OnlyHere(b, c, id, key)
    requires id in a.rows && (b.rows[id].upload.None? || b.rows[id].upload == a.rows[id].upload)
    ensures OnlyHere(a, c, id, key)
  {
  }

  lemma OnlyTouched(a: Shared, id: int, row: Row, key: string)
    requires id in a.rows
    ensures OnlyHere(a, WriteRow(a, id, row), id, key)
  {
  }

  class Service {
    const env: Env
    const registry: Registry.Store
    const backend: S3Store.Store

    constructor (env: Env, registry: Registry.Store, backend: S3Store.Store)
      ensures this.env == env && this.registry == registry && this.backend == backend
    {
      this.env, this.registry, this.backend := env, registry, backend;
    }

    /** The replica's registry and backend are the machine's. */
    ghost predicate Follows(sh: Shared)
      reads registry, backend
    {
      && registry.Valid() && backend.Valid() && backend.env == env
      && sh.rows == registry.rows && sh.nextId == registry.nextId && sh.refs == registry.refs
      && sh.objects == backend.objects && sh.uploads == backend.uploads
      && sh.now == registry.now == backend.now
    }

    /** `inspect`: the head of verified bytes, or the error that refuses them. */
    method Inspect(key: string, content: Declaration) returns (r: Registry.Result<Bytes>)
      requires backend.Valid() && content.Valid()
      ensures r.Ok? <==> Verify(backend.env, backend.objects, key, content).Verified?
      ensures r.Ok? ==> r.value == if content.size == 0 then [] else Head(backend.objects[key].body)
      ensures r.Ok? ==> key in backend.objects && Leads(r.value, backend.objects[key].body)
    {
      var verdict := backend.Verify(key, content);
      match verdict
      case Verified =>
        return Registry.Ok(if content.size == 0 then [] else Head(backend.objects[key].body));
      case Unvouched => return Registry.Err(Registry.Internal);
      case _ => return Registry.Err(Registry.InvalidInput);
    }

    ghost predicate Holding(sh: Shared, id: int, row: Row)
      reads registry, backend
    {
      Follows(sh) && Current(env, sh, id, row)
    }

    /** Completion at the backend: refused, or the upload is closed for good. */
    method Assemble(id: int, row: Row, pageSize: nat -> nat, ghost a: Shared) returns (refused: bool, ghost b: Shared)
      requires EnvOk(env) && Holding(a, id, row) && row.upload.Some? && a.rows[id].upload == row.upload
      modifies backend`objects, backend`uploads
      ensures Holding(b, id, row) && b.rows == a.rows && b.born == a.born && b.now == a.now
      ensures refused <==> PartsRefused(env, a, id, row)
      ensures refused ==> b == a && !Progress.Ready(env, a, id)
      ensures !refused ==> Closed(b, row) && (HoldsDeclared(env, b, id) <==> Progress.Ready(env, a, id))
      ensures OnlyHere(a, b, id, RowKey(env, id, row))
    {
      hide SharedInv, EnvOk, Progress.Ready, HoldsDeclared, Completes, Snapshot, RowKey, Storage.Assembled,
           S3Store.CompletionOf, Registry.Store.Valid, S3Store.Store.Valid, Ascending, Named, AllIn, Closed;
      Declares(env, a, id, row);
      CompletionReady(env, a, id, row);
      var completion :=
        backend.CompleteMultipartUpload(RowKey(env, id, row), row.upload.value, row.size.value, pageSize);
      refused := completion.NotArrived? || completion.WrongSize?;
      b := if completion.Assembled? then AfterCompletion(env, a, row, RowKey(env, id, row)) else a;
    }

    /**
     `completeMultipart`: unless the parts are refused, the row's upload is cleared
     and the key holds the declared bytes exactly if the object was ready.
     */
    method CompleteMultipart(id: int, row: Row, pageSize: nat -> nat, ghost a: Shared)
      returns (done: bool, ghost b: Shared)
      requires EnvOk(env) && Holding(a, id, row) && row.upload.Some? && a.rows[id].upload == row.upload
      modifies registry`rows, backend`objects, backend`uploads
      ensures Holding(b, id, row) && b.born == a.born && b.now == a.now
      ensures done ==> b.rows == a.rows[id := a.rows[id].(upload := None, updatedAt := a.now)]
      ensures !done <==> PartsRefused(env, a, id, row)
      ensures !done ==> b == a && !Progress.Ready(env, a, id)
      ensures done ==> b.rows[id].upload.None? && (HoldsDeclared(env, b, id) <==> Progress.Ready(env, a, id))
      ensures OnlyHere(a, b, id, RowKey(env, id, row))
    {
      hide SharedInv, EnvOk, Progress.Ready, HoldsDeclared, Snapshot, RowKey, Registry.Store.Valid,
           S3Store.Store.Valid, Closed;
      var refused;
      refused, b := Assemble(id, row, pageSize, a);
      if refused {
        return false, b;
      }
      ClearedReady(env, b, id, row);
      var _ := registry.ClearMultipartUploadID(id, row.upload.value);
      return true, WriteRow(b, id, b.rows[id].(upload := None, updatedAt := b.now));
    }

    /** `inspect` and `markAvailable`: the object is published exactly if its key holds the declared bytes. */
    method PublishInspected(id: int, row: Row, ghost b: Shared)
      returns (r: Registry.Result<Registry.Object>, ghost c: Shared)
      requires EnvOk(env) && Holding(b, id, row) && b.rows[id].upload.None? && row.Declared()
      modifies registry`rows
      ensures SharedInv(env, c) && Follows(c)
      ensures r.Ok? <==> HoldsDeclared(env, b, id)
      ensures r.Ok?
              ==> id in registry.rows && r.value == Registry.Object(id, registry.rows[id]) && r.value.row.Available()
      ensures r.Ok? ==>
                var key := RowKey(env, id, row);
                && key in backend.objects && c.rows == b.rows[id := r.value.row]
                && PublishedFrom(env, b.rows[id], r.value.row, key, backend.objects[key].body, b.now)
      ensures !r.Ok? ==> c == b
      ensures OnlyHere(b, c, id, RowKey(env, id, row))
    {
      hide SharedInv, HoldsDeclared, Snapshot, RowKey, Verify, KeyTaken, NotBlank, Registry.Store.Valid,
           S3Store.Store.Valid;
      c := b;
      Declares(env, b, id, row);
      Progress.VerifiedExactly(env, b, id, row);
      var head := Inspect(RowKey(env, id, row), RowContent(row));
      if head.Err? {
        return Registry.Err(head.error), b;
      }
      var contentType := env.detect(head.value);
      assert contentType != "";
      PublishableKey(env, b, id, contentType);
      PublishedState(env, b, id, row, contentType);
      r := registry.MarkAvailable(id, contentType, RowKey(env, id, row));
      c := Publish(b, id, MarkAvailable(b.rows, id, contentType, RowKey(env, id, row), b.now).row);
      FromHead(env, b.rows[id], RowKey(env, id, row), backend.objects[RowKey(env, id, row)].body, b.now, head.value);
    }

    /**
     Finalize, undisturbed: it returns the published object if and only if the row is
     visible under the prefix and was published already or was ready - storage
     held the declared content, or the open upload would assemble to it.
     */
    method Finalize(id: int, prefix: string, pageSize: nat -> nat, ghost a: Shared)
      returns (r: Registry.Result<Registry.Object>, ghost c: Shared)
      requires EnvOk(env) && SharedInv(env, a) && Follows(a)
      modifies registry`rows, backend`objects, backend`uploads
      ensures SharedInv(env, c) && Follows(c)
      ensures r.Ok? <==> id in a.rows && a.rows[id].Visible() && a.rows[id].prefix == prefix
                         && (a.rows[id].Available() || (id in a.born && Progress.Ready(env, a, id)))
      ensures r.Ok?
              ==> id in registry.rows && r.value == Registry.Object(id, registry.rows[id]) && r.value.row.Available()
      ensures r.Ok? && a.rows[id].Pending() ==>
                var key := RowKey(env, id, a.rows[id]);
                && key in backend.objects && registry.rows == a.rows[id := r.value.row]
                && PublishedFrom(env, a.rows[id], r.value.row, key, backend.objects[key].body, a.now)
      ensures id in a.rows && a.rows[id].Available() ==> c == a
      ensures if id in a.rows then OnlyHere(a, c, id, RowKey(env, id, a.rows[id])) else c == a
      ensures !r.Ok? ==> c == a || OpenForRetry(env, a, c, id)
    {
      hide SharedInv, EnvOk, Progress.Ready, HoldsDeclared, Snapshot, RowKey, Registry.Store.Valid, S3Store.Store.Valid;
      c := a;
      r := registry.GetByID(id);
      if r.Err? {
        return;
      }
      if r.value.row.prefix != prefix {
        return Registry.Err(Registry.InvalidInput), a;
      }
      if r.value.row.Available() {
        return;
      }
      r, c := FinalizePending(id, pageSize, a);
    }

    /**
     Write, disturbed by the fates of its PUT and its publish and by an application
     that attaches the object meanwhile: it succeeds with the body published; or it
     fails and leaves no row and no bytes, also when only a response was lost; or,
     attached, it fails and keeps both.
     */
    method Write(prefix: string, filename: string, contentType: string, body: Bytes,
                 put: Fault, publish: Fault, attach: bool, ghost pid: Pid, ghost a: Shared)
      returns (r: Registry.Result<Registry.Object>, ghost d: Shared)
      requires EnvOk(env) && SharedInv(env, a) && Follows(a) && a.nextId !in a.refs
      modifies registry`rows, registry`nextId, registry`refs, backend`objects
      ensures var begun := contentType != "" && a.nextId <= MAX_ID;
              && (r.Ok? <==> begun && put.NoFault? && publish.NoFault?)
              && registry.nextId == (if begun then a.nextId + 1 else a.nextId)
              && (!r.Ok? && !(begun && put.NoFault? && attach)
                  ==> registry.rows == a.rows && backend.objects == a.objects)
              && (begun && put.NoFault?
                  ==> d == AfterPublish(env, a, pid, prefix, filename, contentType, body, publish) && SharedInv(env, d))
              && (begun && put.NoFault? && (r.Ok? || attach)
                  ==> registry.rows == d.rows && backend.objects == d.objects)
      ensures r.Ok? ==>
                && r.value.id == a.nextId && registry.rows == a.rows[a.nextId := r.value.row] && r.value.row.Available()
                && r.value.row.size == Some(|body|) && r.value.row.sha == Some(env.sha(body))
                && r.value.row.crc == Some(env.crc(body))
                && r.value.row == WrittenRow(env, a.nextId, prefix, filename, contentType, body, a.now)
                && backend.objects == a.objects[RowKey(env, a.nextId, r.value.row) := PutBlob(env, body, a.now)]
    {
      hide SharedInv, EnvOk, ValidTable, KeyTaken, NotBlank, IsLowerHex, S3Store.Store.Valid, MarkAvailable;
      d := a;
      if contentType == "" {
        return Registry.Err(Registry.InvalidInput), a;
      }
      var created := Reserve(prefix, filename, body, put, pid, a);
      if created.Err? {
        return created, a;
      }
      FreshKey(env, a, filename);
      PutReady(env, a, pid, prefix, filename, contentType, body);
      PublishedWrite(env, a, pid, prefix, filename, contentType, body);
      Unwound(env, a, pid, prefix, filename, body);
      d := AfterPublish(env, a, pid, prefix, filename, contentType, body, publish);
      r := PublishWritten(created.value.id, created.value.row, contentType, publish, attach,
                          AfterPut(env, a, pid, prefix, filename, body));
    }

    /** The end of a server write: published, or unwound row first and then bytes, unless something attached it. */
    method PublishWritten(id: int, row: Row, contentType: string, publish: Fault, attach: bool, ghost c: Shared)
      returns (r: Registry.Result<Registry.Object>)
      requires Follows(c) && id in c.rows && c.rows[id] == row && row.Pending() && row.upload.None? && id !in c.refs
      requires MarkAvailable(c.rows, id, contentType, RowKey(env, id, row), c.now).Updated?
      modifies registry`rows, registry`refs, backend`objects
      ensures r.Ok? <==> publish.NoFault?
      ensures var published := c.rows[id := MarkAvailable(c.rows, id, contentType, RowKey(env, id, row), c.now).row];
              && (r.Ok? ==> r.value == Registry.Object(id, published[id]))
              && (if r.Ok? || attach
                  then registry.rows == (if publish.FailBefore? then c.rows else published)
                       && backend.objects == c.objects
                  else registry.rows == c.rows - {id} && backend.objects == c.objects - {RowKey(env, id, row)})
    {
      hide ValidTable, KeyTaken, NotBlank, S3Store.Store.Valid, RowKey;
      if !publish.FailBefore? {
        r := registry.MarkAvailable(id, contentType, RowKey(env, id, row));
      }
      if attach {
        registry.refs := registry.refs + multiset{id};
      }
      if publish.NoFault? {
        return;
      }
      var deleted := registry.Delete(id);
      if deleted.Ok? {
        RowOfPublished(env, id, row, deleted.value.row);
        RemoveBytes(id, deleted.value.row);
      }
      return Registry.Err(Registry.Internal);
    }

    /** The pending row of a server write and its body under the row's key, or neither. */
    method Reserve(prefix: string, filename: string, body: Bytes, put: Fault, ghost pid: Pid, ghost a: Shared)
      returns (created: Registry.Result<Registry.Object>)
      requires EnvOk(env) && SharedInv(env, a) && Follows(a) && a.nextId !in a.refs
      modifies registry`rows, registry`nextId, backend`objects
      ensures created.Ok? <==> a.nextId <= MAX_ID && put.NoFault?
      ensures created.Ok? ==>
                && created.value.id == a.nextId
                && created.value.row
                   == NewRow(prefix, filename, Declaration(|body|, env.sha(body), env.crc(body)), a.now)
                && Follows(AfterPut(env, a, pid, prefix, filename, body))
      ensures !created.Ok? ==> registry.rows == a.rows && backend.objects == a.objects
      ensures registry.nextId == if a.nextId <= MAX_ID then a.nextId + 1 else a.nextId
    {
      hide SharedInv, EnvOk, ValidTable, IsLowerHex, S3Store.Store.Valid;
      var content := Declaration(|body|, env.sha(body), env.crc(body));
      BodyDeclares(env, body);
      created := registry.CreatePending(prefix, filename, content);
      if created.Err? {
        return;
      }
      FreshKey(env, a, filename);
      var id, row := created.value.id, created.value.row;
      if !put.FailBefore? {
        var _ := backend.Put(RowKey(env, id, row), body, content);
      }
      if !put.NoFault? {
        var _ := registry.Delete(id);
        RemoveBytes(id, row);
        return Registry.Err(Registry.Internal);
      }
    }

    method RemoveBytes(id: int, row: Row)
      requires backend.Valid() && row.upload.None?
      modifies backend`objects
      ensures backend.Valid() && backend.objects == old(backend.objects) - {RowKey(env, id, row)}
    {
      backend.Delete(RowKey(env, id, row));
    }

    /** Undisturbed, the row just read is still pending and carries its declaration. */
    method FinalizePending(id: int, pageSize: nat -> nat, ghost a: Shared)
      returns (r: Registry.Result<Registry.Object>, ghost c: Shared)
      requires EnvOk(env) && SharedInv(env, a) && Follows(a) && id in a.rows && a.rows[id].Pending()
      modifies registry`rows, backend`objects, backend`uploads
      ensures SharedInv(env, c) && Follows(c)
      ensures id in a.born && (r.Ok? <==> Progress.Ready(env, a, id))
      ensures r.Ok?
              ==> id in registry.rows && r.value == Registry.Object(id, registry.rows[id]) && r.value.row.Available()
      ensures r.Ok? ==>
                var key := RowKey(env, id, a.rows[id]);
                && key in backend.objects && registry.rows == a.rows[id := r.value.row]
                && PublishedFrom(env, a.rows[id], r.value.row, key, backend.objects[key].body, a.now)
      ensures OnlyHere(a, c, id, RowKey(env, id, a.rows[id]))
      ensures !r.Ok? ==> OpenForRetry(env, a, c, id)
    {
      hide SharedInv, EnvOk, Progress.Ready, HoldsDeclared, Snapshot, RowKey, OnlyHere, Registry.Store.Valid,
        S3Store.Store.Valid, PublishedFrom, PartsRefused;
      RefreshedReady(env, a, id);
      var refreshed := registry.RefreshPending(id);
      var row := refreshed.value.row;
      ghost var key := RowKey(env, id, row);
      c := WriteRow(a, id, row);
      OnlyTouched(a, id, row, key);
      if row.upload.Some? {
        ghost var b := c;
        var done;
        done, c := CompleteMultipart(id, row, pageSize, b);
        if !done {
          return Registry.Err(Registry.InvalidInput), c;
        }
        OnlyHereThen(a, b, c, id, key);
      }
      ghost var b := c;
      r, c := PublishInspected(id, row, b);
      OnlyHereThen(a, b, c, id, key);
      if r.Ok? {
        FromRefreshed(env, a.rows[id], b.rows[id], r.value.row, key, backend.objects[key].body, a.now);
        assert c.rows == a.rows[id := r.value.row];
      }
    }
  }

  lemma FromHead(env: Env, was: Row, key: string, body: Bytes, now: Time, head: Bytes)
    requires Leads(head, body) && was.upload.None?
    ensures PublishedFrom(env, was, was.(contentType := env.detect(head), storageKey := Some(key),
                                         availableAt := Some(now), updatedAt := now), key, body, now)
  {
  }

  /** A refresh and a cleared upload on the way leave no other trace in the published row. */
  lemma FromRefreshed(env: Env, was: Row, refreshed: Row, row: Row, key: string, body: Bytes, now: Time)
    requires PublishedFrom(env, refreshed, row, key, body, now)
    requires refreshed == was.(upload := refreshed.upload, updatedAt := now)
    ensures PublishedFrom(env, was, row, key, body, now)
  {
  }

  /** No bytes were ever stored for an identifier that was not handed out. */
  lemma FreshKey(env: Env, a: Shared, filename: string)
    requires EnvOk(env) && SharedInv(env, a) && a.nextId <= MAX_ID
    ensures env.keyOf(a.nextId, filename) !in a.objects && a.nextId !in a.rows
  {
  }

  /** The shared state after a server write stored its body, before it publishes. */
  ghost function AfterPut(env: Env, a: Shared, pid: Pid, prefix: string, filename: string, body: Bytes): Shared {
    var content := Declaration(|body|, env.sha(body), env.crc(body));
    var row := NewRow(prefix, filename, content, a.now);
    StoreBlob(InsertRow(a, row, Birth(filename, content, Direct, pid)), env.keyOf(a.nextId, filename),
              PutBlob(env, body, a.now))
  }

  /** The shared state once the publish of a server write took effect, or did not. */
  ghost function AfterPublish(env: Env, a: Shared, pid: Pid, prefix: string, filename: string, contentType: string,
                              body: Bytes, publish: Fault): Shared
  {
    var c := AfterPut(env, a, pid, prefix, filename, body);
    var marked := MarkAvailable(c.rows, a.nextId, contentType, env.keyOf(a.nextId, filename), c.now);
    if publish.FailBefore? || !marked.Updated? then c else Publish(c, a.nextId, marked.row)
  }

  /** The row a server write publishes, column by column. */
  function WrittenRow(env: Env, id: int, prefix: string, filename: string, contentType: string, body: Bytes, now: Time)
    : Row
  {
    Row(prefix, filename, contentType, Some(|body|), Some(env.sha(body)), Some(env.crc(body)),
        None, Some(env.keyOf(id, filename)), Some(now), None, now, now)
  }

  lemma PutReady(env: Env, a: Shared, pid: Pid, prefix: string, filename: string, contentType: string, body: Bytes)
    requires EnvOk(env) && SharedInv(env, a) && a.nextId <= MAX_ID && contentType != ""
    ensures var content := Declaration(|body|, env.sha(body), env.crc(body));
            var row := NewRow(prefix, filename, content, a.now);
            var c := AfterPut(env, a, pid, prefix, filename, body);
            var key := env.keyOf(a.nextId, filename);
            && content.Valid() && RowKey(env, a.nextId, row) == key && SharedInv(env, c)
            && MarkAvailable(c.rows, a.nextId, contentType, key, c.now).Updated?
            && SharedInv(env, Publish(c, a.nextId, MarkAvailable(c.rows, a.nextId, contentType, key, c.now).row))
  {
    hide SharedInv, Guarantee, StepFacts, MarkAvailable, Declaration.Valid, IsLowerHex;
    var content := Declaration(|body|, env.sha(body), env.crc(body));
    BodyDeclares(env, body);
    var row := NewRow(prefix, filename, content, a.now);
    var birth := Birth(filename, content, Direct, pid);
    KeptInsert(env, a, row, birth, prefix);
    var b := InsertRow(a, row, birth);
    KeptPut(env, b, a.nextId, body);
    var c := AfterPut(env, a, pid, prefix, filename, body);
    PublishableKey(env, c, a.nextId, contentType);
    KeptPublish(env, c, a.nextId, contentType);
  }

  lemma PublishedWrite(env: Env, a: Shared, pid: Pid, prefix: string, filename: string, contentType: string,
                       body: Bytes)
    requires var c := AfterPut(env, a, pid, prefix, filename, body);
             MarkAvailable(c.rows, a.nextId, contentType, env.keyOf(a.nextId, filename), c.now).Updated?
    ensures var c := AfterPut(env, a, pid, prefix, filename, body);
            var row := MarkAvailable(c.rows, a.nextId, contentType, env.keyOf(a.nextId, filename), c.now).row;
            && row.Available() && RowKey(env, a.nextId, row) == env.keyOf(a.nextId, filename)
            && row.size == Some(|body|) && row.sha == Some(env.sha(body)) && row.crc == Some(env.crc(body))
            && row == WrittenRow(env, a.nextId, prefix, filename, contentType, body, a.now)
            && c.rows[a.nextId := row] == a.rows[a.nextId := row]
            && c.objects == a.objects[env.keyOf(a.nextId, filename) := PutBlob(env, body, a.now)]
  {
    hide ValidRow, KeyTaken;
  }

  /** Publishing a row at its own key does not change where its bytes live. */
  lemma RowOfPublished(env: Env, id: int, row: Row, published: Row)
    requires row.Pending() && published.upload == row.upload
    requires published == row || published.storageKey == Some(RowKey(env, id, row))
    ensures RowKey(env, id, published) == RowKey(env, id, row)
  {
  }

  /** Taking the row and the bytes of a new identifier away restores what was there before it. */
  lemma Unwound(env: Env, a: Shared, pid: Pid, prefix: string, filename: string, body: Bytes)
    requires a.nextId !in a.rows && env.keyOf(a.nextId, filename) !in a.objects
    ensures var c := AfterPut(env, a, pid, prefix, filename, body);
            c.rows - {a.nextId} == a.rows && c.objects - {env.keyOf(a.nextId, filename)} == a.objects
  {
  }

  lemma BodyDeclares(env: Env, body: Bytes)
    requires EnvOk(env)
    ensures Declaration(|body|, env.sha(body), env.crc(body)).Valid()
  {
  }

  /** Refreshing a pending row leaves a current snapshot and the same readiness. */
  lemma RefreshedReady(env: Env, a: Shared, id: int)
    requires SharedInv(env, a) && id in a.rows && a.rows[id].Pending()
    ensures var row := a.rows[id].(updatedAt := a.now);
            var b := WriteRow(a, id, row);
            && Current(env, b, id, row) && row.Declared() && id in a.born
            && RowKey(env, id, row) == RowKey(env, id, a.rows[id])
            && (Progress.Ready(env, a, id) <==> Progress.Ready(env, b, id))
            && (PartsRefused(env, a, id, a.rows[id]) <==> PartsRefused(env, b, id, row))
            && (row.upload.None? ==> (HoldsDeclared(env, b, id) <==> Progress.Ready(env, a, id)))
  {
    hide SharedInv;
    RefreshGood(env, a, id);
    PendingSnapshot(env, a, id);
    Progress.RefreshReady(env, a, WriteRow(a, id, a.rows[id].(updatedAt := a.now)), id);
  }

  lemma PublishedState(env: Env, b: Shared, id: int, row: Row, contentType: string)
    requires Current(env, b, id, row) && MarkAvailable(b.rows, id, contentType, RowKey(env, id, row), b.now).Updated?
    ensures HoldsDeclared(env, b, id) ==>
              SharedInv(env, Publish(b, id, MarkAvailable(b.rows, id, contentType, RowKey(env, id, row), b.now).row))
  {
    hide SharedInv, HoldsDeclared, MarkAvailable, RowKey, BirthKey;
    Declares(env, b, id, row);
    if HoldsDeclared(env, b, id) {
      KeptPublish(env, b, id, contentType);
    }
  }

  /** Where a finalizer of a pending row stands: its snapshot is current. */
  ghost predicate Current(env: Env, sh: Shared, id: int, row: Row) {
    SharedInv(env, sh) && Snapshot(sh, id, row) && id in sh.rows && sh.rows[id].Pending()
  }

  lemma Declares(env: Env, sh: Shared, id: int, row: Row)
    requires Current(env, sh, id, row)
    ensures row.Declared() && RowContent(row).Valid()
    ensures RowKey(env, id, row) == RowKey(env, id, sh.rows[id]) == BirthKey(env, sh, id)
  {
  }

  function OpenAt(sh: Shared, key: string, upload: string): Option<Upload> {
    if upload in sh.uploads && sh.uploads[upload].key == key then Some(sh.uploads[upload]) else None
  }

  ghost function AfterCompletion(env: Env, a: Shared, row: Row, key: string): Shared
    requires row.Declared() && row.upload.Some?
             && S3Store.CompletionOf(OpenAt(a, key, row.upload.value), row.size.value).Assembled?
  {
    var upload := row.upload.value;
    var parts := a.uploads[upload].parts;
    ListingCompletes(env, parts);
    Completed(a, upload, key,
              Storage.Assembled(env, upload, a.uploads[upload], Named(env, parts, Ascending(parts, 0)), a.now))
  }

  /** What the outcome of a completion says about readiness. */
  lemma CompletionReady(env: Env, a: Shared, id: int, row: Row)
    requires EnvOk(env) && Current(env, a, id, row) && row.upload.Some? && a.rows[id].upload == row.upload
             && row.Declared()
    ensures var key := RowKey(env, id, row);
            match S3Store.CompletionOf(OpenAt(a, key, row.upload.value), row.size.value)
            case NoSuchUpload => Closed(a, row) && (HoldsDeclared(env, a, id) <==> Progress.Ready(env, a, id))
            case Assembled =>
              var b := AfterCompletion(env, a, row, key);
              && Current(env, b, id, row) && Closed(b, row) && b.rows == a.rows
              && (HoldsDeclared(env, b, id) <==> Progress.Ready(env, a, id))
            case _ => !Progress.Ready(env, a, id)
  {
    hide SharedInv, EnvOk, Guarantee, StepFacts, Ascending, Concat, Completes, Named;
    var upload := row.upload.value;
    SnapshotUpload(env, a, id, row);
    Progress.OpenedFull(env, a, id, row);
    Declares(env, a, id, row);
    if upload in a.uploads {
      var parts := a.uploads[upload].parts;
      AllListed(parts);
      if S3Store.CompletionOf(Some(a.uploads[upload]), row.size.value).Assembled? {
        ListingCompletes(env, parts);
        TotalIsLength(env, parts, Ascending(parts, 0));
        KeptComplete(env, a, upload, Named(env, parts, Ascending(parts, 0)));
        SnapshotStable(env, a, AfterCompletion(env, a, row, RowKey(env, id, row)), id, row);
      }
    }
  }

  lemma AllListed(parts: map<int, Part>)
    ensures AllIn(parts, Ascending(parts, 0))
  {
    AscendingSorted(parts, 0);
  }

  lemma ClearedReady(env: Env, b: Shared, id: int, row: Row)
    requires Current(env, b, id, row) && Closed(b, row) && b.rows[id].upload == row.upload
    ensures var c := WriteRow(b, id, b.rows[id].(upload := None, updatedAt := b.now));
            Current(env, c, id, row) && (HoldsDeclared(env, c, id) <==> HoldsDeclared(env, b, id))
  {
    hide SharedInv, Guarantee, StepFacts;
    var cleared := b.rows[id].(upload := None, updatedAt := b.now);
    KeptTouch(env, b, id, cleared);
    SnapshotStable(env, b, WriteRow(b, id, cleared), id, row);
  }
}
