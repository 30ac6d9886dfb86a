/**
 What holds over every run: any interleaving of any number of operations,
 uploaders and applications, with any faults, from any state the migration leaves.
 */
module Safety {
  import opened Wrappers
  import opened Table
  import opened Storage
  import opened Protocol
  import opened Invariant
  import opened Effects
  import opened Steps
  import opened Migration

  lemma Reachable(env: Env, s: State, events: seq<Event>)
    requires EnvOk(env) && Initial(env, s)
    ensures Inv(env, Run(env, s, events))
  {
    InitialInv(env, s);
    RunGood(env, s, events);
  }

  lemma RunLast(env: Env, s: State, events: seq<Event>, e: Event)
    ensures Run(env, s, events + [e]) == Apply(env, Run(env, s, events), e)
  {
  }

  lemma {:induction false} RunJoin(env: Env, s: State, events: seq<Event>, later: seq<Event>)
    ensures Run(env, s, events + later) == Run(env, Run(env, s, events), later)
    decreases |later|
  {
    hide Apply;
    if later == [] {
      assert events + later == events;
    } else {
      var k := |later| - 1;
      RunJoin(env, s, events, later[..k]);
      assert events + later == (events + later[..k]) + [later[k]];
      RunLast(env, s, events + later[..k], later[k]);
    }
  }

  // ------------------------------------------------------------ published bytes

  /**
   Every published row's key holds bytes of the declared size: with the declared
   SHA-256, or the declared CRC64NVME when a multipart upload assembled them.
   */
  lemma PublishedBytesDeclared(env: Env, s: State, events: seq<Event>, id: int)
    requires EnvOk(env) && Initial(env, s)
    requires var rows := Run(env, s, events).sh.rows; id in rows && rows[id].Available()
    ensures var sh := Run(env, s, events).sh;
            var row := sh.rows[id];
            && row.size.Some? && row.sha.Some? && RowKey(env, id, row) in sh.objects
            && var blob := sh.objects[RowKey(env, id, row)];
               && |blob.body| == row.size.value
               && (if id in sh.born && sh.born[id].mode.Multipart?
                   then blob.via.Some? && row.crc == Some(env.crc(blob.body))
                   else row.sha == Some(env.sha(blob.body)))
  {
    Reachable(env, s, events);
    var sh := Run(env, s, events).sh;
    assert Holds(env, sh, id);
    RowKeyParses(env, sh, id);
    if id in sh.born {
      assert BornRow(env, sh, id);
      assert BlobOk(env, sh, id, sh.objects[BirthKey(env, sh, id)]);
    }
  }

  /**
   On the file backend, whatever is stored at the key of an identifier has the
   size and SHA-256 declared when that identifier was created, even after its
   row is gone; so the size-only verification accepts only the declared bytes.
   */
  lemma FileBytesDeclared(env: Env, s: State, events: seq<Event>, id: int)
    requires EnvOk(env) && Initial(env, s) && env.kind.FileKind?
    requires id in Run(env, s, events).sh.born
    ensures var sh := Run(env, s, events).sh;
            var key := env.keyOf(id, sh.born[id].filename);
            key in sh.objects ==>
              && |sh.objects[key].body| == sh.born[id].content.size
              && env.sha(sh.objects[key].body) == sh.born[id].content.sha
              && Verify(env, sh.objects, key, sh.born[id].content).Verified?
  {
    Reachable(env, s, events);
    var sh := Run(env, s, events).sh;
    if BirthKey(env, sh, id) in sh.objects {
      assert BlobOk(env, sh, id, sh.objects[BirthKey(env, sh, id)]);
    }
  }

  // ------------------------------------------------------------ one-way histories

  lemma {:induction false} UnownedForever(env: Env, s: State, events: seq<Event>, key: string)
    requires EnvOk(env) && Inv(env, s) && Unowned(env, s.sh, key)
    ensures Unowned(env, Run(env, s, events).sh, key)
  {
    if events != [] {
      var before := events[..|events| - 1];
      UnownedForever(env, s, before, key);
      RunGood(env, s, before);
      ApplyGood(env, Run(env, s, before), events[|events| - 1]);
      UnownedStable(env, Run(env, s, before).sh, Run(env, s, events).sh, key);
    }
  }

  /**
   Whoever erases bytes - a delete, a failed write, an expiry or an orphan sweep
   whose listing and ownership lookup happened any number of steps ago - never
   erases the bytes of a row that is visible or later becomes visible.
   */
  lemma ErasedNeverOwned(env: Env, s: State, events: seq<Event>, e: Event, later: seq<Event>, key: string)
    requires EnvOk(env) && Initial(env, s)
    requires key in Run(env, s, events).sh.objects
    requires key !in Apply(env, Run(env, s, events), e).sh.objects
    ensures var rows := Run(env, Apply(env, Run(env, s, events), e), later).sh.rows;
            forall id | id in rows && rows[id].Visible() :: RowKey(env, id, rows[id]) != key
  {
    Reachable(env, s, events);
    var a := Run(env, s, events);
    var b := Apply(env, a, e);
    ApplyGood(env, a, e);
    UnownedStable(env, a.sh, b.sh, key);
    UnownedForever(env, b, later, key);
    RunGood(env, b, later);
    var sh := Run(env, b, later).sh;
    forall id | id in sh.rows && sh.rows[id].Visible() ensures RowKey(env, id, sh.rows[id]) != key {
      RowKeyParses(env, sh, id);
    }
  }

  lemma RowsForwardTransitive(env: Env, a: Shared, b: Shared, c: Shared)
    requires RowsForward(env, a, b) && RowsForward(env, b, c)
    ensures RowsForward(env, a, c)
  {
  }

  lemma {:induction false} RowsForwardRun(env: Env, s: State, events: seq<Event>)
    requires EnvOk(env) && Inv(env, s)
    ensures RowsForward(env, s.sh, Run(env, s, events).sh)
  {
    if events != [] {
      var before := events[..|events| - 1];
      RowsForwardRun(env, s, before);
      RunGood(env, s, before);
      ApplyGood(env, Run(env, s, before), events[|events| - 1]);
      RowsForwardTransitive(env, s.sh, Run(env, s, before).sh, Run(env, s, events).sh);
    }
  }

  /**
   The lifecycle over whole runs: identifiers are not reused, a row keeps its
   declaration and its key, expiry is final, no row is both published and
   expired, and no column of a published row changes while it exists.
   */
  lemma LifecycleOneWay(env: Env, s: State, events: seq<Event>, later: seq<Event>, id: int)
    requires EnvOk(env) && Initial(env, s)
    requires id < Run(env, s, events).sh.nextId && id in Run(env, Run(env, s, events), later).sh.rows
    ensures var a := Run(env, s, events).sh;
            var b := Run(env, Run(env, s, events), later).sh;
            && id in a.rows && ValidRow(b.rows[id])
            && RowContentOf(a.rows[id]) == RowContentOf(b.rows[id])
            && RowKey(env, id, a.rows[id]) == RowKey(env, id, b.rows[id])
            && (!a.rows[id].Visible() ==> !b.rows[id].Visible())
            && !(b.rows[id].Available() && !b.rows[id].Visible())
            && (a.rows[id].Available() ==> a.rows[id] == b.rows[id])
  {
    Reachable(env, s, events);
    RowsForwardRun(env, Run(env, s, events), later);
    RunGood(env, Run(env, s, events), later);
    assert ValidRow(Run(env, Run(env, s, events), later).sh.rows[id]);
  }

  /**
   The table of every reachable state meets all its constraints, keys being unique,
   and every row's key names its identifier.
   */
  lemma TableAlwaysValid(env: Env, s: State, events: seq<Event>)
    requires EnvOk(env) && Initial(env, s)
    ensures var rows := Run(env, s, events).sh.rows;
            ValidTable(rows) && forall id | id in rows :: env.ownerOf(RowKey(env, id, rows[id])) == Some(id)
  {
    Reachable(env, s, events);
    TableValid(env, Run(env, s, events).sh);
  }

  lemma TableValid(env: Env, sh: Shared)
    requires EnvOk(env) && SharedInv(env, sh)
    ensures ValidTable(sh.rows) && forall id | id in sh.rows :: env.ownerOf(RowKey(env, id, sh.rows[id])) == Some(id)
  {
    forall id | id in sh.rows ensures env.ownerOf(RowKey(env, id, sh.rows[id])) == Some(id) {
      RowKeyParses(env, sh, id);
    }
  }

  function RowContentOf(row: Row): (Option<int>, Option<string>, Option<string>) {
    (row.size, row.sha, row.crc)
  }

  // ----------------------------------------------------------------- publication

  predicate BecomesAvailable(a: Shared, b: Shared, id: int) {
    id in a.rows && !a.rows[id].Available() && id in b.rows && b.rows[id].Available()
  }

  /** How often a run takes one identifier from pending to available. */
  function Publications(env: Env, s: State, events: seq<Event>, id: int): nat {
    if events == [] then 0
    else
      Publications(env, s, events[..|events| - 1], id)
      + if BecomesAvailable(Run(env, s, events[..|events| - 1]).sh, Run(env, s, events).sh, id) then 1 else 0
  }

  lemma PublicationStep(env: Env, s: State, e: Event, id: int)
    requires EnvOk(env) && Inv(env, s)
    ensures var b := Apply(env, s, e).sh;
            && (id in s.sh.published ==> id in b.published && b.published[id] == s.sh.published[id])
            && (BecomesAvailable(s.sh, b, id) <==> id in b.published && id !in s.sh.published)
  {
    ApplyGood(env, s, e);
  }

  lemma {:induction false} PublicationsCounted(env: Env, s: State, events: seq<Event>, id: int)
    requires EnvOk(env) && Inv(env, s)
    ensures var end := Run(env, s, events).sh;
            && (id in s.sh.published ==> id in end.published && end.published[id] == s.sh.published[id])
            && Publications(env, s, events, id) == if id in end.published && id !in s.sh.published then 1 else 0
  {
    if events != [] {
      var before := events[..|events| - 1];
      PublicationsCounted(env, s, before, id);
      RunGood(env, s, before);
      PublicationStep(env, Run(env, s, before), events[|events| - 1], id);
    }
  }

  /**
   All operations that return a published row of one identifier - finalizers,
   retried or concurrent, and writers - return the same row, and the run
   publishes that identifier at most once.
   */
  lemma FinalizersAgree(env: Env, s: State, events: seq<Event>, p: Pid, q: Pid)
    requires EnvOk(env) && Initial(env, s)
    requires p in Run(env, s, events).procs && q in Run(env, s, events).procs
    requires Run(env, s, events).procs[p].Returned? && Run(env, s, events).procs[q].Returned?
    requires Run(env, s, events).procs[p].id == Run(env, s, events).procs[q].id
    ensures Run(env, s, events).procs[p].row == Run(env, s, events).procs[q].row
    ensures Run(env, s, events).procs[p].row.Available()
    ensures Publications(env, s, events, Run(env, s, events).procs[p].id) <= 1
    ensures var id := Run(env, s, events).procs[p].id;
            var sh := Run(env, s, events).sh;
            id in sh.rows ==> sh.rows[id] == Run(env, s, events).procs[p].row
  {
    Reachable(env, s, events);
    InitialInv(env, s);
    PublicationsCounted(env, s, events, Run(env, s, events).procs[p].id);
    var t := Run(env, s, events);
    assert LocInv(env, t.sh, p, t.procs[p]) && LocInv(env, t.sh, q, t.procs[q]);
  }

  /** An operation that returned keeps its result for the rest of the run. */
  lemma {:induction false} ReturnedStays(env: Env, s: State, events: seq<Event>, p: Pid)
    requires p in s.procs && s.procs[p].Returned?
    ensures p in Run(env, s, events).procs && Run(env, s, events).procs[p] == s.procs[p]
  {
    if events != [] {
      ReturnedStays(env, s, events[..|events| - 1], p);
    }
  }

  /**
   `MarkAvailable` found no pending row to update and then reads the row again:
   it is published or not visible, so the case where it is still pending never
   happens.  A pending row that a finalizer refreshed always has its declaration.
   */
  lemma FallbackNeverPending(env: Env, s: State, events: seq<Event>, p: Pid, id: int)
    requires EnvOk(env) && Initial(env, s) && p in Run(env, s, events).procs
    requires var loc := Run(env, s, events).procs[p];
             loc == Finalizing(FinPublishGet(id)) || (exists row :: loc == Writing(PublishWriteGet(id, row)))
    ensures var current := GetByID(Run(env, s, events).sh.rows, id); current.None? || current.value.Available()
  {
    hide SharedInv, Apply, EnvOk, Initial;
    Reachable(env, s, events);
    var t := Run(env, s, events);
    assert LocInv(env, t.sh, p, t.procs[p]);
  }

  lemma PendingAlwaysDeclared(env: Env, s: State, events: seq<Event>, id: int)
    requires EnvOk(env) && Initial(env, s)
    requires var rows := Run(env, s, events).sh.rows; id in rows && rows[id].Pending()
    ensures Run(env, s, events).sh.rows[id].Declared()
  {
    Reachable(env, s, events);
    PendingSnapshot(env, Run(env, s, events).sh, id);
  }

  /**
   Publishing never meets another row with its key.  The table refuses it exactly
   when the row still records a multipart upload.
   */
  lemma RefusedOnlyWhileUploading(env: Env, s: State, events: seq<Event>, id: int, contentType: string)
    requires EnvOk(env) && Initial(env, s) && contentType != ""
    requires var rows := Run(env, s, events).sh.rows; id in rows && rows[id].Pending()
    ensures var sh := Run(env, s, events).sh;
            var key := RowKey(env, id, sh.rows[id]);
            && !KeyTaken(sh.rows, id, key)
            && (MarkAvailable(sh.rows, id, contentType, key, sh.now).CheckViolation? <==> sh.rows[id].upload.Some?)
            && (MarkAvailable(sh.rows, id, contentType, key, sh.now).Updated? <==> sh.rows[id].upload.None?)
  {
    Reachable(env, s, events);
    PublishableKey(env, Run(env, s, events).sh, id, contentType);
  }

  lemma PublishableKey(env: Env, sh: Shared, id: int, contentType: string)
    requires EnvOk(env) && SharedInv(env, sh) && id in sh.rows && sh.rows[id].Pending() && contentType != ""
    ensures var key := RowKey(env, id, sh.rows[id]);
            && !KeyTaken(sh.rows, id, key)
            && (MarkAvailable(sh.rows, id, contentType, key, sh.now).CheckViolation? <==> sh.rows[id].upload.Some?)
            && (MarkAvailable(sh.rows, id, contentType, key, sh.now).Updated? <==> sh.rows[id].upload.None?)
  {
  }

  // ------------------------------------------------------------------ references

  lemma ReferencedStep(env: Env, s: State, e: Event, id: int)
    requires EnvOk(env) && Inv(env, s) && id in s.sh.rows && s.sh.rows[id].Available() && id in s.sh.refs
    ensures id in Apply(env, s, e).sh.rows && Apply(env, s, e).sh.rows[id] == s.sh.rows[id]
  {
    hide LocInv, Apply, ByteFacts, UploadsForward, BytesForward, EnvOk;
    ApplyGood(env, s, e);
    assert RowStep(env, id, s.sh.rows[id], Apply(env, s, e).sh.rows[id]);
  }

  lemma {:induction false} ReferencedFrom(env: Env, s: State, events: seq<Event>, id: int)
    requires EnvOk(env) && Inv(env, s) && id in s.sh.rows && s.sh.rows[id].Available()
    requires forall k | 0 <= k < |events| :: id in Run(env, s, events[..k]).sh.refs
    ensures id in Run(env, s, events).sh.rows && Run(env, s, events).sh.rows[id] == s.sh.rows[id]
  {
    hide Inv, Apply, EnvOk;
    if events != [] {
      var before := events[..|events| - 1];
      assert forall k | 0 <= k < |before| :: before[..k] == events[..k];
      ReferencedFrom(env, s, before, id);
      assert id in Run(env, s, before).sh.refs;
      RunGood(env, s, before);
      ReferencedStep(env, Run(env, s, before), events[|events| - 1], id);
    }
  }

  /**
   A published object that stays referenced keeps its row and its bytes, through
   deletes, sweeps that listed it while it was still unreferenced, and a writer
   unwinding after a publish whose response was lost.
   */
  lemma ReferencedSurvives(env: Env, s: State, events: seq<Event>, later: seq<Event>, id: int)
    requires EnvOk(env) && Initial(env, s)
    requires id in Run(env, s, events).sh.rows && Run(env, s, events).sh.rows[id].Available()
    requires forall k | 0 <= k < |later| :: id in Run(env, Run(env, s, events), later[..k]).sh.refs
    ensures var a := Run(env, s, events).sh;
            var end := Run(env, Run(env, s, events), later).sh;
            && id in end.rows && end.rows[id] == a.rows[id]
            && Holds(env, end, id)
  {
    hide LocInv, Apply, EnvOk, Initial, Holds;
    Reachable(env, s, events);
    ReferencedFrom(env, Run(env, s, events), later, id);
    RunGood(env, Run(env, s, events), later);
  }

  // ------------------------------------------------------------------- multipart

  lemma SealedStep(env: Env, s: State, e: Event, u: string)
    requires EnvOk(env) && Inv(env, s) && Sealed(env, s.sh, u)
    ensures Sealed(env, Apply(env, s, e).sh, u)
    ensures var id := s.sh.recorded[u];
            && Apply(env, s, e).sh.recorded[u] == id
            && BirthKey(env, Apply(env, s, e).sh, id) == BirthKey(env, s.sh, id)
  {
    ApplyGood(env, s, e);
  }

  /** What an assembled object amounts to: still those bytes, or erased with its row dead. */
  ghost predicate Frozen(env: Env, sh: Shared, id: int, key: string, blob: Blob) {
    && id in sh.born && BirthKey(env, sh, id) == key
    && blob.via.Some? && Sealed(env, sh, blob.via.value) && sh.recorded[blob.via.value] == id
    && (if key in sh.objects then sh.objects[key] == blob else Dead(sh, id))
  }

  lemma FrozenStep(env: Env, s: State, e: Event, id: int, key: string, blob: Blob)
    requires EnvOk(env) && Inv(env, s) && Frozen(env, s.sh, id, key, blob)
    ensures Frozen(env, Apply(env, s, e).sh, id, key, blob)
  {
    hide LocInv, Apply, EnvOk, RowFacts;
    ApplyGood(env, s, e);
    SealedStep(env, s, e, blob.via.value);
    UnownedBirthDead(env, s.sh, id);
    if Dead(s.sh, id) {
      DeadStable(env, s.sh, Apply(env, s, e).sh, id);
    }
  }

  lemma {:induction false} FrozenFrom(env: Env, s: State, events: seq<Event>, id: int, key: string, blob: Blob)
    requires EnvOk(env) && Inv(env, s) && Frozen(env, s.sh, id, key, blob)
    ensures Frozen(env, Run(env, s, events).sh, id, key, blob)
  {
    hide Inv, Apply, EnvOk, Frozen;
    if events != [] {
      FrozenFrom(env, s, events[..|events| - 1], id, key, blob);
      RunGood(env, s, events[..|events| - 1]);
      FrozenStep(env, Run(env, s, events[..|events| - 1]), events[|events| - 1], id, key, blob);
    }
  }

  /**
   Once an upload has assembled the bytes of its object, no target, part,
   finalizer or stale completion changes them; they can only be erased, and
   only when the object's row is gone or expired for good.
   */
  lemma AssembledFrozen(env: Env, s: State, events: seq<Event>, later: seq<Event>, id: int)
    requires EnvOk(env) && Initial(env, s)
    requires var a := Run(env, s, events).sh;
             id in a.born && a.born[id].mode.Multipart? && BirthKey(env, a, id) in a.objects
    ensures var a := Run(env, s, events).sh;
            Frozen(env, Run(env, Run(env, s, events), later).sh, id, BirthKey(env, a, id),
                   a.objects[BirthKey(env, a, id)])
  {
    hide LocInv, Apply, EnvOk, Initial;
    Reachable(env, s, events);
    var a := Run(env, s, events);
    assert BlobOk(env, a.sh, id, a.sh.objects[BirthKey(env, a.sh, id)]);
    FrozenFrom(env, a, later, id, BirthKey(env, a.sh, id), a.sh.objects[BirthKey(env, a.sh, id)]);
  }

  lemma UnownedBirthDead(env: Env, sh: Shared, id: int)
    requires EnvOk(env) && SharedInv(env, sh) && id in sh.born
    ensures Unowned(env, sh, BirthKey(env, sh, id)) ==> Dead(sh, id)
  {
  }
}
