/**
 The machine's orphan sweep, left undisturbed: batch after batch it removes what
 filtering the whole listing would remove, as the replica's loops do.
 */
module SweepProgress {
  import opened Table
  import opened Storage
  import opened Protocol
  import opened Progress
  import opened Cleanup

  lemma {:induction false} DoomedAppend(env: Env, rows: Rows, a: seq<string>, b: seq<string>)
    ensures Doomed(env, rows, a + b) == Doomed(env, rows, a) + Doomed(env, rows, b)
  {
    if a == [] {
      assert a + b == b;
    } else {
      DoomedAppend(env, rows, a[1..], b);
      assert (a + b)[1..] == a[1..] + b;
    }
  }

  lemma {:induction false} DoomedShorter(env: Env, rows: Rows, keys: seq<string>)
    ensures |Doomed(env, rows, keys)| <= |keys|
  {
    if keys != [] {
      DoomedShorter(env, rows, keys[1..]);
    }
  }

  function Without(sh: Shared, keys: seq<string>): Shared {
    sh.(objects := sh.objects - (set key | key in keys))
  }

  lemma AloneNext(env: Env, sh: Shared, pid: Pid, loc: Loc, cs: seq<Choice>, next: Shared, at: Loc)
    requires cs != [] && Call(env, sh, pid, loc, cs[0]) == (next, at)
    ensures Alone(env, sh, pid, loc, cs) == Alone(env, next, pid, at, cs[1..])
  {
  }

  lemma DeleteStep(env: Env, sh: Shared, pid: Pid, doomed: seq<string>, keys: seq<string>, c: Choice)
    ensures Call(env, sh, pid, Sweeping(ObjectDelete(doomed, keys)), c)
            == if doomed == [] then (sh, Sweeping(ObjectLookup(keys)))
               else (EraseBlob(sh, doomed[0]), Sweeping(ObjectDelete(doomed[1..], keys)))
  {
  }

  lemma LookupStep(env: Env, sh: Shared, pid: Pid, keys: seq<string>, c: Choice)
    ensures Call(env, sh, pid, Sweeping(ObjectLookup(keys)), c)
            == (sh, if keys == [] then Finished
                    else Sweeping(ObjectDelete(Doomed(env, sh.rows, Batch(keys)), Rest(keys))))
  {
  }

  lemma WithoutBoth(sh: Shared, a: seq<string>, b: seq<string>)
    ensures Without(Without(sh, a), b) == Without(sh, a + b) && Without(sh, a).rows == sh.rows
  {
  }

  lemma WithoutFirst(sh: Shared, keys: seq<string>)
    ensures if keys == [] then Without(sh, keys) == sh
            else Without(EraseBlob(sh, keys[0]), keys[1..]) == Without(sh, keys)
  {
  }

  /** Deleting one batch's doomed keys, one call each. */
  lemma {:induction false} DeletesAlone(env: Env, sh: Shared, pid: Pid, doomed: seq<string>, keys: seq<string>,
                                        cs: seq<Choice>)
    requires |cs| > |doomed|
    ensures Alone(env, sh, pid, Sweeping(ObjectDelete(doomed, keys)), cs)
            == Alone(env, Without(sh, doomed), pid, Sweeping(ObjectLookup(keys)), cs[|doomed| + 1..])
    decreases |doomed|
  {
    hide Call, Alone, Without, EraseBlob;
    DeleteStep(env, sh, pid, doomed, keys, cs[0]);
    WithoutFirst(sh, doomed);
    if doomed == [] {
      AloneNext(env, sh, pid, Sweeping(ObjectDelete(doomed, keys)), cs, sh, Sweeping(ObjectLookup(keys)));
    } else {
      AloneNext(env, sh, pid, Sweeping(ObjectDelete(doomed, keys)), cs, EraseBlob(sh, doomed[0]),
                Sweeping(ObjectDelete(doomed[1..], keys)));
      DeletesAlone(env, EraseBlob(sh, doomed[0]), pid, doomed[1..], keys, cs[1..]);
      assert cs[1..][|doomed[1..]| + 1..] == cs[|doomed| + 1..];
    }
  }

  /** Batches of a hundred remove exactly what the filter of the whole listing names. */
  lemma {:induction false} DrainAlone(env: Env, sh: Shared, pid: Pid, keys: seq<string>, cs: seq<Choice>)
    requires |cs| >= 3 * |keys| + 1
    ensures Alone(env, sh, pid, Sweeping(ObjectLookup(keys)), cs) == (Without(sh, Doomed(env, sh.rows, keys)), Finished)
    decreases |keys|
  {
    hide Call, Alone, Without;
    LookupStep(env, sh, pid, keys, cs[0]);
    if keys == [] {
      WithoutFirst(sh, []);
      AloneNext(env, sh, pid, Sweeping(ObjectLookup(keys)), cs, sh, Finished);
      Rests(env, sh, pid, Finished, cs[1..]);
    } else {
      hide Doomed;
      AloneNext(env, sh, pid, Sweeping(ObjectLookup(keys)), cs, sh,
                Sweeping(ObjectDelete(Doomed(env, sh.rows, Batch(keys)), Rest(keys))));
      var batch, rest := Batch(keys), Rest(keys);
      var doomed := Doomed(env, sh.rows, batch);
      DoomedShorter(env, sh.rows, batch);
      assert keys == batch + rest;
      DoomedAppend(env, sh.rows, batch, rest);
      DeletesAlone(env, sh, pid, doomed, rest, cs[1..]);
      WithoutBoth(sh, doomed, Doomed(env, sh.rows, rest));
      DrainAlone(env, Without(sh, doomed), pid, rest, cs[1..][|doomed| + 1..]);
    }
  }

  /**
   From any reachable state, an undisturbed drain of a listing ends, and every
   listed key that is left and names an identifier is the key of a visible row,
   while no key of a visible row lost its bytes.
   */
  lemma DrainLeavesOnlyOwned(env: Env, s: State, events: seq<Event>, pid: Pid, keys: seq<string>, cs: seq<Choice>)
    requires |cs| >= 3 * |keys| + 1
    requires var t := Run(env, s, events); pid in t.procs && t.procs[pid] == Sweeping(ObjectLookup(keys))
    ensures var t := Run(env, s, events);
            var end := Run(env, t, Undisturbed(pid, cs));
            && end.procs == t.procs[pid := Finished] && end.sh.rows == t.sh.rows
            && (forall key | key in keys && key in end.sh.objects && env.ownerOf(key).Some? ::
                  OwnedKey(env, end.sh.rows, key))
            && (forall key | key in t.sh.objects && (key !in keys || !Removable(env, t.sh.rows, key)) ::
                  key in end.sh.objects && end.sh.objects[key] == t.sh.objects[key])
  {
    hide Apply, Alone, OwnedKey;
    var t := Run(env, s, events);
    AloneIsRun(env, t, pid, cs);
    DrainAlone(env, t.sh, pid, keys, cs);
    forall key ensures key in Doomed(env, t.sh.rows, keys) <==> key in keys && Removable(env, t.sh.rows, key) {
      DoomedExactly(env, t.sh.rows, keys, key);
    }
  }

  /** What the replica's nested loops leave is what the machine's steps leave. */
  lemma LoopsRefineDrain(env: Env, sh: Shared, pid: Pid, keys: seq<string>, left: map<string, Blob>, cs: seq<Choice>)
    requires |cs| >= 3 * |keys| + 1
    requires forall key :: key in left <==>
               key in sh.objects
                 && !(exists i :: 0 <= i < |keys| && keys[i] == key && Swept(env, sh.rows, keys, _ => true, {}, i))
    requires forall key | key in left :: left[key] == sh.objects[key]
    ensures Alone(env, sh, pid, Sweeping(ObjectLookup(keys)), cs) == (sh.(objects := left), Finished)
  {
    hide Alone, Doomed, OwnedKey;
    DrainAlone(env, sh, pid, keys, cs);
    forall key
      ensures key in Doomed(env, sh.rows, keys)
              <==> exists i :: 0 <= i < |keys| && keys[i] == key && Swept(env, sh.rows, keys, _ => true, {}, i)
    {
      DoomedExactly(env, sh.rows, keys, key);
      if key in keys && Removable(env, sh.rows, key) {
        var i :| 0 <= i < |keys| && keys[i] == key;
        assert Swept(env, sh.rows, keys, _ => true, {}, i);
      }
    }
    assert Without(sh, Doomed(env, sh.rows, keys)).objects == left;
  }

  // -------------------------------------------------------------------- uploads

  lemma {:induction false} OrphansAppend(env: Env, rows: Rows, a: seq<Listed>, b: seq<Listed>)
    ensures Orphans(env, rows, a + b) == Orphans(env, rows, a) + Orphans(env, rows, b)
  {
    if a == [] {
      assert a + b == b;
    } else {
      OrphansAppend(env, rows, a[1..], b);
      assert (a + b)[1..] == a[1..] + b;
    }
  }

  /** The machine's filter keeps exactly the listed uploads that no visible row owns. */
  lemma {:induction false} OrphansExactly(env: Env, rows: Rows, listed: seq<Listed>)
    ensures |Orphans(env, rows, listed)| <= |listed|
    ensures forall item :: item in Orphans(env, rows, listed) <==> item in listed && !OwnedUpload(env, rows, item)
  {
    if listed != [] {
      OrphansExactly(env, rows, listed[1..]);
    }
  }

  /** The shared state after these uploads were aborted, one after the other. */
  function Aborting(sh: Shared, items: seq<Listed>): Shared
    decreases |items|
  {
    if items == [] then sh else Aborting(CloseUpload(sh, items[0].key, items[0].upload), items[1..])
  }

  /** Exactly the uploads that are open under one of these names are gone. */
  lemma {:induction false} AbortingExactly(sh: Shared, items: seq<Listed>)
    ensures var b := Aborting(sh, items);
            && b == sh.(uploads := b.uploads)
            && (forall u :: u in b.uploads <==> u in sh.uploads && Listed(sh.uploads[u].key, u) !in items)
            && (forall u | u in b.uploads :: b.uploads[u] == sh.uploads[u])
    decreases |items|
  {
    if items != [] {
      AbortingExactly(CloseUpload(sh, items[0].key, items[0].upload), items[1..]);
      assert items == [items[0]] + items[1..];
    }
  }

  lemma AbortStep(env: Env, sh: Shared, pid: Pid, start: Time, orphans: seq<Listed>, listed: seq<Listed>, c: Choice)
    ensures Call(env, sh, pid, Sweeping(UploadAbort(start, orphans, listed)), c)
            == if orphans == [] then (sh, Sweeping(UploadLookup(start, listed)))
               else (CloseUpload(sh, orphans[0].key, orphans[0].upload),
                     Sweeping(UploadAbort(start, orphans[1..], listed)))
  {
    hide CallCreate, CallWrite, CallFinalize, CallPart, CallRemove;
  }

  lemma UploadLookupStep(env: Env, sh: Shared, pid: Pid, start: Time, listed: seq<Listed>, c: Choice)
    ensures Call(env, sh, pid, Sweeping(UploadLookup(start, listed)), c)
            == (sh, if listed == [] then Finished
                    else Sweeping(UploadAbort(start, Orphans(env, sh.rows, Batch(listed)), Rest(listed))))
  {
    hide CallCreate, CallWrite, CallFinalize, CallPart, CallRemove, Orphans, Batch, Rest;
  }

  lemma {:induction false} AbortingBoth(sh: Shared, a: seq<Listed>, b: seq<Listed>)
    ensures Aborting(Aborting(sh, a), b) == Aborting(sh, a + b) && Aborting(sh, a).rows == sh.rows
    decreases |a|
  {
    hide CloseUpload;
    if a == [] {
      assert a + b == b;
    } else {
      var closed := CloseUpload(sh, a[0].key, a[0].upload);
      AbortingBoth(closed, a[1..], b);
      assert (a + b)[1..] == a[1..] + b && (a + b)[0] == a[0];
      assert closed.rows == sh.rows by {
        ClosedRows(sh, a[0]);
      }
    }
  }

  lemma ClosedRows(sh: Shared, item: Listed)
    ensures CloseUpload(sh, item.key, item.upload).rows == sh.rows
  {
  }

  /** Aborting one batch's orphans, one call each. */
  lemma {:induction false} AbortsAlone(env: Env, sh: Shared, pid: Pid, start: Time, orphans: seq<Listed>,
                                       listed: seq<Listed>, cs: seq<Choice>)
    requires |cs| > |orphans|
    ensures Alone(env, sh, pid, Sweeping(UploadAbort(start, orphans, listed)), cs)
            == Alone(env, Aborting(sh, orphans), pid, Sweeping(UploadLookup(start, listed)), cs[|orphans| + 1..])
    decreases |orphans|
  {
    hide Call, Alone, CloseUpload;
    AbortStep(env, sh, pid, start, orphans, listed, cs[0]);
    var at := Sweeping(UploadAbort(start, orphans, listed));
    if orphans == [] {
      AloneNext(env, sh, pid, at, cs, sh, Sweeping(UploadLookup(start, listed)));
    } else {
      var closed := CloseUpload(sh, orphans[0].key, orphans[0].upload);
      AloneNext(env, sh, pid, at, cs, closed, Sweeping(UploadAbort(start, orphans[1..], listed)));
      AbortsAlone(env, closed, pid, start, orphans[1..], listed, cs[1..]);
      assert cs[1..][|orphans[1..]| + 1..] == cs[|orphans| + 1..];
    }
  }

  /** Batches of a hundred abort exactly what the filter of the whole listing names. */
  lemma {:induction false} DrainUploadsAlone(env: Env, sh: Shared, pid: Pid, start: Time, listed: seq<Listed>,
                                             cs: seq<Choice>)
    requires |cs| >= 3 * |listed| + 1
    ensures Alone(env, sh, pid, Sweeping(UploadLookup(start, listed)), cs)
            == (Aborting(sh, Orphans(env, sh.rows, listed)), Finished)
    decreases |listed|
  {
    hide Call, Alone;
    UploadLookupStep(env, sh, pid, start, listed, cs[0]);
    if listed == [] {
      AloneNext(env, sh, pid, Sweeping(UploadLookup(start, listed)), cs, sh, Finished);
      Rests(env, sh, pid, Finished, cs[1..]);
    } else {
      hide Orphans, Aborting;
      var batch, rest := Batch(listed), Rest(listed);
      var orphans := Orphans(env, sh.rows, batch);
      AloneNext(env, sh, pid, Sweeping(UploadLookup(start, listed)), cs, sh,
                Sweeping(UploadAbort(start, orphans, rest)));
      OrphansExactly(env, sh.rows, batch);
      assert listed == batch + rest;
      OrphansAppend(env, sh.rows, batch, rest);
      AbortsAlone(env, sh, pid, start, orphans, rest, cs[1..]);
      AbortingBoth(sh, orphans, Orphans(env, sh.rows, rest));
      DrainUploadsAlone(env, Aborting(sh, orphans), pid, start, rest, cs[1..][|orphans| + 1..]);
    }
  }

  /**
   From any reachable state, an undisturbed drain of an upload listing ends, every
   listed upload that is still open is recorded on a visible row, and no other
   upload is touched.
   */
  lemma DrainLeavesOnlyRecorded(env: Env, s: State, events: seq<Event>, pid: Pid, start: Time, listed: seq<Listed>,
                                cs: seq<Choice>)
    requires |cs| >= 3 * |listed| + 1
    requires var t := Run(env, s, events); pid in t.procs && t.procs[pid] == Sweeping(UploadLookup(start, listed))
    ensures var t := Run(env, s, events);
            var end := Run(env, t, Undisturbed(pid, cs));
            && end.procs == t.procs[pid := Finished] && end.sh == t.sh.(uploads := end.sh.uploads)
            && (forall u | u in end.sh.uploads && Listed(end.sh.uploads[u].key, u) in listed ::
                  OwnedUpload(env, end.sh.rows, Listed(end.sh.uploads[u].key, u)))
            && (forall u | u in t.sh.uploads && (Listed(t.sh.uploads[u].key, u) !in listed
                                                 || OwnedUpload(env, t.sh.rows, Listed(t.sh.uploads[u].key, u))) ::
                  u in end.sh.uploads && end.sh.uploads[u] == t.sh.uploads[u])
  {
    hide Apply, Alone, OwnedUpload, Aborting;
    var t := Run(env, s, events);
    AloneIsRun(env, t, pid, cs);
    DrainUploadsAlone(env, t.sh, pid, start, listed, cs);
    OrphansExactly(env, t.sh.rows, listed);
    AbortingExactly(t.sh, Orphans(env, t.sh.rows, listed));
  }

  /** What the replica's nested loops over uploads leave is what the machine's steps leave. */
  lemma LoopsRefineUploadDrain(env: Env, sh: Shared, pid: Pid, start: Time, listed: seq<Listed>,
                               left: map<string, Upload>, cs: seq<Choice>)
    requires |cs| >= 3 * |listed| + 1
    requires forall u :: u in left <==>
               u in sh.uploads
               && !(exists i :: 0 <= i < |listed| && listed[i] == Listed(sh.uploads[u].key, u)
                                && Aborted(env, sh.rows, listed, _ => true, {}, i))
    requires forall u | u in left :: left[u] == sh.uploads[u]
    ensures Alone(env, sh, pid, Sweeping(UploadLookup(start, listed)), cs) == (sh.(uploads := left), Finished)
  {
    hide Alone, Orphans, OwnedUpload, Aborting;
    DrainUploadsAlone(env, sh, pid, start, listed, cs);
    OrphansExactly(env, sh.rows, listed);
    forall u | u in sh.uploads
      ensures u in left <==> Listed(sh.uploads[u].key, u) !in Orphans(env, sh.rows, listed)
    {
      var item := Listed(sh.uploads[u].key, u);
      if item in listed {
        var i :| 0 <= i < |listed| && listed[i] == item;
        assert Aborted(env, sh.rows, listed, _ => true, {}, i) <==> !OwnedUpload(env, sh.rows, item);
      }
    }
    AbortingExactly(sh, Orphans(env, sh.rows, listed));
    assert Aborting(sh, Orphans(env, sh.rows, listed)).uploads == left;
  }
}
