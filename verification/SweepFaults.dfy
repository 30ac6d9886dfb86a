/**
 Sweeps whose calls fail: a lookup that fails costs its batch, a delete that fails
 costs its key, and a claimed row is dropped only after its bytes went.
 */
module SweepFaults {
  import opened Table
  import opened Storage
  import opened Protocol
  import opened Invariant
  import opened Migration
  import opened Safety
  import opened Progress
  import opened Cleanup
  import opened SweepProgress
  import opened RemovalProgress

  // ---------------------------------------------------------------- in columns

  /**
   From every reachable state an undisturbed drain takes, of the keys it listed, those
   that name an identifier and are in use by no row that has not expired.
   */
  lemma DrainLeavesInUse(env: Env, s: State, events: seq<Event>, pid: Pid, keys: seq<string>, cs: seq<Choice>)
    requires Storage.EnvOk(env) && Initial(env, s) && |cs| >= 3 * |keys| + 1
    requires var t := Run(env, s, events); pid in t.procs && t.procs[pid] == Sweeping(ObjectLookup(keys))
    ensures var t := Run(env, s, events);
            var end := Run(env, t, Undisturbed(pid, cs));
            && end == State(t.sh.(objects := end.sh.objects), t.procs[pid := Finished])
            && (forall key | key in t.sh.objects ::
                  key in end.sh.objects <==> key !in keys || env.ownerOf(key).None? || InUse(env, t.sh.rows, key))
            && (forall key | key in end.sh.objects :: key in t.sh.objects && end.sh.objects[key] == t.sh.objects[key])
  {
    hide Apply, Alone, OwnedKey, InUse, Inv, EnvOk, Initial;
    var t := Run(env, s, events);
    Reachable(env, s, events);
    TableNamesRows(env, t);
    AloneIsRun(env, t, pid, cs);
    DrainAlone(env, t.sh, pid, keys, cs);
    forall key
      ensures key in Doomed(env, t.sh.rows, keys)
              <==> key in keys && env.ownerOf(key).Some? && !InUse(env, t.sh.rows, key)
    {
      DoomedExactly(env, t.sh.rows, keys, key);
      OwnedExactly(env, t.sh.rows, key, "");
    }
  }

  lemma TableNamesRows(env: Env, s: State)
    requires Storage.EnvOk(env) && Inv(env, s)
    ensures KeysNameRows(env, s.sh.rows)
  {
    hide SharedInv, EnvOk;
    TableValid(env, s.sh);
  }

  /** And of the open uploads it listed, those that no row in use records. */
  lemma DrainLeavesRecorded(env: Env, s: State, events: seq<Event>, pid: Pid, start: Time, listed: seq<Listed>,
                            cs: seq<Choice>)
    requires Storage.EnvOk(env) && Initial(env, s) && |cs| >= 3 * |listed| + 1
    requires var t := Run(env, s, events); pid in t.procs && t.procs[pid] == Sweeping(UploadLookup(start, listed))
    ensures var t := Run(env, s, events);
            var end := Run(env, t, Undisturbed(pid, cs));
            && end == State(t.sh.(uploads := end.sh.uploads), t.procs[pid := Finished])
            && (forall u | u in t.sh.uploads ::
                  u in end.sh.uploads
                  <==> Listed(t.sh.uploads[u].key, u) !in listed || UploadInUse(env, t.sh.rows, t.sh.uploads[u].key, u))
            && (forall u | u in end.sh.uploads :: u in t.sh.uploads && end.sh.uploads[u] == t.sh.uploads[u])
  {
    hide Apply, Alone, OwnedUpload, UploadInUse, Inv, EnvOk, Initial, Aborting, Orphans;
    var t := Run(env, s, events);
    Reachable(env, s, events);
    TableNamesRows(env, t);
    AloneIsRun(env, t, pid, cs);
    DrainUploadsAlone(env, t.sh, pid, start, listed, cs);
    OrphansExactly(env, t.sh.rows, listed);
    AbortingExactly(t.sh, Orphans(env, t.sh.rows, listed));
    forall u | u in t.sh.uploads
      ensures OwnedUpload(env, t.sh.rows, Listed(t.sh.uploads[u].key, u))
              <==> UploadInUse(env, t.sh.rows, t.sh.uploads[u].key, u)
    {
      OwnedExactly(env, t.sh.rows, t.sh.uploads[u].key, u);
    }
  }

  // ------------------------------------------------------- failing object sweeps

  /** The fates of one batch's deletes: those of broken keys fail before their effect. */
  function DeleteFates(doomed: seq<string>, broken: set<string>): seq<Fault> {
    seq(|doomed|, i requires 0 <= i < |doomed| => if doomed[i] in broken then FailBefore else NoFault)
  }

  function Unbroken(doomed: seq<string>, broken: set<string>): seq<string> {
    if doomed == [] then []
    else (if doomed[0] in broken then [] else [doomed[0]]) + Unbroken(doomed[1..], broken)
  }

  /** The fates of a whole drain: the lookup of a batch that does not resolve fails. */
  function DrainFates(env: Env, rows: Rows, keys: seq<string>, resolves: nat -> bool, broken: set<string>, batch: nat)
    : seq<Fault>
    decreases |keys|
  {
    if keys == [] then [NoFault]
    else
      (if !resolves(batch) then [FailBefore]
       else [NoFault] + DeleteFates(Doomed(env, rows, Batch(keys)), broken) + [NoFault])
      + DrainFates(env, rows, Rest(keys), resolves, broken, batch + 1)
  }

  /** The keys that such a drain takes. */
  function Taken(env: Env, rows: Rows, keys: seq<string>, resolves: nat -> bool, broken: set<string>, batch: nat)
    : seq<string>
    decreases |keys|
  {
    if keys == [] then []
    else
      (if resolves(batch) then Unbroken(Doomed(env, rows, Batch(keys)), broken) else [])
      + Taken(env, rows, Rest(keys), resolves, broken, batch + 1)
  }

  lemma {:induction false} DeletesFated(env: Env, sh: Shared, pid: Pid, doomed: seq<string>, keys: seq<string>,
                                        broken: set<string>, faults: seq<Fault>, choice: Choice)
    ensures Fated(env, sh, pid, Sweeping(ObjectDelete(doomed, keys)), DeleteFates(doomed, broken) + [NoFault] + faults,
                  choice)
            == Fated(env, Without(sh, Unbroken(doomed, broken)), pid, Sweeping(ObjectLookup(keys)), faults, choice)
    decreases |doomed|
  {
    hide Call, Fated, Without, EraseBlob;
    var all := DeleteFates(doomed, broken) + [NoFault] + faults;
    var at := Sweeping(ObjectDelete(doomed, keys));
    DeleteStep(env, sh, pid, doomed, keys, choice);
    if doomed == [] {
      WithoutFirst(sh, []);
      FatedNext(env, sh, pid, at, all, choice, sh, Sweeping(ObjectLookup(keys)));
      assert all[1..] == faults;
    } else {
      var rest := Sweeping(ObjectDelete(doomed[1..], keys));
      var next := if doomed[0] in broken then sh else EraseBlob(sh, doomed[0]);
      DeleteFails(env, doomed, keys);
      FatedNext(env, sh, pid, at, all, choice, next, rest);
      assert all[1..] == DeleteFates(doomed[1..], broken) + [NoFault] + faults;
      DeletesFated(env, next, pid, doomed[1..], keys, broken, faults, choice);
      var kept := Unbroken(doomed[1..], broken);
      if doomed[0] !in broken {
        WithoutFirst(sh, [doomed[0]] + kept);
        assert ([doomed[0]] + kept)[1..] == kept;
      } else {
        assert [] + kept == kept;
      }
    }
  }

  lemma DeleteFails(env: Env, doomed: seq<string>, keys: seq<string>)
    requires doomed != []
    ensures OnError(env, Sweeping(ObjectDelete(doomed, keys))) == Sweeping(ObjectDelete(doomed[1..], keys))
  {
  }

  lemma LookupFails(env: Env, keys: seq<string>)
    ensures OnError(env, Sweeping(ObjectLookup(keys))) == Sweeping(ObjectLookup(Rest(keys)))
  {
  }

  /** The machine's drain under these fates takes those keys and ends. */
  lemma {:induction false} DrainFated(env: Env, sh: Shared, pid: Pid, keys: seq<string>, resolves: nat -> bool,
                                      broken: set<string>, batch: nat, choice: Choice)
    ensures Fated(env, sh, pid, Sweeping(ObjectLookup(keys)),
                  DrainFates(env, sh.rows, keys, resolves, broken, batch), choice)
            == (Without(sh, Taken(env, sh.rows, keys, resolves, broken, batch)), Finished)
    decreases |keys|
  {
    hide Call, Fated, Without, Doomed, OnError, DeleteFates, Unbroken;
    var at, faults := Sweeping(ObjectLookup(keys)), DrainFates(env, sh.rows, keys, resolves, broken, batch);
    LookupStep(env, sh, pid, keys, choice);
    if keys == [] {
      WithoutFirst(sh, []);
      FatedNext(env, sh, pid, at, faults, choice, sh, Finished);
      FatedEnd(env, sh, pid, Finished, choice);
      assert faults[1..] == [];
    } else {
      var later := DrainFates(env, sh.rows, Rest(keys), resolves, broken, batch + 1);
      var rest := Taken(env, sh.rows, Rest(keys), resolves, broken, batch + 1);
      if !resolves(batch) {
        LookupFails(env, keys);
        FatedNext(env, sh, pid, at, faults, choice, sh, Sweeping(ObjectLookup(Rest(keys))));
        assert faults[1..] == later;
        assert [] + rest == rest;
        DrainFated(env, sh, pid, Rest(keys), resolves, broken, batch + 1, choice);
      } else {
        var doomed := Doomed(env, sh.rows, Batch(keys));
        var taken := Unbroken(doomed, broken);
        FatedNext(env, sh, pid, at, faults, choice, sh, Sweeping(ObjectDelete(doomed, Rest(keys))));
        assert faults[1..] == DeleteFates(doomed, broken) + [NoFault] + later;
        DeletesFated(env, sh, pid, doomed, Rest(keys), broken, later, choice);
        WithoutBoth(sh, taken, rest);
        DrainFated(env, Without(sh, taken), pid, Rest(keys), resolves, broken, batch + 1, choice);
      }
    }
  }

  lemma {:induction false} UnbrokenExactly(doomed: seq<string>, broken: set<string>, key: string)
    ensures key in Unbroken(doomed, broken) <==> key in doomed && key !in broken
  {
    if doomed != [] {
      UnbrokenExactly(doomed[1..], broken, key);
    }
  }

  /** A key is taken exactly if it stands in a batch that resolves, is removable, and its delete works. */
  lemma {:induction false} TakenExactly(env: Env, rows: Rows, keys: seq<string>, resolves: nat -> bool,
                                        broken: set<string>, batch: nat, key: string)
    ensures key in Taken(env, rows, keys, resolves, broken, batch)
            <==> Removable(env, rows, key) && key !in broken && Resolved(keys, resolves, batch, key)
    decreases |keys|
  {
    hide OwnedKey, Doomed, Unbroken;
    assert keys == [] ==> !Resolved(keys, resolves, batch, key);
    if keys != [] {
      hide Resolved;
      var first, rest := Batch(keys), Rest(keys);
      TakenExactly(env, rows, rest, resolves, broken, batch + 1, key);
      UnbrokenExactly(Doomed(env, rows, first), broken, key);
      DoomedExactly(env, rows, first, key);
      InBatches(keys, resolves, batch, key);
    }
  }

  lemma NextBatch(i: nat)
    ensures (i + CLEANUP_BATCH) / CLEANUP_BATCH == i / CLEANUP_BATCH + 1
            && (i < CLEANUP_BATCH ==> i / CLEANUP_BATCH == 0)
  {
  }

  /** The item stands in a batch whose lookup works. */
  ghost predicate Resolved<T>(keys: seq<T>, resolves: nat -> bool, batch: nat, key: T) {
    exists i :: 0 <= i < |keys| && keys[i] == key && resolves(batch + i / CLEANUP_BATCH)
  }

  lemma FirstBatch<T>(keys: seq<T>, resolves: nat -> bool, batch: nat, key: T)
    requires resolves(batch) && key in Batch(keys)
    ensures Resolved(keys, resolves, batch, key)
  {
    var i :| 0 <= i < |Batch(keys)| && Batch(keys)[i] == key;
    NextBatch(i);
    assert keys[i] == key;
  }

  lemma LaterBatch<T>(keys: seq<T>, resolves: nat -> bool, batch: nat, key: T)
    requires Resolved(Rest(keys), resolves, batch + 1, key)
    ensures Resolved(keys, resolves, batch, key)
  {
    var i :| 0 <= i < |Rest(keys)| && Rest(keys)[i] == key && resolves(batch + 1 + i / CLEANUP_BATCH);
    NextBatch(i);
    assert keys[i + CLEANUP_BATCH] == key;
  }

  lemma InBatches<T>(keys: seq<T>, resolves: nat -> bool, batch: nat, key: T)
    requires keys != []
    ensures Resolved(keys, resolves, batch, key)
            <==> (resolves(batch) && key in Batch(keys)) || Resolved(Rest(keys), resolves, batch + 1, key)
  {
    if resolves(batch) && key in Batch(keys) {
      FirstBatch(keys, resolves, batch, key);
    }
    if Resolved(Rest(keys), resolves, batch + 1, key) {
      LaterBatch(keys, resolves, batch, key);
    }
    if Resolved(keys, resolves, batch, key) {
      var i :| 0 <= i < |keys| && keys[i] == key && resolves(batch + i / CLEANUP_BATCH);
      if i < CLEANUP_BATCH {
        NextBatch(i);
        assert Batch(keys)[i] == key;
      } else {
        NextBatch(i - CLEANUP_BATCH);
        assert Rest(keys)[i - CLEANUP_BATCH] == key;
      }
    }
  }

  /**
   What the replica's nested loops leave under any pattern of failed lookups and failed
   deletes is what the machine's steps leave under the same failures.
   */
  lemma LoopsRefineFailingDrain(env: Env, sh: Shared, pid: Pid, keys: seq<string>, resolves: nat -> bool,
                                broken: set<string>, left: map<string, Blob>, choice: Choice)
    requires forall key :: key in left <==>
               key in sh.objects
                 && !(exists i :: 0 <= i < |keys| && keys[i] == key && Swept(env, sh.rows, keys, resolves, broken, i))
    requires forall key | key in left :: left[key] == sh.objects[key]
    ensures Fated(env, sh, pid, Sweeping(ObjectLookup(keys)),
                  DrainFates(env, sh.rows, keys, resolves, broken, 0), choice)
            == (sh.(objects := left), Finished)
  {
    hide Fated, DrainFates, Taken, OwnedKey;
    DrainFated(env, sh, pid, keys, resolves, broken, 0, choice);
    var taken := Taken(env, sh.rows, keys, resolves, broken, 0);
    forall key
      ensures key in taken
              <==> exists i :: 0 <= i < |keys| && keys[i] == key && Swept(env, sh.rows, keys, resolves, broken, i)
    {
      TakenExactly(env, sh.rows, keys, resolves, broken, 0, key);
      forall i | 0 <= i < |keys| && keys[i] == key
        ensures Swept(env, sh.rows, keys, resolves, broken, i)
                <==> resolves(i / CLEANUP_BATCH) && Removable(env, sh.rows, key) && key !in broken
      {
      }
    }
    assert Without(sh, taken).objects == left;
  }

  // ------------------------------------------------------- failing upload sweeps

  function AbortFates(orphans: seq<Listed>, broken: set<string>): seq<Fault> {
    seq(|orphans|, i requires 0 <= i < |orphans| => if orphans[i].upload in broken then FailBefore else NoFault)
  }

  function UnbrokenUploads(orphans: seq<Listed>, broken: set<string>): seq<Listed> {
    if orphans == [] then []
    else (if orphans[0].upload in broken then [] else [orphans[0]]) + UnbrokenUploads(orphans[1..], broken)
  }

  function UploadFates(env: Env, rows: Rows, listed: seq<Listed>, resolves: nat -> bool, broken: set<string>,
                       batch: nat)
    : seq<Fault>
    decreases |listed|
  {
    if listed == [] then [NoFault]
    else
      (if !resolves(batch) then [FailBefore]
       else [NoFault] + AbortFates(Orphans(env, rows, Batch(listed)), broken) + [NoFault])
      + UploadFates(env, rows, Rest(listed), resolves, broken, batch + 1)
  }

  /** The uploads that a drain under such fates aborts. */
  function TakenUploads(env: Env, rows: Rows, listed: seq<Listed>, resolves: nat -> bool, broken: set<string>,
                        batch: nat): seq<Listed>
    decreases |listed|
  {
    if listed == [] then []
    else
      (if resolves(batch) then UnbrokenUploads(Orphans(env, rows, Batch(listed)), broken) else [])
      + TakenUploads(env, rows, Rest(listed), resolves, broken, batch + 1)
  }

  lemma UploadErrors(env: Env, start: Time, orphans: seq<Listed>, listed: seq<Listed>)
    ensures orphans != [] ==>
              OnError(env, Sweeping(UploadAbort(start, orphans, listed)))
              == Sweeping(UploadAbort(start, orphans[1..], listed))
    ensures OnError(env, Sweeping(UploadLookup(start, listed))) == Sweeping(UploadLookup(start, Rest(listed)))
  {
  }

  lemma {:induction false} AbortsFated(env: Env, sh: Shared, pid: Pid, start: Time, orphans: seq<Listed>,
                                       listed: seq<Listed>, broken: set<string>, faults: seq<Fault>, choice: Choice)
    ensures Fated(env, sh, pid, Sweeping(UploadAbort(start, orphans, listed)),
                  AbortFates(orphans, broken) + [NoFault] + faults, choice)
            == Fated(env, Aborting(sh, UnbrokenUploads(orphans, broken)), pid, Sweeping(UploadLookup(start, listed)),
                     faults, choice)
    decreases |orphans|
  {
    hide Call, OnError, Fated, CloseUpload;
    var all := AbortFates(orphans, broken) + [NoFault] + faults;
    var at := Sweeping(UploadAbort(start, orphans, listed));
    AbortStep(env, sh, pid, start, orphans, listed, choice);
    if orphans == [] {
      FatedNext(env, sh, pid, at, all, choice, sh, Sweeping(UploadLookup(start, listed)));
      assert all[1..] == faults;
    } else {
      var first, rest := orphans[0], orphans[1..];
      var next := if first.upload in broken then sh else CloseUpload(sh, first.key, first.upload);
      UploadErrors(env, start, orphans, listed);
      FatedNext(env, sh, pid, at, all, choice, next, Sweeping(UploadAbort(start, rest, listed)));
      assert all[1..] == AbortFates(rest, broken) + [NoFault] + faults;
      AbortsFated(env, next, pid, start, rest, listed, broken, faults, choice);
      var kept := UnbrokenUploads(rest, broken);
      assert ([first] + kept)[1..] == kept && [] + kept == kept;
    }
  }

  /** The machine's drain under these fates aborts those uploads and ends. */
  lemma {:induction false} UploadsFated(env: Env, sh: Shared, pid: Pid, start: Time, listed: seq<Listed>,
                                        resolves: nat -> bool, broken: set<string>, batch: nat, choice: Choice)
    ensures Fated(env, sh, pid, Sweeping(UploadLookup(start, listed)),
                  UploadFates(env, sh.rows, listed, resolves, broken, batch), choice)
            == (Aborting(sh, TakenUploads(env, sh.rows, listed, resolves, broken, batch)), Finished)
    decreases |listed|
  {
    hide Call, Fated, Orphans, OnError, AbortFates, UnbrokenUploads, CloseUpload;
    var at, faults := Sweeping(UploadLookup(start, listed)), UploadFates(env, sh.rows, listed, resolves, broken, batch);
    UploadLookupStep(env, sh, pid, start, listed, choice);
    UploadErrors(env, start, [], listed);
    if listed == [] {
      FatedNext(env, sh, pid, at, faults, choice, sh, Finished);
      FatedEnd(env, sh, pid, Finished, choice);
      assert faults[1..] == [];
    } else {
      var later := UploadFates(env, sh.rows, Rest(listed), resolves, broken, batch + 1);
      var rest := TakenUploads(env, sh.rows, Rest(listed), resolves, broken, batch + 1);
      if !resolves(batch) {
        FatedNext(env, sh, pid, at, faults, choice, sh, Sweeping(UploadLookup(start, Rest(listed))));
        assert faults[1..] == later;
        assert [] + rest == rest;
        UploadsFated(env, sh, pid, start, Rest(listed), resolves, broken, batch + 1, choice);
      } else {
        var orphans := Orphans(env, sh.rows, Batch(listed));
        var taken := UnbrokenUploads(orphans, broken);
        FatedNext(env, sh, pid, at, faults, choice, sh, Sweeping(UploadAbort(start, orphans, Rest(listed))));
        assert faults[1..] == AbortFates(orphans, broken) + [NoFault] + later;
        AbortsFated(env, sh, pid, start, orphans, Rest(listed), broken, later, choice);
        AbortingBoth(sh, taken, rest);
        UploadsFated(env, Aborting(sh, taken), pid, start, Rest(listed), resolves, broken, batch + 1, choice);
      }
    }
  }

  lemma {:induction false} UnbrokenUploadsExactly(orphans: seq<Listed>, broken: set<string>, item: Listed)
    ensures item in UnbrokenUploads(orphans, broken) <==> item in orphans && item.upload !in broken
  {
    if orphans != [] {
      UnbrokenUploadsExactly(orphans[1..], broken, item);
    }
  }

  lemma {:induction false} TakenUploadsExactly(env: Env, rows: Rows, listed: seq<Listed>, resolves: nat -> bool,
                                               broken: set<string>, batch: nat, item: Listed)
    ensures item in TakenUploads(env, rows, listed, resolves, broken, batch)
            <==> !OwnedUpload(env, rows, item) && item.upload !in broken && Resolved(listed, resolves, batch, item)
    decreases |listed|
  {
    hide OwnedUpload, Orphans, UnbrokenUploads;
    assert listed == [] ==> !Resolved(listed, resolves, batch, item);
    if listed != [] {
      hide Resolved;
      TakenUploadsExactly(env, rows, Rest(listed), resolves, broken, batch + 1, item);
      UnbrokenUploadsExactly(Orphans(env, rows, Batch(listed)), broken, item);
      OrphansExactly(env, rows, Batch(listed));
      InBatches(listed, resolves, batch, item);
    }
  }

  lemma AnsweredBatch(env: Env, keys: seq<string>, i: nat, resolves: nat -> bool)
    ensures Answered(env, keys, i / CLEANUP_BATCH * CLEANUP_BATCH, resolves) <==> Answered(env, keys, i, resolves)
  {
    assert i / CLEANUP_BATCH * CLEANUP_BATCH / CLEANUP_BATCH == i / CLEANUP_BATCH;
  }

  /**
   The same for open uploads.  A batch none of whose keys names an identifier needs no
   lookup, so its uploads are aborted whether or not the registry answers.
   */
  lemma LoopsRefineFailingUploadDrain(env: Env, sh: Shared, pid: Pid, start: Time, listed: seq<Listed>,
                                      resolves: nat -> bool, broken: set<string>, left: map<string, Upload>,
                                      choice: Choice)
    requires forall u :: u in left <==>
               u in sh.uploads
               && !(exists i :: 0 <= i < |listed| && listed[i] == Listed(sh.uploads[u].key, u)
                                && Aborted(env, sh.rows, listed, resolves, broken, i))
    requires forall u | u in left :: left[u] == sh.uploads[u]
    ensures var answers := (batch: nat) => Answered(env, Keys(listed), batch * CLEANUP_BATCH, resolves);
            Fated(env, sh, pid, Sweeping(UploadLookup(start, listed)),
                  UploadFates(env, sh.rows, listed, answers, broken, 0), choice)
            == (sh.(uploads := left), Finished)
  {
    hide Fated, UploadFates, TakenUploads, OwnedUpload, Aborting, Answered;
    var answers := (batch: nat) => Answered(env, Keys(listed), batch * CLEANUP_BATCH, resolves);
    UploadsFated(env, sh, pid, start, listed, answers, broken, 0, choice);
    var taken := TakenUploads(env, sh.rows, listed, answers, broken, 0);
    AbortingExactly(sh, taken);
    forall u | u in sh.uploads ensures u in left <==> Listed(sh.uploads[u].key, u) !in taken {
      var item := Listed(sh.uploads[u].key, u);
      TakenUploadsExactly(env, sh.rows, listed, answers, broken, 0, item);
      forall i | 0 <= i < |listed| && listed[i] == item
        ensures Aborted(env, sh.rows, listed, resolves, broken, i)
                <==> answers(0 + i / CLEANUP_BATCH) && !OwnedUpload(env, sh.rows, item) && item.upload !in broken
      {
        AnsweredBatch(env, Keys(listed), i, resolves);
      }
    }
    assert Aborting(sh, taken).uploads == left;
  }

  // ------------------------------------------------------- failing claimed rows

  /**
   A claimed row is dropped only after both calls that remove its upload and its bytes
   reported success.  Otherwise the sweep goes on to the next row and this one stays,
   expired, to be claimed again.
   */
  lemma RemovalRetries(env: Env, sh: Shared, pid: Pid, id: int, row: Row, rest: seq<Claimed>, abort: Fault,
                       erase: Fault, choice: Choice)
    requires env.kind.S3Kind? && row.upload.Some?
    ensures var key := RowKey(env, id, row);
            var closed := if abort.FailBefore? then sh else CloseUpload(sh, key, row.upload.value);
            var end := if erase.FailBefore? then closed else EraseBlob(closed, key);
            && end.rows == sh.rows
            && Fated(env, sh, pid, Remove(env, id, row, NextClaims(rest)), [abort, erase], choice)
               == (end, if abort.NoFault? && erase.NoFault? then Protocol.Removing(DropExpired(id, NextClaims(rest)))
                        else Resume(env, NextClaims(rest)))
  {
    hide Call, OnError, Fated, Resume, RowKey;
    var after, faults := NextClaims(rest), [abort, erase];
    var closed := if abort.FailBefore? then sh else CloseUpload(sh, RowKey(env, id, row), row.upload.value);
    var clean := abort.NoFault?;
    RemoveSteps(env, sh, pid, id, row, after, choice);
    RemovalErrors(env, id, row, clean, after);
    EraseStep(env, closed, pid, id, row, clean, after, choice);
    FatedNext(env, sh, pid, Protocol.Removing(RemoveUpload(id, row, after)), faults, choice, closed,
              Protocol.Removing(RemoveBlob(id, row, clean, after)));
    assert faults[1..] == [erase] && [erase][1..] == [];
    var end := if erase.FailBefore? then closed else EraseBlob(closed, RowKey(env, id, row));
    var at := if clean && erase.NoFault? then Protocol.Removing(DropExpired(id, after)) else Resume(env, after);
    FatedNext(env, closed, pid, Protocol.Removing(RemoveBlob(id, row, clean, after)), faults[1..], choice, end, at);
    FatedEnd(env, end, pid, at, choice);
  }

  lemma RemovalErrors(env: Env, id: int, row: Row, clean: bool, after: Then)
    ensures OnError(env, Protocol.Removing(RemoveUpload(id, row, after)))
            == Protocol.Removing(RemoveBlob(id, row, false, after))
    ensures OnError(env, Protocol.Removing(RemoveBlob(id, row, clean, after))) == Resume(env, after)
  {
    hide Resume;
  }

  lemma EraseStep(env: Env, sh: Shared, pid: Pid, id: int, row: Row, clean: bool, after: Then, c: Choice)
    requires after.NextClaims?
    ensures Call(env, sh, pid, Protocol.Removing(RemoveBlob(id, row, clean, after)), c)
            == (EraseBlob(sh, RowKey(env, id, row)),
                if clean then Protocol.Removing(DropExpired(id, after)) else Resume(env, after))
  {
    hide CallCreate, CallWrite, CallFinalize, CallPart, CallSweep, Resume, RowKey;
  }
}
