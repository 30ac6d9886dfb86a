/**
 A finalizer left alone at any point of its work, fresh or stale: whether it
 publishes or finds the object published is decided by the state it is left in.
 */
module Finalizers {
  import opened Content
  import opened Table
  import opened Storage
  import opened Protocol
  import opened Invariant
  import opened Effects
  import opened Steps
  import opened PartListing
  import opened Migration
  import opened Safety
  import opened Progress

  ghost predicate Shown(sh: Shared, id: int) {
    id in sh.rows && sh.rows[id].Visible()
  }

  /** These named parts, complete as they are now, assemble to the declaration. */
  ghost predicate Assembles(env: Env, parts: map<int, Part>, named: seq<NamedPart>, content: Declaration) {
    && Completes(env, parts, named)
    && |Concat(parts, Numbers(named))| == content.size && env.crc(Concat(parts, Numbers(named))) == content.crc
  }

  /** So do the parts named so far with those above the marker, in number and total. */
  ghost predicate Gathers(env: Env, parts: map<int, Part>, named: seq<NamedPart>, marker: int, content: Declaration) {
    var numbers := Ascending(parts, marker);
    && AllIn(parts, numbers)
    && var all := named + Named(env, parts, numbers);
       all != [] && TotalSize(all) == content.size && Assembles(env, parts, all, content)
  }

  ghost predicate StoredHere(env: Env, sh: Shared, id: int) {
    id in sh.born && HoldsDeclared(env, sh, id)
  }

  ghost predicate PublishedOrReady(env: Env, sh: Shared, id: int)
    requires id in sh.rows
  {
    sh.rows[id].Available() || (id in sh.born && Ready(env, sh, id))
  }

  /** The state lets a finalizer at this point end with the published row. */
  ghost predicate Succeeds(env: Env, sh: Shared, loc: FinalizeLoc) {
    && Shown(sh, loc.id)
    && var row := sh.rows[loc.id];
       match loc
       case FinGet(id, prefix) => row.prefix == prefix && PublishedOrReady(env, sh, id)
       case FinRefresh(id) => PublishedOrReady(env, sh, id)
       case FinRefreshGet(_) => true
       case FinList(id, held, named, marker) =>
         if held.upload.Some? && held.upload.value in sh.uploads && held.Declared()
         then Gathers(env, sh.uploads[held.upload.value].parts, named, marker, RowContent(held))
         else StoredHere(env, sh, id)
       case FinComplete(id, held, named) =>
         if held.upload.Some? && held.upload.value in sh.uploads && held.Declared()
         then Assembles(env, sh.uploads[held.upload.value].parts, named, RowContent(held))
         else StoredHere(env, sh, id)
       case FinClear(id, _) => StoredHere(env, sh, id)
       case FinClearGet(id, _) => StoredHere(env, sh, id)
       case FinVerify(id, _) => StoredHere(env, sh, id) && row.upload.None?
       case FinHead(_, _) => row.upload.None?
       case FinPublish(_, _, _) => row.upload.None?
       case FinPublishGet(_) => true
  }

  // ------------------------------------------------------- from the last step back

  lemma PublishGetFrom(env: Env, sh: Shared, pid: Pid, id: int, cs: seq<Choice>)
    requires Settled(sh, id) && |cs| >= 1
    ensures Publishes(env, id, Shown(sh, id), Alone(env, sh, pid, Finalizing(FinPublishGet(id)), cs))
  {
    hide Settled;
    var (next, at) := Call(env, sh, pid, Finalizing(FinPublishGet(id)), cs[0]);
    Rests(env, next, pid, at, cs[1..]);
    assert Shown(sh, id) ==> sh.rows[id].Available() by {
      SettledShown(sh, id);
    }
  }

  lemma SettledShown(sh: Shared, id: int)
    requires Settled(sh, id)
    ensures Shown(sh, id) ==> sh.rows[id].Available()
  {
  }

  lemma PublishedClear(env: Env, sh: Shared, id: int)
    requires SharedInv(env, sh) && Shown(sh, id) && sh.rows[id].Available()
    ensures sh.rows[id].upload.None?
  {
    assert ValidRow(sh.rows[id]);
  }

  lemma PublishFrom(env: Env, sh: Shared, pid: Pid, id: int, row: Row, contentType: string, cs: seq<Choice>)
    requires EnvOk(env) && SharedInv(env, sh) && Snapshot(sh, id, row) && contentType != "" && |cs| >= 2
    ensures Publishes(env, id, Shown(sh, id) && sh.rows[id].upload.None?,
                      Alone(env, sh, pid, Finalizing(FinPublish(id, row, contentType)), cs))
  {
    hide SharedInv, EnvOk, MarkAvailable, Publishes;
    if id in sh.rows && sh.rows[id].Pending() {
      if sh.rows[id].upload.None? {
        PublishAlone(env, sh, pid, id, row, contentType, cs);
      } else {
        PublishableKey(env, sh, id, contentType);
        SameKey(env, sh, id, row);
        Rests(env, sh, pid, Finished, cs[1..]);
        NotReady(env, id, (sh, Finished));
      }
    } else {
      NothingPending(sh, id, contentType, RowKey(env, id, row));
      StoredOpen(env, sh, id);
      PublishGetFrom(env, sh, pid, id, cs[1..]);
      if Shown(sh, id) {
        PublishedClear(env, sh, id);
      }
    }
  }

  lemma NothingPending(sh: Shared, id: int, contentType: string, key: string)
    requires id in sh.rows ==> !sh.rows[id].Pending()
    ensures MarkAvailable(sh.rows, id, contentType, key, sh.now).NoRow?
  {
  }

  lemma HeadFrom(env: Env, sh: Shared, pid: Pid, id: int, row: Row, cs: seq<Choice>)
    requires EnvOk(env) && SharedInv(env, sh) && Snapshot(sh, id, row) && Stored(env, sh, id) && |cs| >= 3
    ensures Publishes(env, id, Shown(sh, id) && sh.rows[id].upload.None?,
                      Alone(env, sh, pid, Finalizing(FinHead(id, row)), cs))
  {
    hide SharedInv, Publishes, Head;
    var key := RowKey(env, id, row);
    if key in sh.objects {
      var head := Head(sh.objects[key].body);
      assert env.detect(head) != "";
      PublishFrom(env, sh, pid, id, row, env.detect(head), cs[1..]);
    } else {
      Rests(env, sh, pid, Finished, cs[1..]);
      NotReady(env, id, (sh, Finished));
    }
  }

  lemma VerifyFrom(env: Env, sh: Shared, pid: Pid, id: int, row: Row, cs: seq<Choice>)
    requires EnvOk(env) && SharedInv(env, sh) && Snapshot(sh, id, row) && |cs| >= 4
    ensures Publishes(env, id, Shown(sh, id) && StoredHere(env, sh, id) && sh.rows[id].upload.None?,
                      Alone(env, sh, pid, Finalizing(FinVerify(id, row)), cs))
  {
    hide SharedInv, Publishes, Verify;
    VerifiedExactly(env, sh, id, row);
    if !HoldsDeclared(env, sh, id) {
      Rests(env, sh, pid, Finished, cs[1..]);
      NotReady(env, id, (sh, Finished));
    } else if row.size.value == 0 {
      assert env.detect([]) != "";
      PublishFrom(env, sh, pid, id, row, env.detect([]), cs[1..]);
    } else {
      HeadFrom(env, sh, pid, id, row, cs[1..]);
    }
  }

  lemma ClearGetFrom(env: Env, sh: Shared, pid: Pid, id: int, row: Row, cs: seq<Choice>)
    requires EnvOk(env) && SharedInv(env, sh) && Snapshot(sh, id, row) && Cleared(sh, id) && |cs| >= 5
    ensures Publishes(env, id, Shown(sh, id) && StoredHere(env, sh, id),
                      Alone(env, sh, pid, Finalizing(FinClearGet(id, row)), cs))
  {
    hide SharedInv, Publishes, EnvOk;
    if Shown(sh, id) {
      VerifyFrom(env, sh, pid, id, row, cs[1..]);
    } else {
      Rests(env, sh, pid, Finished, cs[1..]);
      NotReady(env, id, (sh, Finished));
    }
  }

  lemma ClearFrom(env: Env, sh: Shared, pid: Pid, id: int, row: Row, cs: seq<Choice>)
    requires EnvOk(env) && SharedInv(env, sh) && Snapshot(sh, id, row) && Closed(sh, row) && |cs| >= 6
    ensures Publishes(env, id, Shown(sh, id) && StoredHere(env, sh, id),
                      Alone(env, sh, pid, Finalizing(FinClear(id, row)), cs))
  {
    hide SharedInv, Publishes, EnvOk, StepFacts;
    var result := ClearUploadID(sh.rows, id, row.upload.value, sh.now);
    if result.Updated? {
      RecordedPending(env, sh, id);
      KeptTouch(env, sh, id, result.row);
      var next := WriteRow(sh, id, result.row);
      SnapshotStable(env, sh, next, id, row);
      assert HoldsDeclared(env, next, id) <==> HoldsDeclared(env, sh, id);
      VerifyFrom(env, next, pid, id, row, cs[1..]);
    } else {
      OneUpload(env, sh, id, row);
      ClearGetFrom(env, sh, pid, id, row, cs[1..]);
    }
  }

  // ------------------------------------------------------------- the parts named

  lemma AssembledState(env: Env, sh: Shared, id: int, row: Row, named: seq<NamedPart>)
    requires EnvOk(env) && SharedInv(env, sh) && Snapshot(sh, id, row) && row.upload.Some?
             && row.upload.value in sh.uploads
    requires Completes(env, sh.uploads[row.upload.value].parts, named)
    ensures var u := row.upload.value;
            var open := sh.uploads[u];
            var next := Completed(sh, u, RowKey(env, id, row), Assembled(env, u, open, named, sh.now));
            && open.key == RowKey(env, id, row) && SharedInv(env, next) && Snapshot(next, id, row) && Closed(next, row)
            && next.rows == sh.rows
            && (StoredHere(env, next, id) <==> Assembles(env, open.parts, named, RowContent(row)))
  {
    hide SharedInv, EnvOk, Guarantee, StepFacts, Completes, Concat;
    SnapshotUpload(env, sh, id, row);
    OpenedFull(env, sh, id, row);
    KeptComplete(env, sh, row.upload.value, named);
    var open := sh.uploads[row.upload.value];
    SnapshotStable(env, sh, Completed(sh, row.upload.value, RowKey(env, id, row),
                                      Assembled(env, row.upload.value, open, named, sh.now)), id, row);
  }

  lemma CompleteFrom(env: Env, sh: Shared, pid: Pid, id: int, row: Row, named: seq<NamedPart>, cs: seq<Choice>)
    requires EnvOk(env) && SharedInv(env, sh) && Snapshot(sh, id, row) && row.upload.Some? && |cs| >= 7
    ensures Publishes(env, id, Succeeds(env, sh, FinComplete(id, row, named)),
                      Alone(env, sh, pid, Finalizing(FinComplete(id, row, named)), cs))
  {
    hide SharedInv, Publishes, EnvOk, Assembled, Snapshot;
    SnapshotDeclared(sh, id, row);
    SnapshotUpload(env, sh, id, row);
    var upload := row.upload.value;
    if upload !in sh.uploads {
      ClearFrom(env, sh, pid, id, row, cs[1..]);
    } else if !Completes(env, sh.uploads[upload].parts, named) {
      Rests(env, sh, pid, Finished, cs[1..]);
      NotReady(env, id, (sh, Finished));
    } else {
      AssembledState(env, sh, id, row, named);
      var next :=
        Completed(sh, upload, RowKey(env, id, row), Assembled(env, upload, sh.uploads[upload], named, sh.now));
      ClearFrom(env, next, pid, id, row, cs[1..]);
    }
  }

  /** Gathering goes on from the last part of a page as it stood before the page. */
  lemma GathersOn(env: Env, parts: map<int, Part>, named: seq<NamedPart>, marker: int, pageSize: nat,
                  content: Declaration)
    requires 0 <= marker <= MAX_PARTS
    ensures var page := Page(parts, marker, pageSize);
            && AllIn(parts, page)
            && var listed := named + Named(env, parts, page);
               if |page| < |Ascending(parts, marker)|
               then page != [] && marker < page[|page| - 1] <= MAX_PARTS
                    && (Gathers(env, parts, named, marker, content)
                        <==> Gathers(env, parts, listed, page[|page| - 1], content))
               else Gathers(env, parts, named, marker, content)
                    <==> listed != [] && TotalSize(listed) == content.size && Assembles(env, parts, listed, content)
  {
    hide Ascending, Assembles, Named, TotalSize;
    var page := Page(parts, marker, pageSize);
    PageInParts(parts, marker, pageSize);
    PageResumes(parts, marker, pageSize);
    AscendingSorted(parts, marker);
    if |page| < |Ascending(parts, marker)| {
      var rest := Ascending(parts, page[|page| - 1]);
      AscendingSorted(parts, page[|page| - 1]);
      NamedAppend(env, parts, page, rest);
      assert named + Named(env, parts, page) + Named(env, parts, rest)
             == named + (Named(env, parts, page) + Named(env, parts, rest));
    }
  }

  lemma {:induction false} ListFrom(env: Env, sh: Shared, pid: Pid, id: int, row: Row, named: seq<NamedPart>,
                                    marker: int, cs: seq<Choice>)
    requires EnvOk(env) && SharedInv(env, sh) && Snapshot(sh, id, row) && row.upload.Some?
    requires 0 <= marker <= MAX_PARTS && |cs| >= MAX_PARTS - marker + 8
    ensures Publishes(env, id, Succeeds(env, sh, FinList(id, row, named, marker)),
                      Alone(env, sh, pid, Finalizing(FinList(id, row, named, marker)), cs))
    decreases |cs|
  {
    hide SharedInv, Publishes, EnvOk, Snapshot, Gathers, Assembles, Page, Ascending, Named, TotalSize;
    SnapshotDeclared(sh, id, row);
    SnapshotUpload(env, sh, id, row);
    OpenedFull(env, sh, id, row);
    if row.upload.value !in sh.uploads {
      ClearFrom(env, sh, pid, id, row, cs[1..]);
    } else {
      var parts := sh.uploads[row.upload.value].parts;
      var page := Page(parts, marker, cs[0].pageSize);
      GathersOn(env, parts, named, marker, cs[0].pageSize, RowContent(row));
      var listed := named + Named(env, parts, page);
      if |page| < |Ascending(parts, marker)| {
        ListFrom(env, sh, pid, id, row, listed, page[|page| - 1], cs[1..]);
      } else if listed == [] || TotalSize(listed) != row.size.value {
        Rests(env, sh, pid, Finished, cs[1..]);
        NotReady(env, id, (sh, Finished));
      } else {
        CompleteFrom(env, sh, pid, id, row, listed, cs[1..]);
      }
    }
  }

  // ---------------------------------------------------------------- the first steps

  lemma RefreshGetFrom(env: Env, sh: Shared, pid: Pid, id: int, cs: seq<Choice>)
    requires Settled(sh, id) && |cs| >= 1
    ensures Publishes(env, id, Shown(sh, id), Alone(env, sh, pid, Finalizing(FinRefreshGet(id)), cs))
  {
    hide Settled;
    var (next, at) := Call(env, sh, pid, Finalizing(FinRefreshGet(id)), cs[0]);
    Rests(env, next, pid, at, cs[1..]);
    assert Shown(sh, id) ==> sh.rows[id].Available() by {
      SettledShown(sh, id);
    }
  }

  lemma RefreshFrom(env: Env, sh: Shared, pid: Pid, id: int, cs: seq<Choice>)
    requires EnvOk(env) && SharedInv(env, sh) && id < sh.nextId && |cs| >= MAX_PARTS + 7
    ensures Publishes(env, id, Succeeds(env, sh, FinRefresh(id)), Alone(env, sh, pid, Finalizing(FinRefresh(id)), cs))
  {
    hide SharedInv, EnvOk, Ready, Prepared, Publishes, Ascending;
    if id in sh.rows && sh.rows[id].Pending() {
      PendingSnapshot(env, sh, id);
      RefreshGood(env, sh, id);
      var next := WriteRow(sh, id, RefreshPending(sh.rows, id, sh.now).row);
      RefreshReady(env, sh, next, id);
      PreparedAlone(env, next, pid, id, cs[1..]);
    } else {
      RefreshGetFrom(env, sh, pid, id, cs[1..]);
    }
  }

  lemma GetFrom(env: Env, sh: Shared, pid: Pid, id: int, prefix: string, cs: seq<Choice>)
    requires EnvOk(env) && SharedInv(env, sh) && |cs| >= MAX_PARTS + 8
    ensures Publishes(env, id, Succeeds(env, sh, FinGet(id, prefix)),
                      Alone(env, sh, pid, Finalizing(FinGet(id, prefix)), cs))
  {
    hide SharedInv, EnvOk, Ready, Publishes;
    if Shown(sh, id) && sh.rows[id].prefix == prefix {
      FinalizeAlone(env, sh, pid, id, cs);
    } else {
      Rests(env, sh, pid, Finished, cs[1..]);
      NotReady(env, id, (sh, Finished));
    }
  }

  /** Whatever point it stands at, a finalizer left alone ends with the published row exactly if the state lets it. */
  lemma FinalizerAlone(env: Env, sh: Shared, pid: Pid, loc: FinalizeLoc, cs: seq<Choice>)
    requires EnvOk(env) && SharedInv(env, sh) && FinalizeInv(env, sh, loc) && |cs| >= MAX_PARTS + 8
    ensures Publishes(env, loc.id, Succeeds(env, sh, loc), Alone(env, sh, pid, Finalizing(loc), cs))
  {
    hide SharedInv, EnvOk, Publishes, Alone;
    match loc
    case FinGet(id, prefix) => GetFrom(env, sh, pid, id, prefix, cs);
    case FinRefresh(id) => RefreshFrom(env, sh, pid, id, cs);
    case FinRefreshGet(id) => RefreshGetFrom(env, sh, pid, id, cs);
    case FinList(id, row, named, marker) => ListFrom(env, sh, pid, id, row, named, marker, cs);
    case FinComplete(id, row, named) => CompleteFrom(env, sh, pid, id, row, named, cs);
    case FinClear(id, row) => ClearFrom(env, sh, pid, id, row, cs);
    case FinClearGet(id, row) => ClearGetFrom(env, sh, pid, id, row, cs);
    case FinVerify(id, row) => VerifyFrom(env, sh, pid, id, row, cs);
    case FinHead(id, row) => HeadFrom(env, sh, pid, id, row, cs);
    case FinPublish(id, row, contentType) => PublishFrom(env, sh, pid, id, row, contentType, cs);
    case FinPublishGet(id) => PublishGetFrom(env, sh, pid, id, cs);
  }

  // ----------------------------------------------------------------- whole runs

  /**
   In every reachable state, every finalizer, at whatever point other operations
   have left it, ends undisturbed with the published row if `Succeeds` holds of
   its point and the state, and with an error if not, whatever the page sizes.
   */
  lemma EveryFinalizerAlone(env: Env, s: State, events: seq<Event>, pid: Pid, cs: seq<Choice>)
    requires EnvOk(env) && Initial(env, s) && |cs| >= MAX_PARTS + 8
    requires pid in Run(env, s, events).procs && Run(env, s, events).procs[pid].Finalizing?
    ensures var t := Run(env, s, events);
            var loc := t.procs[pid].finalizing;
            var end := Run(env, t, Undisturbed(pid, cs));
            && pid in end.procs
            && (if Succeeds(env, t.sh, loc)
                then loc.id in end.sh.rows && end.procs[pid] == Returned(loc.id, end.sh.rows[loc.id])
                     && end.sh.rows[loc.id].Available()
                else end.procs[pid].Finished?)
  {
    hide SharedInv, FinalizeInv, EnvOk, Initial, Succeeds, Apply, Alone;
    Reachable(env, s, events);
    var t := Run(env, s, events);
    assert LocInv(env, t.sh, pid, t.procs[pid]);
    FinalizerAlone(env, t.sh, pid, t.procs[pid].finalizing, cs);
    AloneIsRun(env, t, pid, cs);
  }

  /** A finalizer that would publish a row although the row still records an upload: the table refuses it. */
  predicate BlockedByUpload(row: Row, loc: FinalizeLoc) {
    (loc.FinVerify? || loc.FinHead? || loc.FinPublish?) && row.upload.Some?
  }

  /**
   Once the declared bytes are stored under a visible row - by whichever finalizer
   completed the upload, cleared it or published - every finalizer of that object,
   stale or not, ends with the published row, unless it stands past completion
   while the row still records its upload.
   */
  lemma StaleFinalizersSucceed(env: Env, sh: Shared, loc: FinalizeLoc)
    requires EnvOk(env) && SharedInv(env, sh) && FinalizeInv(env, sh, loc)
    requires Shown(sh, loc.id) && StoredHere(env, sh, loc.id)
    ensures Succeeds(env, sh, loc)
            <==> !BlockedByUpload(sh.rows[loc.id], loc) && (loc.FinGet? ==> sh.rows[loc.id].prefix == loc.prefix)
  {
    hide SharedInv, EnvOk, Gathers, Assembles;
    if loc.FinList? || loc.FinComplete? {
      OpenedFull(env, sh, loc.id, loc.row);
    }
  }

  /** The machine's form: after completion, clearing or publication by others the result is the same row. */
  lemma StaleFinalizersAgree(env: Env, s: State, events: seq<Event>, pid: Pid, cs: seq<Choice>)
    requires EnvOk(env) && Initial(env, s) && |cs| >= MAX_PARTS + 8
    requires pid in Run(env, s, events).procs && Run(env, s, events).procs[pid].Finalizing?
    requires var t := Run(env, s, events);
             var loc := t.procs[pid].finalizing;
             && Shown(t.sh, loc.id) && StoredHere(env, t.sh, loc.id)
             && !BlockedByUpload(t.sh.rows[loc.id], loc) && (loc.FinGet? ==> t.sh.rows[loc.id].prefix == loc.prefix)
    ensures var t := Run(env, s, events);
            var id := t.procs[pid].finalizing.id;
            var end := Run(env, t, Undisturbed(pid, cs));
            && pid in end.procs && id in end.sh.rows && end.procs[pid] == Returned(id, end.sh.rows[id])
            && (t.sh.rows[id].Available() ==> end.sh.rows[id] == t.sh.rows[id])
  {
    hide SharedInv, FinalizeInv, EnvOk, Initial, Succeeds, Apply, Alone, StoredHere;
    Reachable(env, s, events);
    var t := Run(env, s, events);
    assert LocInv(env, t.sh, pid, t.procs[pid]);
    StaleFinalizersSucceed(env, t.sh, t.procs[pid].finalizing);
    EveryFinalizerAlone(env, s, events, pid, cs);
    RowsForwardRun(env, t, Undisturbed(pid, cs));
    KeepsPublished(env, t, Run(env, t, Undisturbed(pid, cs)), t.procs[pid].finalizing.id);
  }

  lemma KeepsPublished(env: Env, a: State, b: State, id: int)
    requires Inv(env, a) && RowsForward(env, a.sh, b.sh) && id in a.sh.rows && id in b.sh.rows
    ensures a.sh.rows[id].Available() ==> b.sh.rows[id] == a.sh.rows[id]
  {
    VisibleKnown(env, a.sh, id);
    assert RowStep(env, id, a.sh.rows[id], b.sh.rows[id]);
  }
}
