/** A finalizer that runs undisturbed and without faults publishes exactly what is ready. */
module Progress {
  import opened Content
  import opened Table
  import opened Storage
  import opened Protocol
  import opened Invariant
  import opened Effects
  import opened Steps
  import opened PartListing
  import opened Migration
  import opened Safety

  /** One operation running alone, with the provider's page sizes chosen by `cs`. */
  function Alone(env: Env, sh: Shared, pid: Pid, loc: Loc, cs: seq<Choice>): (Shared, Loc)
    decreases |cs|
  {
    if cs == [] then (sh, loc)
    else
      var (next, at) := Call(env, sh, pid, loc, cs[0]);
      Alone(env, next, pid, at, cs[1..])
  }

  function Undisturbed(pid: Pid, cs: seq<Choice>): seq<Event> {
    seq(|cs|, i requires 0 <= i < |cs| => Step(pid, NoFault, cs[i]))
  }

  lemma {:induction false} RunFirst(env: Env, s: State, e: Event, events: seq<Event>)
    ensures Run(env, s, [e] + events) == Run(env, Apply(env, s, e), events)
  {
    hide Apply;
    if events == [] {
      assert [e] + events == [e];
      assert Run(env, s, [e][..0]) == s;
    } else {
      var before := events[..|events| - 1];
      RunFirst(env, s, e, before);
      assert ([e] + events)[..|events|] == [e] + before;
    }
  }

  /** Running alone is a run of the machine. */
  lemma {:induction false} AloneIsRun(env: Env, s: State, pid: Pid, cs: seq<Choice>)
    requires pid in s.procs
    ensures var end := Alone(env, s.sh, pid, s.procs[pid], cs);
            Run(env, s, Undisturbed(pid, cs)) == State(end.0, s.procs[pid := end.1])
    decreases |cs|
  {
    if cs == [] {
      assert s.procs[pid := s.procs[pid]] == s.procs;
    } else {
      var t := Apply(env, s, Step(pid, NoFault, cs[0]));
      assert Undisturbed(pid, cs) == [Step(pid, NoFault, cs[0])] + Undisturbed(pid, cs[1..]);
      RunFirst(env, s, Step(pid, NoFault, cs[0]), Undisturbed(pid, cs[1..]));
      AloneIsRun(env, t, pid, cs[1..]);
    }
  }

  lemma {:induction false} Rests(env: Env, sh: Shared, pid: Pid, loc: Loc, cs: seq<Choice>)
    requires loc.Returned? || loc.Finished?
    ensures Alone(env, sh, pid, loc, cs) == (sh, loc)
    decreases |cs|
  {
    if cs != [] {
      Rests(env, sh, pid, loc, cs[1..]);
    }
  }

  // ------------------------------------------------------------------ readiness

  /** The open upload holds parts that assemble to the declaration. */
  ghost predicate WouldAssemble(env: Env, parts: map<int, Part>, content: Declaration) {
    var numbers := Ascending(parts, 0);
    numbers != [] && AllIn(parts, numbers)
    && |Concat(parts, numbers)| == content.size && env.crc(Concat(parts, numbers)) == content.crc
  }

  /** Storage holds the declared content, or the recorded upload would assemble it. */
  ghost predicate Ready(env: Env, sh: Shared, id: int)
    requires id in sh.rows && id in sh.born
  {
    || HoldsDeclared(env, sh, id)
    || (sh.rows[id].upload.Some? && sh.rows[id].upload.value in sh.uploads
        && WouldAssemble(env, sh.uploads[sh.rows[id].upload.value].parts, sh.born[id].content))
  }

  /** The outcome every finalizer below is shown to have. */
  ghost predicate Publishes(env: Env, id: int, ready: bool, end: (Shared, Loc)) {
    if ready
    then end.1.Returned? && end.1.id == id && id in end.0.rows && end.0.rows[id] == end.1.row && end.1.row.Available()
    else end.1.Finished?
  }

  /** Verification accepts exactly the declared bytes. */
  lemma VerifiedExactly(env: Env, sh: Shared, id: int, row: Row)
    requires SharedInv(env, sh) && Snapshot(sh, id, row)
    ensures Verify(env, sh.objects, RowKey(env, id, row), RowContent(row)).Verified? <==> HoldsDeclared(env, sh, id)
  {
  }

  // ------------------------------------------------------- from the last step back

  lemma PublishAlone(env: Env, sh: Shared, pid: Pid, id: int, row: Row, contentType: string, cs: seq<Choice>)
    requires EnvOk(env) && SharedInv(env, sh) && Snapshot(sh, id, row) && contentType != "" && |cs| >= 1
    requires id in sh.rows && sh.rows[id].Pending() && sh.rows[id].upload.None?
    ensures Publishes(env, id, true, Alone(env, sh, pid, Finalizing(FinPublish(id, row, contentType)), cs))
  {
    hide SharedInv, EnvOk, MarkAvailable;
    PublishableKey(env, sh, id, contentType);
    SameKey(env, sh, id, row);
    var (next, at) := Call(env, sh, pid, Finalizing(FinPublish(id, row, contentType)), cs[0]);
    PublishedRow(sh, id, contentType, RowKey(env, id, row));
    Rests(env, next, pid, at, cs[1..]);
  }

  lemma PublishedRow(sh: Shared, id: int, contentType: string, key: string)
    requires MarkAvailable(sh.rows, id, contentType, key, sh.now).Updated?
    ensures MarkAvailable(sh.rows, id, contentType, key, sh.now).row.Available()
  {
  }

  lemma SameKey(env: Env, sh: Shared, id: int, row: Row)
    requires SharedInv(env, sh) && Snapshot(sh, id, row) && id in sh.rows && sh.rows[id].Pending()
    ensures RowKey(env, id, sh.rows[id]) == RowKey(env, id, row) == BirthKey(env, sh, id)
  {
  }

  lemma VerifyAlone(env: Env, sh: Shared, pid: Pid, id: int, row: Row, cs: seq<Choice>)
    requires EnvOk(env) && SharedInv(env, sh) && Snapshot(sh, id, row) && |cs| >= 3
    requires id in sh.rows && sh.rows[id].Pending() && sh.rows[id].upload.None?
    ensures Publishes(env, id, HoldsDeclared(env, sh, id), Alone(env, sh, pid, Finalizing(FinVerify(id, row)), cs))
  {
    hide SharedInv, Verify, Publishes;
    VerifiedExactly(env, sh, id, row);
    var (next, at) := Call(env, sh, pid, Finalizing(FinVerify(id, row)), cs[0]);
    if !HoldsDeclared(env, sh, id) {
      Rests(env, next, pid, at, cs[1..]);
      NotReady(env, id, (next, at));
    } else if row.size.value == 0 {
      assert env.detect([]) != "";
      PublishAlone(env, sh, pid, id, row, env.detect([]), cs[1..]);
    } else {
      var head := Head(sh.objects[RowKey(env, id, row)].body);
      assert env.detect(head) != "";
      PublishAlone(env, sh, pid, id, row, env.detect(head), cs[1..][1..]);
    }
  }

  lemma NotReady(env: Env, id: int, end: (Shared, Loc))
    requires end.1.Finished?
    ensures Publishes(env, id, false, end)
  {
  }

  lemma ClearAlone(env: Env, sh: Shared, pid: Pid, id: int, row: Row, cs: seq<Choice>)
    requires EnvOk(env) && SharedInv(env, sh) && Snapshot(sh, id, row) && Closed(sh, row) && |cs| >= 4
    requires id in sh.rows && sh.rows[id].Pending() && sh.rows[id].upload == row.upload
    ensures Publishes(env, id, HoldsDeclared(env, sh, id), Alone(env, sh, pid, Finalizing(FinClear(id, row)), cs))
  {
    hide SharedInv, Publishes, EnvOk, StepFacts;
    var cleared := ClearUploadID(sh.rows, id, row.upload.value, sh.now).row;
    KeptTouch(env, sh, id, cleared);
    var next := WriteRow(sh, id, cleared);
    assert HoldsDeclared(env, next, id) <==> HoldsDeclared(env, sh, id);
    VerifyAlone(env, next, pid, id, row, cs[1..]);
  }

  /** Completing the whole listing, then clearing, verifying and publishing. */
  lemma CompleteAlone(env: Env, sh: Shared, pid: Pid, id: int, row: Row, cs: seq<Choice>)
    requires EnvOk(env) && SharedInv(env, sh) && Snapshot(sh, id, row) && row.upload.Some? && |cs| >= 5
    requires id in sh.rows && sh.rows[id].Pending() && sh.rows[id].upload == row.upload
             && row.upload.value in sh.uploads
    requires var parts := sh.uploads[row.upload.value].parts;
             var numbers := Ascending(parts, 0);
             numbers != [] && AllIn(parts, numbers) && |Concat(parts, numbers)| == row.size.value
    ensures var parts := sh.uploads[row.upload.value].parts;
            Publishes(env, id, WouldAssemble(env, parts, sh.born[id].content),
                      Alone(env, sh, pid, Finalizing(FinComplete(id, row, Named(env, parts, Ascending(parts, 0)))), cs))
  {
    hide SharedInv, Publishes, EnvOk, Guarantee, StepFacts, Ascending, Completes, Concat, Named;
    var upload := row.upload.value;
    var parts := sh.uploads[upload].parts;
    var named := Named(env, parts, Ascending(parts, 0));
    SnapshotUpload(env, sh, id, row);
    ListingCompletes(env, parts);
    KeptComplete(env, sh, upload, named);
    TotalIsLength(env, parts, Ascending(parts, 0));
    OpenedFull(env, sh, id, row);
    var next := Completed(sh, upload, RowKey(env, id, row), Assembled(env, upload, sh.uploads[upload], named, sh.now));
    ClearAlone(env, next, pid, id, row, cs[1..]);
  }

  lemma OpenedFull(env: Env, sh: Shared, id: int, row: Row)
    requires SharedInv(env, sh) && Snapshot(sh, id, row) && row.upload.Some?
    ensures sh.born[id].mode.Multipart? && env.kind.S3Kind?
    ensures row.upload.value in sh.uploads ==> sh.uploads[row.upload.value].full && BirthKey(env, sh, id) !in sh.objects
  {
  }

  /** The listing loop reaches the same completion however its pages are cut. */
  lemma {:induction false} ListAlone(env: Env, sh: Shared, pid: Pid, id: int, row: Row, seen: seq<int>, marker: int,
                                     cs: seq<Choice>)
    requires EnvOk(env) && SharedInv(env, sh) && Snapshot(sh, id, row) && row.upload.Some?
    requires 0 <= marker <= MAX_PARTS && |cs| >= MAX_PARTS - marker + 6
    requires id in sh.rows && sh.rows[id].Pending() && sh.rows[id].upload == row.upload
             && row.upload.value in sh.uploads
    requires var parts := sh.uploads[row.upload.value].parts;
             AllIn(parts, seen) && seen + Ascending(parts, marker) == Ascending(parts, 0)
    ensures var parts := sh.uploads[row.upload.value].parts;
            Publishes(env, id, WouldAssemble(env, parts, sh.born[id].content),
                      Alone(env, sh, pid, Finalizing(FinList(id, row, Named(env, parts, seen), marker)), cs))
    decreases |cs|
  {
    hide SharedInv, Publishes, EnvOk, Guarantee, Ascending, Completes, Concat, Named, TotalSize, Snapshot;
    var parts := sh.uploads[row.upload.value].parts;
    var page := Page(parts, marker, cs[0].pageSize);
    PageInParts(parts, marker, cs[0].pageSize);
    SnapshotUpload(env, sh, id, row);
    OpenedFull(env, sh, id, row);
    SnapshotDeclared(sh, id, row);
    NamedAppend(env, parts, seen, page);
    if |page| < |Ascending(parts, marker)| {
      AscendingResumes(parts, marker, |page|);
      assert seen + page + Ascending(parts, page[|page| - 1]) == Ascending(parts, 0);
      ListAlone(env, sh, pid, id, row, seen + page, page[|page| - 1], cs[1..]);
    } else {
      assert seen + page == Ascending(parts, 0);
      TotalIsLength(env, parts, Ascending(parts, 0));
      ListedAlone(env, sh, pid, id, row, cs[1..]);
    }
  }

  lemma SnapshotDeclared(sh: Shared, id: int, row: Row)
    requires Snapshot(sh, id, row)
    ensures row.Declared() && RowContent(row) == sh.born[id].content
  {
  }

  lemma ListedAlone(env: Env, sh: Shared, pid: Pid, id: int, row: Row, cs: seq<Choice>)
    requires EnvOk(env) && SharedInv(env, sh) && Snapshot(sh, id, row) && row.upload.Some? && |cs| >= 5
    requires id in sh.rows && sh.rows[id].Pending() && sh.rows[id].upload == row.upload
             && row.upload.value in sh.uploads
    requires AllIn(sh.uploads[row.upload.value].parts, Ascending(sh.uploads[row.upload.value].parts, 0))
    ensures var parts := sh.uploads[row.upload.value].parts;
            Publishes(env, id, WouldAssemble(env, parts, sh.born[id].content),
                      Alone(env, sh, pid, Listing(id, row, Named(env, parts, Ascending(parts, 0))), cs))
  {
    hide SharedInv, EnvOk, Ascending, Concat, Call;
    var parts := sh.uploads[row.upload.value].parts;
    var named := Named(env, parts, Ascending(parts, 0));
    TotalIsLength(env, parts, Ascending(parts, 0));
    if named == [] || TotalSize(named) != row.size.value {
      Rests(env, sh, pid, Finished, cs);
    } else {
      CompleteAlone(env, sh, pid, id, row, cs);
    }
  }

  /** A pending row's upload is open with nothing assembled yet, or closed for good. */
  lemma PreparedAlone(env: Env, sh: Shared, pid: Pid, id: int, cs: seq<Choice>)
    requires EnvOk(env) && SharedInv(env, sh) && id in sh.rows && sh.rows[id].Pending() && |cs| >= MAX_PARTS + 6
    ensures id in sh.born
    ensures Publishes(env, id, Ready(env, sh, id), Alone(env, sh, pid, Prepared(id, sh.rows[id]), cs))
  {
    hide SharedInv, Publishes, EnvOk, Ascending, Verify;
    var row := sh.rows[id];
    PendingSnapshot(env, sh, id);
    if row.upload.None? {
      VerifyAlone(env, sh, pid, id, row, cs);
    } else {
      OpenedFull(env, sh, id, row);
      SnapshotUpload(env, sh, id, row);
      if row.upload.value in sh.uploads {
        assert Named(env, sh.uploads[row.upload.value].parts, []) == [];
        assert [] + Ascending(sh.uploads[row.upload.value].parts, 0)
               == Ascending(sh.uploads[row.upload.value].parts, 0);
        ListAlone(env, sh, pid, id, row, [], 0, cs);
      } else {
        ClearAlone(env, sh, pid, id, row, cs[1..]);
      }
    }
  }

  /**
   An undisturbed, fault-free Finalize of a visible row returns the published
   row if and only if the row is already published, or storage holds the declared
   content, or its open upload would assemble to it.  The states after a completion
   or a publish whose response was lost are among these.
   */
  lemma FinalizeAlone(env: Env, sh: Shared, pid: Pid, id: int, cs: seq<Choice>)
    requires EnvOk(env) && SharedInv(env, sh) && id in sh.rows && sh.rows[id].Visible() && |cs| >= MAX_PARTS + 8
    ensures sh.rows[id].Available() || id in sh.born
    ensures Publishes(env, id, sh.rows[id].Available() || Ready(env, sh, id),
                      Alone(env, sh, pid, Finalizing(FinGet(id, sh.rows[id].prefix)), cs))
  {
    hide SharedInv, EnvOk, Ready, Prepared, Ascending;
    if sh.rows[id].Available() {
      Rests(env, sh, pid, Returned(id, sh.rows[id]), cs[1..]);
    } else {
      PendingSnapshot(env, sh, id);
      RefreshGood(env, sh, id);
      var row := RefreshPending(sh.rows, id, sh.now).row;
      var next := WriteRow(sh, id, row);
      RefreshReady(env, sh, next, id);
      PreparedAlone(env, next, pid, id, cs[1..][1..]);
    }
  }

  lemma RefreshReady(env: Env, a: Shared, b: Shared, id: int)
    requires id in a.rows && id in b.rows && id in a.born && b == a.(rows := b.rows)
             && a.rows[id].upload == b.rows[id].upload
    ensures Ready(env, a, id) <==> Ready(env, b, id)
  {
  }

  /** The same over the machine: from any reachable state, whatever the page sizes. */
  lemma FinalizePublishesWhatIsReady(env: Env, s: State, events: seq<Event>, pid: Pid, id: int, cs: seq<Choice>)
    requires EnvOk(env) && Initial(env, s) && |cs| >= MAX_PARTS + 8
    requires var t := Run(env, s, events);
             && id in t.sh.rows && t.sh.rows[id].Visible()
             && pid in t.procs && t.procs[pid] == Finalizing(FinGet(id, t.sh.rows[id].prefix))
    ensures var t := Run(env, s, events);
            var end := Run(env, t, Undisturbed(pid, cs));
            && pid in end.procs
            && (t.sh.rows[id].Available() || id in t.sh.born)
            && (if t.sh.rows[id].Available() || Ready(env, t.sh, id)
                then end.procs[pid].Returned? && id in end.sh.rows && end.procs[pid] == Returned(id, end.sh.rows[id])
                     && end.sh.rows[id].Available()
                else end.procs[pid].Finished?)
  {
    hide SharedInv, EnvOk, Ready, Initial;
    Reachable(env, s, events);
    var t := Run(env, s, events);
    FinalizeAlone(env, t.sh, pid, id, cs);
    AloneIsRun(env, t, pid, cs);
  }
}
