/**
 The upload sweep aborts an upload that a visible row records in exactly the runs
 that record it too late: more than the maximum pending age after it was opened.
 */
module UploadSweep {
  import opened Wrappers
  import opened Content
  import opened Table
  import opened Storage
  import opened Protocol
  import opened Invariant
  import opened Effects
  import opened Steps
  import opened Migration
  import opened Safety
  import Keys

  /** Between these states this upload was recorded, while it was open. */
  ghost predicate RecordsOpen(a: Shared, b: Shared, u: string) {
    u in b.recorded && u !in a.recorded && u in a.uploads
  }

  /** If this upload is recorded here, it is recorded in time. */
  ghost predicate Prompt(env: Env, a: Shared, b: Shared, u: string) {
    RecordsOpen(a, b, u) ==> a.now <= a.uploads[u].initiated + env.maxAge
  }

  ghost predicate PromptRun(env: Env, s: State, events: seq<Event>, u: string) {
    forall k | 0 <= k < |events| :: Prompt(env, Run(env, s, events[..k]).sh, Run(env, s, events[..k + 1]).sh, u)
  }

  /** No visible row records this upload while it is open. */
  ghost predicate Unrecorded(sh: Shared, u: string) {
    u in sh.uploads ==> forall id | id in sh.rows && sh.rows[id].Visible() :: sh.rows[id].upload != Some(u)
  }

  ghost predicate Old(env: Env, sh: Shared, start: Time, item: Listed) {
    && start <= sh.now && item.upload in sh.issued
    && (item.upload in sh.uploads ==>
          sh.uploads[item.upload].key == item.key && sh.uploads[item.upload].initiated < start - env.maxAge)
  }

  ghost predicate AllOld(env: Env, sh: Shared, start: Time, listed: seq<Listed>) {
    start <= sh.now && forall i | 0 <= i < |listed| :: Old(env, sh, start, listed[i])
  }

  /** If this upload is among the orphans, no visible row records it. */
  ghost predicate OrphanUnrecorded(sh: Shared, orphans: seq<Listed>, u: string) {
    forall i | 0 <= i < |orphans| && orphans[i].upload == u :: Unrecorded(sh, u)
  }

  /** What a sweep knows of the uploads it listed, and of this one in particular. */
  ghost predicate SweepKnows(env: Env, sh: Shared, loc: Loc, u: string) {
    loc.Sweeping? ==>
      match loc.sweeping
      case UploadList(start, listed) => AllOld(env, sh, start, listed)
      case UploadLookup(start, listed) => AllOld(env, sh, start, listed)
      case UploadAbort(start, orphans, listed) =>
        AllOld(env, sh, start, orphans) && OrphanUnrecorded(sh, orphans, u) && AllOld(env, sh, start, listed)
      case _ => true
  }

  ghost predicate SweepsKnow(env: Env, s: State, u: string) {
    forall pid | pid in s.procs :: SweepKnows(env, s.sh, s.procs[pid], u)
  }

  // ------------------------------------------------------------------ one step

  lemma OldStable(env: Env, a: Shared, b: Shared, start: Time, listed: seq<Listed>)
    requires Guarantee(env, a, b) && AllOld(env, a, start, listed)
    ensures AllOld(env, b, start, listed)
  {
  }

  lemma UnrecordedStable(env: Env, a: Shared, b: Shared, start: Time, item: Listed)
    requires Guarantee(env, a, b) && RowFacts(env, a, b) && Prompt(env, a, b, item.upload) && SharedInv(env, a)
    requires Old(env, a, start, item) && Unrecorded(a, item.upload)
    ensures Unrecorded(b, item.upload)
  {
  }

  lemma KnowsStable(env: Env, a: Shared, b: Shared, loc: Loc, u: string)
    requires Guarantee(env, a, b) && RowFacts(env, a, b) && Prompt(env, a, b, u) && SharedInv(env, a)
    requires SweepKnows(env, a, loc, u)
    ensures SweepKnows(env, b, loc, u)
  {
    hide SharedInv, Guarantee, RowFacts, Prompt;
    if loc.Sweeping? {
      match loc.sweeping
      case UploadList(start, listed) => OldStable(env, a, b, start, listed);
      case UploadLookup(start, listed) => OldStable(env, a, b, start, listed);
      case UploadAbort(start, orphans, listed) =>
        OldStable(env, a, b, start, orphans);
        OldStable(env, a, b, start, listed);
        forall i | 0 <= i < |orphans| && orphans[i].upload == u ensures Unrecorded(b, u) {
          UnrecordedStable(env, a, b, start, orphans[i]);
        }
      case _ =>
    }
  }

  /** An open upload recorded by a visible row is found by its key. */
  lemma RecordedOwned(env: Env, sh: Shared, start: Time, item: Listed, id: int)
    requires EnvOk(env) && SharedInv(env, sh) && Old(env, sh, start, item) && item.upload in sh.uploads
    requires id in sh.rows && sh.rows[id].Visible() && sh.rows[id].upload == Some(item.upload)
    ensures OwnedUpload(env, sh.rows, item)
  {
  }

  lemma {:induction false} OrphansUnrecorded(env: Env, sh: Shared, start: Time, listed: seq<Listed>)
    requires EnvOk(env) && SharedInv(env, sh) && AllOld(env, sh, start, listed)
    ensures var orphans := Orphans(env, sh.rows, listed);
            && AllOld(env, sh, start, orphans)
            && forall i | 0 <= i < |orphans| :: Unrecorded(sh, orphans[i].upload)
  {
    hide SharedInv, EnvOk, OwnedUpload;
    if listed != [] {
      OrphansUnrecorded(env, sh, start, listed[1..]);
      assert Old(env, sh, start, listed[0]);
      if !OwnedUpload(env, sh.rows, listed[0]) && listed[0].upload in sh.uploads {
        forall id | id in sh.rows && sh.rows[id].Visible() ensures sh.rows[id].upload != Some(listed[0].upload) {
          if sh.rows[id].upload == Some(listed[0].upload) {
            RecordedOwned(env, sh, start, listed[0], id);
          }
        }
      }
    }
  }

  lemma ListedOld(env: Env, sh: Shared, start: Time, listed: seq<Listed>)
    requires SharedInv(env, sh) && start <= sh.now && OldUploads(env, sh, start, listed)
    ensures AllOld(env, sh, start, listed)
  {
  }

  /** The sweep's own step, with or without a fault. */
  lemma OwnStep(env: Env, a: Shared, pid: Pid, at: SweepLoc, fault: Fault, c: Choice, u: string)
    requires EnvOk(env) && SharedInv(env, a) && LocInv(env, a, pid, Sweeping(at)) && SweepKnows(env, a, Sweeping(at), u)
    ensures var end := StepOf(env, a, pid, Sweeping(at), fault, c); SweepKnows(env, end.0, end.1, u)
  {
    hide SharedInv, EnvOk, Guarantee, StepFacts, Orphans, Doomed, LocInv, Claim, Claims;
    var b := StepOf(env, a, pid, Sweeping(at), fault, c).0;
    StepGood(env, a, pid, Sweeping(at), fault, c);
    match at
    case UploadList(start, listed) =>
      if OldUploads(env, a, start, c.listed) {
        ListedOld(env, a, start, c.listed);
      }
    case UploadLookup(start, listed) => OrphansUnrecorded(env, a, start, Batch(listed));
    case UploadAbort(start, orphans, listed) =>
      OldStable(env, a, b, start, orphans);
      OldStable(env, a, b, start, listed);
    case _ => ResumeNotSweep(env, a, pid, at, fault, c);
  }

  lemma ResumeNotSweep(env: Env, a: Shared, pid: Pid, at: SweepLoc, fault: Fault, c: Choice)
    requires !at.UploadList? && !at.UploadLookup? && !at.UploadAbort?
    ensures var end := StepOf(env, a, pid, Sweeping(at), fault, c).1;
            end.Sweeping? ==> !end.sweeping.UploadList? && !end.sweeping.UploadLookup? && !end.sweeping.UploadAbort?
  {
  }

  /** No other operation's step starts an upload sweep in the middle. */
  lemma OtherStep(env: Env, a: Shared, pid: Pid, loc: Loc, fault: Fault, c: Choice)
    requires !loc.Sweeping?
    ensures !StepOf(env, a, pid, loc, fault, c).1.Sweeping?
  {
    hide Page, Ascending, Named, TotalSize, Assembled, Verify, Completes, MarkAvailable, RefreshPending,
         ClearUploadID, RecordUploadID;
    if && loc.Finalizing? && loc.finalizing.FinList? && env.kind.S3Kind?
       && loc.finalizing.row.upload.Some? && loc.finalizing.row.upload.value in a.uploads {
      PageInParts(a.uploads[loc.finalizing.row.upload.value].parts, loc.finalizing.marker, c.pageSize);
    }
  }

  lemma KnowsStep(env: Env, s: State, e: Event, u: string)
    requires EnvOk(env) && Inv(env, s) && SweepsKnow(env, s, u) && Prompt(env, s.sh, Apply(env, s, e).sh, u)
    ensures SweepsKnow(env, Apply(env, s, e), u)
  {
    hide SharedInv, LocInv, Guarantee, RowFacts, ByteFacts, SweepKnows, Prompt, StepOf, EnvOk;
    var t := Apply(env, s, e);
    ApplyGood(env, s, e);
    forall p | p in t.procs ensures SweepKnows(env, t.sh, t.procs[p], u) {
      if e.Step? && e.pid == p && p in s.procs {
        StepKnows(env, s.sh, p, s.procs[p], e.fault, e.choice, u);
      } else if e.Start? && e.pid == p && p !in s.procs {
        StartKnows(env, s.sh, e.op, u);
      } else {
        KnowsStable(env, s.sh, t.sh, s.procs[p], u);
      }
    }
  }

  lemma StartKnows(env: Env, sh: Shared, op: Op, u: string)
    ensures SweepKnows(env, sh, First(op, sh.now), u)
  {
  }

  lemma StepKnows(env: Env, a: Shared, pid: Pid, loc: Loc, fault: Fault, c: Choice, u: string)
    requires EnvOk(env) && SharedInv(env, a) && LocInv(env, a, pid, loc) && SweepKnows(env, a, loc, u)
    ensures var end := StepOf(env, a, pid, loc, fault, c); SweepKnows(env, end.0, end.1, u)
  {
    hide SharedInv, LocInv, StepOf, EnvOk;
    if loc.Sweeping? {
      OwnStep(env, a, pid, loc.sweeping, fault, c, u);
    } else {
      OtherStep(env, a, pid, loc, fault, c);
    }
  }

  // ----------------------------------------------------------------- whole runs

  lemma {:induction false} KnowsRun(env: Env, s: State, events: seq<Event>, u: string)
    requires EnvOk(env) && Inv(env, s) && SweepsKnow(env, s, u) && PromptRun(env, s, events, u)
    ensures SweepsKnow(env, Run(env, s, events), u)
  {
    hide Inv, SweepsKnow, Prompt, Apply, EnvOk;
    if events != [] {
      var before := events[..|events| - 1];
      assert forall k | 0 <= k <= |before| :: before[..k] == events[..k];
      assert events[..|events|] == events;
      KnowsRun(env, s, before, u);
      RunGood(env, s, before);
      assert Prompt(env, Run(env, s, events[..|events| - 1]).sh, Run(env, s, events[..|events| - 1 + 1]).sh, u);
      KnowsStep(env, Run(env, s, before), events[|events| - 1], u);
    }
  }

  /** A step of an upload sweep closes this upload, with or without a fault. */
  ghost predicate SweepAborts(env: Env, s: State, e: Event, u: string) {
    && e.Step? && e.pid in s.procs && s.procs[e.pid].Sweeping? && s.procs[e.pid].sweeping.UploadAbort?
    && u in s.sh.uploads && u !in Apply(env, s, e).sh.uploads
  }

  ghost predicate RecordedVisibly(sh: Shared, u: string) {
    exists id :: id in sh.rows && sh.rows[id].Visible() && sh.rows[id].upload == Some(u)
  }

  lemma AbortEffect(env: Env, sh: Shared, pid: Pid, at: SweepLoc, fault: Fault, c: Choice)
    requires at.UploadAbort?
    ensures var b := StepOf(env, sh, pid, Sweeping(at), fault, c).0;
            if at.orphans == [] || fault.FailBefore? then b == sh
            else b == CloseUpload(sh, at.orphans[0].key, at.orphans[0].upload)
  {
    hide CallCreate, CallWrite, CallFinalize, CallPart, CallRemove, OnError, CloseUpload;
  }

  lemma AbortsFirst(env: Env, s: State, e: Event, u: string)
    requires SweepAborts(env, s, e, u)
    ensures s.procs[e.pid].sweeping.orphans != [] && s.procs[e.pid].sweeping.orphans[0].upload == u
  {
    hide StepOf;
    AbortEffect(env, s.sh, e.pid, s.procs[e.pid].sweeping, e.fault, e.choice);
  }

  /**
   If an upload is recorded in time, a sweep that aborts it does so while no visible
   row records it, however long ago it listed the upload and looked up its owner,
   and whatever happens to any other upload.
   */
  lemma AbortsOnlyUnrecorded(env: Env, s: State, events: seq<Event>, e: Event, u: string)
    requires EnvOk(env) && Initial(env, s) && PromptRun(env, s, events, u)
    requires SweepAborts(env, Run(env, s, events), e, u)
    ensures !RecordedVisibly(Run(env, s, events).sh, u)
  {
    hide Inv, Apply, EnvOk, PromptRun, Initial;
    InitialInv(env, s);
    StartsKnowing(env, s, u);
    KnowsRun(env, s, events, u);
    var t := Run(env, s, events);
    AbortsFirst(env, t, e, u);
    assert SweepKnows(env, t.sh, t.procs[e.pid], u);
    assert Unrecorded(t.sh, u);
  }

  lemma StartsKnowing(env: Env, s: State, u: string)
    requires Initial(env, s)
    ensures SweepsKnow(env, s, u)
  {
  }

  // ------------------------------------------------------------ exactly when late

  /** The k-th event of this run records the upload `delay` after it was opened. */
  ghost predicate RecordedAfter(env: Env, s: State, events: seq<Event>, k: nat, u: string, delay: int)
  {
    && k < |events|
    && var a := Run(env, s, events[..k]).sh;
       RecordsOpen(a, Run(env, s, events[..k + 1]).sh, u) && a.now - a.uploads[u].initiated == delay
  }

  /** A sweep aborts the upload of a visible row, after a run that recorded it this late. */
  ghost predicate Loses(env: Env, s: State, events: seq<Event>, k: nat, e: Event, u: string, delay: int) {
    && Initial(env, s) && RecordedAfter(env, s, events, k, u, delay)
    && RecordedVisibly(Run(env, s, events).sh, u) && SweepAborts(env, Run(env, s, events), e, u)
  }

  /** Whenever a sweep aborts the upload of a visible row, the row had recorded it too late. */
  lemma LossIsLate(env: Env, s: State, events: seq<Event>, e: Event, u: string) returns (k: nat, delay: int)
    requires EnvOk(env) && Initial(env, s)
    requires RecordedVisibly(Run(env, s, events).sh, u) && SweepAborts(env, Run(env, s, events), e, u)
    ensures Loses(env, s, events, k, e, u, delay) && delay > env.maxAge
  {
    hide Initial, EnvOk, Apply, RecordedVisibly, SweepAborts;
    if PromptRun(env, s, events, u) {
      AbortsOnlyUnrecorded(env, s, events, e, u);
      assert false;
    }
    k :| 0 <= k < |events| && !Prompt(env, Run(env, s, events[..k]).sh, Run(env, s, events[..k + 1]).sh, u);
    delay := Run(env, s, events[..k]).sh.now - Run(env, s, events[..k]).sh.uploads[u].initiated;
  }

  // ------------------------------------------------------------- a loss is final

  /** The upload this object recorded is closed with nothing assembled. */
  ghost predicate Lost(env: Env, sh: Shared, id: int, u: string) {
    && Sealed(env, sh, u) && sh.recorded[u] == id && BirthKey(env, sh, id) !in sh.objects
    && (id in sh.rows ==> !sh.rows[id].Available())
  }

  lemma LostRow(env: Env, sh: Shared, id: int)
    requires SharedInv(env, sh) && id in sh.born && BirthKey(env, sh, id) !in sh.objects
    ensures id in sh.rows ==> !sh.rows[id].Available()
  {
    assert id in sh.rows && sh.rows[id].Available() ==> Holds(env, sh, id);
  }

  lemma LostStep(env: Env, s: State, e: Event, id: int, u: string)
    requires EnvOk(env) && Inv(env, s) && Lost(env, s.sh, id, u)
    ensures Lost(env, Apply(env, s, e).sh, id, u)
  {
    hide LocInv, Apply, EnvOk, RowFacts, RowsForward, BytesForward;
    ApplyGood(env, s, e);
    SealedStep(env, s, e, u);
    LostRow(env, Apply(env, s, e).sh, id);
  }

  lemma {:induction false} LostForever(env: Env, s: State, events: seq<Event>, id: int, u: string)
    requires EnvOk(env) && Inv(env, s) && Lost(env, s.sh, id, u)
    ensures Lost(env, Run(env, s, events).sh, id, u)
  {
    hide Inv, Apply, EnvOk, Lost;
    if events != [] {
      LostForever(env, s, events[..|events| - 1], id, u);
      RunGood(env, s, events[..|events| - 1]);
      LostStep(env, Run(env, s, events[..|events| - 1]), events[|events| - 1], id, u);
    }
  }

  /** The step that aborts a row's open upload leaves it closed with nothing assembled. */
  lemma AbortLoses(env: Env, s: State, e: Event, id: int, u: string)
    requires EnvOk(env) && Inv(env, s) && SweepAborts(env, s, e, u)
    requires id in s.sh.rows && s.sh.rows[id].Visible() && s.sh.rows[id].upload == Some(u)
    ensures Lost(env, Apply(env, s, e).sh, id, u)
  {
    hide EnvOk, StepOf, LocInv, Guarantee, StepFacts;
    AbortEffect(env, s.sh, e.pid, s.procs[e.pid].sweeping, e.fault, e.choice);
    RecordedPending(env, s.sh, id);
    PendingSnapshot(env, s.sh, id);
    NotYetAssembled(env, s.sh, u);
    ApplyGood(env, s, e);
    LostRow(env, Apply(env, s, e).sh, id);
  }

  /**
   A loss is final: once a sweep aborts the open upload of a visible row, nothing is
   ever assembled at the object's key and the object is never published, whatever
   runs later.
   */
  lemma LossIsFinal(env: Env, s: State, events: seq<Event>, e: Event, later: seq<Event>, id: int, u: string)
    requires EnvOk(env) && Initial(env, s) && SweepAborts(env, Run(env, s, events), e, u)
    requires var sh := Run(env, s, events).sh; id in sh.rows && sh.rows[id].Visible() && sh.rows[id].upload == Some(u)
    ensures Lost(env, Run(env, Apply(env, Run(env, s, events), e), later).sh, id, u)
  {
    hide Inv, Apply, EnvOk, Initial, SweepAborts, Lost;
    Reachable(env, s, events);
    AbortLoses(env, Run(env, s, events), e, id, u);
    ApplyGood(env, Run(env, s, events), e);
    LostForever(env, Apply(env, Run(env, s, events), e), later, id, u);
  }

  lemma {:induction false} StaysRecorded(env: Env, s: State, events: seq<Event>, j: nat, k: nat, u: string)
    requires EnvOk(env) && Inv(env, s) && j <= k <= |events| && u in Run(env, s, events[..j]).sh.recorded
    ensures u in Run(env, s, events[..k]).sh.recorded
    decreases k
  {
    hide Inv, EnvOk, Apply, StepFacts;
    if j < k {
      StaysRecorded(env, s, events, j, k - 1, u);
      RunGood(env, s, events[..k - 1]);
      ApplyGood(env, Run(env, s, events[..k - 1]), events[k - 1]);
      assert events[..k] == events[..k - 1] + [events[k - 1]];
      RunLast(env, s, events[..k - 1], events[k - 1]);
    }
  }

  /** An upload is recorded at most once in a run, so it has one delay. */
  lemma RecordedOnce(env: Env, s: State, events: seq<Event>, j: nat, k: nat, u: string, one: int, two: int)
    requires EnvOk(env) && Inv(env, s)
    requires RecordedAfter(env, s, events, j, u, one) && RecordedAfter(env, s, events, k, u, two)
    ensures j == k && one == two
  {
    hide Inv, EnvOk;
    if j < k {
      StaysRecorded(env, s, events, j + 1, k, u);
    } else if k < j {
      StaysRecorded(env, s, events, k + 1, j, u);
    }
  }

  function Chosen(upload: string, listed: seq<Listed>): Choice {
    Choice(upload, 0, [], [], listed, false)
  }

  /** A multipart Begin, up to the moment before it records the upload it opened. */
  function SlowOpen(content: Declaration): seq<Event> {
    [Start(0, Begin("p", "f", content))] + [Step(0, NoFault, Chosen("u", []))] + [Step(0, NoFault, Chosen("u", []))]
  }

  /** Meanwhile the upload grows old, and a sweep lists it and looks up its owner. */
  function SlowBegin(env: Env, content: Declaration, delay: nat): seq<Event> {
    var c := Chosen("u", [Listed(env.keyOf(1, "f"), "u")]);
    SlowOpen(content) + [Tick(delay)] + [Start(1, SweepUploads)] + [Step(1, NoFault, c)] + [Step(1, NoFault, c)]
  }

  ghost predicate Opened(env: Env, content: Declaration, t: State) {
    && t.procs == map[0 := Creating(RecordUpload(1, NewRow("p", "f", content, 0), "u"))]
    && t.sh.now == 0 && t.sh.rows == map[1 := NewRow("p", "f", content, 0)] && t.sh.recorded == map[]
    && t.sh.uploads == map["u" := Upload(env.keyOf(1, "f"), map[], true, 0)]
  }

  lemma SlowOpenState(env: Env, content: Declaration)
    requires env.kind.S3Kind? && content.Valid() && content.size > MULTIPART_THRESHOLD
    ensures Opened(env, content, Run(env, EMPTY, SlowOpen(content)))
  {
    var c := Chosen("u", []);
    var row := NewRow("p", "f", content, 0);
    var e1 := [Start(0, Begin("p", "f", content))];
    RunLast(env, EMPTY, [], e1[0]);
    assert [] + e1 == e1;
    assert Run(env, EMPTY, e1).procs == map[0 := Creating(Insert(Begin("p", "f", content)))];
    RunLast(env, EMPTY, e1, Step(0, NoFault, c));
    var e2 := e1 + [Step(0, NoFault, c)];
    var s2 := Run(env, EMPTY, e2);
    assert s2.procs == map[0 := Creating(OpenUpload(1, row))] && s2.sh.rows == map[1 := row] && s2.sh.uploads == map[];
    RunLast(env, EMPTY, e2, Step(0, NoFault, c));
  }

  /** The sweep's two steps before it aborts: list the old upload, find no owner. */
  lemma SlowSweep(env: Env, content: Declaration, delay: nat, s: State)
    requires EnvOk(env) && env.kind.S3Kind? && delay > env.maxAge
    requires Opened(env, content, State(s.sh.(now := 0), s.procs - {1})) && s.sh.now == delay
    requires 1 in s.procs && s.procs[1] == Sweeping(UploadList(delay, []))
    ensures var c := Chosen("u", [Listed(env.keyOf(1, "f"), "u")]);
            Apply(env, Apply(env, s, Step(1, NoFault, c)), Step(1, NoFault, c))
            == s.(procs := s.procs[1 := Sweeping(UploadAbort(delay, c.listed, []))])
  {
    hide EnvOk, CallCreate, CallWrite, CallFinalize, CallPart, CallRemove, OnError;
    var item := Listed(env.keyOf(1, "f"), "u");
    var c := Chosen("u", [item]);
    assert OldUploads(env, s.sh, delay, c.listed);
    assert [] + c.listed == c.listed;
    var t := Apply(env, s, Step(1, NoFault, c));
    assert t == s.(procs := s.procs[1 := Sweeping(UploadLookup(delay, c.listed))]);
    assert !OwnedUpload(env, t.sh.rows, item);
    assert Batch(c.listed) == c.listed && Rest(c.listed) == [] && c.listed[1..] == [];
    assert Orphans(env, t.sh.rows, c.listed) == [item] + Orphans(env, t.sh.rows, []) == c.listed;
    var abort := Sweeping(UploadAbort(delay, c.listed, []));
    assert t.procs[1 := abort] == s.procs[1 := abort];
  }

  lemma SlowBeginState(env: Env, content: Declaration, delay: nat)
    requires EnvOk(env) && env.kind.S3Kind? && delay > env.maxAge
    requires content.Valid() && content.size > MULTIPART_THRESHOLD
    ensures var row := NewRow("p", "f", content, 0);
            var key := env.keyOf(1, "f");
            var t := Run(env, EMPTY, SlowBegin(env, content, delay));
            && t.procs == map[0 := Creating(RecordUpload(1, row, "u")),
                              1 := Sweeping(UploadAbort(delay, [Listed(key, "u")], []))]
            && t.sh.now == delay && t.sh.recorded == map[]
            && t.sh.rows == map[1 := row] && t.sh.uploads == map["u" := Upload(key, map[], true, 0)]
  {
    hide EnvOk, SlowOpen, StepOf;
    var c := Chosen("u", [Listed(env.keyOf(1, "f"), "u")]);
    var e3 := SlowOpen(content);
    SlowOpenState(env, content);
    RunLast(env, EMPTY, e3, Tick(delay));
    var e4 := e3 + [Tick(delay)];
    RunLast(env, EMPTY, e4, Start(1, SweepUploads));
    var e5 := e4 + [Start(1, SweepUploads)];
    RunLast(env, EMPTY, e5, Step(1, NoFault, c));
    RunLast(env, EMPTY, e5 + [Step(1, NoFault, c)], Step(1, NoFault, c));
    var s5 := Run(env, EMPTY, e5);
    assert s5.procs - {1} == Run(env, EMPTY, e3).procs;
    SlowSweep(env, content, delay, s5);
  }

  /** The whole run: the row records its upload late, and the sweep's next step aborts it. */
  function SlowRun(env: Env, content: Declaration, delay: nat): seq<Event> {
    SlowBegin(env, content, delay) + [Step(0, NoFault, Chosen("u", []))]
  }

  /** The late recording itself. */
  lemma SlowRecord(env: Env, s: State, row: Row, c: Choice)
    requires 0 in s.procs && s.procs[0] == Creating(RecordUpload(1, row, "u"))
    requires 1 in s.sh.rows && s.sh.rows[1].Pending() && s.sh.rows[1].upload.None?
    ensures var t := Apply(env, s, Step(0, NoFault, c));
            && t.sh.uploads == s.sh.uploads && "u" in t.sh.recorded && t.procs == s.procs[0 := t.procs[0]]
            && 1 in t.sh.rows && t.sh.rows[1].Pending() && t.sh.rows[1].upload == Some("u")
  {
    hide CallWrite, CallFinalize, CallPart, CallRemove, CallSweep, OnError;
    assert NotBlank("u") by {
      assert "u"[0] != ' ';
    }
  }

  lemma SlowAbort(env: Env, t: State, start: Time, c: Choice)
    requires 1 in t.procs && t.procs[1] == Sweeping(UploadAbort(start, [Listed(env.keyOf(1, "f"), "u")], []))
    requires "u" in t.sh.uploads && t.sh.uploads["u"].key == env.keyOf(1, "f")
    ensures SweepAborts(env, t, Step(1, NoFault, c), "u")
  {
    hide StepOf;
    AbortEffect(env, t.sh, 1, t.procs[1].sweeping, NoFault, c);
  }

  lemma SlowRunState(env: Env, content: Declaration, delay: nat)
    requires EnvOk(env) && env.kind.S3Kind? && delay > env.maxAge
    requires content.Valid() && content.size > MULTIPART_THRESHOLD
    ensures var t := Run(env, EMPTY, SlowRun(env, content, delay));
            && 1 in t.sh.rows && t.sh.rows[1].Pending() && t.sh.rows[1].upload == Some("u") && "u" in t.sh.uploads
            && "u" in t.sh.recorded && SweepAborts(env, t, Step(1, NoFault, Chosen("u", [])), "u")
  {
    hide SlowBegin, SlowOpen, Apply, SweepAborts, EnvOk;
    SlowBeginState(env, content, delay);
    var begun := SlowBegin(env, content, delay);
    RunLast(env, EMPTY, begun, Step(0, NoFault, Chosen("u", [])));
    SlowRecord(env, Run(env, EMPTY, begun), NewRow("p", "f", content, 0), Chosen("u", []));
    SlowAbort(env, Run(env, EMPTY, SlowRun(env, content, delay)), delay, Chosen("u", []));
  }

  /**
   For every delay beyond the maximum pending age, a run that starts from an empty
   installation records its upload that late and loses it to a sweep.
   */
  lemma SlowRecordIsAborted(env: Env, content: Declaration, delay: nat)
    requires EnvOk(env) && env.kind.S3Kind? && delay > env.maxAge
    requires content.Valid() && content.size > MULTIPART_THRESHOLD
    ensures Loses(env, EMPTY, SlowRun(env, content, delay), |SlowBegin(env, content, delay)|,
                  Step(1, NoFault, Chosen("u", [])), "u", delay)
  {
    hide SlowBegin, Apply, EnvOk, Initial, SweepAborts;
    var events, k := SlowRun(env, content, delay), |SlowBegin(env, content, delay)|;
    EmptyInitial(env);
    SlowBeginState(env, content, delay);
    SlowRunState(env, content, delay);
    assert events[..k] == SlowBegin(env, content, delay) && events[..k + 1] == events;
  }

  const LARGE := Declaration(MULTIPART_THRESHOLD + 1, Keys.Repeat('0', 64), Keys.Repeat('0', 16))

  /**
   The exact condition: some run loses an upload that was recorded `delay` after it
   was opened if and only if the delay exceeds the maximum pending age.
   */
  lemma LossExactlyWhenLate(env: Env, delay: nat)
    requires EnvOk(env) && env.kind.S3Kind?
    ensures (exists s, events, k, e, u :: Loses(env, s, events, k, e, u, delay)) <==> delay > env.maxAge
  {
    hide EnvOk, Initial, RecordedAfter, SlowBegin, SlowRun, Apply, SweepAborts, RecordedVisibly;
    if delay > env.maxAge {
      SlowRecordIsAborted(env, LARGE, delay);
    }
    forall s, events, k, e, u | Loses(env, s, events, k, e, u, delay) ensures delay > env.maxAge {
      var k2, late := LossIsLate(env, s, events, e, u);
      InitialInv(env, s);
      RecordedOnce(env, s, events, k, k2, u, delay, late);
    }
  }
}
