/**
 The one way a stale finalizer fails over stored bytes, as a run: it looked
 before the upload was recorded and verifies before the upload is cleared.
 */
module BlockedFinalizer {
  import opened Wrappers
  import opened Content
  import opened Table
  import opened Storage
  import opened Protocol
  import opened PartListing
  import opened Invariant
  import opened Migration
  import opened Safety
  import opened Progress
  import opened UploadSweep
  import opened Finalizers
  import SweepProgress
  import Client

  const ANY := Chosen("u", [])

  function Declares(env: Env, blob: Bytes): Declaration {
    Declaration(|blob|, env.sha(blob), env.crc(blob))
  }

  /** The row as the stale finalizer saw it, before the upload was recorded. */
  function Before(env: Env, blob: Bytes): Row {
    NewRow("p", "f", Declares(env, blob), 0)
  }

  function After(env: Env, blob: Bytes): Row {
    Before(env, blob).(upload := Some("u"))
  }

  function OnePart(env: Env, blob: Bytes): Target {
    PartTarget(1, env.keyOf(1, "f"), "u", 1, env.crc(blob), 0, 0, env.ttl)
  }

  /** The upload is open; a stale finalizer, a part request and a fresh finalizer start. */
  function Opening(env: Env, blob: Bytes): seq<Event> {
    SlowOpen(Declares(env, blob)) + [Start(1, Finalize(1, "p"))] + [Start(2, PresignPart(1, "p", 1, env.crc(blob)))]
      + [Start(3, Finalize(1, "p"))]
  }

  /** The stale finalizer looks, the upload is recorded, and a part of it is signed. */
  function Looking(env: Env, blob: Bytes): seq<Event> {
    Opening(env, blob) + Undisturbed(1, [ANY, ANY]) + Undisturbed(0, [ANY]) + Undisturbed(2, [ANY, ANY, ANY])
  }

  /** The whole blob lands as that part, and the fresh finalizer completes the upload. */
  function Completing(env: Env, blob: Bytes): seq<Event> {
    Looking(env, blob) + [Accept(OnePart(env, blob))] + [LandPart(OnePart(env, blob), blob)]
      + Undisturbed(3, [ANY, ANY, ANY, ANY])
  }

  /** Undisturbed steps after a run, as one operation running alone. */
  lemma JoinAlone(env: Env, s: State, events: seq<Event>, pid: Pid, cs: seq<Choice>)
    requires pid in Run(env, s, events).procs
    ensures var t := Run(env, s, events);
            var end := Alone(env, t.sh, pid, t.procs[pid], cs);
            Run(env, s, events + Undisturbed(pid, cs)) == State(end.0, t.procs[pid := end.1])
  {
    hide Apply, Alone;
    RunJoin(env, s, events, Undisturbed(pid, cs));
    AloneIsRun(env, Run(env, s, events), pid, cs);
  }

  /** What the run fixes up to the landing of the part. */
  ghost predicate Holding(env: Env, sh: Shared, row: Row, parts: map<int, Part>) {
    && sh.now == 0 && sh.rows == map[1 := row]
    && sh.uploads == map["u" := Upload(env.keyOf(1, "f"), parts, true, 0)]
  }

  // -------------------------------------------------------------------- segments

  lemma OpeningState(env: Env, blob: Bytes)
    requires EnvOk(env) && env.kind.S3Kind? && |blob| > MULTIPART_THRESHOLD
    ensures var t := Run(env, EMPTY, Opening(env, blob));
            && Holding(env, t.sh, Before(env, blob), map[])
            && t.procs == map[0 := Creating(RecordUpload(1, Before(env, blob), "u")),
                              1 := Finalizing(FinGet(1, "p")),
                              2 := Signing(PartGet(1, "p", 1, env.crc(blob))),
                              3 := Finalizing(FinGet(1, "p"))]
  {
    hide SlowOpen, StepOf, EnvOk;
    var e := SlowOpen(Declares(env, blob));
    DeclaresValid(env, blob);
    SlowOpenState(env, Declares(env, blob));
    var stale, part := Start(1, Finalize(1, "p")), Start(2, PresignPart(1, "p", 1, env.crc(blob)));
    RunLast(env, EMPTY, e, stale);
    RunLast(env, EMPTY, e + [stale], part);
    RunLast(env, EMPTY, e + [stale] + [part], Start(3, Finalize(1, "p")));
  }

  lemma DeclaresValid(env: Env, blob: Bytes)
    requires EnvOk(env)
    ensures Declares(env, blob).Valid() && IsLowerHex(env.crc(blob), 16)
  {
    assert IsLowerHex(env.crc(blob), 16);
  }

  /** One more undisturbed step, and the last one. */
  lemma Two(env: Env, sh: Shared, pid: Pid, loc: Loc, mid: Shared, at: Loc, cs: seq<Choice>, next: Shared, end: Loc)
    requires |cs| == 2
    requires Call(env, sh, pid, loc, cs[0]) == (mid, at) && Call(env, mid, pid, at, cs[1]) == (next, end)
    ensures Alone(env, sh, pid, loc, cs) == (next, end)
  {
    hide Call, Alone;
    SweepProgress.AloneNext(env, sh, pid, loc, cs, mid, at);
    SweepProgress.AloneNext(env, mid, pid, at, cs[1..], next, end);
    assert cs[1..][1..] == [];
    NoStep(env, next, pid, end);
  }

  lemma NoStep(env: Env, sh: Shared, pid: Pid, loc: Loc)
    ensures Alone(env, sh, pid, loc, []) == (sh, loc)
  {
  }

  lemma Unchanged(env: Env, sh: Shared, row: Row, parts: map<int, Part>)
    requires Holding(env, sh, row, parts) && row.Pending() && row.updatedAt == 0
    ensures RefreshPending(sh.rows, 1, sh.now) == Updated(row) && WriteRow(sh, 1, row) == sh
    ensures GetByID(sh.rows, 1) == Some(row)
  {
    assert sh.rows[1 := row] == sh.rows;
  }

  lemma Gets(env: Env, sh: Shared, pid: Pid, row: Row, parts: map<int, Part>)
    requires Holding(env, sh, row, parts) && row.Pending() && row.updatedAt == 0 && row.prefix == "p"
    ensures Call(env, sh, pid, Finalizing(FinGet(1, "p")), ANY) == (sh, Finalizing(FinRefresh(1)))
    ensures Call(env, sh, pid, Finalizing(FinRefresh(1)), ANY) == (sh, Prepared(1, row))
  {
    hide CallCreate, CallWrite, CallPart, CallRemove, CallSweep, Prepared, RefreshPending;
    Unchanged(env, sh, row, parts);
  }

  lemma Looks(env: Env, blob: Bytes, sh: Shared)
    requires Holding(env, sh, Before(env, blob), map[])
    ensures Alone(env, sh, 1, Finalizing(FinGet(1, "p")), [ANY, ANY])
            == (sh, Finalizing(FinVerify(1, Before(env, blob))))
  {
    hide Call, Alone;
    var row := Before(env, blob);
    Gets(env, sh, 1, row, map[]);
    Two(env, sh, 1, Finalizing(FinGet(1, "p")), sh, Finalizing(FinRefresh(1)), [ANY, ANY], sh, Prepared(1, row));
  }

  lemma Records(env: Env, blob: Bytes, sh: Shared)
    requires Holding(env, sh, Before(env, blob), map[])
    ensures var end := Alone(env, sh, 0, Creating(RecordUpload(1, Before(env, blob), "u")), [ANY]);
            Holding(env, end.0, After(env, blob), map[])
  {
    assert NotBlank("u") by {
      assert "u"[0] != ' ';
    }
    assert [ANY][1..] == [];
  }

  lemma SignSteps(env: Env, sh: Shared, row: Row, crc: string)
    requires env.kind.S3Kind? && Holding(env, sh, row, map[]) && row.Pending() && row.updatedAt == 0
    requires row.prefix == "p" && row.upload == Some("u") && RowKey(env, 1, row) == env.keyOf(1, "f")
    ensures Call(env, sh, 2, Signing(PartGet(1, "p", 1, crc)), ANY) == (sh, Signing(PartRefresh(1, 1, crc)))
    ensures Call(env, sh, 2, Signing(PartRefresh(1, 1, crc)), ANY) == (sh, Signing(PartSign(1, row, 1, crc)))
    ensures Call(env, sh, 2, Signing(PartSign(1, row, 1, crc)), ANY)
            == (sh.(targets := sh.targets + {PartTarget(1, env.keyOf(1, "f"), "u", 1, crc, 0, 0, env.ttl)}), Finished)
  {
    hide CallCreate, CallWrite, CallFinalize, CallRemove, CallSweep, RefreshPending;
    Unchanged(env, sh, row, map[]);
  }

  lemma Signs(env: Env, blob: Bytes, sh: Shared)
    requires env.kind.S3Kind? && Holding(env, sh, After(env, blob), map[])
    ensures Alone(env, sh, 2, Signing(PartGet(1, "p", 1, env.crc(blob))), [ANY, ANY, ANY])
            == (sh.(targets := sh.targets + {OnePart(env, blob)}), Finished)
  {
    hide Call, Alone;
    var row, crc := After(env, blob), env.crc(blob);
    SignSteps(env, sh, row, crc);
    var get, refresh, sign := PartGet(1, "p", 1, crc), PartRefresh(1, 1, crc), PartSign(1, row, 1, crc);
    SweepProgress.AloneNext(env, sh, 2, Signing(get), [ANY, ANY, ANY], sh, Signing(refresh));
    assert [ANY, ANY, ANY][1..] == [ANY, ANY];
    Two(env, sh, 2, Signing(refresh), sh, Signing(sign), [ANY, ANY],
        sh.(targets := sh.targets + {OnePart(env, blob)}), Finished);
  }

  function Whole(env: Env, blob: Bytes): map<int, Part> {
    map[1 := Part(blob, env.crc(blob))]
  }

  lemma WholeCompletes(env: Env, blob: Bytes)
    ensures var parts := Whole(env, blob);
            && Ascending(parts, 0) == [1] && Concat(parts, [1]) == blob
            && var named := Named(env, parts, [1]);
               named == [NamedPart(1, env.etag(blob), env.crc(blob), |blob|)] && TotalSize(named) == |blob|
               && Completes(env, parts, named) && Numbers(named) == [1]
  {
    var parts := Whole(env, blob);
    Client.AscendingCounts(parts, 0, 1);
    assert Client.Following(0, 1) == [1];
    assert [1][..0] == [] && Concat(parts, []) == [];
    var named := Named(env, parts, [1]);
    assert named[..0] == [];
  }

  lemma CompleteSteps(env: Env, blob: Bytes, sh: Shared, row: Row)
    requires env.kind.S3Kind? && Holding(env, sh, row, Whole(env, blob))
    requires row.Declared() && row.size == Some(|blob|) && row.upload == Some("u")
    requires RowKey(env, 1, row) == env.keyOf(1, "f")
    ensures AllIn(Whole(env, blob), [1])
    ensures var named := Named(env, Whole(env, blob), [1]);
            var (end, at) := Call(env, sh, 3, Finalizing(FinComplete(1, row, named)), ANY);
            && Call(env, sh, 3, Finalizing(FinList(1, row, [], 0)), ANY)
               == (sh, Finalizing(FinComplete(1, row, named)))
            && end.rows == sh.rows
            && env.keyOf(1, "f") in end.objects && end.objects[env.keyOf(1, "f")].body == blob
  {
    hide CallCreate, CallWrite, CallPart, CallRemove, CallSweep, RowKey, Ascending, Concat, Named, TotalSize, Completes,
      Numbers;
    var named := Named(env, Whole(env, blob), [1]);
    WholeCompletes(env, blob);
    assert [] + named == named;
  }

  lemma FreshCompletes(env: Env, blob: Bytes, sh: Shared)
    requires env.kind.S3Kind? && Holding(env, sh, After(env, blob), Whole(env, blob))
    ensures var end := Alone(env, sh, 3, Finalizing(FinGet(1, "p")), [ANY, ANY, ANY, ANY]).0;
            && end.rows == sh.rows
            && env.keyOf(1, "f") in end.objects && end.objects[env.keyOf(1, "f")].body == blob
  {
    hide Call, Alone, Holding, Named;
    var row := After(env, blob);
    CompleteSteps(env, blob, sh, row);
    Gets(env, sh, 3, row, Whole(env, blob));
    var named := Named(env, Whole(env, blob), [1]);
    var list, complete := Finalizing(FinList(1, row, [], 0)), Finalizing(FinComplete(1, row, named));
    SweepProgress.AloneNext(env, sh, 3, Finalizing(FinGet(1, "p")), [ANY, ANY, ANY, ANY], sh,
                            Finalizing(FinRefresh(1)));
    SweepProgress.AloneNext(env, sh, 3, Finalizing(FinRefresh(1)), [ANY, ANY, ANY], sh, list);
    assert [ANY, ANY, ANY, ANY][1..] == [ANY, ANY, ANY] && [ANY, ANY, ANY][1..] == [ANY, ANY];
    var (end, at) := Call(env, sh, 3, complete, ANY);
    Two(env, sh, 3, list, sh, complete, [ANY, ANY], end, at);
  }

  // --------------------------------------------------------------- the whole run

  lemma LookingState(env: Env, blob: Bytes)
    requires EnvOk(env) && env.kind.S3Kind? && |blob| > MULTIPART_THRESHOLD
    ensures var t := Run(env, EMPTY, Looking(env, blob));
            && Holding(env, t.sh, After(env, blob), map[]) && OnePart(env, blob) in t.sh.targets
            && 1 in t.procs && t.procs[1] == Finalizing(FinVerify(1, Before(env, blob)))
            && 3 in t.procs && t.procs[3] == Finalizing(FinGet(1, "p"))
  {
    hide Alone, Opening, Apply, Holding, EnvOk;
    var e := Opening(env, blob);
    OpeningState(env, blob);
    Looks(env, blob, Run(env, EMPTY, e).sh);
    JoinAlone(env, EMPTY, e, 1, [ANY, ANY]);
    e := e + Undisturbed(1, [ANY, ANY]);
    Records(env, blob, Run(env, EMPTY, e).sh);
    JoinAlone(env, EMPTY, e, 0, [ANY]);
    e := e + Undisturbed(0, [ANY]);
    Signs(env, blob, Run(env, EMPTY, e).sh);
    JoinAlone(env, EMPTY, e, 2, [ANY, ANY, ANY]);
    StillHolding(env, Run(env, EMPTY, e).sh, After(env, blob), OnePart(env, blob));
  }

  lemma StillHolding(env: Env, sh: Shared, row: Row, t: Target)
    requires Holding(env, sh, row, map[])
    ensures Holding(env, sh.(targets := sh.targets + {t}), row, map[])
  {
  }

  lemma Lands(env: Env, blob: Bytes, s: State)
    requires EnvOk(env) && Holding(env, s.sh, After(env, blob), map[]) && OnePart(env, blob) in s.sh.targets
    ensures var t := Apply(env, Apply(env, s, Accept(OnePart(env, blob))), LandPart(OnePart(env, blob), blob));
            Holding(env, t.sh, After(env, blob), Whole(env, blob)) && t.procs == s.procs
  {
    hide StepOf, After;
    var part := OnePart(env, blob);
    var accepted := Apply(env, s, Accept(part));
    assert Accepts(s.sh, part);
    assert accepted == s.(sh := s.sh.(accepted := s.sh.accepted + {part}));
    assert PartLands(env, accepted.sh, part, blob);
  }

  /** The stale finalizer would publish, the declared bytes are stored, and the row still records the upload. */
  ghost predicate Blocked(env: Env, t: State, id: int) {
    && 1 in t.procs && t.procs[1].Finalizing? && t.procs[1].finalizing.id == id
    && Shown(t.sh, id) && StoredHere(env, t.sh, id) && BlockedByUpload(t.sh.rows[id], t.procs[1].finalizing)
  }

  lemma CompletingState(env: Env, blob: Bytes)
    requires EnvOk(env) && env.kind.S3Kind? && |blob| > MULTIPART_THRESHOLD
    ensures Blocked(env, Run(env, EMPTY, Completing(env, blob)), 1)
  {
    hide Alone, Looking, Apply, Holding, EnvOk, SharedInv;
    var e := Looking(env, blob);
    var part := OnePart(env, blob);
    LookingState(env, blob);
    RunLast(env, EMPTY, e, Accept(part));
    RunLast(env, EMPTY, e + [Accept(part)], LandPart(part, blob));
    Lands(env, blob, Run(env, EMPTY, e));
    e := e + [Accept(part)] + [LandPart(part, blob)];
    FreshCompletes(env, blob, Run(env, EMPTY, e).sh);
    JoinAlone(env, EMPTY, e, 3, [ANY, ANY, ANY, ANY]);
    EmptyInitial(env);
    Reachable(env, EMPTY, Completing(env, blob));
    HoldingRow(env, Run(env, EMPTY, e).sh, After(env, blob), Whole(env, blob));
    WholeStored(env, blob, Run(env, EMPTY, Completing(env, blob)));
  }

  lemma HoldingRow(env: Env, sh: Shared, row: Row, parts: map<int, Part>)
    requires Holding(env, sh, row, parts)
    ensures sh.rows == map[1 := row]
  {
  }

  lemma WholeStored(env: Env, blob: Bytes, t: State)
    requires Inv(env, t) && t.sh.rows == map[1 := After(env, blob)]
    requires 1 in t.procs && t.procs[1] == Finalizing(FinVerify(1, Before(env, blob)))
    requires env.keyOf(1, "f") in t.sh.objects && t.sh.objects[env.keyOf(1, "f")].body == blob
    ensures StoredHere(env, t.sh, 1)
  {
    assert LocInv(env, t.sh, 1, t.procs[1]);
    assert OfBirth(Before(env, blob), t.sh.born[1]);
  }

  /**
   For every blob that needs an upload, a run from an empty installation stores the
   declared bytes and leaves a stale finalizer that, undisturbed, ends with an error.
   */
  lemma StaleFinalizerRefused(env: Env, blob: Bytes, cs: seq<Choice>)
    requires EnvOk(env) && env.kind.S3Kind? && |blob| > MULTIPART_THRESHOLD && |cs| >= MAX_PARTS + 8
    ensures var t := Run(env, EMPTY, Completing(env, blob));
            && Blocked(env, t, 1)
            && 1 in Run(env, t, Undisturbed(1, cs)).procs && Run(env, t, Undisturbed(1, cs)).procs[1].Finished?
  {
    hide Completing, Apply, EnvOk, SharedInv, FinalizeInv, StoredHere, Succeeds, Undisturbed;
    var t := Run(env, EMPTY, Completing(env, blob));
    CompletingState(env, blob);
    EmptyInitial(env);
    Reachable(env, EMPTY, Completing(env, blob));
    assert LocInv(env, t.sh, 1, t.procs[1]);
    StaleFinalizersSucceed(env, t.sh, t.procs[1].finalizing);
    EveryFinalizerAlone(env, EMPTY, Completing(env, blob), 1, cs);
  }
}
