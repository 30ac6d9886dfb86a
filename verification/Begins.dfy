/**
 Begin and BeginDirect: what they leave when they are left alone, and that a call
 which fails after the row was inserted leaves nothing but a spent identifier.
 */
module Begins {
  import opened Wrappers
  import opened Content
  import opened Table
  import opened Storage
  import opened Protocol
  import opened Invariant
  import opened Steps
  import opened Progress
  import opened SweepProgress
  import opened RemovalProgress
  import opened Operations

  predicate Begins(op: Op) { op.Begin? || op.BeginDirect? }

  /** Only Begin uploads in parts, on S3, and only above 100 MiB. */
  predicate InParts(env: Env, op: Op)
    requires Begins(op)
  {
    op.Begin? && env.kind == S3Kind && op.content.size > 104_857_600
  }

  predicate Accepted(sh: Shared, op: Op)
    requires Begins(op)
  {
    op.content.size >= 0 && IsLowerHex(op.content.sha, 64) && IsLowerHex(op.content.crc, 16) && sh.nextId <= MAX_ID
  }

  /** The pending row of a declaration, column by column. */
  function PendingRow(op: Op, upload: Option<string>, now: Time): Row
    requires Begins(op)
  {
    Row(op.prefix, op.filename, "", Some(op.content.size), Some(op.content.sha), Some(op.content.crc),
        upload, None, None, None, now, now)
  }

  /** The row is there, with nothing opened or signed for it yet. */
  function Inserted(env: Env, sh: Shared, pid: Pid, op: Op): Shared
    requires Begins(op)
  {
    var mode := if InParts(env, op) then Multipart else Direct;
    sh.(rows := sh.rows[sh.nextId := PendingRow(op, None, sh.now)], nextId := sh.nextId + 1,
        born := sh.born[sh.nextId := Birth(op.filename, op.content, mode, pid)])
  }

  function Opened(env: Env, sh: Shared, pid: Pid, op: Op, u: string): Shared
    requires Begins(op)
  {
    var next := Inserted(env, sh, pid, op);
    next.(uploads := sh.uploads[u := Upload(env.keyOf(sh.nextId, op.filename), map[], true, sh.now)],
          issued := sh.issued[u := sh.nextId])
  }

  function Recorded(env: Env, sh: Shared, pid: Pid, op: Op, u: string): Shared
    requires Begins(op)
  {
    var next := Opened(env, sh, pid, op, u);
    next.(rows := sh.rows[sh.nextId := PendingRow(op, Some(u), sh.now)], recorded := sh.recorded[u := sh.nextId])
  }

  function Signed(env: Env, sh: Shared, pid: Pid, op: Op): Shared
    requires Begins(op)
  {
    var t := PutTarget(sh.nextId, env.keyOf(sh.nextId, op.filename), op.content.size, op.content.sha, sh.now, sh.now,
                       sh.now + env.ttl);
    Inserted(env, sh, pid, op).(targets := sh.targets + {t})
  }

  // ---------------------------------------------------------------------- calls

  lemma InsertStep(env: Env, sh: Shared, pid: Pid, op: Op, c: Choice)
    requires Begins(op) && Accepted(sh, op)
    ensures Call(env, sh, pid, Creating(Insert(op)), c)
            == (Inserted(env, sh, pid, op),
                Creating(if InParts(env, op) then OpenUpload(sh.nextId, PendingRow(op, None, sh.now))
                         else SignPut(sh.nextId, PendingRow(op, None, sh.now))))
  {
    hide CallWrite, CallFinalize, CallPart, CallRemove, CallSweep, IsLowerHex;
  }

  lemma SignStep(env: Env, sh: Shared, pid: Pid, op: Op, c: Choice)
    requires Begins(op)
    ensures Call(env, Inserted(env, sh, pid, op), pid, Creating(SignPut(sh.nextId, PendingRow(op, None, sh.now))), c)
            == (Signed(env, sh, pid, op), Finished)
  {
    hide CallWrite, CallFinalize, CallPart, CallRemove, CallSweep;
  }

  lemma OpenStep(env: Env, sh: Shared, pid: Pid, op: Op, c: Choice)
    requires Begins(op) && c.upload !in sh.issued
    ensures var row := PendingRow(op, None, sh.now);
            Call(env, Inserted(env, sh, pid, op), pid, Creating(OpenUpload(sh.nextId, row)), c)
            == (Opened(env, sh, pid, op, c.upload), Creating(RecordUpload(sh.nextId, row, c.upload)))
  {
    hide CallWrite, CallFinalize, CallPart, CallRemove, CallSweep;
  }

  lemma RecordStep(env: Env, sh: Shared, pid: Pid, op: Op, u: string, c: Choice)
    requires Begins(op) && NotBlank(u)
    ensures Call(env, Opened(env, sh, pid, op, u), pid,
                 Creating(RecordUpload(sh.nextId, PendingRow(op, None, sh.now), u)), c)
            == (Recorded(env, sh, pid, op, u), Finished)
  {
    hide CallWrite, CallFinalize, CallPart, CallRemove, CallSweep, NotBlank;
    var id, before := sh.nextId, PendingRow(op, None, sh.now);
    assert sh.rows[id := before][id := PendingRow(op, Some(u), sh.now)]
           == sh.rows[id := PendingRow(op, Some(u), sh.now)];
  }

  /**
   A valid declaration gets a new identifier and a pending row.  With it goes the open
   upload the row records, for a Begin above 100 MiB on S3, and otherwise one target
   that admits the declared content until its lifetime is over.  The provider hands
   out upload identifiers that are new and not blank.
   */
  lemma BeginAlone(env: Env, sh: Shared, pid: Pid, op: Op, cs: seq<Choice>)
    requires Begins(op) && |cs| >= 3
    requires InParts(env, op) ==> cs[1].upload !in sh.issued && NotBlank(cs[1].upload)
    ensures Whole(env, sh, pid, op, cs)
            == (if !Accepted(sh, op) then sh
                else if InParts(env, op) then Recorded(env, sh, pid, op, cs[1].upload)
                else Signed(env, sh, pid, op), Finished)
  {
    hide Alone, Call, Inserted, Opened, Recorded, Signed, NotBlank, IsLowerHex;
    if !Accepted(sh, op) {
      RefusedStep(env, sh, pid, op, cs[0]);
      AloneNext(env, sh, pid, Creating(Insert(op)), cs, sh, Finished);
      Rests(env, sh, pid, Finished, cs[1..]);
    } else {
      var id, row, next := sh.nextId, PendingRow(op, None, sh.now), Inserted(env, sh, pid, op);
      InsertStep(env, sh, pid, op, cs[0]);
      var u := cs[1].upload;
      if InParts(env, op) {
        AloneNext(env, sh, pid, Creating(Insert(op)), cs, next, Creating(OpenUpload(id, row)));
        OpenStep(env, sh, pid, op, cs[1]);
        AloneNext(env, next, pid, Creating(OpenUpload(id, row)), cs[1..], Opened(env, sh, pid, op, u),
                  Creating(RecordUpload(id, row, u)));
        RecordStep(env, sh, pid, op, u, cs[1..][1..][0]);
        AloneNext(env, Opened(env, sh, pid, op, u), pid, Creating(RecordUpload(id, row, u)), cs[1..][1..],
                  Recorded(env, sh, pid, op, u), Finished);
        Rests(env, Recorded(env, sh, pid, op, u), pid, Finished, cs[1..][1..][1..]);
      } else {
        AloneNext(env, sh, pid, Creating(Insert(op)), cs, next, Creating(SignPut(id, row)));
        SignStep(env, sh, pid, op, cs[1]);
        AloneNext(env, next, pid, Creating(SignPut(id, row)), cs[1..], Signed(env, sh, pid, op), Finished);
        Rests(env, Signed(env, sh, pid, op), pid, Finished, cs[1..][1..]);
      }
    }
  }

  lemma RefusedStep(env: Env, sh: Shared, pid: Pid, op: Op, c: Choice)
    requires Begins(op) && !Accepted(sh, op)
    ensures Call(env, sh, pid, Creating(Insert(op)), c) == (sh, Finished)
  {
    hide CallWrite, CallFinalize, CallPart, CallRemove, CallSweep, IsLowerHex;
  }

  // --------------------------------------------------------------- compensation

  function Sound(n: nat): seq<Fault> {
    seq(n, _ => NoFault)
  }

  function Again(choice: Choice, n: nat): seq<Choice> {
    seq(n, _ => choice)
  }

  /** Calls that all succeed are those of an operation left alone. */
  lemma {:induction false} SoundIsAlone(env: Env, sh: Shared, pid: Pid, loc: Loc, n: nat, choice: Choice)
    ensures Fated(env, sh, pid, loc, Sound(n), choice) == Alone(env, sh, pid, loc, Again(choice, n))
    decreases n
  {
    hide Call;
    if n > 0 {
      var (next, at) := Call(env, sh, pid, loc, choice);
      SoundIsAlone(env, next, pid, at, n - 1, choice);
      assert Sound(n)[1..] == Sound(n - 1) && Again(choice, n)[1..] == Again(choice, n - 1);
    }
  }

  /** What a failed Begin leaves: an identifier spent, and perhaps what a lost response hides. */
  ghost predicate NothingLeft(sh: Shared, end: (Shared, Loc), uploads: map<string, Upload>) {
    && end.1 == Finished && end.0.rows == sh.rows && end.0.objects == sh.objects && end.0.uploads == uploads
    && end.0.nextId == sh.nextId + 1
  }

  /** The compensating Delete, from a state whose one new row it takes away. */
  lemma Compensates(env: Env, sh: Shared, pid: Pid, op: Op, next: Shared, upload: Option<string>, n: nat,
                    choice: Choice)
    requires Begins(op) && EnvOk(env) && SharedInv(env, sh) && SharedInv(env, next) && n >= 4
    requires Accepted(sh, op) && sh.nextId !in sh.refs && next.refs == sh.refs
    requires next.rows == sh.rows[sh.nextId := PendingRow(op, upload, sh.now)]
    requires next.objects == sh.objects && next.nextId == sh.nextId + 1
    ensures NothingLeft(sh, Fated(env, next, pid, Protocol.Removing(DelGet(sh.nextId, op.prefix)), Sound(n), choice),
                        UploadsWithout(next.uploads, PendingRow(op, upload, sh.now)))
  {
    hide Fated, Alone, SharedInv, EnvOk;
    SoundIsAlone(env, next, pid, Protocol.Removing(DelGet(sh.nextId, op.prefix)), n, choice);
    DeleteAlone(env, next, pid, sh.nextId, op.prefix, Again(choice, n));
    Service.FreshKey(env, sh, op.filename);
    assert sh.rows[sh.nextId := PendingRow(op, upload, sh.now)] - {sh.nextId} == sh.rows;
    assert sh.objects - {env.keyOf(sh.nextId, op.filename)} == sh.objects;
  }

  /** The states a Begin goes through keep the invariant. */
  lemma InsertedGood(env: Env, sh: Shared, pid: Pid, op: Op, c: Choice)
    requires Begins(op) && EnvOk(env) && SharedInv(env, sh) && Accepted(sh, op)
    ensures SharedInv(env, Inserted(env, sh, pid, op))
    ensures var row := PendingRow(op, None, sh.now);
            LocInv(env, Inserted(env, sh, pid, op), pid,
                   Creating(if InParts(env, op) then OpenUpload(sh.nextId, row) else SignPut(sh.nextId, row)))
  {
    hide SharedInv, EnvOk, Inserted, Call, Guarantee, StepFacts;
    InsertStep(env, sh, pid, op, c);
    CallGood(env, sh, pid, Creating(Insert(op)), c);
  }

  lemma SignedGood(env: Env, sh: Shared, pid: Pid, op: Op, c: Choice)
    requires Begins(op) && EnvOk(env) && SharedInv(env, sh) && Accepted(sh, op) && !InParts(env, op)
    ensures SharedInv(env, Signed(env, sh, pid, op))
  {
    hide SharedInv, EnvOk, Inserted, Signed, Call, Guarantee, StepFacts, LocInv;
    InsertedGood(env, sh, pid, op, c);
    SignStep(env, sh, pid, op, c);
    CallGood(env, Inserted(env, sh, pid, op), pid, Creating(SignPut(sh.nextId, PendingRow(op, None, sh.now))), c);
  }

  lemma OpenedGood(env: Env, sh: Shared, pid: Pid, op: Op, c: Choice)
    requires Begins(op) && EnvOk(env) && SharedInv(env, sh) && Accepted(sh, op) && InParts(env, op)
    requires c.upload !in sh.issued
    ensures SharedInv(env, Opened(env, sh, pid, op, c.upload))
    ensures LocInv(env, Opened(env, sh, pid, op, c.upload), pid,
                   Creating(RecordUpload(sh.nextId, PendingRow(op, None, sh.now), c.upload)))
  {
    hide SharedInv, EnvOk, Inserted, Opened, Call, Guarantee, StepFacts, LocInv;
    InsertedGood(env, sh, pid, op, c);
    OpenStep(env, sh, pid, op, c);
    CallGood(env, Inserted(env, sh, pid, op), pid, Creating(OpenUpload(sh.nextId, PendingRow(op, None, sh.now))), c);
  }

  lemma RecordedGood(env: Env, sh: Shared, pid: Pid, op: Op, c: Choice)
    requires Begins(op) && EnvOk(env) && SharedInv(env, sh) && Accepted(sh, op) && InParts(env, op)
    requires c.upload !in sh.issued && NotBlank(c.upload)
    ensures SharedInv(env, Recorded(env, sh, pid, op, c.upload))
  {
    hide SharedInv, EnvOk, Opened, Recorded, Call, Guarantee, StepFacts, LocInv, NotBlank;
    OpenedGood(env, sh, pid, op, c);
    RecordStep(env, sh, pid, op, c.upload, c);
    CallGood(env, Opened(env, sh, pid, op, c.upload), pid,
             Creating(RecordUpload(sh.nextId, PendingRow(op, None, sh.now), c.upload)), c);
  }

  /**
   If signing the target or opening the upload fails, before or after its effect, the
   row is deleted again.  Only an upload whose opening lost its response stays, with
   no row that records it.
   */
  lemma BeginUndone(env: Env, sh: Shared, pid: Pid, op: Op, fault: Fault, choice: Choice, n: nat)
    requires Begins(op) && EnvOk(env) && SharedInv(env, sh) && Accepted(sh, op) && sh.nextId !in sh.refs
    requires !fault.NoFault? && n >= 4 && (InParts(env, op) ==> choice.upload !in sh.issued)
    ensures NothingLeft(sh, Fated(env, sh, pid, First(op, sh.now), [NoFault, fault] + Sound(n), choice),
                        if InParts(env, op) && fault.LoseResponse?
                        then sh.uploads[choice.upload :=
                                          Upload(env.keyOf(sh.nextId, op.filename), map[], true, sh.now)]
                        else sh.uploads)
  {
    hide Fated, SharedInv, EnvOk, Call, LocInv, NothingLeft;
    var faults := [NoFault, fault] + Sound(n);
    var row, next := PendingRow(op, None, sh.now), Inserted(env, sh, pid, op);
    var at := Creating(if InParts(env, op) then OpenUpload(sh.nextId, row) else SignPut(sh.nextId, row));
    var undo := Protocol.Removing(DelGet(sh.nextId, op.prefix));
    InsertStep(env, sh, pid, op, choice);
    InsertedGood(env, sh, pid, op, choice);
    FatedNext(env, sh, pid, Creating(Insert(op)), faults, choice, next, at);
    assert faults[1..] == [fault] + Sound(n) && faults[1..][1..] == Sound(n);
    if fault.FailBefore? {
      FatedNext(env, next, pid, at, faults[1..], choice, next, undo);
      Compensates(env, sh, pid, op, next, None, n, choice);
    } else if InParts(env, op) {
      OpenStep(env, sh, pid, op, choice);
      OpenedGood(env, sh, pid, op, choice);
      FatedNext(env, next, pid, at, faults[1..], choice, Opened(env, sh, pid, op, choice.upload), undo);
      Compensates(env, sh, pid, op, Opened(env, sh, pid, op, choice.upload), None, n, choice);
    } else {
      SignStep(env, sh, pid, op, choice);
      SignedGood(env, sh, pid, op, choice);
      FatedNext(env, next, pid, at, faults[1..], choice, Signed(env, sh, pid, op), undo);
      Compensates(env, sh, pid, op, Signed(env, sh, pid, op), None, n, choice);
    }
  }

  /** If recording the upload fails, before or after its effect, the upload is aborted and the row deleted again. */
  lemma RecordingUndone(env: Env, sh: Shared, pid: Pid, op: Op, fault: Fault, choice: Choice, n: nat)
    requires Begins(op) && EnvOk(env) && SharedInv(env, sh) && Accepted(sh, op) && sh.nextId !in sh.refs
    requires InParts(env, op) && !fault.NoFault? && n >= 5
    requires choice.upload !in sh.issued && NotBlank(choice.upload)
    ensures NothingLeft(sh, Fated(env, sh, pid, First(op, sh.now), [NoFault, NoFault, fault] + Sound(n), choice),
                        sh.uploads)
  {
    hide Fated, SharedInv, EnvOk, Call, LocInv, NothingLeft, NotBlank, Inserted, Opened, Recorded;
    var u, faults := choice.upload, [NoFault, NoFault, fault] + Sound(n);
    var row, next, open := PendingRow(op, None, sh.now), Inserted(env, sh, pid, op), Opened(env, sh, pid, op, u);
    var abort := Creating(AbortUnrecorded(sh.nextId, row, u));
    InsertStep(env, sh, pid, op, choice);
    OpenStep(env, sh, pid, op, choice);
    RecordStep(env, sh, pid, op, u, choice);
    FatedNext(env, sh, pid, Creating(Insert(op)), faults, choice, next, Creating(OpenUpload(sh.nextId, row)));
    FatedNext(env, next, pid, Creating(OpenUpload(sh.nextId, row)), faults[1..], choice, open,
              Creating(RecordUpload(sh.nextId, row, u)));
    assert faults[1..][1..] == [fault] + Sound(n) && faults[1..][1..][1..] == Sound(n);
    var reached := if fault.FailBefore? then open else Recorded(env, sh, pid, op, u);
    FatedNext(env, open, pid, Creating(RecordUpload(sh.nextId, row, u)), faults[1..][1..], choice, reached, abort);
    OpenedGood(env, sh, pid, op, choice);
    RecordedGood(env, sh, pid, op, choice);
    AbortStep(env, sh, pid, op, u, fault.FailBefore?, choice);
    var closed := Closing(env, reached, sh.nextId, row, u);
    FatedNext(env, reached, pid, abort, Sound(n), choice, closed,
              Protocol.Removing(DelGet(sh.nextId, op.prefix)));
    assert Sound(n)[1..] == Sound(n - 1);
    ClosedGood(env, reached, pid, sh.nextId, row, u, choice);
    Compensates(env, sh, pid, op, closed, if fault.FailBefore? then None else Some(u), n - 1, choice);
  }

  function Closing(env: Env, sh: Shared, id: int, row: Row, u: string): Shared {
    CloseUpload(sh, RowKey(env, id, row), u)
  }

  lemma ClosedGood(env: Env, sh: Shared, pid: Pid, id: int, row: Row, u: string, c: Choice)
    requires EnvOk(env) && SharedInv(env, sh)
    ensures SharedInv(env, Closing(env, sh, id, row, u))
  {
    hide SharedInv, EnvOk, Guarantee, StepFacts, RowKey, CloseUpload;
    CreateGood(env, sh, pid, AbortUnrecorded(id, row, u), c);
  }

  lemma AbortStep(env: Env, sh: Shared, pid: Pid, op: Op, u: string, unrecorded: bool, c: Choice)
    requires Begins(op) && u !in sh.issued && SharedInv(env, sh)
    ensures var row, upload := PendingRow(op, None, sh.now), if unrecorded then None else Some(u);
            var reached := if unrecorded then Opened(env, sh, pid, op, u) else Recorded(env, sh, pid, op, u);
            var closed := Closing(env, reached, sh.nextId, row, u);
            && Call(env, reached, pid, Creating(AbortUnrecorded(sh.nextId, row, u)), c)
               == (closed, Protocol.Removing(DelGet(sh.nextId, op.prefix)))
            && closed == reached.(uploads := sh.uploads)
            && UploadsWithout(sh.uploads, PendingRow(op, upload, sh.now)) == sh.uploads
            && reached.objects == sh.objects && reached.nextId == sh.nextId + 1 && reached.refs == sh.refs
            && reached.rows == sh.rows[sh.nextId := PendingRow(op, upload, sh.now)]
  {
    hide Call, SharedInv, CloseUpload, Closing;
    var row := PendingRow(op, None, sh.now);
    var reached := if unrecorded then Opened(env, sh, pid, op, u) else Recorded(env, sh, pid, op, u);
    AbortCall(env, reached, pid, sh.nextId, row, u, c);
    UnissuedUpload(env, sh, u);
    ClosesOpened(env, reached, sh.uploads, sh.nextId, row, u,
                 Upload(env.keyOf(sh.nextId, op.filename), map[], true, sh.now));
  }

  lemma AbortCall(env: Env, sh: Shared, pid: Pid, id: int, row: Row, u: string, c: Choice)
    ensures Call(env, sh, pid, Creating(AbortUnrecorded(id, row, u)), c)
            == (Closing(env, sh, id, row, u), Protocol.Removing(DelGet(id, row.prefix)))
  {
    hide CallWrite, CallFinalize, CallPart, CallRemove, CallSweep, RowKey, CloseUpload;
  }

  lemma UnissuedUpload(env: Env, sh: Shared, u: string)
    requires SharedInv(env, sh) && u !in sh.issued
    ensures u !in sh.uploads && sh.uploads - {u} == sh.uploads
  {
  }

  lemma ClosesOpened(env: Env, sh: Shared, before: map<string, Upload>, id: int, row: Row, u: string, open: Upload)
    requires u !in before && sh.uploads == before[u := open] && open.key == RowKey(env, id, row)
    ensures Closing(env, sh, id, row, u) == sh.(uploads := before)
  {
    hide RowKey;
    assert before[u := open] - {u} == before;
  }
}
