/**
 Begin, PresignMultipartPart and Delete, each from its start to its end when it is
 left alone: exactly what it leaves, in rows, bytes, uploads and targets.
 */
module Operations {
  import opened Wrappers
  import opened Content
  import opened Table
  import opened Storage
  import opened Protocol
  import opened Invariant
  import opened Progress
  import opened SweepProgress
  import opened RemovalProgress

  /** An operation that starts now and is then left alone. */
  function Whole(env: Env, sh: Shared, pid: Pid, op: Op, cs: seq<Choice>): (Shared, Loc) {
    Alone(env, sh, pid, First(op, sh.now), cs)
  }

  /** As a run of the machine. */
  lemma WholeIsRun(env: Env, s: State, pid: Pid, op: Op, cs: seq<Choice>)
    requires pid !in s.procs
    ensures var end := Whole(env, s.sh, pid, op, cs);
            Run(env, s, [Start(pid, op)] + Undisturbed(pid, cs)) == State(end.0, s.procs[pid := end.1])
  {
    hide Alone, Undisturbed, First;
    RunFirst(env, s, Start(pid, op), Undisturbed(pid, cs));
    AloneIsRun(env, Apply(env, s, Start(pid, op)), pid, cs);
  }

  // --------------------------------------------------------------------- Delete

  /** What remains of the uploads when a row and its bytes go. */
  function UploadsWithout(uploads: map<string, Upload>, row: Row): map<string, Upload> {
    match row.upload
    case Some(u) => uploads - {u}
    case None => uploads
  }

  lemma OpenAtKey(env: Env, sh: Shared, id: int)
    requires SharedInv(env, sh) && id in sh.rows && sh.rows[id].Visible()
    ensures sh.uploads - OpenUploadOf(env, sh.uploads, id, sh.rows[id]) == UploadsWithout(sh.uploads, sh.rows[id])
  {
    var row := sh.rows[id];
    if row.upload.Some? {
      assert ValidRow(row);
      assert id in sh.born && BornRow(env, sh, id);
      assert RecordOk(env, sh, row.upload.value);
    }
    assert sh.uploads - {} == sh.uploads;
  }

  /**
   Delete removes the row, its bytes and the upload it records if the row is visible,
   under the given prefix, and nothing references it; otherwise it changes nothing.
   */
  lemma DeleteAlone(env: Env, sh: Shared, pid: Pid, id: int, prefix: string, cs: seq<Choice>)
    requires SharedInv(env, sh) && |cs| >= 4
    ensures Whole(env, sh, pid, Delete(id, prefix), cs).1 == Finished
    ensures var end := Whole(env, sh, pid, Delete(id, prefix), cs).0;
            if id in sh.rows && sh.rows[id].expiredAt == None && sh.rows[id].prefix == prefix && sh.refs[id] == 0
            then end == sh.(rows := sh.rows - {id}, objects := sh.objects - {RowKey(env, id, sh.rows[id])},
                            uploads := UploadsWithout(sh.uploads, sh.rows[id]))
            else end == sh
  {
    hide SharedInv, Alone, Call, Remove, RemovalProgress.Removing, RowKey, UploadsWithout;
    var at := Protocol.Removing(DelGet(id, prefix));
    GetSteps(env, sh, pid, id, prefix, cs[0]);
    if id !in sh.rows || !sh.rows[id].Visible() || sh.rows[id].prefix != prefix {
      AloneNext(env, sh, pid, at, cs, sh, Finished);
      Rests(env, sh, pid, Finished, cs[1..]);
    } else {
      AloneNext(env, sh, pid, at, cs, sh, Protocol.Removing(DelRow(id, Stop)));
      DelRowAlone(env, sh, pid, id, cs[1..]);
    }
  }

  lemma GetSteps(env: Env, sh: Shared, pid: Pid, id: int, prefix: string, c: Choice)
    ensures Call(env, sh, pid, Protocol.Removing(DelGet(id, prefix)), c)
            == (sh, if id in sh.rows && sh.rows[id].Visible() && sh.rows[id].prefix == prefix
                    then Protocol.Removing(DelRow(id, Stop)) else Finished)
  {
    hide CallCreate, CallWrite, CallFinalize, CallPart, CallSweep;
  }

  lemma DelRowAlone(env: Env, sh: Shared, pid: Pid, id: int, cs: seq<Choice>)
    requires SharedInv(env, sh) && |cs| >= 3 && id in sh.rows && sh.rows[id].Visible()
    ensures Alone(env, sh, pid, Protocol.Removing(DelRow(id, Stop)), cs)
            == (if id in sh.refs then sh
                else sh.(rows := sh.rows - {id}, objects := sh.objects - {RowKey(env, id, sh.rows[id])},
                         uploads := UploadsWithout(sh.uploads, sh.rows[id])), Finished)
  {
    hide SharedInv, Alone, Call, RemovalProgress.Removing, RowKey, UploadsWithout;
    var at := Protocol.Removing(DelRow(id, Stop));
    DelStep(env, sh, pid, id, Stop, cs[0]);
    if id in sh.refs {
      AloneNext(env, sh, pid, at, cs, sh, Finished);
      Rests(env, sh, pid, Finished, cs[1..]);
    } else {
      var row := sh.rows[id];
      AloneNext(env, sh, pid, at, cs, RemoveRow(sh, id), Remove(env, id, row, Stop));
      RemoveAtOnce(env, RemoveRow(sh, id), pid, id, row, cs[1..]);
      RemovingExactly(env, RemoveRow(sh, id), id, row);
      OpenAtKey(env, sh, id);
    }
  }

  /** The two calls that remove bytes, and fewer if no upload is recorded. */
  lemma RemoveAtOnce(env: Env, sh: Shared, pid: Pid, id: int, row: Row, cs: seq<Choice>)
    requires |cs| >= 2
    ensures Alone(env, sh, pid, Remove(env, id, row, Stop), cs)
            == (RemovalProgress.Removing(env, sh, id, row), Finished)
  {
    hide Alone, Call, RowKey, CloseUpload, EraseBlob;
    var key := RowKey(env, id, row);
    var closed, left := sh, cs;
    if row.upload.Some? && env.kind.S3Kind? {
      closed := CloseUpload(sh, key, row.upload.value);
      RemoveSteps(env, sh, pid, id, row, Stop, left[0]);
      AloneNext(env, sh, pid, Protocol.Removing(RemoveUpload(id, row, Stop)), left, closed,
                Protocol.Removing(RemoveBlob(id, row, true, Stop)));
      left := left[1..];
    }
    RemoveSteps(env, closed, pid, id, row, Stop, left[0]);
    AloneNext(env, closed, pid, Protocol.Removing(RemoveBlob(id, row, true, Stop)), left, EraseBlob(closed, key),
              Finished);
    Rests(env, EraseBlob(closed, key), pid, Finished, left[1..]);
  }

  // ---------------------------------------------------------- PresignMultipartPart

  /** The request is well formed, and the backend has multipart uploads. */
  predicate PartAsked(env: Env, number: int, crc: string) {
    env.kind == S3Kind && 1 <= number <= 10_000 && IsLowerHex(crc, 16)
  }

  /** The row is pending and under the prefix. */
  predicate PendingUnder(sh: Shared, id: int, prefix: string) {
    id in sh.rows && sh.rows[id].availableAt == None && sh.rows[id].expiredAt == None && sh.rows[id].prefix == prefix
  }

  /**
   PresignMultipartPart refreshes a pending row under the prefix and, if the row
   records an upload, signs one target: for that row's key and upload, with the
   number and checksum that were asked for.  Otherwise it signs nothing.
   */
  lemma PresignAlone(env: Env, sh: Shared, pid: Pid, id: int, prefix: string, number: int, crc: string,
                     cs: seq<Choice>)
    requires |cs| >= 3
    ensures Whole(env, sh, pid, PresignPart(id, prefix, number, crc), cs).1 == Finished
    ensures var end := Whole(env, sh, pid, PresignPart(id, prefix, number, crc), cs).0;
            if !PartAsked(env, number, crc) || !PendingUnder(sh, id, prefix) then end == sh
            else
              var row := sh.rows[id];
              && end.rows == sh.rows[id := row.(updatedAt := sh.now)]
              && end == sh.(rows := end.rows, targets := end.targets)
              && end.targets == match row.upload
                 case None => sh.targets
                 case Some(u) => sh.targets + {PartTarget(id, RowKey(env, id, row), u, number, crc, sh.now, sh.now,
                                                          sh.now + env.ttl)}
  {
    hide Alone, Call, RowKey;
    if !(1 <= number <= 10_000 && IsLowerHex(crc, 16)) {
      Rests(env, sh, pid, Finished, cs);
    } else if env.kind.FileKind? || !PendingUnder(sh, id, prefix) {
      PartSteps(env, sh, pid, id, prefix, number, crc, cs[0]);
      PartsAlone(env, sh, pid, id, prefix, number, crc, cs);
    } else {
      var row := sh.rows[id].(updatedAt := sh.now);
      var next := WriteRow(sh, id, row);
      PartSteps(env, sh, pid, id, prefix, number, crc, cs[0]);
      PartSteps(env, sh, pid, id, prefix, number, crc, cs[1]);
      SignStep(env, next, pid, id, row, number, crc, cs[2]);
      AloneNext(env, sh, pid, Signing(PartGet(id, prefix, number, crc)), cs, sh, Signing(PartRefresh(id, number, crc)));
      if row.upload.None? {
        AloneNext(env, sh, pid, Signing(PartRefresh(id, number, crc)), cs[1..], next, Finished);
        Rests(env, next, pid, Finished, cs[1..][1..]);
      } else {
        AloneNext(env, sh, pid, Signing(PartRefresh(id, number, crc)), cs[1..], next,
                  Signing(PartSign(id, row, number, crc)));
        var end := Call(env, next, pid, Signing(PartSign(id, row, number, crc)), cs[2]).0;
        AloneNext(env, next, pid, Signing(PartSign(id, row, number, crc)), cs[1..][1..], end, Finished);
        Rests(env, end, pid, Finished, cs[1..][1..][1..]);
        SameRowKey(env, id, sh.rows[id], sh.now);
      }
    }
  }

  lemma SameRowKey(env: Env, id: int, row: Row, now: Time)
    ensures RowKey(env, id, row.(updatedAt := now)) == RowKey(env, id, row)
  {
  }

  lemma PartSteps(env: Env, sh: Shared, pid: Pid, id: int, prefix: string, number: int, crc: string, c: Choice)
    ensures env.kind.S3Kind? && PendingUnder(sh, id, prefix) ==>
              var row := sh.rows[id].(updatedAt := sh.now);
              && Call(env, sh, pid, Signing(PartGet(id, prefix, number, crc)), c)
                 == (sh, Signing(PartRefresh(id, number, crc)))
              && Call(env, sh, pid, Signing(PartRefresh(id, number, crc)), c)
                 == (WriteRow(sh, id, row),
                     if row.upload.None? then Finished else Signing(PartSign(id, row, number, crc)))
  {
    hide CallCreate, CallWrite, CallFinalize, CallRemove, CallSweep;
  }

  lemma SignStep(env: Env, sh: Shared, pid: Pid, id: int, row: Row, number: int, crc: string, c: Choice)
    ensures row.upload.Some? ==>
              Call(env, sh, pid, Signing(PartSign(id, row, number, crc)), c)
              == (sh.(targets := sh.targets
                      + {PartTarget(id, RowKey(env, id, row), row.upload.value, number, crc, sh.now,
                                                          row.updatedAt, sh.now + env.ttl)}), Finished)
  {
    hide CallCreate, CallWrite, CallFinalize, CallRemove, CallSweep, RowKey;
  }

  /** A request for a row that is not pending under the prefix, or of a file store, ends with nothing changed. */
  lemma PartsAlone(env: Env, sh: Shared, pid: Pid, id: int, prefix: string, number: int, crc: string, cs: seq<Choice>)
    requires |cs| >= 3 && (env.kind.FileKind? || !PendingUnder(sh, id, prefix))
    ensures Alone(env, sh, pid, Signing(PartGet(id, prefix, number, crc)), cs) == (sh, Finished)
  {
    hide Alone;
    var (next, at) := Call(env, sh, pid, Signing(PartGet(id, prefix, number, crc)), cs[0]);
    AloneNext(env, sh, pid, Signing(PartGet(id, prefix, number, crc)), cs, next, at);
    Rests(env, next, pid, Finished, cs[1..]);
  }
}
