/** A server write that was overtaken before it published: what it comes to when it is left alone. */
module Writers {
  import opened Wrappers
  import opened Table
  import opened Storage
  import opened Protocol
  import opened Invariant
  import opened Safety
  import opened Progress
  import opened SweepProgress
  import opened Operations

  predicate Publishing(loc: WriteLoc) { loc.PublishWrite? || loc.PublishWriteGet? }

  lemma PublishCall(env: Env, sh: Shared, pid: Pid, id: int, row: Row, contentType: string, c: Choice)
    ensures var result := MarkAvailable(sh.rows, id, contentType, RowKey(env, id, row), sh.now);
            Call(env, sh, pid, Writing(PublishWrite(id, row, contentType)), c)
            == if result.Updated? then (Publish(sh, id, result.row), Returned(id, result.row))
               else if result.NoRow? then (sh, Writing(PublishWriteGet(id, row)))
               else (sh, Writing(UnwindWrite(id, row)))
  {
    hide CallCreate, CallFinalize, CallPart, CallRemove, CallSweep, MarkAvailable, RowKey;
  }

  lemma GetCall(env: Env, sh: Shared, pid: Pid, id: int, row: Row, c: Choice)
    ensures Call(env, sh, pid, Writing(PublishWriteGet(id, row)), c)
            == (sh, if id in sh.rows && sh.rows[id].Visible() && sh.rows[id].Available() then Returned(id, sh.rows[id])
                    else Writing(UnwindWrite(id, row)))
  {
    hide CallCreate, CallFinalize, CallPart, CallRemove, CallSweep;
  }

  lemma UnwindCall(env: Env, sh: Shared, pid: Pid, id: int, row: Row, c: Choice)
    requires id in sh.rows ==> !sh.rows[id].Visible()
    ensures Call(env, sh, pid, Writing(UnwindWrite(id, row)), c) == (sh, Remove(env, id, row, Stop))
  {
    hide CallCreate, CallFinalize, CallPart, CallRemove, CallSweep, Remove;
  }

  /** The row is gone: the writer removes the bytes it stored, and nothing else. */
  lemma GoneAlone(env: Env, sh: Shared, pid: Pid, id: int, row: Row, cs: seq<Choice>)
    requires |cs| >= 4 && (id in sh.rows ==> !sh.rows[id].Visible()) && row.upload.None?
    ensures Alone(env, sh, pid, Writing(PublishWriteGet(id, row)), cs)
            == (EraseBlob(sh, RowKey(env, id, row)), Finished)
  {
    hide Alone, Call, Remove, RowKey, EraseBlob;
    GetCall(env, sh, pid, id, row, cs[0]);
    AloneNext(env, sh, pid, Writing(PublishWriteGet(id, row)), cs, sh, Writing(UnwindWrite(id, row)));
    UnwindCall(env, sh, pid, id, row, cs[1]);
    AloneNext(env, sh, pid, Writing(UnwindWrite(id, row)), cs[1..], sh, Remove(env, id, row, Stop));
    RemoveAtOnce(env, sh, pid, id, row, cs[1..][1..]);
  }

  lemma FoundAlone(env: Env, sh: Shared, pid: Pid, id: int, row: Row, cs: seq<Choice>)
    requires |cs| >= 1 && id in sh.rows && sh.rows[id].Visible() && sh.rows[id].Available()
    ensures Alone(env, sh, pid, Writing(PublishWriteGet(id, row)), cs) == (sh, Returned(id, sh.rows[id]))
  {
    hide Alone, Call;
    GetCall(env, sh, pid, id, row, cs[0]);
    AloneNext(env, sh, pid, Writing(PublishWriteGet(id, row)), cs, sh, Returned(id, sh.rows[id]));
    Rests(env, sh, pid, Returned(id, sh.rows[id]), cs[1..]);
  }

  /**
   A writer about to publish ends with the published row if its row is visible: the one
   another operation published, unchanged, or the pending one with the given type.  If
   the row is gone or expired, it removes the bytes it stored and reports an error.
   */
  lemma WriterAlone(env: Env, sh: Shared, pid: Pid, loc: WriteLoc, cs: seq<Choice>)
    requires EnvOk(env) && SharedInv(env, sh) && WriteInv(env, sh, loc) && Publishing(loc) && |cs| >= 5
    requires loc.row.upload.None? && (loc.id in sh.rows ==> sh.rows[loc.id].upload.None?)
    ensures var end, id, key := Alone(env, sh, pid, Writing(loc), cs), loc.id, RowKey(env, loc.id, loc.row);
            if id !in sh.rows || !sh.rows[id].Visible()
            then end == (sh.(objects := sh.objects - {key}), Finished)
            else if sh.rows[id].Available() then end == (sh, Returned(id, sh.rows[id]))
            else
              && loc.PublishWrite?
              && var row := sh.rows[id].(contentType := loc.contentType, storageKey := Some(key),
                                         availableAt := Some(sh.now), updatedAt := sh.now);
                 end == (sh.(rows := sh.rows[id := row], published := sh.published[id := row]), Returned(id, row))
  {
    hide Alone, Call, SharedInv, EnvOk, MarkAvailable, RowKey;
    var id, row := loc.id, loc.row;
    if id in sh.rows && sh.rows[id].Pending() {
      NotSettled(env, sh, loc);
      SameKey(env, sh, id, row);
      PublishableKey(env, sh, id, loc.contentType);
      PublishCall(env, sh, pid, id, row, loc.contentType, cs[0]);
      var result := MarkAvailable(sh.rows, id, loc.contentType, RowKey(env, id, row), sh.now);
      MarkedColumns(sh.rows, id, loc.contentType, RowKey(env, id, row), sh.now);
      AloneNext(env, sh, pid, Writing(loc), cs, Publish(sh, id, result.row), Returned(id, result.row));
      Rests(env, Publish(sh, id, result.row), pid, Returned(id, result.row), cs[1..]);
    } else {
      var left := cs;
      if loc.PublishWrite? {
        PublishCall(env, sh, pid, id, row, loc.contentType, cs[0]);
        NoPendingRow(sh.rows, id, loc.contentType, RowKey(env, id, row), sh.now);
        AloneNext(env, sh, pid, Writing(loc), cs, sh, Writing(PublishWriteGet(id, row)));
        left := cs[1..];
      }
      if id in sh.rows && sh.rows[id].Visible() {
        FoundAlone(env, sh, pid, id, row, left);
      } else {
        GoneAlone(env, sh, pid, id, row, left);
      }
    }
  }

  lemma NotSettled(env: Env, sh: Shared, loc: WriteLoc)
    requires WriteInv(env, sh, loc) && Publishing(loc) && loc.id in sh.rows && sh.rows[loc.id].Pending()
    ensures loc.PublishWrite? && loc.contentType != "" && Snapshot(sh, loc.id, loc.row)
  {
  }

  lemma MarkedColumns(rows: Rows, id: int, contentType: string, key: string, now: Time)
    requires MarkAvailable(rows, id, contentType, key, now).Updated?
    ensures id in rows
    ensures MarkAvailable(rows, id, contentType, key, now).row
            == rows[id].(contentType := contentType, storageKey := Some(key), availableAt := Some(now),
                         updatedAt := now)
  {
  }

  lemma NoPendingRow(rows: Rows, id: int, contentType: string, key: string, now: Time)
    requires id in rows ==> !rows[id].Pending()
    ensures MarkAvailable(rows, id, contentType, key, now).NoRow?
  {
  }
}
