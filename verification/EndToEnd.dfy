/** From the browser's parts to a published object, through the lifecycle machine. */
module EndToEnd {
  import opened Wrappers
  import opened Content
  import opened Storage
  import opened Protocol
  import opened Invariant
  import opened Migration
  import opened Safety
  import Client
  import Progress

  /** The open upload of this row received exactly the parts the client cuts the blob into. */
  ghost predicate Received(env: Env, sh: Shared, id: int, blob: Bytes) {
    && id in sh.rows && sh.rows[id].Pending() && id in sh.born
    && sh.born[id].content == Declaration(|blob|, env.sha(blob), env.crc(blob))
    && sh.rows[id].upload.Some? && sh.rows[id].upload.value in sh.uploads
    && Client.HoldsParts(sh.uploads[sh.rows[id].upload.value].parts, blob)
  }

  lemma ReceivedIsReady(env: Env, sh: Shared, id: int, blob: Bytes)
    requires Received(env, sh, id, blob) && blob != []
    ensures Progress.Ready(env, sh, id)
  {
    hide Progress.WouldAssemble, Client.HoldsParts, HoldsDeclared;
    Client.UploadedPartsAssemble(env, sh.uploads[sh.rows[id].upload.value].parts, blob);
  }

  /**
   In any reachable state whose open upload received the client's parts of a blob
   declared when it began, a finalizer left alone publishes an object with the
   blob's size and checksums, over bytes with the blob's size and CRC64NVME.
   */
  lemma UploadedBlobIsPublished(env: Env, s: State, events: seq<Event>, pid: Pid, id: int, blob: Bytes, cs: seq<Choice>)
    requires EnvOk(env) && Initial(env, s) && blob != [] && |cs| >= MAX_PARTS + 8
    requires Received(env, Run(env, s, events).sh, id, blob)
    requires var t := Run(env, s, events);
             pid in t.procs && t.procs[pid] == Finalizing(FinGet(id, t.sh.rows[id].prefix))
    ensures var end := Run(env, Run(env, s, events), Progress.Undisturbed(pid, cs));
            && id in end.sh.rows && pid in end.procs && end.procs[pid] == Returned(id, end.sh.rows[id])
            && var row := end.sh.rows[id];
               && row.Available() && row.size == Some(|blob|) && row.sha == Some(env.sha(blob))
               && row.crc == Some(env.crc(blob))
               && RowKey(env, id, row) in end.sh.objects
               && |end.sh.objects[RowKey(env, id, row)].body| == |blob|
               && env.crc(end.sh.objects[RowKey(env, id, row)].body) == env.crc(blob)
  {
    hide SharedInv, LocInv, EnvOk, Initial, Progress.Ready, Client.HoldsParts, Apply, RowKey, Progress.Undisturbed;
    var t := Run(env, s, events);
    var end := Run(env, t, Progress.Undisturbed(pid, cs));
    ReceivedIsReady(env, t.sh, id, blob);
    Progress.FinalizePublishesWhatIsReady(env, s, events, pid, id, cs);
    Reachable(env, s, events);
    Steps.RunGood(env, t, Progress.Undisturbed(pid, cs));
    BornStays(env, t, Progress.Undisturbed(pid, cs), id);
    PublishedBorn(env, t.sh, end.sh, id);
  }

  lemma {:induction false} BornStays(env: Env, s: State, events: seq<Event>, id: int)
    requires EnvOk(env) && Inv(env, s) && id in s.sh.born
    ensures id in Run(env, s, events).sh.born && Run(env, s, events).sh.born[id] == s.sh.born[id]
  {
    hide Inv, EnvOk, Apply, StepFacts;
    if events != [] {
      var before := events[..|events| - 1];
      BornStays(env, s, before, id);
      Steps.RunGood(env, s, before);
      Steps.ApplyGood(env, Run(env, s, before), events[|events| - 1]);
    }
  }

  /** A published row born with a multipart upload holds what its birth declared. */
  lemma PublishedBorn(env: Env, a: Shared, sh: Shared, id: int)
    requires SharedInv(env, a) && SharedInv(env, sh) && id in sh.rows && sh.rows[id].Available()
    requires id in a.born && id in sh.born && sh.born[id] == a.born[id]
    requires id in a.rows && a.rows[id].upload.Some? && a.rows[id].Pending()
    ensures var row := sh.rows[id];
            && OfBirth(row, sh.born[id]) && RowKey(env, id, row) in sh.objects
            && |sh.objects[RowKey(env, id, row)].body| == sh.born[id].content.size
            && env.crc(sh.objects[RowKey(env, id, row)].body) == sh.born[id].content.crc
  {
  }
}
