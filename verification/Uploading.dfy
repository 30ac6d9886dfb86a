/**
 From the parts a client asks to sign to the parts an upload holds: targets carry
 what was asked for, and only bodies that land change the parts of an open upload.
 */
module Uploading {
  import opened Wrappers
  import opened Content
  import opened Table
  import opened Storage
  import opened Protocol
  import opened Invariant
  import opened Steps
  import opened Migration
  import opened Safety
  import Client
  import EndToEnd
  import Operations
  import Progress

  // ------------------------------------------------------------------- requests

  /** Where a request for this part of this row can stand. */
  predicate Asking(loc: Loc, id: int, number: int, crc: string) {
    match loc
    case Finished => true
    case Signing(PartGet(i, _, n, x)) => i == id && n == number && x == crc
    case Signing(PartRefresh(i, n, x)) => i == id && n == number && x == crc
    case Signing(PartSign(i, _, n, x)) => i == id && n == number && x == crc
    case _ => false
  }

  lemma AskingStep(env: Env, sh: Shared, pid: Pid, loc: Loc, fault: Fault, c: Choice, id: int, number: int, crc: string)
    requires Asking(loc, id, number, crc)
    ensures Asking(StepOf(env, sh, pid, loc, fault, c).1, id, number, crc)
  {
    hide CallCreate, CallWrite, CallFinalize, CallRemove, CallSweep;
  }

  lemma {:induction false} AskingRun(env: Env, s: State, later: seq<Event>, pid: Pid, id: int, number: int, crc: string)
    requires pid in s.procs && Asking(s.procs[pid], id, number, crc)
    ensures var t := Run(env, s, later); pid in t.procs && Asking(t.procs[pid], id, number, crc)
  {
    hide StepOf, Asking;
    if later != [] {
      var before := later[..|later| - 1];
      AskingRun(env, s, before, pid, id, number, crc);
      var t, e := Run(env, s, before), later[|later| - 1];
      if e.Step? && e.pid == pid {
        AskingStep(env, t.sh, pid, t.procs[pid], e.fault, e.choice, id, number, crc);
      }
    }
  }

  /** This event, a step of `pid`, signs the target. */
  ghost predicate Signs(env: Env, s: State, pid: Pid, fault: Fault, c: Choice, t: Target) {
    t !in s.sh.targets && t in Apply(env, s, Step(pid, fault, c)).sh.targets
  }

  lemma SigningStep(env: Env, sh: Shared, pid: Pid, loc: Loc, fault: Fault, c: Choice, id: int, number: int,
                    crc: string,
                    t: Target)
    requires Asking(loc, id, number, crc)
    requires t !in sh.targets && t in StepOf(env, sh, pid, loc, fault, c).0.targets
    ensures loc.Signing? && loc.signing.PartSign? && loc.signing.row.upload.Some?
    ensures var row := loc.signing.row;
            t == PartTarget(id, RowKey(env, id, row), row.upload.value, number, crc, sh.now, row.updatedAt,
                            sh.now + env.ttl)
  {
    hide Call, OnError;
    SigningCall(env, sh, pid, loc, c, id, number, crc, t);
  }

  lemma SigningCall(env: Env, sh: Shared, pid: Pid, loc: Loc, c: Choice, id: int, number: int, crc: string, t: Target)
    requires Asking(loc, id, number, crc) && t !in sh.targets
    ensures t in Call(env, sh, pid, loc, c).0.targets ==>
              && loc.Signing? && loc.signing.PartSign? && loc.signing.row.upload.Some?
              && var row := loc.signing.row;
                 t == PartTarget(id, RowKey(env, id, row), row.upload.value, number, crc, sh.now, row.updatedAt,
                                 sh.now + env.ttl)
  {
    hide CallCreate, CallWrite, CallFinalize, CallPart, CallRemove, CallSweep, RowKey;
    if loc.Signing? {
      PartTargets(env, sh, loc.signing);
    }
  }

  /** The targets after one call of a part request. */
  lemma PartTargets(env: Env, sh: Shared, at: PartLoc)
    ensures CallPart(env, sh, at).0.targets
            == if at.PartSign? && at.row.upload.Some?
               then sh.targets + {PartTarget(at.id, RowKey(env, at.id, at.row), at.row.upload.value, at.number, at.crc,
                                             sh.now, at.row.updatedAt, sh.now + env.ttl)}
               else sh.targets
  {
    hide RowKey;
  }

  /**
   In every run: whatever target a PresignMultipartPart signs carries the identifier,
   the part number and the checksum it was asked for, at the object's key and for the
   one upload recorded for the object, and lasts for the lifetime from now on.
   */
  lemma SignedAsAsked(env: Env, s: State, events: seq<Event>, later: seq<Event>, pid: Pid, id: int, prefix: string,
                      number: int, crc: string, fault: Fault, c: Choice, t: Target)
    requires EnvOk(env) && Initial(env, s) && pid !in Run(env, s, events).procs
    requires var a := Apply(env, Run(env, s, events), Start(pid, PresignPart(id, prefix, number, crc)));
             Signs(env, Run(env, a, later), pid, fault, c, t)
    ensures var a := Apply(env, Run(env, s, events), Start(pid, PresignPart(id, prefix, number, crc)));
            var sh := Run(env, a, later).sh;
            && t.PartTarget? && id in sh.born && t.upload in sh.recorded && sh.recorded[t.upload] == id
            && t == PartTarget(id, env.keyOf(id, sh.born[id].filename), t.upload, number, crc, sh.now, t.refreshed,
                               sh.now + env.ttl)
  {
    hide SharedInv, EnvOk, Initial, StepOf, First, RowKey;
    var op := PresignPart(id, prefix, number, crc);
    var a := Apply(env, Run(env, s, events), Start(pid, op));
    AskingFirst(op, Run(env, s, events).sh.now);
    AskingRun(env, a, later, pid, id, number, crc);
    var b := Run(env, a, later);
    ReachableTwice(env, s, events, Start(pid, op), later);
    SigningStep(env, b.sh, pid, b.procs[pid], fault, c, id, number, crc, t);
    assert LocInv(env, b.sh, pid, b.procs[pid]);
    SnapshotKey(env, b.sh, id, b.procs[pid].signing.row);
  }

  lemma AskingFirst(op: Op, now: Time)
    requires op.PresignPart?
    ensures Asking(First(op, now), op.id, op.number, op.crc)
  {
  }

  lemma ReachableTwice(env: Env, s: State, events: seq<Event>, e: Event, later: seq<Event>)
    requires EnvOk(env) && Initial(env, s)
    ensures Inv(env, Run(env, Apply(env, Run(env, s, events), e), later))
  {
    hide Inv, Apply, EnvOk, Initial, Guarantee, StepFacts;
    Reachable(env, s, events);
    ApplyGood(env, Run(env, s, events), e);
    RunGood(env, Apply(env, Run(env, s, events), e), later);
  }

  lemma SnapshotKey(env: Env, sh: Shared, id: int, row: Row)
    requires SharedInv(env, sh) && Snapshot(sh, id, row) && row.upload.Some?
    ensures RowKey(env, id, row) == BirthKey(env, sh, id)
    ensures row.upload.value in sh.recorded && sh.recorded[row.upload.value] == id
  {
  }

  // ---------------------------------------------------------------------- parts

  lemma CreateKeepsParts(env: Env, a: Shared, pid: Pid, loc: CreateLoc, c: Choice, u: string)
    requires u in a.uploads && u in a.issued
    ensures var b := CallCreate(env, a, pid, loc, c).0; u in b.uploads ==> b.uploads[u] == a.uploads[u]
  {
    hide RecordUploadID, ModeOf, RowKey;
  }

  lemma WriteKeepsParts(env: Env, a: Shared, loc: WriteLoc)
    ensures CallWrite(env, a, loc).0.uploads == a.uploads
  {
    hide RowKey, MarkAvailable;
  }

  lemma FinalizeKeepsParts(env: Env, a: Shared, loc: FinalizeLoc, c: Choice, u: string)
    requires u in a.uploads
    ensures var b := CallFinalize(env, a, loc, c).0; u in b.uploads ==> b.uploads[u] == a.uploads[u]
  {
    hide RowKey, MarkAvailable, Verify, Completes, Assembled, Page, Named;
  }

  lemma PartKeepsParts(env: Env, a: Shared, loc: PartLoc)
    ensures CallPart(env, a, loc).0.uploads == a.uploads
  {
    hide RowKey;
  }

  lemma RemoveKeepsParts(env: Env, a: Shared, loc: RemoveLoc, u: string)
    requires u in a.uploads
    ensures var b := CallRemove(env, a, loc).0; u in b.uploads ==> b.uploads[u] == a.uploads[u]
  {
    hide RowKey;
  }

  lemma SweepKeepsParts(env: Env, a: Shared, loc: SweepLoc, c: Choice, u: string)
    requires u in a.uploads
    ensures var b := CallSweep(env, a, loc, c).0; u in b.uploads ==> b.uploads[u] == a.uploads[u]
  {
    hide OwnedKey, OwnedUpload, Claim, Claims;
  }

  /** No operation changes the parts of an upload it leaves open. */
  lemma CallKeepsParts(env: Env, a: Shared, pid: Pid, loc: Loc, c: Choice, u: string)
    requires u in a.uploads && u in a.issued
    ensures var b := Call(env, a, pid, loc, c).0; u in b.uploads ==> b.uploads[u] == a.uploads[u]
  {
    hide CallCreate, CallWrite, CallFinalize, CallPart, CallRemove, CallSweep;
    match loc
    case Creating(at) => CreateKeepsParts(env, a, pid, at, c, u);
    case Writing(at) => WriteKeepsParts(env, a, at);
    case Finalizing(at) => FinalizeKeepsParts(env, a, at, c, u);
    case Signing(at) => PartKeepsParts(env, a, at);
    case Removing(at) => RemoveKeepsParts(env, a, at, u);
    case Sweeping(at) => SweepKeepsParts(env, a, at, c, u);
    case _ =>
  }

  ghost predicate LandsOn(env: Env, sh: Shared, e: Event, u: string) {
    e.LandPart? && PartLands(env, sh, e.target, e.body) && e.target.upload == u
  }

  /** A body that lands puts one part in; nothing else changes an upload that stays open. */
  lemma PartsStep(env: Env, s: State, e: Event, u: string)
    requires EnvOk(env) && Inv(env, s) && u in s.sh.issued && u in Apply(env, s, e).sh.uploads
    ensures u in s.sh.uploads && u in Apply(env, s, e).sh.issued
    ensures Apply(env, s, e).sh.uploads[u].parts
            == if LandsOn(env, s.sh, e, u) then s.sh.uploads[u].parts[e.target.number := Part(e.body, e.target.crc)]
               else s.sh.uploads[u].parts
  {
    hide Inv, EnvOk, RowsForward, BytesForward, StepFacts, Apply, LandsOn;
    ApplyGood(env, s, e);
    EventKeepsParts(env, s, e, u);
  }

  lemma EventKeepsParts(env: Env, s: State, e: Event, u: string)
    requires u in s.sh.issued && u in s.sh.uploads && u in Apply(env, s, e).sh.uploads
    ensures Apply(env, s, e).sh.uploads[u].parts
            == if LandsOn(env, s.sh, e, u) then s.sh.uploads[u].parts[e.target.number := Part(e.body, e.target.crc)]
               else s.sh.uploads[u].parts
  {
    hide StepOf, LandsOn, Apply;
    match e
    case Step(pid, fault, c) =>
      StepApplied(env, s, e);
      if pid in s.procs {
        StepKeepsParts(env, s.sh, pid, s.procs[pid], fault, c, u);
      }
    case LandPart(_, _) => LandedPart(env, s, e, u);
    case _ => OthersKeep(env, s, e);
  }

  lemma StepApplied(env: Env, s: State, e: Event)
    requires e.Step?
    ensures Apply(env, s, e).sh == if e.pid in s.procs
                                   then StepOf(env, s.sh, e.pid, s.procs[e.pid], e.fault, e.choice).0 else s.sh
    ensures forall u :: !LandsOn(env, s.sh, e, u)
  {
    hide StepOf;
  }

  lemma LandedPart(env: Env, s: State, e: Event, u: string)
    requires e.LandPart? && u in s.sh.uploads
    ensures var b := Apply(env, s, e).sh;
            && u in b.uploads
            && b.uploads[u].parts
               == if LandsOn(env, s.sh, e, u) then s.sh.uploads[u].parts[e.target.number := Part(e.body, e.target.crc)]
                  else s.sh.uploads[u].parts
  {
    hide PartLands, StorePart, StepOf, First, PutLands, Accepts;
    if PartLands(env, s.sh, e.target, e.body) {
      StoredPart(env, s.sh, e.target, e.body, u);
    }
  }

  lemma StoredPart(env: Env, sh: Shared, t: Target, body: Bytes, u: string)
    requires PartLands(env, sh, t, body) && u in sh.uploads
    ensures t.PartTarget?
    ensures var b := StorePart(env, sh, t, body);
            && u in b.uploads
            && b.uploads[u].parts == if t.upload == u then sh.uploads[u].parts[t.number := Part(body, t.crc)]
                                     else sh.uploads[u].parts
  {
  }

  lemma OthersKeep(env: Env, s: State, e: Event)
    requires !e.Step? && !e.LandPart?
    ensures Apply(env, s, e).sh.uploads == s.sh.uploads && forall u :: !LandsOn(env, s.sh, e, u)
  {
    hide First, PutLands, PartLands, Accepts, StepOf, StorePart;
  }

  lemma StepKeepsParts(env: Env, a: Shared, pid: Pid, loc: Loc, fault: Fault, c: Choice, u: string)
    requires u in a.uploads && u in a.issued
    ensures var b := StepOf(env, a, pid, loc, fault, c).0; u in b.uploads ==> b.uploads[u] == a.uploads[u]
  {
    hide Call, OnError;
    CallKeepsParts(env, a, pid, loc, c, u);
  }

  // ---------------------------------------------------------------- the client

  /** At this point of the run a step signs the target, for a request of this part of this row. */
  ghost predicate Requested(env: Env, a: State, later: seq<Event>, j: nat, t: Target, id: int, number: int, crc: string)
  {
    && j < |later| && later[j].Step?
    && Signs(env, Run(env, a, later[..j]), later[j].pid, later[j].fault, later[j].choice, t)
    && exists m: nat, prefix ::
         && m < j && later[m] == Start(later[j].pid, PresignPart(id, prefix, number, crc))
         && later[j].pid !in Run(env, a, later[..m]).procs
  }

  /** At this point a body lands on the upload. */
  ghost predicate LandsAt(env: Env, a: State, later: seq<Event>, k: nat, u: string) {
    k < |later| && LandsOn(env, Run(env, a, later[..k]).sh, later[k], u)
  }

  ghost predicate RequestedBefore(env: Env, a: State, later: seq<Event>, k: nat, t: Target, id: int, number: int,
                                  crc: string)
  {
    exists j: nat :: j < k && Requested(env, a, later, j, t, id, number, crc)
  }

  /** It is the blob's part of this number, sent under a target that was asked for as that part. */
  ghost predicate Sends(env: Env, a: State, later: seq<Event>, k: nat, id: int, blob: Bytes, number: int) {
    && 1 <= number <= Client.PartCount(|blob|) && k < |later| && later[k].LandPart?
    && var part := Client.PartAt(blob, number - 1);
       later[k].body == part && RequestedBefore(env, a, later, k, later[k].target, id, number, env.crc(part))
  }

  ghost predicate PartSent(env: Env, a: State, later: seq<Event>, id: int, u: string, blob: Bytes, number: int) {
    exists k: nat :: LandsAt(env, a, later, k, u) && Sends(env, a, later, k, id, blob, number)
  }

  /** Whatever lands on the upload, the client sent. */
  ghost predicate OnlyClient(env: Env, a: State, later: seq<Event>, id: int, u: string, blob: Bytes) {
    forall k: nat | LandsAt(env, a, later, k, u) ::
      exists number :: Sends(env, a, later, k, id, blob, number)
  }

  /** Every part of the blob has landed, in any order and any number of times. */
  ghost predicate AllSent(env: Env, a: State, later: seq<Event>, id: int, u: string, blob: Bytes) {
    forall number | 1 <= number <= Client.PartCount(|blob|) :: PartSent(env, a, later, id, u, blob, number)
  }

  /** What was requested as one part carries that part's number. */
  lemma RequestedNumber(env: Env, s: State, events: seq<Event>, later: seq<Event>, j: nat, t: Target, id: int,
                        number: int, crc: string)
    requires EnvOk(env) && Initial(env, s) && Requested(env, Run(env, s, events), later, j, t, id, number, crc)
    ensures t.PartTarget? && t.number == number
  {
    hide Signs, Initial, EnvOk, Apply, First;
    var a := Run(env, s, events);
    var m: nat, prefix :| && m < j && later[m] == Start(later[j].pid, PresignPart(id, prefix, number, crc))
                          && later[j].pid !in Run(env, a, later[..m]).procs;
    RunJoin(env, s, events, later[..m]);
    CutAt(env, a, later, m, j);
    SignedAsAsked(env, s, events + later[..m], later[m + 1..j], later[j].pid, id, prefix, number, crc, later[j].fault,
                  later[j].choice, t);
  }

  lemma CutAt(env: Env, a: State, later: seq<Event>, m: nat, j: nat)
    requires m < j <= |later|
    ensures Run(env, a, later[..j]) == Run(env, Apply(env, Run(env, a, later[..m]), later[m]), later[m + 1..j])
  {
    hide Apply, Run;
    assert later[..j] == later[..m] + ([later[m]] + later[m + 1..j]);
    RunJoin(env, a, later[..m], [later[m]] + later[m + 1..j]);
    Progress.RunFirst(env, Run(env, a, later[..m]), later[m], later[m + 1..j]);
  }

  lemma SendsNumber(env: Env, s: State, events: seq<Event>, later: seq<Event>, k: nat, id: int, blob: Bytes,
                    number: int)
    requires EnvOk(env) && Initial(env, s) && Sends(env, Run(env, s, events), later, k, id, blob, number)
    ensures k < |later| && later[k].LandPart? && later[k].target.PartTarget? && later[k].target.number == number
    ensures 1 <= number <= Client.PartCount(|blob|) && later[k].body == Client.PartAt(blob, number - 1)
  {
    hide Requested, Initial, EnvOk, Client.PartAt, Client.PartCount, Run;
    var a, crc := Run(env, s, events), env.crc(Client.PartAt(blob, number - 1));
    var j: nat :| j < k && Requested(env, a, later, j, later[k].target, id, number, crc);
    RequestedNumber(env, s, events, later, j, later[k].target, id, number, crc);
  }

  /** After this much of the run, the upload holds the parts that landed, each as the client cut it. */
  ghost predicate HoldsSent(env: Env, a: State, later: seq<Event>, n: nat, u: string, blob: Bytes)
    requires n <= |later|
  {
    var sh := Run(env, a, later[..n]).sh;
    && u in sh.issued
    && (u in sh.uploads ==>
          && (forall k: nat | k < n && LandsAt(env, a, later, k, u) :: later[k].target.number in sh.uploads[u].parts)
          && (forall number | number in sh.uploads[u].parts ::
                && 1 <= number <= Client.PartCount(|blob|)
                && sh.uploads[u].parts[number].body == Client.PartAt(blob, number - 1)))
  }

  lemma {:induction false} SentSoFar(env: Env, s: State, events: seq<Event>, later: seq<Event>, n: nat, id: int,
                                     u: string,
                                     blob: Bytes)
    requires EnvOk(env) && Initial(env, s) && n <= |later|
    requires var a := Run(env, s, events);
             && u in a.sh.issued && (u in a.sh.uploads ==> a.sh.uploads[u].parts == map[])
             && OnlyClient(env, a, later, id, u, blob)
    ensures HoldsSent(env, Run(env, s, events), later, n, u, blob)
  {
    hide EnvOk, Initial, Apply, Inv, Sends, PartLands, Client.PartAt, Client.PartCount;
    var a := Run(env, s, events);
    if n == 0 {
      assert later[..0] == [];
    } else {
      SentSoFar(env, s, events, later, n - 1, id, u, blob);
      Reachable(env, s, events);
      RunGood(env, a, later[..n - 1]);
      var before, e := Run(env, a, later[..n - 1]), later[n - 1];
      assert later[..n][..n - 1] == later[..n - 1];
      IssuedStays(env, before, e, u);
      if u in Apply(env, before, e).sh.uploads {
        PartsStep(env, before, e, u);
        if LandsOn(env, before.sh, e, u) {
          assert LandsAt(env, a, later, n - 1, u);
          var number :| Sends(env, a, later, n - 1, id, blob, number);
          SendsNumber(env, s, events, later, n - 1, id, blob, number);
        }
      }
    }
  }

  lemma IssuedStays(env: Env, s: State, e: Event, u: string)
    requires EnvOk(env) && Inv(env, s) && u in s.sh.issued
    ensures u in Apply(env, s, e).sh.issued
  {
    hide Inv, Apply, EnvOk, StepFacts;
    ApplyGood(env, s, e);
  }

  /**
   From the targets the client asked for and the bodies that landed: however the rest
   of the installation runs meanwhile, an upload that began empty, on which only the
   client's parts landed and all of them did, holds exactly the blob's parts.
   */
  lemma ClientUploads(env: Env, s: State, events: seq<Event>, later: seq<Event>, id: int, u: string, blob: Bytes)
    requires EnvOk(env) && Initial(env, s)
    requires var a := Run(env, s, events);
             && id in a.sh.born && a.sh.born[id].content == Declaration(|blob|, env.sha(blob), env.crc(blob))
             && u in a.sh.uploads && a.sh.uploads[u].parts == map[]
             && OnlyClient(env, a, later, id, u, blob) && AllSent(env, a, later, id, u, blob)
    requires var end := Run(env, Run(env, s, events), later).sh;
             id in end.rows && end.rows[id].Pending() && end.rows[id].upload == Some(u) && u in end.uploads
    ensures EndToEnd.Received(env, Run(env, Run(env, s, events), later).sh, id, blob)
  {
    hide EnvOk, Initial, Apply, SharedInv, LocInv, Sends, OnlyClient, Client.PartAt, Client.PartCount, LandsAt;
    var a := Run(env, s, events);
    Reachable(env, s, events);
    OpenIssued(env, a.sh, u);
    SentSoFar(env, s, events, later, |later|, id, u, blob);
    assert later[..|later|] == later;
    EndToEnd.BornStays(env, a, later, id);
    var parts := Run(env, a, later).sh.uploads[u].parts;
    forall number | 1 <= number <= Client.PartCount(|blob|) ensures number in parts {
      assert PartSent(env, a, later, id, u, blob, number);
      var k: nat :| LandsAt(env, a, later, k, u) && Sends(env, a, later, k, id, blob, number);
      SendsNumber(env, s, events, later, k, id, blob, number);
    }
    HeldAll(parts, blob);
  }

  lemma HeldAll(parts: map<int, Part>, blob: Bytes)
    requires forall number | number in parts ::
               1 <= number <= Client.PartCount(|blob|) && parts[number].body == Client.PartAt(blob, number - 1)
    requires forall number | 1 <= number <= Client.PartCount(|blob|) :: number in parts
    ensures Client.HoldsParts(parts, blob)
  {
    hide Client.PartAt, Client.PartCount;
  }

  lemma OpenIssued(env: Env, sh: Shared, u: string)
    requires SharedInv(env, sh) && u in sh.uploads
    ensures u in sh.issued
  {
  }

  /** So a finalizer left alone then publishes the blob. */
  lemma ClientPublishes(env: Env, s: State, events: seq<Event>, later: seq<Event>, pid: Pid, id: int, u: string,
                        blob: Bytes, cs: seq<Choice>)
    requires EnvOk(env) && Initial(env, s) && blob != [] && |cs| >= MAX_PARTS + 8
    requires var a := Run(env, s, events);
             && id in a.sh.born && a.sh.born[id].content == Declaration(|blob|, env.sha(blob), env.crc(blob))
             && u in a.sh.uploads && a.sh.uploads[u].parts == map[]
             && OnlyClient(env, a, later, id, u, blob) && AllSent(env, a, later, id, u, blob)
    requires var t := Run(env, Run(env, s, events), later);
             && id in t.sh.rows && t.sh.rows[id].Pending() && t.sh.rows[id].upload == Some(u) && u in t.sh.uploads
             && pid in t.procs && t.procs[pid] == Finalizing(FinGet(id, t.sh.rows[id].prefix))
    ensures var end := Run(env, Run(env, Run(env, s, events), later), Progress.Undisturbed(pid, cs));
            && id in end.sh.rows && pid in end.procs && end.procs[pid] == Returned(id, end.sh.rows[id])
            && var row := end.sh.rows[id];
               && row.Available() && row.size == Some(|blob|) && row.sha == Some(env.sha(blob))
               && row.crc == Some(env.crc(blob))
               && RowKey(env, id, row) in end.sh.objects
               && |end.sh.objects[RowKey(env, id, row)].body| == |blob|
               && env.crc(end.sh.objects[RowKey(env, id, row)].body) == env.crc(blob)
  {
    hide EnvOk, Initial, Apply, OnlyClient, AllSent, EndToEnd.Received, RowKey, Progress.Undisturbed;
    ClientUploads(env, s, events, later, id, u, blob);
    RunJoin(env, s, events, later);
    EndToEnd.UploadedBlobIsPublished(env, s, events + later, pid, id, blob, cs);
  }

  // ------------------------------------------------------------- parts in turn

  const ANY := Choice("", 0, [], [], [], false)

  /** One part: asked for, accepted, and landed whole. */
  function Sending(env: Env, id: int, row: Row, u: string, now: Time, blob: Bytes, p: Pid, i: nat): seq<Event> {
    var crc := env.crc(Client.PartAt(blob, i));
    var t := PartTarget(id, RowKey(env, id, row), u, i + 1, crc, now, now, now + env.ttl);
    [Start(p + i, PresignPart(id, row.prefix, i + 1, crc))] + Progress.Undisturbed(p + i, [ANY, ANY, ANY])
      + [Accept(t)] + [LandPart(t, Client.PartAt(blob, i))]
  }

  function SendingFirst(env: Env, id: int, row: Row, u: string, now: Time, blob: Bytes, p: Pid, n: nat): seq<Event> {
    if n == 0 then []
    else SendingFirst(env, id, row, u, now, blob, p, n - 1) + Sending(env, id, row, u, now, blob, p, n - 1)
  }

  /** The first `n` parts are in the upload; the row was refreshed at most. */
  ghost predicate Halfway(env: Env, a: State, b: State, id: int, u: string, blob: Bytes, p: Pid, n: nat) {
    && id in a.sh.rows && id in b.sh.rows && b.sh.rows[id].(updatedAt := 0) == a.sh.rows[id].(updatedAt := 0)
    && b.sh.now == a.sh.now && b.sh.born == a.sh.born
    && u in b.sh.uploads && b.sh.uploads[u].key == RowKey(env, id, a.sh.rows[id])
    && (forall number :: number in b.sh.uploads[u].parts <==> 1 <= number <= n)
    && (forall number | 1 <= number <= n :: b.sh.uploads[u].parts[number].body == Client.PartAt(blob, number - 1))
    && (forall q | q >= p + n :: q !in b.procs)
  }

  /** A request that is left alone signs its part, and the part lands under the target it signed. */
  lemma SendOne(env: Env, a: State, b: State, id: int, u: string, blob: Bytes, p: Pid, n: nat)
    requires EnvOk(env) && env.kind.S3Kind? && blob != [] && n < Client.PartCount(|blob|)
    requires Halfway(env, a, b, id, u, blob, p, n)
    requires a.sh.rows[id].Pending() && a.sh.rows[id].upload == Some(u)
    ensures Halfway(env, a, Run(env, b, Sending(env, id, a.sh.rows[id], u, a.sh.now, blob, p, n)), id, u, blob, p,
                    n + 1)
  {
    hide EnvOk, Apply, Client.PartAt, Client.PartCount, Operations.Whole, Progress.Undisturbed, RowKey, Run;
    var row := a.sh.rows[id];
    var part := Client.PartAt(blob, n);
    var crc := env.crc(part);
    var key := RowKey(env, id, row);
    var t := PartTarget(id, key, u, n + 1, crc, a.sh.now, a.sh.now, a.sh.now + env.ttl);
    var asking := [Start(p + n, PresignPart(id, row.prefix, n + 1, crc))]
                  + Progress.Undisturbed(p + n, [ANY, ANY, ANY]);
    Client.PartsPartition(blob);
    CrcText(env, part);
    Operations.WholeIsRun(env, b, p + n, PresignPart(id, row.prefix, n + 1, crc), [ANY, ANY, ANY]);
    Operations.PresignAlone(env, b.sh, p + n, id, row.prefix, n + 1, crc, [ANY, ANY, ANY]);
    SameKeyRow(env, id, row, b.sh.rows[id]);
    var signed := Run(env, b, asking);
    RunLast(env, b, asking, Accept(t));
    RunLast(env, b, asking + [Accept(t)], LandPart(t, part));
    assert t in signed.sh.targets;
    Delivered(env, signed, t, part);
  }

  lemma CrcText(env: Env, part: Bytes)
    requires EnvOk(env)
    ensures IsLowerHex(env.crc(part), 16) && env.ttl > 0
  {
  }

  lemma SameKeyRow(env: Env, id: int, a: Row, b: Row)
    requires a.(updatedAt := 0) == b.(updatedAt := 0)
    ensures RowKey(env, id, a) == RowKey(env, id, b) && a.prefix == b.prefix && a.upload == b.upload
    ensures a.availableAt == b.availableAt && a.expiredAt == b.expiredAt
  {
    assert a.(updatedAt := 0).storageKey == b.(updatedAt := 0).storageKey;
  }

  /** A part sent at once under a fresh target lands. */
  lemma Delivered(env: Env, s: State, t: Target, body: Bytes)
    requires t in s.sh.targets && t.PartTarget? && s.sh.now < t.expires && env.crc(body) == t.crc
    requires t.upload in s.sh.uploads && s.sh.uploads[t.upload].key == t.key
    ensures var b := Apply(env, Apply(env, s, Accept(t)), LandPart(t, body));
            && b.procs == s.procs && b.sh.rows == s.sh.rows && b.sh.now == s.sh.now && b.sh.born == s.sh.born
            && b.sh.uploads == s.sh.uploads[t.upload := s.sh.uploads[t.upload].(
                 parts := s.sh.uploads[t.upload].parts[t.number := Part(body, t.crc)])]
  {
    hide StepOf, First;
    var accepted := Apply(env, s, Accept(t));
    assert accepted == s.(sh := s.sh.(accepted := s.sh.accepted + {t}));
    assert PartLands(env, accepted.sh, t, body);
  }

  lemma {:induction false} SendFirst(env: Env, a: State, id: int, u: string, blob: Bytes, p: Pid, n: nat)
    requires EnvOk(env) && env.kind.S3Kind? && blob != [] && n <= Client.PartCount(|blob|)
    requires Halfway(env, a, a, id, u, blob, p, 0) && a.sh.rows[id].Pending() && a.sh.rows[id].upload == Some(u)
    ensures Halfway(env, a, Run(env, a, SendingFirst(env, id, a.sh.rows[id], u, a.sh.now, blob, p, n)), id, u, blob, p,
                    n)
  {
    hide EnvOk, Halfway, Client.PartCount, Apply, Sending;
    if n > 0 {
      HalfwayRow(env, a, a, id, u, blob, p, 0);
      var row, now := a.sh.rows[id], a.sh.now;
      SendFirst(env, a, id, u, blob, p, n - 1);
      var before := SendingFirst(env, id, row, u, now, blob, p, n - 1);
      RunJoin(env, a, before, Sending(env, id, row, u, now, blob, p, n - 1));
      SendOne(env, a, Run(env, a, before), id, u, blob, p, n - 1);
    }
  }

  lemma HalfwayRow(env: Env, a: State, b: State, id: int, u: string, blob: Bytes, p: Pid, n: nat)
    requires Halfway(env, a, b, id, u, blob, p, n)
    ensures id in a.sh.rows
  {
  }

  /**
   From every reachable state with an empty open upload, the client that asks for its
   parts one after the other and sends each at once fills it with exactly the blob.
   */
  lemma PartsInTurn(env: Env, s: State, events: seq<Event>, id: int, u: string, blob: Bytes, p: Pid)
    requires EnvOk(env) && Initial(env, s) && blob != []
    requires var a := Run(env, s, events);
             && id in a.sh.rows && a.sh.rows[id].Pending() && a.sh.rows[id].upload == Some(u)
             && id in a.sh.born && a.sh.born[id].content == Declaration(|blob|, env.sha(blob), env.crc(blob))
             && u in a.sh.uploads && a.sh.uploads[u].parts == map[] && (forall q | q >= p :: q !in a.procs)
    ensures var a := Run(env, s, events);
            var sending := SendingFirst(env, id, a.sh.rows[id], u, a.sh.now, blob, p, Client.PartCount(|blob|));
            EndToEnd.Received(env, Run(env, a, sending).sh, id, blob)
  {
    hide EnvOk, Initial, SharedInv, LocInv, Client.PartCount, Client.PartAt, RowKey, Apply, SendingFirst;
    var a := Run(env, s, events);
    Reachable(env, s, events);
    PendingSnapshot(env, a.sh, id);
    SnapshotUpload(env, a.sh, id, a.sh.rows[id]);
    Progress.OpenedFull(env, a.sh, id, a.sh.rows[id]);
    SendFirst(env, a, id, u, blob, p, Client.PartCount(|blob|));
    var sending := SendingFirst(env, id, a.sh.rows[id], u, a.sh.now, blob, p, Client.PartCount(|blob|));
    var end := Run(env, a, sending);
    SameKeyRow(env, id, a.sh.rows[id], end.sh.rows[id]);
    HeldAll(end.sh.uploads[u].parts, blob);
  }
}
