/**
 The content type that a finalizer publishes: detected from the leading bytes of
 what storage held, whatever ran between reading them and publishing.
 */
module ContentTypes {
  import opened Wrappers
  import opened Table
  import opened Storage
  import opened Protocol
  import opened Invariant
  import opened Steps
  import opened Migration
  import opened Safety
  import Progress

  /** The first 3072 bytes, or all of them. */
  predicate Leads(head: Bytes, body: Bytes) {
    head <= body && |head| == if |body| <= 3072 then |body| else 3072
  }

  /** A body with the declared size and digest, and the type its leading bytes have. */
  ghost predicate DetectedFrom(env: Env, birth: Birth, contentType: string, body: Bytes, head: Bytes) {
    && |body| == birth.content.size
    && (if birth.mode.Direct? then env.sha(body) == birth.content.sha else env.crc(body) == birth.content.crc)
    && Leads(head, body) && contentType == env.detect(head)
  }

  /** And once an upload assembled the object's bytes, that body is the very one the key holds. */
  ghost predicate Detected(env: Env, sh: Shared, id: int, contentType: string)
    requires id in sh.born
  {
    exists body, head ::
      && DetectedFrom(env, sh.born[id], contentType, body, head)
      && (sh.born[id].mode.Multipart? && BirthKey(env, sh, id) in sh.objects ==>
            sh.objects[BirthKey(env, sh, id)].body == body)
  }

  ghost predicate TypeKnown(env: Env, sh: Shared, loc: Loc) {
    loc.Finalizing? && loc.finalizing.FinPublish? ==>
      var id := loc.finalizing.id;
      Dead(sh, id) || (id in sh.born && Detected(env, sh, id, loc.finalizing.contentType))
  }

  ghost predicate TypesKnown(env: Env, s: State) {
    forall pid | pid in s.procs :: TypeKnown(env, s.sh, s.procs[pid])
  }

  // ------------------------------------------------------------------ one step

  /** Assembled bytes stay what they were while their row lives. */
  lemma AssembledKept(env: Env, a: Shared, b: Shared, id: int)
    requires SharedInv(env, a) && Guarantee(env, a, b) && ByteFacts(env, a, b)
    requires id in a.born && a.born[id].mode.Multipart? && HoldsDeclared(env, a, id)
    ensures id in b.born && b.born[id] == a.born[id]
    ensures BirthKey(env, b, id) in b.objects ==>
              b.objects[BirthKey(env, b, id)] == a.objects[BirthKey(env, a, id)]
  {
    var blob := a.objects[BirthKey(env, a, id)];
    assert BlobOk(env, a, id, blob);
    assert Sealed(env, a, blob.via.value);
  }

  lemma TypeKept(env: Env, a: Shared, b: Shared, pid: Pid, loc: Loc)
    requires SharedInv(env, a) && LocInv(env, a, pid, loc) && Guarantee(env, a, b) && ByteFacts(env, a, b)
    requires TypeKnown(env, a, loc)
    ensures TypeKnown(env, b, loc)
  {
    hide SharedInv, ByteFacts, RowFacts, DetectedFrom, BytesForward, UploadsForward;
    if loc.Finalizing? && loc.finalizing.FinPublish? {
      var id, contentType := loc.finalizing.id, loc.finalizing.contentType;
      if Dead(a, id) {
        DeadStable(env, a, b, id);
      } else {
        var body, head :| DetectedFrom(env, a.born[id], contentType, body, head)
                          && (a.born[id].mode.Multipart? && BirthKey(env, a, id) in a.objects ==>
                                a.objects[BirthKey(env, a, id)].body == body);
        StillHeld(env, a, b, id, body);
        assert DetectedFrom(env, b.born[id], contentType, body, head);
      }
    }
  }

  lemma StillHeld(env: Env, a: Shared, b: Shared, id: int, body: Bytes)
    requires SharedInv(env, a) && Guarantee(env, a, b) && ByteFacts(env, a, b)
    requires id in a.born && HoldsDeclared(env, a, id)
    requires a.born[id].mode.Multipart? ==> a.objects[BirthKey(env, a, id)].body == body
    ensures id in b.born && b.born[id] == a.born[id]
    ensures b.born[id].mode.Multipart? && BirthKey(env, b, id) in b.objects ==>
              b.objects[BirthKey(env, b, id)].body == body
  {
    hide SharedInv, ByteFacts, BytesForward, UploadsForward;
    if a.born[id].mode.Multipart? {
      AssembledKept(env, a, b, id);
    }
  }

  /** A finalizer comes to publish from its reading of the leading bytes, or from finding none. */
  lemma ComesToPublish(env: Env, a: Shared, pid: Pid, loc: Loc, fault: Fault, c: Choice)
    requires var at := StepOf(env, a, pid, loc, fault, c).1; at.Finalizing? && at.finalizing.FinPublish?
    ensures loc.Finalizing? && (loc.finalizing.FinVerify? || loc.finalizing.FinHead?) && fault.NoFault?
    ensures StepOf(env, a, pid, loc, fault, c) == CallFinalize(env, a, loc.finalizing, c)
  {
    hide CallSweep, CallCreate, CallWrite, CallPart, CallRemove, CallFinalize, OnError, Call;
    NoErrorPublishes(env, loc);
    assert fault.NoFault?;
    CallPublishes(env, a, pid, loc, c);
  }

  lemma NoErrorPublishes(env: Env, loc: Loc)
    ensures !(OnError(env, loc).Finalizing? && OnError(env, loc).finalizing.FinPublish?)
  {
  }

  lemma CallPublishes(env: Env, a: Shared, pid: Pid, loc: Loc, c: Choice)
    requires var at := Call(env, a, pid, loc, c).1; at.Finalizing? && at.finalizing.FinPublish?
    ensures loc.Finalizing? && (loc.finalizing.FinVerify? || loc.finalizing.FinHead?)
    ensures Call(env, a, pid, loc, c) == CallFinalize(env, a, loc.finalizing, c)
  {
    hide CallSweep, CallCreate, CallWrite, CallPart, CallRemove;
    match loc
    case Creating(at) => CreateElsewhere(env, a, pid, at, c);
    case Writing(at) => WriteElsewhere(env, a, at);
    case Signing(at) => PartElsewhere(env, a, at);
    case Removing(at) => RemoveElsewhere(env, a, at);
    case Sweeping(at) => SweepElsewhere(env, a, at, c);
    case _ =>
  }

  lemma CreateElsewhere(env: Env, a: Shared, pid: Pid, at: CreateLoc, c: Choice)
    ensures !CallCreate(env, a, pid, at, c).1.Finalizing?
  {
  }

  lemma WriteElsewhere(env: Env, a: Shared, at: WriteLoc)
    ensures !CallWrite(env, a, at).1.Finalizing?
  {
  }

  lemma PartElsewhere(env: Env, a: Shared, at: PartLoc)
    ensures !CallPart(env, a, at).1.Finalizing?
  {
  }

  lemma RemoveElsewhere(env: Env, a: Shared, at: RemoveLoc)
    ensures !CallRemove(env, a, at).1.Finalizing?
  {
  }

  lemma SweepElsewhere(env: Env, a: Shared, at: SweepLoc, c: Choice)
    ensures !CallSweep(env, a, at, c).1.Finalizing?
  {
  }

  lemma HeldDetects(env: Env, a: Shared, id: int, head: Bytes)
    requires id in a.born && HoldsDeclared(env, a, id) && Leads(head, a.objects[BirthKey(env, a, id)].body)
    ensures Detected(env, a, id, env.detect(head))
  {
    var body := a.objects[BirthKey(env, a, id)].body;
    assert DetectedFrom(env, a.born[id], env.detect(head), body, head);
  }

  lemma OwnType(env: Env, a: Shared, pid: Pid, loc: Loc, fault: Fault, c: Choice)
    requires SharedInv(env, a) && LocInv(env, a, pid, loc)
    ensures var (b, at) := StepOf(env, a, pid, loc, fault, c); TypeKnown(env, b, at)
  {
    hide SharedInv, StepOf, HoldsDeclared, Verify, Detected;
    var (b, at) := StepOf(env, a, pid, loc, fault, c);
    if at.Finalizing? && at.finalizing.FinPublish? {
      ComesToPublish(env, a, pid, loc, fault, c);
      var id, row := loc.finalizing.id, loc.finalizing.row;
      if loc.finalizing.FinVerify? {
        VerifiedIsDeclared(env, a, id, row);
        HeldSize(env, a, id, row);
        HeldDetects(env, a, id, []);
      } else if !Dead(a, id) {
        HeldSize(env, a, id, row);
        var held := a.objects[BirthKey(env, a, id)].body;
        HeldDetects(env, a, id, Head(held));
      }
    }
  }

  lemma HeldSize(env: Env, a: Shared, id: int, row: Row)
    requires SharedInv(env, a) && Snapshot(a, id, row) && HoldsDeclared(env, a, id)
    ensures RowKey(env, id, row) == BirthKey(env, a, id) && BirthKey(env, a, id) in a.objects
    ensures row.size == Some(|a.objects[BirthKey(env, a, id)].body|)
  {
  }

  lemma TypesStep(env: Env, s: State, e: Event)
    requires EnvOk(env) && Inv(env, s) && TypesKnown(env, s)
    ensures TypesKnown(env, Apply(env, s, e))
  {
    hide SharedInv, LocInv, EnvOk, Guarantee, RowFacts, ByteFacts, TypeKnown, StepOf;
    var t := Apply(env, s, e);
    ApplyGood(env, s, e);
    forall pid | pid in t.procs ensures TypeKnown(env, t.sh, t.procs[pid]) {
      if e.Step? && e.pid == pid {
        OwnType(env, s.sh, pid, s.procs[pid], e.fault, e.choice);
      } else if pid in s.procs {
        TypeKept(env, s.sh, t.sh, pid, s.procs[pid]);
      } else {
        StartsElsewhere(env, t.sh, e.op, s.sh.now);
      }
    }
  }

  lemma StartsElsewhere(env: Env, sh: Shared, op: Op, now: Time)
    ensures TypeKnown(env, sh, First(op, now))
  {
  }

  lemma {:induction false} TypesRun(env: Env, s: State, events: seq<Event>)
    requires EnvOk(env) && Initial(env, s)
    ensures TypesKnown(env, Run(env, s, events))
  {
    hide Inv, Apply, EnvOk, TypeKnown;
    if events != [] {
      var before := events[..|events| - 1];
      TypesRun(env, s, before);
      Reachable(env, s, before);
      TypesStep(env, Run(env, s, before), events[|events| - 1]);
    } else {
      assert s.procs == map[];
    }
  }

  // ------------------------------------------------------------------ whole runs

  /** This event, a step of a finalizer, publishes the identifier. */
  ghost predicate FinalizerPublishes(env: Env, s: State, pid: Pid, fault: Fault, c: Choice, id: int) {
    && pid in s.procs && s.procs[pid].Finalizing?
    && id !in s.sh.published && id in Apply(env, s, Step(pid, fault, c)).sh.published
  }

  lemma PublishStep(env: Env, sh: Shared, pid: Pid, at: FinalizeLoc, fault: Fault, c: Choice, id: int)
    requires var b := StepOf(env, sh, pid, Finalizing(at), fault, c).0; id !in sh.published && id in b.published
    ensures at.FinPublish? && at.id == id && id in sh.rows && sh.rows[id].Pending()
    ensures StepOf(env, sh, pid, Finalizing(at), fault, c).0
            == Publish(sh, id, sh.rows[id].(contentType := at.contentType,
                                            storageKey := Some(RowKey(env, id, at.row)),
                                            availableAt := Some(sh.now), updatedAt := sh.now))
  {
    hide RowKey, Ascending, Named, Completes, ValidRow, KeyTaken, Verify, Page, Listing, Assembled;
  }

  /**
   Over every run: a finalizer's publication sets the type, the key and the times of
   a pending row and nothing else.  The type is detected from the first 3072 bytes
   of a body: the very one the key holds if an upload assembled it, and one with the
   same size and SHA-256 if single PUTs stored it.
   */
  lemma PublishedType(env: Env, s: State, events: seq<Event>, pid: Pid, fault: Fault, c: Choice, id: int)
    requires EnvOk(env) && Initial(env, s) && FinalizerPublishes(env, Run(env, s, events), pid, fault, c, id)
    ensures var a := Run(env, s, events).sh;
            var b := Apply(env, Run(env, s, events), Step(pid, fault, c)).sh;
            && id in a.rows && a.rows[id].Pending() && id in b.rows && b.objects == a.objects
            && var key := RowKey(env, id, a.rows[id]);
               && b.rows == a.rows[id := a.rows[id].(contentType := b.rows[id].contentType, storageKey := Some(key),
                                                     availableAt := Some(a.now), updatedAt := a.now)]
               && key in b.objects && id in b.born
               && exists body, head ::
                    && Leads(head, body) && b.rows[id].contentType == env.detect(head)
                    && |body| == |b.objects[key].body|
                    && (if b.born[id].mode.Multipart? then body == b.objects[key].body
                        else env.sha(body) == env.sha(b.objects[key].body))
  {
    hide SharedInv, EnvOk, Initial, StepOf, TypeKnown, HoldsDeclared;
    Reachable(env, s, events);
    TypesRun(env, s, events);
    var t := Run(env, s, events);
    var a, at := t.sh, t.procs[pid].finalizing;
    assert LocInv(env, a, pid, t.procs[pid]) && TypeKnown(env, a, t.procs[pid]);
    PublishStep(env, a, pid, at, fault, c, id);
    Progress.SameKey(env, a, id, at.row);
    assert !Dead(a, id);
    TypeOfHeld(env, a, id, at.contentType, t.procs[pid]);
  }

  lemma TypeOfHeld(env: Env, a: Shared, id: int, contentType: string, loc: Loc)
    requires TypeKnown(env, a, loc) && loc.Finalizing? && loc.finalizing.FinPublish? && loc.finalizing.id == id
    requires loc.finalizing.contentType == contentType && !Dead(a, id)
    requires id in a.born && HoldsDeclared(env, a, id)
    ensures var key := BirthKey(env, a, id);
            key in a.objects
            && exists body, head ::
              && Leads(head, body) && contentType == env.detect(head)
              && |body| == |a.objects[key].body|
              && (if a.born[id].mode.Multipart? then body == a.objects[key].body
                  else env.sha(body) == env.sha(a.objects[key].body))
  {
    var body, head :| DetectedFrom(env, a.born[id], contentType, body, head)
                      && (a.born[id].mode.Multipart? && BirthKey(env, a, id) in a.objects ==>
                            a.objects[BirthKey(env, a, id)].body == body);
    assert Leads(head, body);
  }
}
