/**
 Whatever a sweep takes away had reached the maximum age before the sweep started:
 unreferenced rows, orphaned bytes and open uploads, in every run.
 */
module SweepAges {
  import opened Wrappers
  import opened Table
  import opened Storage
  import opened Protocol
  import opened Invariant
  import opened Steps
  import opened Migration
  import opened Safety
  import opened UploadSweep
  import Cleanup

  /** The process of this identifier that starts after these events, a while later. */
  ghost function Started(env: Env, s: State, events: seq<Event>, pid: Pid, op: Op, later: seq<Event>): State {
    Run(env, Apply(env, Run(env, s, events), Start(pid, op)), later)
  }

  // --------------------------------------------------------- unreferenced rows

  /** If the row is still there, it is an old published row under one of the prefixes. */
  ghost predicate OldRow(sh: Shared, prefixes: set<string>, before: Time, id: int) {
    && id < sh.nextId
    && (id in sh.rows ==>
          && sh.rows[id].prefix in prefixes
          && match sh.rows[id].availableAt case Some(at) => at < before case None => false)
  }

  ghost predicate OldRows(sh: Shared, prefixes: set<string>, before: Time, ids: seq<int>) {
    forall i | 0 <= i < |ids| :: OldRow(sh, prefixes, before, ids[i])
  }

  ghost predicate OldAfter(sh: Shared, prefixes: set<string>, before: Time, after: Then) {
    after.NextIds? && OldRows(sh, prefixes, before, after.ids)
  }

  /** Where a sweep of unreferenced objects can stand, and what it knows there. */
  ghost predicate Discarding(env: Env, sh: Shared, loc: Loc, start: Time, prefixes: set<string>) {
    var before := start - env.maxAge;
    match loc
    case Finished => true
    case Sweeping(SweepList(at, under)) => at == start && under == prefixes
    case Removing(DelRow(id, after)) => OldRow(sh, prefixes, before, id) && OldAfter(sh, prefixes, before, after)
    case Removing(RemoveUpload(_, _, after)) => OldAfter(sh, prefixes, before, after)
    case Removing(RemoveBlob(_, _, _, after)) => OldAfter(sh, prefixes, before, after)
    case _ => false
  }

  lemma OldRowStable(env: Env, a: Shared, b: Shared, prefixes: set<string>, before: Time, id: int)
    requires Guarantee(env, a, b) && OldRow(a, prefixes, before, id)
    ensures OldRow(b, prefixes, before, id)
  {
    hide HistoryForward, UploadsForward, BytesForward, RowKey;
    assert id in b.rows ==> id in a.rows && RowStep(env, id, a.rows[id], b.rows[id]);
  }

  lemma DiscardingStable(env: Env, a: Shared, b: Shared, loc: Loc, start: Time, prefixes: set<string>)
    requires Guarantee(env, a, b) && Discarding(env, a, loc, start, prefixes)
    ensures Discarding(env, b, loc, start, prefixes)
  {
    hide Guarantee, OldRow;
    var before := start - env.maxAge;
    forall id | OldRow(a, prefixes, before, id) ensures OldRow(b, prefixes, before, id) {
      OldRowStable(env, a, b, prefixes, before, id);
    }
  }

  lemma NextDiscarding(env: Env, sh: Shared, start: Time, prefixes: set<string>, ids: seq<int>)
    requires OldRows(sh, prefixes, start - env.maxAge, ids)
    ensures Discarding(env, sh, NextId(ids), start, prefixes)
  {
    hide OldRow;
  }

  /** Where the next call of such a sweep can lead, whatever its fate. */
  lemma DiscardingNext(env: Env, sh: Shared, pid: Pid, loc: Loc, fault: Fault, c: Choice, start: Time,
                       prefixes: set<string>)
    requires SharedInv(env, sh) && Discarding(env, sh, loc, start, prefixes)
    ensures Discarding(env, sh, StepOf(env, sh, pid, loc, fault, c).1, start, prefixes)
  {
    hide SharedInv, CallCreate, CallWrite, CallFinalize, CallPart, OldRow, NextId, RowKey;
    match loc
    case Finished =>
    case Sweeping(at) =>
      if fault.NoFault? && MayDiscard(env, sh, start, prefixes, c.ids) {
        ListedOld(env, sh, start, prefixes, c.ids);
        NextDiscarding(env, sh, start, prefixes, c.ids);
      }
    case Removing(at) =>
      NextDiscarding(env, sh, start, prefixes, at.after.ids);
  }

  lemma ListedOld(env: Env, sh: Shared, start: Time, prefixes: set<string>, ids: seq<int>)
    requires SharedInv(env, sh) && MayDiscard(env, sh, start, prefixes, ids)
    ensures OldRows(sh, prefixes, start - env.maxAge, ids)
  {
    forall i | 0 <= i < |ids| ensures OldRow(sh, prefixes, start - env.maxAge, ids[i]) {
      assert ids[i] in ids;
    }
  }

  lemma {:induction false} DiscardingRun(env: Env, s: State, later: seq<Event>, pid: Pid, start: Time,
                                         prefixes: set<string>)
    requires EnvOk(env) && Inv(env, s) && pid in s.procs && Discarding(env, s.sh, s.procs[pid], start, prefixes)
    ensures var t := Run(env, s, later); pid in t.procs && Discarding(env, t.sh, t.procs[pid], start, prefixes)
  {
    hide Inv, EnvOk, Discarding, StepOf, Guarantee, StepFacts;
    if later != [] {
      var before := later[..|later| - 1];
      DiscardingRun(env, s, before, pid, start, prefixes);
      RunGood(env, s, before);
      DiscardingApply(env, Run(env, s, before), later[|later| - 1], pid, start, prefixes);
    }
  }

  lemma DiscardingApply(env: Env, s: State, e: Event, pid: Pid, start: Time, prefixes: set<string>)
    requires EnvOk(env) && Inv(env, s) && pid in s.procs && Discarding(env, s.sh, s.procs[pid], start, prefixes)
    ensures var t := Apply(env, s, e); pid in t.procs && Discarding(env, t.sh, t.procs[pid], start, prefixes)
  {
    hide SharedInv, LocInv, EnvOk, Discarding, StepOf, Guarantee, StepFacts, First;
    ApplyGood(env, s, e);
    var t := Apply(env, s, e);
    if e.Step? && e.pid == pid {
      DiscardingNext(env, s.sh, pid, s.procs[pid], e.fault, e.choice, start, prefixes);
      DiscardingStable(env, s.sh, t.sh, t.procs[pid], start, prefixes);
    } else {
      DiscardingStable(env, s.sh, t.sh, s.procs[pid], start, prefixes);
    }
  }

  lemma DropsRow(env: Env, sh: Shared, pid: Pid, loc: Loc, fault: Fault, c: Choice, start: Time, prefixes: set<string>,
                 id: int)
    requires Discarding(env, sh, loc, start, prefixes)
    requires id in sh.rows && id !in StepOf(env, sh, pid, loc, fault, c).0.rows
    ensures sh.rows[id].Visible() && id !in sh.refs && OldRow(sh, prefixes, start - env.maxAge, id)
  {
    hide Call, OnError, OldRow, OldAfter;
    CallDropsRow(env, sh, pid, loc, c, id);
  }

  lemma CallDropsRow(env: Env, sh: Shared, pid: Pid, loc: Loc, c: Choice, id: int)
    requires loc.Finished? || loc.Sweeping? || (loc.Removing? && !loc.removing.DropExpired?)
    requires loc.Sweeping? ==> loc.sweeping.SweepList?
    ensures id in sh.rows && id !in Call(env, sh, pid, loc, c).0.rows ==>
              && loc.Removing? && loc.removing.DelRow? && loc.removing.id == id
              && sh.rows[id].Visible() && id !in sh.refs
  {
    hide CallCreate, CallWrite, CallFinalize, CallPart, RowKey, Resume, Remove, MayDiscard;
  }

  /**
   A row that a sweep of unreferenced objects deletes had been published for longer than
   the maximum age when that sweep started; it lies under one of the sweep's prefixes,
   has not expired, and nothing references it at that moment.
   */
  lemma SweptWasOld(env: Env, s: State, events: seq<Event>, pid: Pid, prefixes: set<string>, later: seq<Event>,
                    fault: Fault, c: Choice, id: int)
    requires EnvOk(env) && Initial(env, s) && pid !in Run(env, s, events).procs
    requires var t := Started(env, s, events, pid, SweepUnreferenced(prefixes), later);
             id in t.sh.rows && id !in Apply(env, t, Step(pid, fault, c)).sh.rows
    ensures var t := Started(env, s, events, pid, SweepUnreferenced(prefixes), later);
            var row := t.sh.rows[id];
            && row.availableAt.Some? && row.availableAt.value < Run(env, s, events).sh.now - env.maxAge
            && row.prefix in prefixes && row.expiredAt == None && id !in t.sh.refs
  {
    hide Inv, EnvOk, Initial, StepOf, Guarantee, StepFacts;
    Reachable(env, s, events);
    var a := Run(env, s, events);
    var b := Apply(env, a, Start(pid, SweepUnreferenced(prefixes)));
    ApplyGood(env, a, Start(pid, SweepUnreferenced(prefixes)));
    DiscardingRun(env, b, later, pid, a.sh.now, prefixes);
    var t := Run(env, b, later);
    DropsRow(env, t.sh, pid, t.procs[pid], fault, c, a.sh.now, prefixes, id);
  }

  // ------------------------------------------------------------ orphaned bytes

  /** At some point of the run so far the key held bytes that old. */
  ghost predicate SeenOld(env: Env, a: State, later: seq<Event>, before: Time, key: string) {
    exists k: nat :: k <= |later| && HeldOld(Run(env, a, later[..k]).sh, before, key)
  }

  ghost predicate HeldOld(sh: Shared, before: Time, key: string) {
    key in sh.objects && sh.objects[key].modified < before
  }

  ghost predicate AllSeen(env: Env, a: State, later: seq<Event>, before: Time, keys: seq<string>) {
    forall key | key in keys :: SeenOld(env, a, later, before, key)
  }

  /** Where an orphan sweep can stand: every key it carries was old when it was listed. */
  ghost predicate SweepingOld(env: Env, a: State, later: seq<Event>, loc: Loc, start: Time) {
    var before := start - env.maxAge;
    match loc
    case Finished => true
    case Sweeping(ObjectList(at, keys)) => at == start && AllSeen(env, a, later, before, keys)
    case Sweeping(ObjectLookup(keys)) => AllSeen(env, a, later, before, keys)
    case Sweeping(ObjectDelete(doomed, keys)) =>
      AllSeen(env, a, later, before, doomed) && AllSeen(env, a, later, before, keys)
    case _ => false
  }

  lemma SeenLater(env: Env, a: State, later: seq<Event>, e: Event, before: Time, key: string)
    requires SeenOld(env, a, later, before, key)
    ensures SeenOld(env, a, later + [e], before, key)
  {
    hide Run, HeldOld;
    var k: nat :| k <= |later| && HeldOld(Run(env, a, later[..k]).sh, before, key);
    assert (later + [e])[..k] == later[..k];
  }

  lemma SweepingLater(env: Env, a: State, later: seq<Event>, e: Event, loc: Loc, start: Time)
    requires SweepingOld(env, a, later, loc, start)
    ensures SweepingOld(env, a, later + [e], loc, start)
  {
    hide SeenOld;
    var before := start - env.maxAge;
    forall key | SeenOld(env, a, later, before, key) ensures SeenOld(env, a, later + [e], before, key) {
      SeenLater(env, a, later, e, before, key);
    }
  }

  lemma SeenNow(env: Env, a: State, later: seq<Event>, start: Time, keys: seq<string>)
    requires OldKeys(env, Run(env, a, later).sh, start, keys)
    ensures AllSeen(env, a, later, start - env.maxAge, keys)
  {
    hide Run;
    assert later[..|later|] == later;
    forall key | key in keys ensures SeenOld(env, a, later, start - env.maxAge, key) {
      assert HeldOld(Run(env, a, later[..|later|]).sh, start - env.maxAge, key);
    }
  }

  lemma DoomedListed(env: Env, rows: Rows, keys: seq<string>)
    ensures forall key | key in Doomed(env, rows, keys) :: key in keys
  {
    forall key | key in Doomed(env, rows, keys) ensures key in keys {
      Cleanup.DoomedExactly(env, rows, keys, key);
    }
  }

  lemma SweepingNext(env: Env, a: State, later: seq<Event>, pid: Pid, loc: Loc, fault: Fault, c: Choice, start: Time)
    requires SweepingOld(env, a, later, loc, start)
    ensures SweepingOld(env, a, later, StepOf(env, Run(env, a, later).sh, pid, loc, fault, c).1, start)
  {
    hide CallCreate, CallWrite, CallFinalize, CallPart, CallRemove, SeenOld, Doomed, OldKeys, Run;
    var sh := Run(env, a, later).sh;
    if loc.Sweeping? {
      match loc.sweeping
      case ObjectList(_, keys) =>
        if OldKeys(env, sh, start, c.keys) {
          SeenNow(env, a, later, start, c.keys);
        }
      case ObjectLookup(keys) => DoomedListed(env, sh.rows, Batch(keys));
      case ObjectDelete(_, _) =>
    }
  }

  lemma {:induction false} SweepingRun(env: Env, a: State, later: seq<Event>, pid: Pid, start: Time)
    requires pid in a.procs && SweepingOld(env, a, [], a.procs[pid], start)
    ensures var t := Run(env, a, later); pid in t.procs && SweepingOld(env, a, later, t.procs[pid], start)
  {
    hide SweepingOld, StepOf;
    if later != [] {
      var before, e := later[..|later| - 1], later[|later| - 1];
      SweepingRun(env, a, before, pid, start);
      var s := Run(env, a, before);
      assert later == before + [e];
      if e.Step? && e.pid == pid {
        SweepingNext(env, a, before, pid, s.procs[pid], e.fault, e.choice, start);
        SweepingLater(env, a, before, e, Apply(env, s, e).procs[pid], start);
      } else {
        SweepingLater(env, a, before, e, s.procs[pid], start);
      }
    }
  }

  lemma ErasesDoomed(env: Env, a: State, later: seq<Event>, pid: Pid, loc: Loc, fault: Fault, c: Choice, start: Time,
                     key: string)
    requires SweepingOld(env, a, later, loc, start)
    requires var sh := Run(env, a, later).sh; key in sh.objects && key !in StepOf(env, sh, pid, loc, fault, c).0.objects
    ensures SeenOld(env, a, later, start - env.maxAge, key)
  {
    hide CallCreate, CallWrite, CallFinalize, CallPart, CallRemove, SeenOld, Doomed, OldKeys, Run;
  }

  /**
   Bytes that an orphan sweep erases were older than the maximum age, counted back from
   the sweep's start, at some moment since: the moment when the sweep listed them.
   */
  lemma ErasedWasOld(env: Env, s: State, events: seq<Event>, pid: Pid, later: seq<Event>, fault: Fault, c: Choice,
                     key: string)
    requires pid !in Run(env, s, events).procs
    requires var t := Started(env, s, events, pid, SweepObjects, later);
             key in t.sh.objects && key !in Apply(env, t, Step(pid, fault, c)).sh.objects
    ensures var a := Apply(env, Run(env, s, events), Start(pid, SweepObjects));
            SeenOld(env, a, later, Run(env, s, events).sh.now - env.maxAge, key)
  {
    hide StepOf, SeenOld;
    var a := Apply(env, Run(env, s, events), Start(pid, SweepObjects));
    SweepingRun(env, a, later, pid, a.sh.now);
    var t := Run(env, a, later);
    ErasesDoomed(env, a, later, pid, t.procs[pid], fault, c, a.sh.now, key);
  }

  // -------------------------------------------------------------- open uploads

  /** Where an upload sweep can stand: every upload it carries, if still open, is old. */
  ghost predicate SweepingUploads(env: Env, sh: Shared, loc: Loc, start: Time) {
    match loc
    case Finished => true
    case Sweeping(UploadList(at, listed)) => at == start && AllOld(env, sh, start, listed)
    case Sweeping(UploadLookup(at, listed)) => at == start && AllOld(env, sh, start, listed)
    case Sweeping(UploadAbort(at, orphans, listed)) =>
      at == start && AllOld(env, sh, start, orphans) && AllOld(env, sh, start, listed)
    case _ => false
  }

  lemma SweepingUploadsStable(env: Env, a: Shared, b: Shared, loc: Loc, start: Time)
    requires Guarantee(env, a, b) && SweepingUploads(env, a, loc, start)
    ensures SweepingUploads(env, b, loc, start)
  {
    hide Guarantee, AllOld;
    forall listed | AllOld(env, a, start, listed) ensures AllOld(env, b, start, listed) {
      OldStable(env, a, b, start, listed);
    }
  }

  lemma SweepingUploadsNext(env: Env, sh: Shared, pid: Pid, loc: Loc, fault: Fault, c: Choice, start: Time)
    requires SharedInv(env, sh) && start <= sh.now && SweepingUploads(env, sh, loc, start)
    ensures SweepingUploads(env, sh, StepOf(env, sh, pid, loc, fault, c).1, start)
  {
    hide SharedInv, CallCreate, CallWrite, CallFinalize, CallPart, CallRemove, Orphans, Old;
    if loc.Sweeping? {
      match loc.sweeping
      case UploadList(_, listed) =>
        if OldUploads(env, sh, start, c.listed) {
          UploadSweep.ListedOld(env, sh, start, c.listed);
        }
      case UploadLookup(_, listed) => OrphansOld(env, sh, start, Batch(listed));
      case UploadAbort(_, _, _) =>
    }
  }

  lemma {:induction false} OrphansOld(env: Env, sh: Shared, start: Time, listed: seq<Listed>)
    requires AllOld(env, sh, start, listed)
    ensures AllOld(env, sh, start, Orphans(env, sh.rows, listed))
  {
    hide Old, OwnedUpload;
    if listed != [] {
      OrphansOld(env, sh, start, listed[1..]);
    }
  }

  lemma {:induction false} SweepingUploadsRun(env: Env, s: State, later: seq<Event>, pid: Pid, start: Time)
    requires EnvOk(env) && Inv(env, s) && start <= s.sh.now
    requires pid in s.procs && SweepingUploads(env, s.sh, s.procs[pid], start)
    ensures var t := Run(env, s, later);
            start <= t.sh.now && pid in t.procs && SweepingUploads(env, t.sh, t.procs[pid], start)
  {
    hide Inv, EnvOk, SweepingUploads, Apply;
    if later != [] {
      var before := later[..|later| - 1];
      SweepingUploadsRun(env, s, before, pid, start);
      RunGood(env, s, before);
      SweepingUploadsApply(env, Run(env, s, before), later[|later| - 1], pid, start);
    }
  }

  lemma SweepingUploadsApply(env: Env, s: State, e: Event, pid: Pid, start: Time)
    requires EnvOk(env) && Inv(env, s) && start <= s.sh.now
    requires pid in s.procs && SweepingUploads(env, s.sh, s.procs[pid], start)
    ensures var t := Apply(env, s, e);
            start <= t.sh.now && pid in t.procs && SweepingUploads(env, t.sh, t.procs[pid], start)
  {
    hide SharedInv, LocInv, EnvOk, SweepingUploads, StepOf, RowsForward, UploadsForward, BytesForward, StepFacts, First;
    ApplyGood(env, s, e);
    var t := Apply(env, s, e);
    if e.Step? && e.pid == pid {
      SweepingUploadsNext(env, s.sh, pid, s.procs[pid], e.fault, e.choice, start);
      SweepingUploadsStable(env, s.sh, t.sh, t.procs[pid], start);
    } else {
      SweepingUploadsStable(env, s.sh, t.sh, s.procs[pid], start);
    }
  }

  /** An upload that an upload sweep aborts was opened longer than the maximum age before the sweep started. */
  lemma AbortedWasOld(env: Env, s: State, events: seq<Event>, pid: Pid, later: seq<Event>, fault: Fault, c: Choice,
                      u: string)
    requires EnvOk(env) && Initial(env, s) && pid !in Run(env, s, events).procs
    requires var t := Started(env, s, events, pid, SweepUploads, later);
             u in t.sh.uploads && u !in Apply(env, t, Step(pid, fault, c)).sh.uploads
    ensures var t := Started(env, s, events, pid, SweepUploads, later);
            t.sh.uploads[u].initiated < Run(env, s, events).sh.now - env.maxAge
  {
    hide Inv, EnvOk, Initial, StepOf, Guarantee, StepFacts;
    Reachable(env, s, events);
    var a := Run(env, s, events);
    var b := Apply(env, a, Start(pid, SweepUploads));
    ApplyGood(env, a, Start(pid, SweepUploads));
    SweepingUploadsRun(env, b, later, pid, a.sh.now);
    var t := Run(env, b, later);
    AbortsListed(env, t.sh, pid, t.procs[pid], fault, c, a.sh.now, u);
  }

  lemma AbortsListed(env: Env, sh: Shared, pid: Pid, loc: Loc, fault: Fault, c: Choice, start: Time, u: string)
    requires SweepingUploads(env, sh, loc, start)
    requires u in sh.uploads && u !in StepOf(env, sh, pid, loc, fault, c).0.uploads
    ensures sh.uploads[u].initiated < start - env.maxAge
  {
    hide CallCreate, CallWrite, CallFinalize, CallPart, CallRemove, Orphans;
  }
}
