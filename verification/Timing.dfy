/** Expiry ages and retry delays: what the clock rules out. */
module Timing {
  import opened Wrappers
  import Keys
  import opened Table
  import opened Storage
  import opened Protocol
  import opened Invariant
  import opened Steps
  import opened Migration
  import opened Safety

  const HOUR: Time := 3_600_000_000_000

  function PendingUploadMaxAge(ttl: Time): Time {
    if ttl >= 24 * HOUR then AddInt64(ttl, HOUR) else 24 * HOUR
  }

  /** A pending upload outlives its targets for exactly the lifetimes whose addition does not overflow. */
  lemma MaxAgeOutlivesTargets(ttl: Time)
    requires 0 < ttl <= MAX_INT64
    ensures PendingUploadMaxAge(ttl) > ttl <==> ttl <= MAX_INT64 - HOUR
    ensures ttl <= MAX_INT64 - HOUR ==> PendingUploadMaxAge(ttl) == if ttl >= 24 * HOUR then ttl + HOUR else 24 * HOUR
    ensures HOUR == RETRY_DELAY == 60 * 60 * 1_000_000_000
  {
  }

  predicate Expires(a: Shared, b: Shared, id: int) {
    id in a.rows && id in b.rows && a.rows[id].expiredAt != b.rows[id].expiredAt
  }

  /** This event claims the pending row that the target uploads to. */
  ghost predicate ClaimsUnder(a: State, b: State, t: Target) {
    t in a.sh.targets && t.id in a.sh.rows && a.sh.rows[t.id].Pending() && Expires(a.sh, b.sh, t.id)
  }

  /**
   A target signed within (max age - TTL) of its row's last refresh, and one tick
   more, has expired before any sweep claims that row: no request under it starts
   after the claim.  A body that was accepted earlier may still land; if it lands
   after the removal it is an orphan for a later sweep.
   */
  lemma TargetExpiresBeforeClaim(env: Env, s: State, events: seq<Event>, e: Event, t: Target)
    requires EnvOk(env) && Initial(env, s)
    requires ClaimsUnder(Run(env, s, events), Apply(env, Run(env, s, events), e), t)
    requires t.signed <= t.refreshed + (env.maxAge - env.ttl) + 1
    ensures !Accepts(Run(env, s, events).sh, t)
    ensures forall later :: !Accepts(Run(env, Apply(env, Run(env, s, events), e), later).sh, t)
  {
    hide Initial, Guarantee, StepFacts, Apply, EnvOk, LocInv;
    Reachable(env, s, events);
    var a := Run(env, s, events);
    ExpiryStep(env, a, e, t.id);
    ApplyGood(env, a, e);
    ClockForward(env, a, [e]);
    assert Run(env, a, [e]) == Apply(env, a, e) by {
      RunLast(env, a, [], e);
      assert [] + [e] == [e];
    }
    IssuedTarget(env, a.sh, t);
    forall later | true ensures !Accepts(Run(env, Apply(env, a, e), later).sh, t) {
      ClockForward(env, Apply(env, a, e), later);
    }
  }

  lemma {:induction false} ClockForward(env: Env, s: State, events: seq<Event>)
    requires EnvOk(env) && Inv(env, s)
    ensures s.sh.now <= Run(env, s, events).sh.now
  {
    if events != [] {
      var before := events[..|events| - 1];
      ClockForward(env, s, before);
      RunGood(env, s, before);
      ApplyGood(env, Run(env, s, before), events[|events| - 1]);
    }
  }

  /** Only a claim changes an expiry, and it takes a row that waited long enough. */
  lemma ExpiryStep(env: Env, s: State, e: Event, id: int)
    requires EnvOk(env) && Inv(env, s) && Expires(s.sh, Apply(env, s, e).sh, id)
    ensures Apply(env, s, e).sh.rows[id].expiredAt == Some(s.sh.now)
    ensures Claimable(s.sh.rows[id], s.sh.now - env.maxAge, s.sh.now - RETRY_DELAY)
  {
    hide SharedInv, LocInv, Guarantee, Apply, EnvOk, ByteFacts;
    ApplyGood(env, s, e);
  }

  lemma ExpiryKept(env: Env, a: Shared, b: Shared, id: int)
    requires RowsForward(env, a, b) && id in a.rows && id in b.rows && id < a.nextId && a.rows[id].expiredAt.Some?
    ensures b.rows[id].expiredAt.Some? && a.rows[id].expiredAt.value <= b.rows[id].expiredAt.value
  {
  }

  lemma KnownRow(env: Env, s: State, id: int)
    requires Inv(env, s) && id in s.sh.rows
    ensures id < s.sh.nextId
  {
  }

  /** Two claims of one row, by any replicas, are more than the retry delay apart. */
  lemma ClaimsApart(env: Env, s: State, events: seq<Event>, e: Event, later: seq<Event>, f: Event, id: int)
    requires EnvOk(env) && Initial(env, s)
    requires Expires(Run(env, s, events).sh, Apply(env, Run(env, s, events), e).sh, id)
    requires var c := Run(env, Apply(env, Run(env, s, events), e), later); Expires(c.sh, Apply(env, c, f).sh, id)
    ensures var c := Run(env, Apply(env, Run(env, s, events), e), later);
            c.sh.now > Run(env, s, events).sh.now + RETRY_DELAY
  {
    hide Inv, Initial, Guarantee, StepFacts, Apply, EnvOk, RowsForward;
    Reachable(env, s, events);
    var a := Run(env, s, events);
    ExpiryStep(env, a, e, id);
    ApplyGood(env, a, e);
    var b := Apply(env, a, e);
    RunGood(env, b, later);
    RowsForwardRun(env, b, later);
    var c := Run(env, b, later);
    ExpiryStep(env, c, f, id);
    KnownRow(env, b, id);
    ExpiryKept(env, b.sh, c.sh, id);
  }

  /** A finalizer or a part request, about to refresh this row. */
  predicate Refreshes(loc: Loc, id: int) {
    loc == Finalizing(FinRefresh(id)) || (loc.Signing? && loc.signing.PartRefresh? && loc.signing.id == id)
  }

  lemma RefreshStep(env: Env, s: State, pid: Pid, fault: Fault, c: Choice, id: int)
    requires pid in s.procs && Refreshes(s.procs[pid], id) && !fault.FailBefore?
    requires id in s.sh.rows && s.sh.rows[id].Pending() && id < s.sh.nextId
    ensures RefreshedSince(Apply(env, s, Step(pid, fault, c)).sh, id, s.sh.now)
  {
    hide Call, OnError;
    RefreshCall(env, s.sh, pid, s.procs[pid], c, id);
  }

  lemma RefreshCall(env: Env, sh: Shared, pid: Pid, loc: Loc, c: Choice, id: int)
    requires Refreshes(loc, id) && id in sh.rows && sh.rows[id].Pending()
    ensures Call(env, sh, pid, loc, c).0 == WriteRow(sh, id, sh.rows[id].(updatedAt := sh.now))
  {
    hide CallCreate, CallWrite, CallRemove, CallSweep, Prepared;
  }

  lemma {:induction false} RefreshedRun(env: Env, s: State, later: seq<Event>, id: int, time: Time)
    requires EnvOk(env) && Inv(env, s) && RefreshedSince(s.sh, id, time)
    ensures RefreshedSince(Run(env, s, later).sh, id, time)
  {
    hide SharedInv, LocInv, EnvOk, Apply, HistoryForward, UploadsForward, BytesForward, StepFacts, RowKey;
    if later != [] {
      var before := later[..|later| - 1];
      RefreshedRun(env, s, before, id, time);
      RunGood(env, s, before);
      ApplyGood(env, Run(env, s, before), later[|later| - 1]);
    }
  }

  /**
   A refresh protects its row: whatever its call reported, no sweep claims the row,
   unless it was claimed before, until more than the maximum age has passed.
   */
  lemma RefreshProtects(env: Env, s: State, events: seq<Event>, pid: Pid, fault: Fault, c: Choice, later: seq<Event>,
                        e: Event, id: int)
    requires EnvOk(env) && Initial(env, s) && !fault.FailBefore?
    requires var a := Run(env, s, events);
             pid in a.procs && Refreshes(a.procs[pid], id) && id in a.sh.rows && a.sh.rows[id].Pending()
    requires var b := Run(env, Apply(env, Run(env, s, events), Step(pid, fault, c)), later);
             id in b.sh.rows && b.sh.rows[id].Pending() && Expires(b.sh, Apply(env, b, e).sh, id)
    ensures var b := Run(env, Apply(env, Run(env, s, events), Step(pid, fault, c)), later);
            b.sh.now > Run(env, s, events).sh.now + env.maxAge
  {
    hide Inv, EnvOk, Initial, Apply, Guarantee, StepFacts;
    Reachable(env, s, events);
    var a := Run(env, s, events);
    KnownRow(env, a, id);
    RefreshStep(env, a, pid, fault, c, id);
    ApplyGood(env, a, Step(pid, fault, c));
    var t := Apply(env, a, Step(pid, fault, c));
    RefreshedRun(env, t, later, id, a.sh.now);
    RunGood(env, t, later);
    ExpiryStep(env, Run(env, t, later), e, id);
  }

  // ------------------------------------------------------- how late is too late

  /** A target signed within `lag` of its row's refresh is still accepted when the row is claimed. */
  ghost predicate Outlives(env: Env, lag: nat, s: State, events: seq<Event>, e: Event, t: Target) {
    var a := Run(env, s, events);
    && Initial(env, s) && ClaimsUnder(a, Apply(env, a, e), t)
    && t.signed <= t.refreshed + lag && Accepts(a.sh, t)
  }

  ghost predicate SafeLag(env: Env, lag: nat) {
    forall s, events, e, t :: !Outlives(env, lag, s, events, e, t)
  }

  const ANYTHING := Choice("", 0, [1], [], [], false)
  const NOTHING := Content.Declaration(0, Keys.Repeat('0', 64), Keys.Repeat('0', 16))

  /** A direct Begin that signs its target `lag` after the row was created. */
  function LateBegin(lag: nat): seq<Event> {
    [Start(0, BeginDirect("p", "f", NOTHING))] + [Step(0, NoFault, ANYTHING)] + [Tick(lag)]
      + [Step(0, NoFault, ANYTHING)]
  }

  function LateTarget(env: Env, lag: nat): Target {
    PutTarget(1, env.keyOf(1, "f"), 0, NOTHING.sha, lag, 0, lag + env.ttl)
  }

  lemma LateBeginState(env: Env, lag: nat)
    ensures var t := Run(env, EMPTY, LateBegin(lag));
            && t.procs == map[0 := Finished] && t.sh.now == lag
            && t.sh.targets == {LateTarget(env, lag)} && t.sh.rows == map[1 := NewRow("p", "f", NOTHING, 0)]
  {
    var row := NewRow("p", "f", NOTHING, 0);
    var e1 := [Start(0, BeginDirect("p", "f", NOTHING))];
    RunLast(env, EMPTY, [], e1[0]);
    assert [] + e1 == e1;
    assert Run(env, EMPTY, e1).procs == map[0 := Creating(Insert(BeginDirect("p", "f", NOTHING)))];
    RunLast(env, EMPTY, e1, Step(0, NoFault, ANYTHING));
    var e2 := e1 + [Step(0, NoFault, ANYTHING)];
    assert Run(env, EMPTY, e2).procs == map[0 := Creating(SignPut(1, row))];
    RunLast(env, EMPTY, e2, Tick(lag));
    RunLast(env, EMPTY, e2 + [Tick(lag)], Step(0, NoFault, ANYTHING));
  }

  /** A sweep that starts now claims the only row, if it waited long enough. */
  lemma LateClaim(env: Env, s: State)
    requires 1 !in s.procs && s.sh.rows == map[1 := NewRow("p", "f", NOTHING, 0)] && s.sh.now > env.maxAge
    ensures var a := Apply(env, s, Start(1, SweepExpired));
            && a.sh == s.sh && Expires(a.sh, Apply(env, a, Step(1, NoFault, ANYTHING)).sh, 1)
  {
    hide CallCreate, CallWrite, CallFinalize, CallPart, CallRemove, OnError, Resume;
    var a := Apply(env, s, Start(1, SweepExpired));
    assert MayClaim(env, a.sh, a.sh.now, [1]);
    assert Apply(env, a, Step(1, NoFault, ANYTHING)).sh.rows == Claim(a.sh.rows, [1], a.sh.now);
    assert 1 in [1];
  }

  /** A later target can outlive the claim of its row: here is the run. */
  lemma LateTargetOutlives(env: Env, lag: nat) returns (events: seq<Event>)
    requires EnvOk(env) && lag > env.maxAge - env.ttl + 1
    ensures Outlives(env, lag, EMPTY, events, Step(1, NoFault, ANYTHING), LateTarget(env, lag))
  {
    hide Apply, EnvOk, Initial, Expires;
    TtlPositive(env);
    var wait: nat := if lag > env.maxAge then 0 else env.maxAge + 1 - lag;
    EmptyInitial(env);
    LateBeginState(env, lag);
    var begun := LateBegin(lag);
    RunLast(env, EMPTY, begun, Tick(wait));
    RunLast(env, EMPTY, begun + [Tick(wait)], Start(1, SweepExpired));
    Ticks(env, Run(env, EMPTY, begun), wait);
    var grown := Run(env, EMPTY, begun + [Tick(wait)]);
    LateClaim(env, grown);
    events := begun + [Tick(wait)] + [Start(1, SweepExpired)];
    assert Run(env, EMPTY, events) == Apply(env, grown, Start(1, SweepExpired));
    assert LateTarget(env, lag) in grown.sh.targets;
  }

  lemma TtlPositive(env: Env)
    requires EnvOk(env)
    ensures env.ttl > 0
  {
  }

  lemma Ticks(env: Env, s: State, elapsed: nat)
    ensures Apply(env, s, Tick(elapsed)) == s.(sh := s.sh.(now := s.sh.now + elapsed))
  {
  }

  /** Signing within `lag` of the refresh is safe exactly up to (max age - TTL) and one tick. */
  lemma SafeLagExactly(env: Env, lag: nat)
    requires EnvOk(env)
    ensures SafeLag(env, lag) <==> lag <= env.maxAge - env.ttl + 1
  {
    hide EnvOk, Initial, Apply;
    if lag > env.maxAge - env.ttl + 1 {
      var events := LateTargetOutlives(env, lag);
      assert Outlives(env, lag, EMPTY, events, Step(1, NoFault, ANYTHING), LateTarget(env, lag));
    } else {
      forall s, events, e, t ensures !Outlives(env, lag, s, events, e, t) {
        if Outlives(env, lag, s, events, e, t) {
          TargetExpiresBeforeClaim(env, s, events, e, t);
        }
      }
    }
  }

  /**
   An hour between refresh and signing is safe for every lifetime whose addition
   does not overflow, except those that leave less than an hour of the day.
   */
  lemma HourIsSafe(env: Env)
    requires EnvOk(env) && env.ttl <= MAX_INT64 && env.maxAge == PendingUploadMaxAge(env.ttl)
    ensures SafeLag(env, HOUR) <==> env.ttl <= 23 * HOUR + 1 || 24 * HOUR <= env.ttl <= MAX_INT64 - HOUR
  {
    SafeLagExactly(env, HOUR);
    MaxAgeOutlivesTargets(env.ttl);
  }
}
