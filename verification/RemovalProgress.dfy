/**
 The machine's removals, left undisturbed: what a sweep of expired uploads, a
 deletion of unreferenced objects and a server write leave is what the replica's
 methods promise.
 */
module RemovalProgress {
  import opened Wrappers
  import opened Content
  import opened Table
  import opened Storage
  import opened Protocol
  import opened Invariant
  import opened Progress
  import opened Cleanup
  import opened SweepProgress
  import Service

  // ---------------------------------------------------------------- claimed rows

  function AsObjects(claims: seq<Claimed>): seq<Registry.Object> {
    seq(|claims|, i requires 0 <= i < |claims| => Registry.Object(claims[i].id, claims[i].row))
  }

  /** `removeBytes` in the machine: the recorded upload, then the key. */
  function Removing(env: Env, sh: Shared, id: int, row: Row): Shared {
    var key := RowKey(env, id, row);
    EraseBlob(if row.upload.Some? && env.kind.S3Kind? then CloseUpload(sh, key, row.upload.value) else sh, key)
  }

  function Dropping(sh: Shared, id: int): Shared {
    if id !in sh.rows || sh.rows[id].Visible() || id in sh.refs then sh else RemoveRow(sh, id)
  }

  /** The effect on the components that the replica's contracts speak of. */
  lemma RemovingExactly(env: Env, sh: Shared, id: int, row: Row)
    ensures Removing(env, sh, id, row)
            == sh.(objects := sh.objects - {RowKey(env, id, row)},
                   uploads := sh.uploads - OpenUploadOf(env, sh.uploads, id, row))
  {
    hide RowKey;
    if !HasOpenUpload(env, sh.uploads, id, row) {
      assert sh.uploads - {} == sh.uploads;
    }
  }

  lemma RemoveAlone(env: Env, sh: Shared, pid: Pid, id: int, row: Row, after: Then, cs: seq<Choice>)
    returns (left: seq<Choice>)
    requires |cs| >= 3
    ensures |left| >= |cs| - 3
    ensures var erased := Removing(env, sh, id, row);
            Alone(env, sh, pid, Remove(env, id, row, after), cs)
            == if after.NextClaims? then Alone(env, Dropping(erased, id), pid, Resume(env, after), left)
               else Alone(env, erased, pid, Resume(env, after), left)
  {
    hide Alone, Call, RowKey, CloseUpload, EraseBlob, RemoveRow, Resume;
    left := cs;
    var key := RowKey(env, id, row);
    var closed := sh;
    if row.upload.Some? && env.kind.S3Kind? {
      closed := CloseUpload(sh, key, row.upload.value);
      RemoveSteps(env, sh, pid, id, row, after, left[0]);
      AloneNext(env, sh, pid, Protocol.Removing(RemoveUpload(id, row, after)), left, closed,
                Protocol.Removing(RemoveBlob(id, row, true, after)));
      left := left[1..];
    }
    RemoveSteps(env, closed, pid, id, row, after, left[0]);
    var erased := EraseBlob(closed, key);
    AloneNext(env, closed, pid, Protocol.Removing(RemoveBlob(id, row, true, after)), left, erased,
              if after.NextClaims? then Protocol.Removing(DropExpired(id, after)) else Resume(env, after));
    left := left[1..];
    if after.NextClaims? {
      RemoveSteps(env, erased, pid, id, row, after, left[0]);
      AloneNext(env, erased, pid, Protocol.Removing(DropExpired(id, after)), left, Dropping(erased, id),
                Resume(env, after));
      left := left[1..];
    }
  }

  lemma RemoveSteps(env: Env, sh: Shared, pid: Pid, id: int, row: Row, after: Then, c: Choice)
    ensures row.upload.Some? ==>
              Call(env, sh, pid, Protocol.Removing(RemoveUpload(id, row, after)), c)
              == (CloseUpload(sh, RowKey(env, id, row), row.upload.value),
                  Protocol.Removing(RemoveBlob(id, row, true, after)))
    ensures Call(env, sh, pid, Protocol.Removing(RemoveBlob(id, row, true, after)), c)
            == (EraseBlob(sh, RowKey(env, id, row)),
                if after.NextClaims? then Protocol.Removing(DropExpired(id, after)) else Resume(env, after))
    ensures Call(env, sh, pid, Protocol.Removing(DropExpired(id, after)), c) == (Dropping(sh, id), Resume(env, after))
  {
    hide CallCreate, CallWrite, CallFinalize, CallPart, CallSweep, RowKey, Resume;
  }

  lemma {:induction false} KeysOfFirst(env: Env, objects: seq<Registry.Object>)
    requires objects != []
    ensures KeysOf(env, objects) == {RowKey(env, objects[0].id, objects[0].row)} + KeysOf(env, objects[1..])
  {
    if |objects| > 1 {
      var front := objects[..|objects| - 1];
      KeysOfFirst(env, front);
      assert front[1..] == objects[1..][..|objects| - 2];
    }
  }

  lemma {:induction false} UploadsOfFirst(env: Env, uploads: map<string, Upload>, objects: seq<Registry.Object>)
    requires objects != []
    ensures UploadsOf(env, uploads, objects)
            == OpenUploadOf(env, uploads, objects[0].id, objects[0].row) + UploadsOf(env, uploads, objects[1..])
  {
    hide HasOpenUpload;
    if |objects| > 1 {
      var front := objects[..|objects| - 1];
      UploadsOfFirst(env, uploads, front);
      assert front[1..] == objects[1..][..|objects| - 2];
    }
  }

  lemma {:induction false} UploadsOfLess(env: Env, uploads: map<string, Upload>, closed: set<string>,
                                         objects: seq<Registry.Object>)
    ensures UploadsOf(env, uploads - closed, objects) == UploadsOf(env, uploads, objects) - closed
  {
    hide RowKey;
    if objects != [] {
      UploadsOfLess(env, uploads, closed, objects[..|objects| - 1]);
    }
  }

  lemma {:induction false} IdsOfFirst(objects: seq<Registry.Object>, refs: multiset<int>)
    requires objects != []
    ensures IdsOf(objects, refs) == (if objects[0].id in refs then {} else {objects[0].id}) + IdsOf(objects[1..], refs)
  {
    if |objects| > 1 {
      var front := objects[..|objects| - 1];
      IdsOfFirst(front, refs);
      assert front[1..] == objects[1..][..|objects| - 2];
    }
  }

  /** The shared state once these expired objects were removed. */
  function Purged(env: Env, sh: Shared, objects: seq<Registry.Object>): Shared {
    sh.(rows := sh.rows - IdsOf(objects, sh.refs), objects := sh.objects - KeysOf(env, objects),
        uploads := sh.uploads - UploadsOf(env, sh.uploads, objects))
  }

  lemma MinusBoth<K, V>(m: map<K, V>, a: set<K>, b: set<K>)
    ensures m - a - b == m - (a + b) && m - a - (b - a) == m - (a + b)
  {
  }

  lemma DroppingExactly(sh: Shared, id: int)
    requires id in sh.rows ==> !sh.rows[id].Visible()
    ensures Dropping(sh, id) == sh.(rows := sh.rows - if id in sh.refs then {} else {id})
  {
    assert sh.rows - {} == sh.rows;
    assert id !in sh.rows ==> sh.rows - {id} == sh.rows;
  }

  /** The upload that this object records, if it is open. */
  function OpenUploadOf(env: Env, uploads: map<string, Upload>, id: int, row: Row): set<string> {
    if HasOpenUpload(env, uploads, id, row) then {row.upload.value} else {}
  }

  lemma PurgedFirst(env: Env, sh: Shared, objects: seq<Registry.Object>)
    requires objects != [] && (objects[0].id in sh.rows ==> !sh.rows[objects[0].id].Visible())
    ensures Purged(env, Dropping(Removing(env, sh, objects[0].id, objects[0].row), objects[0].id), objects[1..])
            == Purged(env, sh, objects)
  {
    hide RowKey, Removing, Dropping, KeysOf, UploadsOf, IdsOf, HasOpenUpload;
    var id, row, rest := objects[0].id, objects[0].row, objects[1..];
    var open := OpenUploadOf(env, sh.uploads, id, row);
    RemovingExactly(env, sh, id, row);
    DroppingExactly(Removing(env, sh, id, row), id);
    KeysOfFirst(env, objects);
    IdsOfFirst(objects, sh.refs);
    UploadsOfFirst(env, sh.uploads, objects);
    UploadsOfLess(env, sh.uploads, open, rest);
    MinusBoth(sh.rows, if id in sh.refs then {} else {id}, IdsOf(rest, sh.refs));
    MinusBoth(sh.objects, {RowKey(env, id, row)}, KeysOf(env, rest));
    MinusBoth(sh.uploads, open, UploadsOf(env, sh.uploads, rest));
  }

  lemma {:induction false} ClaimsAlone(env: Env, sh: Shared, pid: Pid, claims: seq<Claimed>, cs: seq<Choice>)
    requires |cs| >= 3 * |claims|
    requires forall i | 0 <= i < |claims| && claims[i].id in sh.rows :: !sh.rows[claims[i].id].Visible()
    ensures Alone(env, sh, pid, Resume(env, NextClaims(claims)), cs) == (Purged(env, sh, AsObjects(claims)), Finished)
    decreases |claims|
  {
    hide Alone, Removing, Remove, Purged;
    if claims == [] {
      Rests(env, sh, pid, Finished, cs);
      PurgedNothing(env, sh);
    } else {
      var id, row := claims[0].id, claims[0].row;
      var left := RemoveAlone(env, sh, pid, id, row, NextClaims(claims[1..]), cs);
      RemovingExactly(env, sh, id, row);
      ClaimsAlone(env, Dropping(Removing(env, sh, id, row), id), pid, claims[1..], left);
      PurgedFirst(env, sh, AsObjects(claims));
      assert AsObjects(claims)[1..] == AsObjects(claims[1..]);
    }
  }

  lemma PurgedNothing(env: Env, sh: Shared)
    ensures Purged(env, sh, AsObjects([])) == sh
  {
    assert sh.rows - {} == sh.rows && sh.objects - {} == sh.objects && sh.uploads - {} == sh.uploads;
  }

  /**
   The machine's sweep of expired uploads, undisturbed, leaves exactly what the
   replica's method promises for the rows it claims.
   */
  lemma ClaimSweepAlone(env: Env, sh: Shared, pid: Pid, start: Time, cs: seq<Choice>)
    requires |cs| >= 1 && MayClaim(env, sh, start, cs[0].ids) && |cs| >= 3 * |cs[0].ids| + 1
    ensures var ids := cs[0].ids;
            var claimed := Registry.Objects(Claim(sh.rows, ids, sh.now), ids);
            Alone(env, sh, pid, Sweeping(SweepClaim(start)), cs)
            == (sh.(rows := Claim(sh.rows, ids, sh.now) - IdsOf(claimed, sh.refs),
                    objects := sh.objects - KeysOf(env, claimed),
                    uploads := sh.uploads - UploadsOf(env, sh.uploads, claimed)), Finished)
  {
    hide Alone, Resume, KeysOf, UploadsOf, IdsOf;
    var ids := cs[0].ids;
    var next := sh.(rows := Claim(sh.rows, ids, sh.now));
    ClaimStep(env, sh, pid, start, cs[0]);
    AloneNext(env, sh, pid, Sweeping(SweepClaim(start)), cs, next, Resume(env, NextClaims(Claims(next.rows, ids))));
    ClaimsAlone(env, next, pid, Claims(next.rows, ids), cs[1..]);
    assert AsObjects(Claims(next.rows, ids)) == Registry.Objects(next.rows, ids);
  }

  lemma ClaimStep(env: Env, sh: Shared, pid: Pid, start: Time, c: Choice)
    requires MayClaim(env, sh, start, c.ids)
    ensures var next := sh.(rows := Claim(sh.rows, c.ids, sh.now));
            Call(env, sh, pid, Sweeping(SweepClaim(start)), c)
              == (next, Resume(env, NextClaims(Claims(next.rows, c.ids))))
  {
    hide CallCreate, CallWrite, CallFinalize, CallPart, CallRemove, Resume, Claim;
  }

  // ---------------------------------------------------------- unreferenced rows

  /** The rows among these identifiers that can be deleted, all of them gone with their bytes and open uploads. */
  function Deleted(env: Env, sh: Shared, ids: set<int>): Shared
    requires ids <= sh.rows.Keys
  {
    sh.(rows := sh.rows - ids, objects := sh.objects - Sweeper.KeysOfAll(env, sh.rows, ids),
        uploads := sh.uploads - UploadsOfAll(env, sh.uploads, sh.rows, ids))
  }

  lemma DeletableFirst(rows: Rows, refs: multiset<int>, ids: seq<int>)
    requires ids != []
    ensures var first := Sweeper.Deletable(rows, refs, [ids[0]]);
            && first == (if ids[0] in rows && rows[ids[0]].Visible() && ids[0] !in refs then {ids[0]} else {})
            && Sweeper.Deletable(rows, refs, ids) == first + Sweeper.Deletable(rows - first, refs, ids[1..])
  {
    assert ids == [ids[0]] + ids[1..];
  }

  lemma KeysOfBoth(env: Env, rows: Rows, a: set<int>, b: set<int>)
    requires a <= rows.Keys && b <= (rows - a).Keys
    ensures Sweeper.KeysOfAll(env, rows, a + b) == Sweeper.KeysOfAll(env, rows, a) + Sweeper.KeysOfAll(env, rows - a, b)
  {
    hide RowKey;
  }

  lemma UploadsOfBoth(env: Env, uploads: map<string, Upload>, rows: Rows, a: set<int>, b: set<int>)
    requires a <= rows.Keys && b <= (rows - a).Keys
    ensures var first := UploadsOfAll(env, uploads, rows, a);
            UploadsOfAll(env, uploads, rows, a + b) == first + UploadsOfAll(env, uploads - first, rows - a, b)
  {
    hide RowKey;
    var first := UploadsOfAll(env, uploads, rows, a);
    forall id | id in b ensures HasOpenUpload(env, uploads - first, id, rows[id])
                                <==> HasOpenUpload(env, uploads, id, rows[id]) && rows[id].upload.value !in first
    {
    }
  }

  lemma DeletedBoth(env: Env, sh: Shared, a: set<int>, b: set<int>)
    requires a <= sh.rows.Keys && b <= (sh.rows - a).Keys
    ensures Deleted(env, Deleted(env, sh, a), b) == Deleted(env, sh, a + b)
  {
    hide Sweeper.KeysOfAll, UploadsOfAll;
    KeysOfBoth(env, sh.rows, a, b);
    UploadsOfBoth(env, sh.uploads, sh.rows, a, b);
    var first := UploadsOfAll(env, sh.uploads, sh.rows, a);
    MinusBoth(sh.rows, a, b);
    MinusBoth(sh.objects, Sweeper.KeysOfAll(env, sh.rows, a), Sweeper.KeysOfAll(env, sh.rows - a, b));
    MinusBoth(sh.uploads, first, UploadsOfAll(env, sh.uploads - first, sh.rows - a, b));
  }

  lemma DeletedNone(env: Env, sh: Shared)
    ensures Deleted(env, sh, {}) == sh
  {
    assert Sweeper.KeysOfAll(env, sh.rows, {}) == {} && UploadsOfAll(env, sh.uploads, sh.rows, {}) == {};
    PurgedNothing(env, sh);
    assert sh.rows - {} == sh.rows && sh.objects - {} == sh.objects && sh.uploads - {} == sh.uploads;
  }

  lemma DeletedOne(env: Env, sh: Shared, id: int)
    requires id in sh.rows
    ensures Deleted(env, sh, {id}) == Removing(env, RemoveRow(sh, id), id, sh.rows[id])
  {
    hide RowKey, Removing, HasOpenUpload;
    var row := sh.rows[id];
    RemovingExactly(env, RemoveRow(sh, id), id, row);
    assert Sweeper.KeysOfAll(env, sh.rows, {id}) == {RowKey(env, id, row)};
    assert UploadsOfAll(env, sh.uploads, sh.rows, {id}) == OpenUploadOf(env, sh.uploads, id, row);
  }

  lemma DelStep(env: Env, sh: Shared, pid: Pid, id: int, after: Then, c: Choice)
    ensures Call(env, sh, pid, Protocol.Removing(DelRow(id, after)), c)
            == if GetByID(sh.rows, id).None? || id in sh.refs then (sh, Resume(env, after))
               else (RemoveRow(sh, id), Remove(env, id, sh.rows[id], after))
  {
    hide CallCreate, CallWrite, CallFinalize, CallPart, CallSweep, Resume, Remove;
  }

  /** Deleting identifiers one after the other deletes exactly those that can be deleted. */
  lemma {:induction false} DeletesRowsAlone(env: Env, sh: Shared, pid: Pid, ids: seq<int>, cs: seq<Choice>)
    requires |cs| >= 4 * |ids|
    ensures Sweeper.Deletable(sh.rows, sh.refs, ids) <= sh.rows.Keys
    ensures Alone(env, sh, pid, NextId(ids), cs)
            == (Deleted(env, sh, Sweeper.Deletable(sh.rows, sh.refs, ids)), Finished)
    decreases |ids|
  {
    hide Alone, Call, Removing, Remove, Deleted, RemoveRow;
    if ids == [] {
      Rests(env, sh, pid, Finished, cs);
      DeletedNone(env, sh);
      assert Sweeper.Deletable(sh.rows, sh.refs, ids) == {};
    } else {
      var id, after := ids[0], NextIds(ids[1..]);
      var first := Sweeper.Deletable(sh.rows, sh.refs, [id]);
      var at := Protocol.Removing(DelRow(id, after));
      DeletableFirst(sh.rows, sh.refs, ids);
      DelStep(env, sh, pid, id, after, cs[0]);
      if first == {} {
        AloneNext(env, sh, pid, at, cs, sh, Resume(env, after));
        DeletesRowsAlone(env, sh, pid, ids[1..], cs[1..]);
        assert sh.rows - {} == sh.rows;
        assert Sweeper.Deletable(sh.rows, sh.refs, ids) == Sweeper.Deletable(sh.rows, sh.refs, ids[1..]);
      } else {
        var row := sh.rows[id];
        AloneNext(env, sh, pid, at, cs, RemoveRow(sh, id), Remove(env, id, row, after));
        var left := RemoveAlone(env, RemoveRow(sh, id), pid, id, row, after, cs[1..]);
        DeletedOne(env, sh, id);
        var next := Deleted(env, sh, first);
        DeletedRows(env, sh, first);
        DeletesRowsAlone(env, next, pid, ids[1..], left);
        DeletedBoth(env, sh, first, Sweeper.Deletable(next.rows, sh.refs, ids[1..]));
      }
    }
  }

  lemma DeletedRows(env: Env, sh: Shared, ids: set<int>)
    requires ids <= sh.rows.Keys
    ensures Deleted(env, sh, ids).rows == sh.rows - ids && Deleted(env, sh, ids).refs == sh.refs
  {
  }

  /**
   The machine's sweep of unreferenced objects, undisturbed, leaves exactly what the
   replica's method promises for the identifiers it lists.
   */
  lemma ListSweepAlone(env: Env, sh: Shared, pid: Pid, start: Time, prefixes: set<string>, cs: seq<Choice>)
    requires |cs| >= 1 && MayDiscard(env, sh, start, prefixes, cs[0].ids) && |cs| >= 4 * |cs[0].ids| + 1
    ensures Sweeper.Members(cs[0].ids) <= sh.rows.Keys
    ensures Alone(env, sh, pid, Sweeping(SweepList(start, prefixes)), cs)
            == (Deleted(env, sh, Sweeper.Members(cs[0].ids)), Finished)
  {
    hide Alone, Deleted;
    var ids := cs[0].ids;
    ListStep(env, sh, pid, start, prefixes, cs[0]);
    AloneNext(env, sh, pid, Sweeping(SweepList(start, prefixes)), cs, sh, NextId(ids));
    DeletesRowsAlone(env, sh, pid, ids, cs[1..]);
    forall id ensures id in Sweeper.Deletable(sh.rows, sh.refs, ids) <==> id in Sweeper.Members(ids) {
      assert id in ids ==> id in sh.rows && sh.rows[id].Visible() && id !in sh.refs;
    }
    assert Sweeper.Deletable(sh.rows, sh.refs, ids) == Sweeper.Members(ids);
  }

  lemma ListStep(env: Env, sh: Shared, pid: Pid, start: Time, prefixes: set<string>, c: Choice)
    requires MayDiscard(env, sh, start, prefixes, c.ids)
    ensures Call(env, sh, pid, Sweeping(SweepList(start, prefixes)), c) == (sh, NextId(c.ids))
  {
    hide CallCreate, CallWrite, CallFinalize, CallPart, CallRemove, NextId;
  }

  // --------------------------------------------------------------- server writes

  /** One operation running alone, each of its calls with the fate given. */
  function Fated(env: Env, sh: Shared, pid: Pid, loc: Loc, faults: seq<Fault>, choice: Choice): (Shared, Loc)
    decreases |faults|
  {
    if faults == [] then (sh, loc)
    else
      var (next, at) := StepOf(env, sh, pid, loc, faults[0], choice);
      Fated(env, next, pid, at, faults[1..], choice)
  }

  function Fates(pid: Pid, faults: seq<Fault>, choice: Choice): seq<Event> {
    seq(|faults|, i requires 0 <= i < |faults| => Step(pid, faults[i], choice))
  }

  lemma {:induction false} FatedIsRun(env: Env, s: State, pid: Pid, faults: seq<Fault>, choice: Choice)
    requires pid in s.procs
    ensures var end := Fated(env, s.sh, pid, s.procs[pid], faults, choice);
            Run(env, s, Fates(pid, faults, choice)) == State(end.0, s.procs[pid := end.1])
    decreases |faults|
  {
    hide StepOf;
    if faults == [] {
      assert s.procs[pid := s.procs[pid]] == s.procs;
    } else {
      var t := Apply(env, s, Step(pid, faults[0], choice));
      assert Fates(pid, faults, choice) == [Step(pid, faults[0], choice)] + Fates(pid, faults[1..], choice);
      RunFirst(env, s, Step(pid, faults[0], choice), Fates(pid, faults[1..], choice));
      FatedIsRun(env, t, pid, faults[1..], choice);
    }
  }

  lemma FatedNext(env: Env, sh: Shared, pid: Pid, loc: Loc, faults: seq<Fault>, choice: Choice, next: Shared, at: Loc)
    requires faults != [] && StepOf(env, sh, pid, loc, faults[0], choice) == (next, at)
    ensures Fated(env, sh, pid, loc, faults, choice) == Fated(env, next, pid, at, faults[1..], choice)
  {
    hide StepOf;
  }

  lemma UnwindStep(env: Env, sh: Shared, pid: Pid, id: int, row: Row, c: Choice)
    requires id in sh.rows && sh.rows[id].Visible() && id !in sh.refs
    ensures Call(env, sh, pid, Writing(UnwindWrite(id, row)), c)
            == (RemoveRow(sh, id), Remove(env, id, sh.rows[id], Stop))
  {
    hide CallCreate, CallFinalize, CallPart, CallRemove, CallSweep, Remove;
  }

  /** Both unwindings of a write, after a failed PUT and after a failed publish, take the row and then the bytes. */
  lemma UnwindFated(env: Env, sh: Shared, pid: Pid, loc: Loc, id: int, choice: Choice)
    requires id in sh.rows && sh.rows[id].Visible() && id !in sh.refs && sh.rows[id].upload.None?
    requires loc == Protocol.Removing(DelRow(id, Stop))
             || (loc.Writing? && loc.writing.UnwindWrite? && loc.writing.id == id)
    ensures Fated(env, sh, pid, loc, [NoFault, NoFault], choice)
            == (EraseBlob(RemoveRow(sh, id), RowKey(env, id, sh.rows[id])), Finished)
  {
    hide Call, OnError, Fated, RowKey, EraseBlob, RemoveRow;
    var row := sh.rows[id];
    var faults := [NoFault, NoFault];
    var next, at := RemoveRow(sh, id), Protocol.Removing(RemoveBlob(id, row, true, Stop));
    DelStep(env, sh, pid, id, Stop, choice);
    if loc.Writing? {
      UnwindStep(env, sh, pid, id, loc.writing.row, choice);
    }
    FatedNext(env, sh, pid, loc, faults, choice, next, at);
    RemoveSteps(env, next, pid, id, row, Stop, choice);
    FatedNext(env, next, pid, at, faults[1..], choice, EraseBlob(next, RowKey(env, id, row)), Finished);
    FatedEnd(env, EraseBlob(next, RowKey(env, id, row)), pid, Finished, choice);
    assert faults[1..][1..] == [];
  }

  lemma FatedEnd(env: Env, sh: Shared, pid: Pid, loc: Loc, choice: Choice)
    ensures Fated(env, sh, pid, loc, [], choice) == (sh, loc)
  {
  }

  /** The calls of a server write that begins with a fresh identifier. */
  lemma WriteSteps(env: Env, a: Shared, pid: Pid, prefix: string, filename: string, contentType: string, body: Bytes,
                   choice: Choice)
    requires a.nextId <= MAX_ID && contentType != ""
    requires Declaration(|body|, env.sha(body), env.crc(body)).Valid()
    ensures var id, key := a.nextId, env.keyOf(a.nextId, filename);
            var content := Declaration(|body|, env.sha(body), env.crc(body));
            var row := NewRow(prefix, filename, content, a.now);
            var b := InsertRow(a, row, Birth(filename, content, Direct, pid));
            var c := Service.AfterPut(env, a, pid, prefix, filename, body);
            && Call(env, a, pid, Creating(Insert(Write(prefix, filename, contentType, body))), choice)
               == (b, Writing(PutBody(id, row, contentType, body)))
            && Call(env, b, pid, Writing(PutBody(id, row, contentType, body)), choice)
               == (c, Writing(PublishWrite(id, row, contentType)))
            && (MarkAvailable(c.rows, id, contentType, key, c.now).Updated? ==>
                  Call(env, c, pid, Writing(PublishWrite(id, row, contentType)), choice)
                  == (Service.AfterPublish(env, a, pid, prefix, filename, contentType, body, NoFault),
                      Returned(id, MarkAvailable(c.rows, id, contentType, key, c.now).row)))
  {
    hide CallFinalize, CallPart, CallRemove, CallSweep, MarkAvailable, Declaration.Valid;
  }

  /** What a server write leaves: everything published, or nothing but a spent identifier. */
  ghost predicate WriteEnds(env: Env, a: Shared, pid: Pid, prefix: string, filename: string, contentType: string,
                            body: Bytes, published: bool, end: (Shared, Loc))
  {
    if published
    then && end.0 == Service.AfterPublish(env, a, pid, prefix, filename, contentType, body, NoFault)
         && end.0.rows
            == a.rows[a.nextId := Service.WrittenRow(env, a.nextId, prefix, filename, contentType, body, a.now)]
         && end.0.objects == a.objects[env.keyOf(a.nextId, filename) := PutBlob(env, body, a.now)]
         && a.nextId in end.0.rows && end.1 == Returned(a.nextId, end.0.rows[a.nextId])
    else end.0.rows == a.rows && end.0.objects == a.objects && end.0.nextId == a.nextId + 1 && end.1 == Finished
  }

  lemma WriteDiscarded(env: Env, a: Shared, pid: Pid, prefix: string, filename: string, contentType: string,
                       body: Bytes, sh: Shared, loc: Loc, choice: Choice)
    requires EnvOk(env) && SharedInv(env, a) && a.nextId <= MAX_ID && a.nextId !in a.refs
    requires sh.refs == a.refs && sh.nextId == a.nextId + 1 && a.nextId in sh.rows
    requires sh.rows - {a.nextId} == a.rows
    requires sh.objects - {env.keyOf(a.nextId, filename)} == a.objects
    requires var row := sh.rows[a.nextId];
             row.Visible() && row.upload.None? && RowKey(env, a.nextId, row) == env.keyOf(a.nextId, filename)
    requires loc == Protocol.Removing(DelRow(a.nextId, Stop))
             || (loc.Writing? && loc.writing.UnwindWrite? && loc.writing.id == a.nextId)
    ensures WriteEnds(env, a, pid, prefix, filename, contentType, body, false,
                      Fated(env, sh, pid, loc, [NoFault, NoFault], choice))
  {
    hide RowKey, Fated;
    UnwindFated(env, sh, pid, loc, a.nextId, choice);
  }

  /** The calls of a write, its PUT and its publish with the fates given, and the calls that unwind it. */
  function WriteFaults(put: Fault, publish: Fault): seq<Fault> {
    if put.NoFault? then [NoFault, NoFault, publish] + (if publish.NoFault? then [] else [NoFault, NoFault])
    else [NoFault, put, NoFault, NoFault]
  }

  /**
   The machine's write, disturbed only by the fates of its PUT and its publish,
   comes to what the replica's method promises when nothing attaches the object.
   */
  lemma WriteFated(env: Env, a: Shared, pid: Pid, prefix: string, filename: string, contentType: string, body: Bytes,
                   put: Fault, publish: Fault, choice: Choice)
    requires EnvOk(env) && SharedInv(env, a) && a.nextId <= MAX_ID && contentType != "" && a.nextId !in a.refs
    ensures WriteEnds(env, a, pid, prefix, filename, contentType, body, put.NoFault? && publish.NoFault?,
                      Fated(env, a, pid, Creating(Insert(Write(prefix, filename, contentType, body))),
                            WriteFaults(put, publish), choice))
  {
    hide SharedInv, EnvOk, Call, OnError, Fated, WriteEnds, MarkAvailable, Declaration.Valid, RowKey;
    var id, key := a.nextId, env.keyOf(a.nextId, filename);
    var content := Declaration(|body|, env.sha(body), env.crc(body));
    var row := NewRow(prefix, filename, content, a.now);
    var b := InsertRow(a, row, Birth(filename, content, Direct, pid));
    var c := Service.AfterPut(env, a, pid, prefix, filename, body);
    Service.BodyDeclares(env, body);
    Service.FreshKey(env, a, filename);
    Service.PutReady(env, a, pid, prefix, filename, contentType, body);
    Service.PublishedWrite(env, a, pid, prefix, filename, contentType, body);
    Service.Unwound(env, a, pid, prefix, filename, body);
    WriteSteps(env, a, pid, prefix, filename, contentType, body, choice);
    var faults := WriteFaults(put, publish);
    var inserting, putting :=
      Creating(Insert(Write(prefix, filename, contentType, body))), Writing(PutBody(id, row, contentType, body));
    var publishing := Writing(PublishWrite(id, row, contentType));
    WriteErrors(env, id, row, contentType, body);
    FatedNext(env, a, pid, inserting, faults, choice, b, putting);
    if put.NoFault? {
      FatedNext(env, b, pid, putting, faults[1..], choice, c, publishing);
      assert faults[1..][1..] == faults[2..];
      WritePublishes(env, a, pid, prefix, filename, contentType, body, publish, choice);
    } else {
      var next := if put.FailBefore? then b else c;
      FatedNext(env, b, pid, putting, faults[1..], choice, next, Protocol.Removing(DelRow(id, Stop)));
      assert faults[1..][1..] == [NoFault, NoFault];
      assert b.objects - {key} == a.objects && b.rows - {id} == a.rows;
      WriteDiscarded(env, a, pid, prefix, filename, contentType, body, next, Protocol.Removing(DelRow(id, Stop)),
                     choice);
    }
  }

  lemma WriteErrors(env: Env, id: int, row: Row, contentType: string, body: Bytes)
    ensures OnError(env, Writing(PutBody(id, row, contentType, body))) == Protocol.Removing(DelRow(id, Stop))
    ensures OnError(env, Writing(PublishWrite(id, row, contentType))) == Writing(UnwindWrite(id, row))
  {
  }

  lemma WritePublishes(env: Env, a: Shared, pid: Pid, prefix: string, filename: string, contentType: string,
                       body: Bytes, publish: Fault, choice: Choice)
    requires EnvOk(env) && SharedInv(env, a) && a.nextId <= MAX_ID && contentType != "" && a.nextId !in a.refs
    ensures var row := NewRow(prefix, filename, Declaration(|body|, env.sha(body), env.crc(body)), a.now);
            WriteEnds(env, a, pid, prefix, filename, contentType, body, publish.NoFault?,
                      Fated(env, Service.AfterPut(env, a, pid, prefix, filename, body), pid,
                            Writing(PublishWrite(a.nextId, row, contentType)), WriteFaults(NoFault, publish)[2..],
                              choice))
  {
    hide SharedInv, EnvOk, Call, OnError, Fated, MarkAvailable, Declaration.Valid, RowKey;
    var id, key := a.nextId, env.keyOf(a.nextId, filename);
    var row := NewRow(prefix, filename, Declaration(|body|, env.sha(body), env.crc(body)), a.now);
    var c := Service.AfterPut(env, a, pid, prefix, filename, body);
    Service.BodyDeclares(env, body);
    Service.FreshKey(env, a, filename);
    Service.PutReady(env, a, pid, prefix, filename, contentType, body);
    Service.PublishedWrite(env, a, pid, prefix, filename, contentType, body);
    Service.Unwound(env, a, pid, prefix, filename, body);
    WriteSteps(env, a, pid, prefix, filename, contentType, body, choice);
    WriteErrors(env, id, row, contentType, body);
    MarkedRow(c.rows, id, contentType, key, c.now);
    var published := MarkAvailable(c.rows, id, contentType, key, c.now).row;
    var d := Service.AfterPublish(env, a, pid, prefix, filename, contentType, body, NoFault);
    var faults, at := WriteFaults(NoFault, publish)[2..], Writing(PublishWrite(id, row, contentType));
    if publish.NoFault? {
      FatedNext(env, c, pid, at, faults, choice, d, Returned(id, published));
      FatedEnd(env, d, pid, Returned(id, published), choice);
      assert faults[1..] == [];
    } else {
      var next := if publish.FailBefore? then c else d;
      FatedNext(env, c, pid, at, faults, choice, next, Writing(UnwindWrite(id, row)));
      assert faults[1..] == [NoFault, NoFault];
      WriteDiscarded(env, a, pid, prefix, filename, contentType, body, next, Writing(UnwindWrite(id, row)), choice);
    }
  }

  lemma MarkedRow(rows: Rows, id: int, contentType: string, key: string, now: Time)
    requires MarkAvailable(rows, id, contentType, key, now).Updated?
    ensures var row := MarkAvailable(rows, id, contentType, key, now).row;
            id in rows && row.upload == rows[id].upload && row.expiredAt == rows[id].expiredAt
  {
  }
}
