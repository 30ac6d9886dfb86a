/**
 The PostgreSQL registry: `pgxstore.Store` over the `storage_objects` table.
 `refs` counts the foreign keys that reference each row; they restrict deletion.
 */
module Registry {
  import opened Wrappers
  import opened Content
  import opened Table

  datatype Error = NotFound | Conflict | AlreadyExists | InvalidInput | Internal

  datatype Result<+T> = Ok(value: T) | Err(error: Error)

  datatype Object = Object(id: int, row: Row)

  // ------------------------------------------------------- ORDER BY ... LIMIT

  function Min(a: nat, b: nat): nat { if a <= b then a else b }

  ghost predicate StrictOrder(ids: set<int>, before: (int, int) -> bool) {
    && (forall a | a in ids :: !before(a, a))
    && (forall a, b | a in ids && b in ids && a != b :: before(a, b) || before(b, a))
    && (forall a, b, c | a in ids && b in ids && c in ids && before(a, b) && before(b, c) :: before(a, c))
  }

  /** `chosen` lists the first `limit` of `ids`, in order. */
  ghost predicate FirstOf(ids: set<int>, before: (int, int) -> bool, limit: nat, chosen: seq<int>) {
    && |chosen| == Min(limit, |ids|)
    && (forall i | 0 <= i < |chosen| :: chosen[i] in ids)
    && (forall i, j | 0 <= i < j < |chosen| :: before(chosen[i], chosen[j]))
    && (forall i, id | 0 <= i < |chosen| && id in ids && id !in chosen :: before(chosen[i], id))
  }

  lemma Any(ids: set<int>) returns (id: int)
    requires ids != {}
    ensures id in ids
  {
    assert (forall other :: other !in ids) ==> ids == {};
    id :| id in ids;
  }

  lemma {:induction false} LeastExists(ids: set<int>, before: (int, int) -> bool) returns (least: int)
    requires ids != {} && StrictOrder(ids, before)
    ensures least in ids && forall other | other in ids :: other == least || before(least, other)
    decreases |ids|
  {
    least := Any(ids);
    var first, rest := least, ids - {least};
    assert forall other | other in ids :: other == first || other in rest;
    if rest != {} {
      var second := LeastExists(rest, before);
      if !before(least, second) {
        least := second;
      }
    }
  }

  lemma LeastFirst(ids: set<int>, before: (int, int) -> bool, limit: nat, chosen: seq<int>, least: int)
    requires StrictOrder(ids, before) && FirstOf(ids, before, limit, chosen) && |chosen| > 0
    requires least in ids && forall other | other in ids :: other == least || before(least, other)
    ensures chosen[0] == least
  {
  }

  lemma TailFirst(ids: set<int>, before: (int, int) -> bool, limit: nat, chosen: seq<int>)
    requires StrictOrder(ids, before) && FirstOf(ids, before, limit, chosen) && |chosen| > 0
    ensures FirstOf(ids - {chosen[0]}, before, limit - 1, chosen[1..])
  {
    var tail := chosen[1..];
    assert forall j | 0 <= j < |tail| :: tail[j] == chosen[j + 1] && before(chosen[0], tail[j]) && tail[j] != chosen[0];
    assert forall id | id in chosen && id != chosen[0] :: id in tail;
  }

  /** The order and the limit determine the listing completely. */
  lemma {:induction false} FirstOfUnique(ids: set<int>, before: (int, int) -> bool, limit: nat, one: seq<int>,
                                         two: seq<int>)
    requires StrictOrder(ids, before) && FirstOf(ids, before, limit, one) && FirstOf(ids, before, limit, two)
    ensures one == two
    decreases |one|
  {
    if one != [] {
      var least := LeastExists(ids, before);
      LeastFirst(ids, before, limit, one, least);
      LeastFirst(ids, before, limit, two, least);
      TailFirst(ids, before, limit, one);
      TailFirst(ids, before, limit, two);
      FirstOfUnique(ids - {least}, before, limit - 1, one[1..], two[1..]);
      assert one == [one[0]] + one[1..] && two == [two[0]] + two[1..];
    }
  }

  /** A listing that reached no limit lists everything. */
  lemma ListedAll(ids: set<int>, before: (int, int) -> bool, limit: nat, chosen: seq<int>)
    requires StrictOrder(ids, before) && FirstOf(ids, before, limit, chosen)
    ensures |ids| <= limit ==> forall id | id in ids :: id in chosen
  {
    if |ids| <= limit {
      DistinctCount(ids, before, chosen);
    }
  }

  lemma {:induction false} DistinctCount(ids: set<int>, before: (int, int) -> bool, chosen: seq<int>)
    requires StrictOrder(ids, before) && FirstOf(ids, before, |ids|, chosen)
    ensures forall id | id in ids :: id in chosen
    decreases |chosen|
  {
    if chosen == [] {
      assert |ids| == 0;
      assert ids == {};
    } else {
      TailFirst(ids, before, |ids|, chosen);
      var rest := ids - {chosen[0]};
      DistinctCount(rest, before, chosen[1..]);
      assert chosen == [chosen[0]] + chosen[1..];
      forall id | id in ids ensures id in chosen {
        assert id == chosen[0] || id in rest;
      }
    }
  }

  method Select(ids: set<int>, before: (int, int) -> bool, limit: nat) returns (chosen: seq<int>)
    requires StrictOrder(ids, before)
    ensures FirstOf(ids, before, limit, chosen)
  {
    chosen := [];
    var rest := ids;
    while |chosen| < limit && rest != {}
      invariant |chosen| <= limit && |chosen| + |rest| == |ids|
      invariant forall id :: id in ids <==> id in rest || id in chosen
      invariant forall i | 0 <= i < |chosen| :: chosen[i] in ids && chosen[i] !in rest
      invariant forall i, j | 0 <= i < j < |chosen| :: before(chosen[i], chosen[j])
      invariant forall i, id | 0 <= i < |chosen| && id in rest :: before(chosen[i], id)
      decreases |rest|
    {
      var _ := LeastExists(rest, before);
      var next :| next in rest && forall other | other in rest :: other == next || before(next, other);
      chosen, rest := chosen + [next], rest - {next};
    }
  }

  // -------------------------------------------------------------------- orders

  function WaitingSince(row: Row): Time {
    if row.expiredAt.Some? then row.expiredAt.value else row.updatedAt
  }

  /** `ORDER BY (expired_at IS NULL), COALESCE(expired_at, updated_at), id`. */
  predicate ClaimedFirst(rows: Rows, a: int, b: int) {
    a in rows && b in rows &&
    if rows[a].Visible() != rows[b].Visible() then !rows[a].Visible()
    else if WaitingSince(rows[a]) != WaitingSince(rows[b]) then WaitingSince(rows[a]) < WaitingSince(rows[b])
    else a < b
  }

  /** The rows a claim may take; `locked` are those another replica is claiming now. */
  function Candidates(rows: Rows, updatedBefore: Time, retryBefore: Time, locked: set<int>): set<int> {
    set id | id in rows && Claimable(rows[id], updatedBefore, retryBefore) && id !in locked
  }

  function Unreferenced(rows: Rows, refs: multiset<int>, prefixes: set<string>, availableBefore: Time): set<int> {
    set id | id in rows && rows[id].prefix in prefixes && rows[id].Visible() && id !in refs
             && rows[id].availableAt.Some? && rows[id].availableAt.value < availableBefore
  }

  // --------------------------------------------- the selections, in their columns

  /** An old published row of these prefixes that nothing references. */
  ghost predicate Discardable(rows: Rows, refs: multiset<int>, prefixes: set<string>, availableBefore: Time, id: int) {
    && id in rows && id !in refs && rows[id].prefix in prefixes && rows[id].expiredAt == None
    && exists at :: rows[id].availableAt == Some(at) && at < availableBefore
  }

  /** The discardable rows with the least identifiers, all of them unless the limit is reached. */
  ghost predicate LeastDiscardable(rows: Rows, refs: multiset<int>, prefixes: set<string>, availableBefore: Time,
                                   limit: nat, ids: seq<int>)
  {
    && |ids| <= limit
    && (forall i | 0 <= i < |ids| :: Discardable(rows, refs, prefixes, availableBefore, ids[i]))
    && (forall i, j | 0 <= i < j < |ids| :: ids[i] < ids[j])
    && (forall id | Discardable(rows, refs, prefixes, availableBefore, id) && id !in ids ::
          |ids| == limit && forall i | 0 <= i < |ids| :: ids[i] < id)
  }

  lemma ListsDiscardable(rows: Rows, refs: multiset<int>, prefixes: set<string>, availableBefore: Time, limit: nat,
                         ids: seq<int>)
    requires FirstOf(Unreferenced(rows, refs, prefixes, availableBefore), (a, b) => a < b, limit, ids)
    ensures LeastDiscardable(rows, refs, prefixes, availableBefore, limit, ids)
  {
    var all := Unreferenced(rows, refs, prefixes, availableBefore);
    forall id ensures id in all <==> Discardable(rows, refs, prefixes, availableBefore, id) {
      if id in all {
        assert rows[id].availableAt == Some(rows[id].availableAt.value);
      }
    }
    AllOrLimit(all, (a, b) => a < b, limit, ids);
  }

  /** A selection below its limit has selected everything. */
  lemma AllOrLimit(all: set<int>, before: (int, int) -> bool, limit: nat, ids: seq<int>)
    requires StrictOrder(all, before) && FirstOf(all, before, limit, ids)
    ensures |ids| <= limit && forall id | id in all && id !in ids :: |ids| == limit
  {
    if |ids| < limit {
      ListedAll(all, before, limit, ids);
    }
  }

  /** An unpublished row that nobody touched for long, or whose expiry was tried long ago. */
  ghost predicate Abandoned(rows: Rows, locked: set<int>, updatedBefore: Time, retryBefore: Time, id: int) {
    && id in rows && id !in locked && rows[id].availableAt == None
    && match rows[id].expiredAt
       case Some(at) => at < retryBefore
       case None => rows[id].updatedAt < updatedBefore
  }

  /** Expired rows come first, the longest expired before others, then the longest untouched. */
  ghost predicate WaitsLonger(rows: Rows, a: int, b: int)
    requires a in rows && b in rows
  {
    match (rows[a].expiredAt, rows[b].expiredAt)
    case (Some(x), Some(y)) => x < y || (x == y && a < b)
    case (Some(_), None) => true
    case (None, Some(_)) => false
    case (None, None) => rows[a].updatedAt < rows[b].updatedAt || (rows[a].updatedAt == rows[b].updatedAt && a < b)
  }

  /** The abandoned rows that waited longest, all of them unless the limit is reached. */
  ghost predicate LongestAbandoned(rows: Rows, locked: set<int>, updatedBefore: Time, retryBefore: Time, limit: nat,
                                   ids: seq<int>)
  {
    && |ids| <= limit
    && (forall i | 0 <= i < |ids| :: Abandoned(rows, locked, updatedBefore, retryBefore, ids[i]))
    && (forall i, j | 0 <= i < j < |ids| :: WaitsLonger(rows, ids[i], ids[j]))
    && (forall id | Abandoned(rows, locked, updatedBefore, retryBefore, id) && id !in ids ::
          |ids| == limit && forall i | 0 <= i < |ids| :: WaitsLonger(rows, ids[i], id))
  }

  lemma ClaimsAbandoned(rows: Rows, locked: set<int>, updatedBefore: Time, retryBefore: Time, limit: nat, ids: seq<int>)
    requires FirstOf(Candidates(rows, updatedBefore, retryBefore, locked), (a, b) => ClaimedFirst(rows, a, b), limit,
                     ids)
    ensures LongestAbandoned(rows, locked, updatedBefore, retryBefore, limit, ids)
  {
    var all := Candidates(rows, updatedBefore, retryBefore, locked);
    assert forall id :: id in all <==> Abandoned(rows, locked, updatedBefore, retryBefore, id);
    assert forall a, b | a in rows && b in rows :: ClaimedFirst(rows, a, b) <==> WaitsLonger(rows, a, b);
    AllOrLimit(all, (a, b) => ClaimedFirst(rows, a, b), limit, ids);
  }

  function Objects(rows: Rows, ids: seq<int>): seq<Object>
    requires forall i | 0 <= i < |ids| :: ids[i] in rows
  {
    seq(|ids|, i requires 0 <= i < |ids| => Object(ids[i], rows[ids[i]]))
  }

  lemma NewRowValid(prefix: string, filename: string, content: Declaration, now: Time)
    ensures ValidRow(NewRow(prefix, filename, content, now)) <==> content.Valid()
  {
  }

  /** Which pending rows the table lets become available. */
  lemma PublishableRow(row: Row, contentType: string, key: string, now: Time)
    requires ValidRow(row) && row.Pending()
    ensures ValidRow(row.(contentType := contentType, storageKey := Some(key), availableAt := Some(now),
                          updatedAt := now))
            <==> contentType != "" && NotBlank(key) && row.upload.None?
  {
  }

  lemma ClaimKeepsTable(rows: Rows, ids: seq<int>, now: Time)
    requires ValidTable(rows) && forall i | 0 <= i < |ids| :: ids[i] in rows && rows[ids[i]].availableAt.None?
    ensures ValidTable(Claim(rows, ids, now)) && Claim(rows, ids, now).Keys == rows.Keys
  {
  }

  class Store {
    var rows: Rows
    var nextId: int
    var refs: multiset<int>
    var now: Time

    ghost predicate Valid()
      reads this
    {
      && ValidTable(rows) && 1 <= nextId <= MAX_ID + 1
      && forall id | id in rows :: 1 <= id < nextId
    }

    constructor ()
      ensures Valid() && rows == map[] && refs == multiset{}
    {
      rows, nextId, refs, now := map[], 1, multiset{}, 0;
    }

    /** The identifier is spent even when a constraint refuses the row. */
    method CreatePending(prefix: string, filename: string, content: Declaration) returns (r: Result<Object>)
      requires Valid()
      modifies this`rows, this`nextId
      ensures Valid()
      ensures r.Ok? <==> content.Valid() && old(nextId) <= MAX_ID
      ensures r == Err(InvalidInput) <==> !content.Valid() && old(nextId) <= MAX_ID
      ensures r.Ok?
              ==> r.value.id == old(nextId) && r.value.id !in old(rows)
                  && r.value.row == NewRow(prefix, filename, content, now)
                  && r.value.row == Row(prefix, filename, "", Some(content.size), Some(content.sha), Some(content.crc),
                                        None, None, None, None, now, now)
                  && r.value.row.Pending() && rows == old(rows)[old(nextId) := r.value.row]
      ensures !r.Ok? ==> rows == old(rows)
      ensures nextId == Min(old(nextId) + 1, MAX_ID + 1)
    {
      if nextId > MAX_ID {
        return Err(Internal);
      }
      var id := nextId;
      nextId := nextId + 1;
      var row := NewRow(prefix, filename, content, now);
      NewRowValid(prefix, filename, content, now);
      if !ValidRow(row) {
        return Err(InvalidInput);
      }
      rows := rows[id := row];
      return Ok(Object(id, row));
    }

    method GetByID(id: int) returns (r: Result<Object>)
      ensures r == if id in rows && rows[id].Visible() then Ok(Object(id, rows[id])) else Err(NotFound)
    {
      var row := Table.GetByID(rows, id);
      return if row.Some? then Ok(Object(id, row.value)) else Err(NotFound);
    }

    /** A retry returns the published object unchanged; expired and missing ones are not found. */
    method MarkAvailable(id: int, contentType: string, key: string) returns (r: Result<Object>)
      requires Valid()
      modifies this`rows
      ensures Valid()
      ensures r.Ok? ==> r.value.id == id && id in rows && rows[id] == r.value.row && r.value.row.Available()
      ensures r == Err(NotFound) <==> id !in old(rows) || !old(rows)[id].Visible()
      ensures id in old(rows) && old(rows)[id].Pending() ==>
                var refused := contentType == "" || !NotBlank(key) || old(rows)[id].upload.Some?;
                && (r == Err(InvalidInput) <==> refused)
                && (r == Err(AlreadyExists) <==> !refused && KeyTaken(old(rows), id, key))
                && (r.Ok? <==> !refused && !KeyTaken(old(rows), id, key))
      ensures r.Ok? && old(rows)[id].Pending() ==>
                rows == old(rows)[id := old(rows)[id].(contentType := contentType, storageKey := Some(key),
                                                       availableAt := Some(now), updatedAt := now)]
      ensures !r.Ok? || !old(rows)[id].Pending() ==> rows == old(rows)
    {
      hide ColumnChecks, StateCheck, ExpiryCheck, NotBlank;
      if id in rows && rows[id].Pending() {
        PublishableRow(rows[id], contentType, key, now);
      }
      var result := Table.MarkAvailable(rows, id, contentType, key, now);
      match result
      case Updated(row) =>
        rows := rows[id := row];
        return Ok(Object(id, row));
      case NoRow =>
        var current := GetByID(id);
        if current.Ok? && !current.value.row.Available() {
          return Err(NotFound);
        }
        return current;
      case CheckViolation => return Err(InvalidInput);
      case UniqueViolation => return Err(AlreadyExists);
    }

    method RefreshPending(id: int) returns (r: Result<Object>)
      requires Valid()
      modifies this`rows
      ensures Valid()
      ensures r.Ok? <==> id in old(rows) && old(rows)[id].Pending()
      ensures r.Ok? ==> r.value == Object(id, old(rows)[id].(updatedAt := now)) && rows == old(rows)[id := r.value.row]
      ensures !r.Ok? ==> r == Err(NotFound) && rows == old(rows)
    {
      var result := Table.RefreshPending(rows, id, now);
      if result.NoRow? {
        return Err(NotFound);
      }
      rows := rows[id := result.row];
      return Ok(Object(id, result.row));
    }

    /** Only a pending row without an upload takes one, so a row never changes its upload. */
    method RecordMultipartUploadID(id: int, upload: string) returns (r: Result<()>)
      requires Valid()
      modifies this`rows
      ensures Valid()
      ensures r == Err(NotFound) <==> id !in old(rows) || !old(rows)[id].Pending() || old(rows)[id].upload.Some?
      ensures r == Err(InvalidInput) <==> r != Err(NotFound) && !NotBlank(upload)
      ensures r.Ok? <==> r != Err(NotFound) && r != Err(InvalidInput)
      ensures rows == if r.Ok? then old(rows)[id := old(rows)[id].(upload := Some(upload), updatedAt := now)]
                      else old(rows)
    {
      var result := Table.RecordUploadID(rows, id, upload, now);
      match result
      case Updated(row) =>
        rows := rows[id := row];
        return Ok(());
      case CheckViolation => return Err(InvalidInput);
      case _ => return Err(NotFound);
    }

    /** Succeeds once the row records no upload, whoever cleared it. */
    method ClearMultipartUploadID(id: int, upload: string) returns (r: Result<()>)
      requires Valid()
      modifies this`rows
      ensures Valid()
      ensures r == Err(NotFound) <==> id !in old(rows) || !old(rows)[id].Visible()
      ensures r == Err(Conflict) <==>
                id in old(rows) && old(rows)[id].Visible() && old(rows)[id].upload.Some?
                  && old(rows)[id].upload != Some(upload)
      ensures r.Ok? ==> id in rows && rows[id].Visible() && rows[id].upload.None?
      ensures !r.Ok? ==> r == Err(NotFound) || r == Err(Conflict)
      ensures rows == if r.Ok? && old(rows)[id].upload.Some?
                      then old(rows)[id := old(rows)[id].(upload := None, updatedAt := now)] else old(rows)
    {
      var result := Table.ClearUploadID(rows, id, upload, now);
      if result.Updated? {
        rows := rows[id := result.row];
        return Ok(());
      }
      var current := GetByID(id);
      if current.Err? {
        return Err(current.error);
      }
      return if current.value.row.upload.None? then Ok(()) else Err(Conflict);
    }

    method ListByIDs(ids: seq<int>) returns (found: map<int, Row>)
      ensures forall id :: id in found <==> id in ids && id in rows && rows[id].Visible()
      ensures forall id | id in found :: found[id] == rows[id]
    {
      found := map id | id in rows && id in ids && rows[id].Visible() :: rows[id];
    }

    method Delete(id: int) returns (r: Result<Object>)
      requires Valid()
      modifies this`rows
      ensures Valid()
      ensures r == Err(NotFound) <==> id !in old(rows) || !old(rows)[id].Visible()
      ensures r == Err(Conflict) <==> r != Err(NotFound) && id in refs
      ensures r.Ok? ==> r.value == Object(id, old(rows)[id])
      ensures rows == if r.Ok? then old(rows) - {id} else old(rows)
      ensures !r.Ok? ==> r == Err(NotFound) || r == Err(Conflict)
    {
      if Table.GetByID(rows, id).None? {
        return Err(NotFound);
      }
      if id in refs {
        return Err(Conflict);
      }
      var row := rows[id];
      rows := rows - {id};
      return Ok(Object(id, row));
    }

    /**
     Claims at most `limit` candidates, the longest expired first and then the
     longest untouched; every claimed row is expired from now on.
     */
    method ClaimExpiredPending(updatedBefore: Time, retryBefore: Time, limit: nat, locked: set<int>)
      returns (claimed: seq<Object>)
      requires Valid()
      modifies this`rows
      ensures Valid()
      ensures var ids := seq(|claimed|, i requires 0 <= i < |claimed| => claimed[i].id);
              && FirstOf(Candidates(old(rows), updatedBefore, retryBefore, locked),
                         (a, b) => ClaimedFirst(old(rows), a, b), limit, ids)
              && rows == Claim(old(rows), ids, now)
              && claimed == Objects(rows, ids)
              && LongestAbandoned(old(rows), locked, updatedBefore, retryBefore, limit, ids)
      ensures forall i | 0 <= i < |claimed| :: claimed[i].row.expiredAt == Some(now) && claimed[i].row.availableAt.None?
      ensures forall i | 0 <= i < |claimed| :: claimed[i].id in old(rows)
                && claimed[i].row == old(rows)[claimed[i].id].(expiredAt := Some(now)) && claimed[i].id in rows
                && rows[claimed[i].id] == claimed[i].row
      ensures rows.Keys == old(rows).Keys
      ensures forall id | id in rows && (forall i | 0 <= i < |claimed| :: claimed[i].id != id) ::
                                           rows[id] == old(rows)[id]
    {
      hide LongestAbandoned, StateCheck, ColumnChecks, ExpiryCheck;
      ghost var was := rows;
      var candidates := Candidates(rows, updatedBefore, retryBefore, locked);
      var table := rows;
      var ids := Select(candidates, (a, b) => ClaimedFirst(table, a, b), limit);
      forall i | 0 <= i < |ids| ensures ids[i] in rows && rows[ids[i]].availableAt.None? {
        assert Claimable(rows[ids[i]], updatedBefore, retryBefore);
      }
      ClaimKeepsTable(rows, ids, now);
      ClaimsAbandoned(rows, locked, updatedBefore, retryBefore, limit, ids);
      rows := Claim(rows, ids, now);
      claimed := Objects(rows, ids);
      assert ids == seq(|claimed|, i requires 0 <= i < |claimed| => claimed[i].id);
    }

    method DeleteExpiredPending(id: int) returns (r: Result<()>)
      requires Valid()
      modifies this`rows
      ensures Valid()
      ensures r == Err(NotFound) <==> id !in old(rows) || old(rows)[id].Visible()
      ensures r == Err(Conflict) <==> r != Err(NotFound) && id in refs
      ensures rows == if r.Ok? then old(rows) - {id} else old(rows)
      ensures !r.Ok? ==> r == Err(NotFound) || r == Err(Conflict)
    {
      if id !in rows || rows[id].Visible() {
        return Err(NotFound);
      }
      if id in refs {
        return Err(Conflict);
      }
      rows := rows - {id};
      return Ok(());
    }

    /** The first `limit` published rows that nothing references, by identifier. */
    method ListUnreferenced(prefixes: set<string>, availableBefore: Time, limit: nat) returns (listed: seq<Object>)
      ensures var ids := seq(|listed|, i requires 0 <= i < |listed| => listed[i].id);
              && FirstOf(Unreferenced(rows, refs, prefixes, availableBefore), (a, b) => a < b, limit, ids)
              && listed == Objects(rows, ids)
              && LeastDiscardable(rows, refs, prefixes, availableBefore, limit, ids)
      ensures forall i | 0 <= i < |listed| :: listed[i].id in rows && listed[i].row == rows[listed[i].id]
    {
      var ids := Select(Unreferenced(rows, refs, prefixes, availableBefore), (a, b) => a < b, limit);
      ListsDiscardable(rows, refs, prefixes, availableBefore, limit, ids);
      listed := Objects(rows, ids);
      assert ids == seq(|listed|, i requires 0 <= i < |listed| => listed[i].id);
    }
  }
}
