/** The declaration migration, and the state a run of the service starts from. */
module Migration {
  import opened Wrappers
  import opened Table
  import opened Storage
  import opened Protocol
  import opened Invariant

  /** A table as the first migration's constraints left it, with the new column added. */
  ghost predicate ValidBefore(rows: Rows) {
    && (forall id | id in rows ::
          ColumnChecks(rows[id]) && StateCheckBefore(rows[id]) && ExpiryCheck(rows[id]) && rows[id].crc.None?)
    && UniqueKeys(rows)
  }

  /** `UPDATE storage_objects SET expired_at = now()` on every visible pending row. */
  function Migrate(rows: Rows, now: Time): Rows {
    map id | id in rows :: if rows[id].Pending() then rows[id].(expiredAt := Some(now)) else rows[id]
  }

  /**
   The migrated table meets the new constraint, keeps what was published, and
   leaves nothing pending, so no undeclared row can reach a finalizer.
   */
  lemma MigrationSound(rows: Rows, now: Time)
    requires ValidBefore(rows)
    ensures ValidTable(Migrate(rows, now)) && Migrate(rows, now).Keys == rows.Keys
    ensures forall id | id in rows && rows[id].Available() :: Migrate(rows, now)[id] == rows[id]
    ensures forall id | id in rows :: Migrate(rows, now)[id].Visible() <==> rows[id].Available()
  {
  }

  /** The UPDATE sets one column, on pending rows only. */
  lemma MigrationTouches(rows: Rows, now: Time)
    ensures Migrate(rows, now).Keys == rows.Keys
    ensures forall id | id in rows && !rows[id].Visible() :: Migrate(rows, now)[id] == rows[id]
    ensures forall id | id in rows :: Migrate(rows, now)[id].(expiredAt := None) == rows[id].(expiredAt := None)
    ensures forall id | id in rows && rows[id].Pending() :: Migrate(rows, now)[id].expiredAt == Some(now)
  {
  }

  /** The UPDATE must precede the constraint: it fails on exactly the rows the UPDATE touches. */
  lemma UpdateNeeded(row: Row)
    requires StateCheckBefore(row) && ExpiryCheck(row)
    ensures StateCheck(row) <==> !row.Pending()
  {
  }

  /**
   Where a run starts: a migrated table whose published rows hold their bytes
   under keys that name them, no operation running and no target signed.
   Expired rows, unowned bytes and open uploads may be left over.
   */
  ghost predicate Initial(env: Env, s: State) {
    && s.procs == map[] && s.sh.targets == {} && s.sh.accepted == {} && s.sh.born == map[] && s.sh.recorded == map[]
    && 1 <= s.sh.nextId <= MAX_ID + 1
    && (forall id | id in s.sh.rows ::
          1 <= id < s.sh.nextId && ValidRow(s.sh.rows[id]) && LegacyRow(env, id, s.sh.rows[id]))
    && (forall key | key in s.sh.objects :: Known(env, s.sh, key))
    && s.sh.uploads.Keys <= s.sh.issued.Keys
    && (forall id | id in s.sh.published ::
          id in s.sh.rows && s.sh.published[id] == s.sh.rows[id] && s.sh.rows[id].Available())
    && (forall id | id in s.sh.rows && s.sh.rows[id].Available() ::
          id in s.sh.published && HoldsLegacy(env, s.sh, id, s.sh.rows[id]))
  }

  lemma InitialInv(env: Env, s: State)
    requires Initial(env, s)
    ensures Inv(env, s)
  {
  }

  /** Every migrated table over sound storage is a state a run may start from. */
  lemma MigratedInitial(env: Env, rows: Rows, objects: map<string, Blob>, uploads: map<string, Upload>, nextId: int,
                        now: Time)
    requires ValidBefore(rows) && 1 <= nextId <= MAX_ID + 1
    requires forall id | id in rows :: 1 <= id < nextId
    requires forall id | id in rows && rows[id].storageKey.Some? :: env.ownerOf(rows[id].storageKey.value) == Some(id)
    requires forall key | key in objects && env.ownerOf(key).Some? :: env.ownerOf(key).value < nextId
    requires forall id | id in rows && rows[id].Available() ::
               && RowKey(env, id, rows[id]) in objects
               && |objects[RowKey(env, id, rows[id])].body| == rows[id].size.value
               && env.sha(objects[RowKey(env, id, rows[id])].body) == rows[id].sha.value
    ensures Initial(env, State(Shared(Migrate(rows, now), nextId, multiset{}, objects, uploads, {}, {}, now, map[],
                                      map u | u in uploads :: 0, map[],
                                      map id | id in rows && rows[id].Available() :: rows[id]), map[]))
  {
    MigrationSound(rows, now);
  }

  /** A fresh installation: nothing stored, nothing declared, nothing running. */
  const EMPTY := State(Shared(map[], 1, multiset{}, map[], map[], {}, {}, 0, map[], map[], map[], map[]), map[])

  lemma EmptyInitial(env: Env)
    ensures Initial(env, EMPTY)
  {
  }
}
