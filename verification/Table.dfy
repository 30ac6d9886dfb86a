/**
 The `storage_objects` table: its rows, its CHECK constraints, and each SQL
 statement of the registry as a function from the table it reads to the row it
 writes.  The class `Registry.Store` runs the same statements in place.
 */
module Table {
  import opened Wrappers
  import opened Content

  type Time = int
  type Rows = map<int, Row>

  /** BIGSERIAL hands out identifiers up to the largest signed 64-bit integer. */
  const MAX_ID := MAX_INT64

  datatype Row = Row(
    prefix: string,
    filename: string,
    contentType: string,
    size: Option<int>,
    sha: Option<string>,
    crc: Option<string>,
    upload: Option<string>,
    storageKey: Option<string>,
    availableAt: Option<Time>,
    expiredAt: Option<Time>,
    createdAt: Time,
    updatedAt: Time)
  {
    predicate Available() { availableAt.Some? }

    predicate Visible() { expiredAt.None? }

    predicate Pending() { availableAt.None? && expiredAt.None? }

    predicate Declared() { size.Some? && sha.Some? && crc.Some? }
  }

  /** `btrim(text) <> ''`. */
  predicate NotBlank(text: string) {
    exists i :: 0 <= i < |text| && text[i] != ' '
  }

  predicate ColumnChecks(row: Row) {
    && (row.size.Some? ==> row.size.value >= 0)
    && (row.sha.Some? ==> IsLowerHex(row.sha.value, 64))
    && (row.crc.Some? ==> IsLowerHex(row.crc.value, 16))
    && (row.upload.Some? ==> NotBlank(row.upload.value))
    && (row.storageKey.Some? ==> NotBlank(row.storageKey.value))
  }

  predicate PublishedCheck(row: Row) {
    && row.availableAt.Some? && row.contentType != ""
    && row.size.Some? && row.sha.Some? && row.storageKey.Some?
    && row.upload.None?
  }

  /** `storage_objects_state_check` as the first migration declared it. */
  predicate StateCheckBefore(row: Row) {
    || (&& row.availableAt.None? && row.contentType == ""
        && row.size.None? && row.sha.None? && row.storageKey.None?)
    || PublishedCheck(row)
  }

  /** `storage_objects_state_check` as the second migration replaced it. */
  predicate StateCheck(row: Row) {
    || (&& row.availableAt.None? && row.contentType == "" && row.storageKey.None?
        && (row.expiredAt.Some? || row.Declared()))
    || PublishedCheck(row)
  }

  predicate ExpiryCheck(row: Row) {
    row.expiredAt.None? || row.availableAt.None?
  }

  predicate ValidRow(row: Row) {
    ColumnChecks(row) && StateCheck(row) && ExpiryCheck(row)
  }

  ghost predicate UniqueKeys(rows: Rows) {
    forall a, b | a in rows && b in rows && rows[a].storageKey.Some? && rows[a].storageKey == rows[b].storageKey ::
      a == b
  }

  ghost predicate ValidTable(rows: Rows) {
    && (forall id | id in rows :: ValidRow(rows[id]))
    && UniqueKeys(rows)
  }

  // ---------------------------------------------------------------- statements

  /** What one UPDATE ... RETURNING reports. */
  datatype Sql = Updated(row: Row) | NoRow | CheckViolation | UniqueViolation

  function NewRow(prefix: string, filename: string, content: Declaration, now: Time): Row {
    Row(prefix, filename, "", Some(content.size), Some(content.sha), Some(content.crc),
        None, None, None, None, now, now)
  }

  predicate KeyTaken(rows: Rows, id: int, key: string) {
    exists other :: other in rows && other != id && rows[other].storageKey == Some(key)
  }

  function MarkAvailable(rows: Rows, id: int, contentType: string, key: string, now: Time): Sql {
    if id !in rows || !rows[id].Pending() then NoRow
    else
      var row :=
        rows[id].(contentType := contentType, storageKey := Some(key), availableAt := Some(now), updatedAt := now);
      if !ValidRow(row) then CheckViolation
      else if KeyTaken(rows, id, key) then UniqueViolation
      else Updated(row)
  }

  function RefreshPending(rows: Rows, id: int, now: Time): Sql {
    if id !in rows || !rows[id].Pending() then NoRow else Updated(rows[id].(updatedAt := now))
  }

  function RecordUploadID(rows: Rows, id: int, upload: string, now: Time): Sql {
    if id !in rows || !rows[id].Pending() || rows[id].upload.Some? then NoRow
    else if !NotBlank(upload) then CheckViolation
    else Updated(rows[id].(upload := Some(upload), updatedAt := now))
  }

  function ClearUploadID(rows: Rows, id: int, upload: string, now: Time): Sql {
    if id !in rows || !rows[id].Visible() || rows[id].upload != Some(upload) then NoRow
    else Updated(rows[id].(upload := None, updatedAt := now))
  }

  function GetByID(rows: Rows, id: int): Option<Row> {
    if id in rows && rows[id].Visible() then Some(rows[id]) else None
  }

  /** The candidates of one claim: expired too long ago, or pending and too old. */
  predicate Claimable(row: Row, updatedBefore: Time, retryBefore: Time) {
    && row.availableAt.None?
    && (if row.expiredAt.Some? then row.expiredAt.value < retryBefore else row.updatedAt < updatedBefore)
  }

  function Claim(rows: Rows, ids: seq<int>, now: Time): Rows {
    map id | id in rows :: if id in ids then rows[id].(expiredAt := Some(now)) else rows[id]
  }
}
