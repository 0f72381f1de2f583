/** A table with its unique client_uuid index, and the upsert every sync item shares. */
module SyncTables {
  import opened Wrappers
  import opened SyncModel

  datatype Row<D> = Row(uuid: Uuid, data: D)

  datatype Table<D> = Table(rows: map<Id, Row<D>>, byUuid: map<Uuid, Id>)

  /** The index and the rows agree, so client_uuid is unique. */
  ghost predicate IndexOk<D>(t: Table<D>) {
    && (forall u :: u in t.byUuid ==> t.byUuid[u] in t.rows && t.rows[t.byUuid[u]].uuid == u)
    && (forall id :: id in t.rows ==> t.rows[id].uuid in t.byUuid && t.byUuid[t.rows[id].uuid] == id)
  }

  /** Every id was drawn from the sequence whose next value is `next`. */
  ghost predicate TableOk<D>(t: Table<D>, next: nat) {
    IndexOk(t) && forall id :: id in t.rows ==> id < next
  }

  /** No row of `t` is changed or missing in `t'`. */
  ghost predicate RowsKept<D>(t: Table<D>, t': Table<D>) {
    forall id :: id in t.rows ==> id in t'.rows && t'.rows[id] == t.rows[id]
  }

  /** Every row of `t` is still there under the same uuid. */
  ghost predicate UuidsKept<D>(t: Table<D>, t': Table<D>) {
    forall id :: id in t.rows ==> id in t'.rows && t'.rows[id].uuid == t.rows[id].uuid
  }

  function Inserted<D>(t: Table<D>, id: Id, uuid: Uuid, data: D): Table<D> {
    Table(t.rows[id := Row(uuid, data)], t.byUuid[uuid := id])
  }

  lemma InsertedOk<D>(t: Table<D>, next: nat, uuid: Uuid, data: D)
    requires TableOk(t, next) && uuid !in t.byUuid
    ensures TableOk(Inserted(t, next, uuid, data), next + 1)
    ensures RowsKept(t, Inserted(t, next, uuid, data))
  {
  }

  /** Two well-formed tables over the same uuids, one keeping the other's rows, are one table. */
  lemma SameKeysSameTable<D>(t: Table<D>, t': Table<D>)
    requires IndexOk(t) && IndexOk(t') && RowsKept(t, t')
    requires t.byUuid.Keys == t'.byUuid.Keys
    ensures t' == t
  {
    forall u | u in t.byUuid
      ensures t'.byUuid[u] == t.byUuid[u]
    {
      assert t.byUuid[u] in t'.rows;
    }
    assert t'.byUuid == t.byUuid;
    forall id | id in t'.rows
      ensures id in t.rows
    {
      var u := t'.rows[id].uuid;
      assert u in t.byUuid;
    }
    assert t'.rows == t.rows;
  }

  /** What a statement can fail with: SQLSTATE 23503, SQLSTATE 23505, no row, anything else. */
  datatype DbError = ForeignKeyViolation | UniqueViolation | NoRows | OtherError

  /** INSERT ... ON CONFLICT (client_uuid) DO NOTHING RETURNING id, then the re-select by
      client_uuid when the insert was suppressed. `early` is a failure raised before the statement
      runs (a parameter that does not encode, an enum literal), `check` a violated CHECK, seen once
      the id is drawn and before the conflict is looked at, `late` one raised with the row already
      in the table (other unique indexes, foreign keys), and `visible` whether the re-select's
      deleted_at filter lets the stored row through. The flag of a success is true for a new row.
      The id sequence moves on even when no row is inserted. */
  method UpsertReturningId<D>(
      t: Table<D>, next: nat, uuid: Uuid, data: D,
      early: Option<DbError>, check: Option<DbError>, late: Option<DbError>, visible: bool)
    returns (t': Table<D>, next': nat, r: Result<(Id, bool), DbError>)
    ensures early.Some? ==> r == Failure(early.value) && t' == t && next' == next
    ensures early.None? ==> next' == next + 1
    ensures early.None? && check.Some? ==> r == Failure(check.value) && t' == t
    ensures early.None? && check.None? && uuid in t.byUuid ==>
              t' == t && r == if visible then Success((t.byUuid[uuid], false)) else Failure(NoRows)
    ensures early.None? && check.None? && uuid !in t.byUuid ==>
              && t' == Inserted(t, next, uuid, data)
              && r == if late.Some? then Failure(late.value) else Success((next, true))
  {
    t', next' := t, next;
    if early.Some? {
      return t', next', Failure(early.value);
    }
    next' := next + 1;
    if check.Some? {
      return t', next', Failure(check.value);
    }
    if uuid in t.byUuid {
      if !visible {
        return t', next', Failure(NoRows);
      }
      return t', next', Success((t.byUuid[uuid], false));
    }
    t' := Inserted(t, next, uuid, data);
    if late.Some? {
      return t', next', Failure(late.value);
    }
    r := Success((next, true));
  }
}
