/** Problems and their processing log: the status changes of a problem form a chain in the order
    they are written, whatever runs beside them. */
module ProblemAudit {
  import opened Wrappers

  type Id = nat
  type Time = int
  type Status = Option<int>

  datatype Action = StatusChange(from: Status, to: Status) | Comment | Reassign

  /** `at` is the time the writing transaction began, which is what now() gives. */
  datatype LogRow = LogRow(problem: Id, action: Action, note: string, operator: int, at: Time)

  /** The columns a client may change, beside the status. */
  datatype Columns = Columns(
    category: Option<int>, typeItem: Option<int>, inspection: Option<int>, cover: Option<int>,
    title: string, description: string, note: string)

  datatype Problem = Problem(uuid: int, status: Status, columns: Columns, deleted: bool)

  /** A log row's id is its position. `initial` is history: the status a problem was created with. */
  datatype Db = Db(problems: map<Id, Problem>, byUuid: map<int, Id>, logs: seq<LogRow>, next: Id, initial: map<Id, Status>)

  datatype ProblemError = NotFound | MissingReference | InvalidLogAction

  /** `referencesOk` says that every row the update names exists. */
  datatype UpdateInput = UpdateInput(
    status: Status, category: Option<int>, typeItem: Option<int>, inspection: Option<int>, cover: Option<int>,
    title: Option<string>, description: Option<string>, note: Option<string>, referencesOk: bool)

  datatype LogKind = ClientComment | ClientReassign | OtherKind(text: string)

  // --- Operations -------------------------------------------------------------------------------

  predicate Live(db: Db, id: Id) {
    id in db.problems && !db.problems[id].deleted
  }

  predicate StatusChanged(requested: Status, current: Status) {
    requested.Some? && (current.None? || requested.value != current.value)
  }

  /** COALESCE($n, column): what the request leaves out stays. */
  function Kept<T>(requested: Option<T>, current: Option<T>): Option<T> {
    if requested.Some? then requested else current
  }

  function Coalesced(x: UpdateInput, c: Columns): Columns {
    Columns(
      Kept(x.category, c.category), Kept(x.typeItem, c.typeItem), Kept(x.inspection, c.inspection), Kept(x.cover, c.cover),
      x.title.GetOr(c.title), x.description.GetOr(c.description), x.note.GetOr(c.note))
  }

  function AfterCreate(db: Db, uuid: int, status: Status, columns: Columns, referencesOk: bool): Db {
    if uuid in db.byUuid || !referencesOk then db.(next := db.next + 1)
    else
      Db(db.problems[db.next := Problem(uuid, status, columns, false)], db.byUuid[uuid := db.next], db.logs, db.next + 1,
         db.initial[db.next := status])
  }

  function AfterUpdate(db: Db, id: Id, x: UpdateInput, actor: int, begun: Time): Db {
    if !Live(db, id) || !x.referencesOk then db
    else
      var p := db.problems[id];
      var p' := p.(status := Kept(x.status, p.status), columns := Coalesced(x, p.columns));
      db.(problems := db.problems[id := p'],
          logs := if StatusChanged(x.status, p.status)
                  then db.logs + [LogRow(id, StatusChange(p.status, x.status), "", actor, begun)] else db.logs)
  }

  function AfterLog(db: Db, id: Id, kind: LogKind, note: string, operator: int, operatorOk: bool, begun: Time): Db {
    if kind.OtherKind? || !Live(db, id) || !operatorOk then db
    else db.(logs := db.logs + [LogRow(id, if kind.ClientComment? then Comment else Reassign, note, operator, begun)])
  }

  function AfterDelete(db: Db, id: Id): Db {
    if Live(db, id) then db.(problems := db.problems[id := db.problems[id].(deleted := true)]) else db
  }

  datatype Op =
    | Create(uuid: int, status: Status, columns: Columns, referencesOk: bool)
    | Update(id: Id, update: UpdateInput, actor: int, begun: Time)
    | CreateLog(id: Id, kind: LogKind, note: string, operator: int, operatorOk: bool, begun: Time)
    | Delete(id: Id)

  function Apply(db: Db, op: Op): Db {
    match op
    case Create(uuid, status, columns, ok) => AfterCreate(db, uuid, status, columns, ok)
    case Update(id, x, actor, begun) => AfterUpdate(db, id, x, actor, begun)
    case CreateLog(id, kind, note, operator, ok, begun) => AfterLog(db, id, kind, note, operator, ok, begun)
    case Delete(id) => AfterDelete(db, id)
  }

  function Exec(db: Db, ops: seq<Op>): Db {
    if ops == [] then db else Apply(Exec(db, ops[..|ops| - 1]), ops[|ops| - 1])
  }

  const EMPTY: Db := Db(map[], map[], [], 0, map[])

  // --- The chain --------------------------------------------------------------------------------

  /** The status reached by following the status changes of a problem from `start`, or None if some
      change does not start where the one before it ended, or changes nothing. */
  function Follow(start: Status, logs: seq<LogRow>, id: Id): Option<Status> {
    if logs == [] then Some(start)
    else
      match Follow(start, logs[..|logs| - 1], id)
      case None => None
      case Some(current) =>
        var row := logs[|logs| - 1];
        if row.problem != id || !row.action.StatusChange? then Some(current)
        else if row.action.from == current && row.action.to != current then Some(row.action.to)
        else None
  }

  ghost predicate Inv(db: Db) {
    && (forall u :: u in db.byUuid ==> db.byUuid[u] in db.problems)
    && (forall id :: id in db.problems ==> id < db.next && id in db.initial)
    && (forall k :: 0 <= k < |db.logs| ==> db.logs[k].problem in db.problems)
    && (forall id :: id in db.problems ==> Follow(db.initial[id], db.logs, id) == Some(db.problems[id].status))
  }

  lemma {:induction false} FollowNothing(start: Status, logs: seq<LogRow>, id: Id)
    requires forall k :: 0 <= k < |logs| ==> logs[k].problem != id
    ensures Follow(start, logs, id) == Some(start)
  {
    if logs == [] {
    } else {
      FollowNothing(start, logs[..|logs| - 1], id);
    }
  }

  lemma FollowOneMore(start: Status, logs: seq<LogRow>, row: LogRow, id: Id)
    ensures Follow(start, logs + [row], id)
         == match Follow(start, logs, id)
            case None => None
            case Some(current) =>
              if row.problem != id || !row.action.StatusChange? then Some(current)
              else if row.action.from == current && row.action.to != current then Some(row.action.to)
              else None
  {
    assert (logs + [row])[..|logs|] == logs;
  }

  /** The rows of other problems, and rows that are no status change, do not matter. */
  lemma FollowSkips(start: Status, logs: seq<LogRow>, row: LogRow, id: Id)
    requires row.problem != id || !row.action.StatusChange?
    ensures Follow(start, logs + [row], id) == Follow(start, logs, id)
  {
    FollowOneMore(start, logs, row, id);
  }

  lemma CreateKeeps(db: Db, uuid: int, status: Status, columns: Columns, ok: bool)
    requires Inv(db)
    ensures Inv(AfterCreate(db, uuid, status, columns, ok))
  {
    hide Follow;
    FollowNothing(status, db.logs, db.next);
  }

  lemma UpdateKeeps(db: Db, id: Id, x: UpdateInput, actor: int, begun: Time)
    requires Inv(db)
    ensures Inv(AfterUpdate(db, id, x, actor, begun))
  {
    hide Follow;
    var db' := AfterUpdate(db, id, x, actor, begun);
    if |db'.logs| > |db.logs| {
      var row := LogRow(id, StatusChange(db.problems[id].status, x.status), "", actor, begun);
      assert db'.logs == db.logs + [row];
      forall k | k in db'.problems
        ensures Follow(db'.initial[k], db'.logs, k) == Some(db'.problems[k].status)
      {
        FollowOneMore(db.initial[k], db.logs, row, k);
      }
    }
  }

  lemma LogKeeps(db: Db, id: Id, kind: LogKind, note: string, operator: int, ok: bool, begun: Time)
    requires Inv(db)
    ensures Inv(AfterLog(db, id, kind, note, operator, ok, begun))
  {
    hide Follow;
    var db' := AfterLog(db, id, kind, note, operator, ok, begun);
    if db' != db {
      var row := LogRow(id, if kind.ClientComment? then Comment else Reassign, note, operator, begun);
      assert db'.logs == db.logs + [row];
      forall k | k in db'.problems
        ensures Follow(db'.initial[k], db'.logs, k) == Some(db'.problems[k].status)
      {
        FollowSkips(db.initial[k], db.logs, row, k);
      }
    }
  }

  lemma ApplyKeeps(db: Db, op: Op)
    requires Inv(db)
    ensures Inv(Apply(db, op))
  {
    match op
    case Create(uuid, status, columns, ok) => CreateKeeps(db, uuid, status, columns, ok);
    case Update(id, x, actor, begun) => UpdateKeeps(db, id, x, actor, begun);
    case CreateLog(id, kind, note, operator, ok, begun) => LogKeeps(db, id, kind, note, operator, ok, begun);
    case Delete(id) => hide Follow;
  }

  /** Over every run of creates, updates, comments, reassigns and deletes, and for deleted problems
      too: the status changes lead from the creation status to the current one, each starting where
      the last ended and changing something. */
  lemma {:induction false} StatusChain(ops: seq<Op>)
    ensures Inv(Exec(EMPTY, ops))
  {
    if ops == [] {
    } else {
      StatusChain(ops[..|ops| - 1]);
      ApplyKeeps(Exec(EMPTY, ops[..|ops| - 1]), ops[|ops| - 1]);
    }
  }

  /** The rows of one problem, in the order they were written. */
  function LogsOf(logs: seq<LogRow>, id: Id): seq<LogRow> {
    if logs == [] then []
    else LogsOf(logs[..|logs| - 1], id) + if logs[|logs| - 1].problem == id then [logs[|logs| - 1]] else []
  }

  lemma {:induction false} FollowOwnLogs(start: Status, logs: seq<LogRow>, id: Id)
    ensures Follow(start, LogsOf(logs, id), id) == Follow(start, logs, id)
    ensures forall k :: 0 <= k < |LogsOf(logs, id)| ==> LogsOf(logs, id)[k].problem == id
  {
    if logs == [] {
    } else {
      var front, row := logs[..|logs| - 1], logs[|logs| - 1];
      FollowOwnLogs(start, front, id);
      assert front + [row] == logs;
      FollowOneMore(start, front, row, id);
      FollowOneMore(start, LogsOf(front, id), row, id);
      if row.problem != id {
        assert LogsOf(logs, id) == LogsOf(front, id);
      }
    }
  }

  /** Read off the rows themselves: the i-th status change starts where the one before ended. */
  lemma {:induction false} ChainByIndex(start: Status, logs: seq<LogRow>, id: Id, k: nat)
    requires Follow(start, logs, id).Some? && k < |logs| && logs[k].problem == id && logs[k].action.StatusChange?
    ensures logs[k].action.from != logs[k].action.to
    ensures Follow(start, logs[..k], id) == Some(logs[k].action.from)
    ensures Follow(start, logs[..k + 1], id) == Some(logs[k].action.to)
  {
    var n := |logs| - 1;
    assert Follow(start, logs[..n], id).Some?;
    if k == n {
      assert logs[..n + 1] == logs;
    } else {
      ChainByIndex(start, logs[..n], id, k);
      assert logs[..n][..k] == logs[..k] && logs[..n][..k + 1] == logs[..k + 1];
    }
  }

  // --- The order of the listing -----------------------------------------------------------------

  /** Insertion into a list sorted by time, after the rows with the same time. */
  function InsertByTime(rows: seq<LogRow>, row: LogRow): seq<LogRow> {
    if rows == [] || rows[|rows| - 1].at <= row.at then rows + [row]
    else InsertByTime(rows[..|rows| - 1], row) + [rows[|rows| - 1]]
  }

  /** ORDER BY created_at, id over rows given in id order. */
  function ByTime(rows: seq<LogRow>): seq<LogRow> {
    if rows == [] then [] else InsertByTime(ByTime(rows[..|rows| - 1]), rows[|rows| - 1])
  }

  function Listing(db: Db, id: Id): seq<LogRow> {
    ByTime(LogsOf(db.logs, id))
  }

  ghost predicate InTimeOrder(rows: seq<LogRow>) {
    forall i, j :: 0 <= i < j < |rows| ==> rows[i].at <= rows[j].at
  }

  lemma {:induction false} ByTimeOfOrdered(rows: seq<LogRow>)
    requires InTimeOrder(rows)
    ensures ByTime(rows) == rows
  {
    if rows == [] {
    } else {
      hide ByTime, InsertByTime;
      var front, last := rows[..|rows| - 1], rows[|rows| - 1];
      ByTimeOfOrdered(front);
      assert front + [last] == rows;
      ByTimeSnoc(front, last);
      InsertAfter(front, last);
    }
  }

  /** The status changes among the rows. */
  function Changes(rows: seq<LogRow>): seq<LogRow> {
    if rows == [] then []
    else Changes(rows[..|rows| - 1]) + if rows[|rows| - 1].action.StatusChange? then [rows[|rows| - 1]] else []
  }

  lemma ChangesSnoc(rows: seq<LogRow>, row: LogRow)
    ensures Changes(rows + [row]) == if row.action.StatusChange? then Changes(rows) + [row] else Changes(rows)
  {
    assert (rows + [row])[..|rows|] == rows;
    assert Changes(rows) + [] == Changes(rows);
  }

  lemma {:induction false} ChangesOfSorted(rows: seq<LogRow>, bound: Time)
    requires InTimeOrder(rows) && (forall k :: 0 <= k < |rows| ==> rows[k].at <= bound)
    ensures InTimeOrder(Changes(rows)) && forall k :: 0 <= k < |Changes(rows)| ==> Changes(rows)[k].at <= bound
  {
    if rows == [] {
    } else {
      ChangesOfSorted(rows[..|rows| - 1], rows[|rows| - 1].at);
    }
  }

  lemma {:induction false} InsertKeepsOrder(rows: seq<LogRow>, row: LogRow)
    requires InTimeOrder(rows)
    ensures InTimeOrder(InsertByTime(rows, row)) && |InsertByTime(rows, row)| == |rows| + 1
    ensures forall k :: 0 <= k <= |rows| ==> InsertByTime(rows, row)[k] == row || InsertByTime(rows, row)[k] in rows
  {
    if rows != [] && rows[|rows| - 1].at > row.at {
      InsertKeepsOrder(rows[..|rows| - 1], row);
    }
  }

  lemma {:induction false} ByTimeIsOrdered(rows: seq<LogRow>)
    ensures InTimeOrder(ByTime(rows)) && |ByTime(rows)| == |rows|
  {
    if rows == [] {
    } else {
      ByTimeIsOrdered(rows[..|rows| - 1]);
      InsertKeepsOrder(ByTime(rows[..|rows| - 1]), rows[|rows| - 1]);
    }
  }

  /** The listing has each of the problem's rows as often as it was written. */
  lemma {:induction false} ByTimeKeepsRows(rows: seq<LogRow>)
    ensures multiset(ByTime(rows)) == multiset(rows)
  {
    if rows == [] {
    } else {
      var front, last := rows[..|rows| - 1], rows[|rows| - 1];
      ByTimeKeepsRows(front);
      InsertKeepsRows(ByTime(front), last);
      assert front + [last] == rows;
    }
  }

  lemma {:induction false} InsertKeepsRows(rows: seq<LogRow>, row: LogRow)
    ensures multiset(InsertByTime(rows, row)) == multiset(rows) + multiset{row}
  {
    if rows != [] && rows[|rows| - 1].at > row.at {
      var front, last := rows[..|rows| - 1], rows[|rows| - 1];
      InsertKeepsRows(front, row);
      assert front + [last] == rows;
    }
  }

  /** Sorting leaves a list as it is exactly when it is sorted. */
  lemma ByTimeFixesOrdered(rows: seq<LogRow>)
    ensures ByTime(rows) == rows <==> InTimeOrder(rows)
  {
    ByTimeIsOrdered(rows);
    if InTimeOrder(rows) {
      ByTimeOfOrdered(rows);
    }
  }

  lemma InsertAfter(rows: seq<LogRow>, row: LogRow)
    requires forall k :: 0 <= k < |rows| ==> rows[k].at <= row.at
    ensures InsertByTime(rows, row) == rows + [row]
  {
  }

  lemma InsertBefore(front: seq<LogRow>, last: LogRow, row: LogRow)
    requires last.at > row.at
    ensures InsertByTime(front + [last], row) == InsertByTime(front, row) + [last]
  {
    assert (front + [last])[..|front|] == front;
  }

  /** Inserting a row and then picking the changes is picking them and then inserting. */
  lemma {:induction false} ChangesOfInsert(rows: seq<LogRow>, row: LogRow)
    requires InTimeOrder(rows)
    ensures Changes(InsertByTime(rows, row))
         == if row.action.StatusChange? then InsertByTime(Changes(rows), row) else Changes(rows)
  {
    hide Changes, InsertByTime;
    if rows == [] || rows[|rows| - 1].at <= row.at {
      InsertAfter(rows, row);
      ChangesSnoc(rows, row);
      ChangesOfSorted(rows, row.at);
      InsertAfter(Changes(rows), row);
    } else {
      var front, last := rows[..|rows| - 1], rows[|rows| - 1];
      assert front + [last] == rows;
      ChangesOfInsert(front, row);
      InsertBefore(front, last, row);
      ChangesSnoc(InsertByTime(front, row), last);
      ChangesSnoc(front, last);
      InsertBefore(Changes(front), last, row);
      if !last.action.StatusChange? {
        assert Changes(InsertByTime(rows, row)) == Changes(InsertByTime(front, row));
      }
    }
  }

  lemma {:induction false} ChangesOfByTime(rows: seq<LogRow>)
    ensures Changes(ByTime(rows)) == ByTime(Changes(rows))
  {
    if rows == [] {
    } else {
      hide ByTime, Changes;
      ChangesOfByTime(rows[..|rows| - 1]);
      ChangesOfLater(rows[..|rows| - 1], rows[|rows| - 1]);
      assert rows[..|rows| - 1] + [rows[|rows| - 1]] == rows;
    }
  }

  lemma ChangesOfLater(front: seq<LogRow>, last: LogRow)
    requires Changes(ByTime(front)) == ByTime(Changes(front))
    ensures Changes(ByTime(front + [last])) == ByTime(Changes(front + [last]))
  {
    hide ByTime, Changes, InsertByTime, InTimeOrder;
    ByTimeIsOrdered(front);
    ChangesOfInsert(ByTime(front), last);
    ChangesSnoc(front, last);
    ByTimeSnoc(front, last);
    ByTimeSnoc(Changes(front), last);
  }

  lemma ByTimeSnoc(rows: seq<LogRow>, row: LogRow)
    ensures ByTime(rows + [row]) == InsertByTime(ByTime(rows), row)
  {
    assert (rows + [row])[..|rows|] == rows;
  }

  /** The listing has a problem's status changes in the order they were written if and only if the
      transactions that wrote them began in that order. Comments and reassignments play no part. */
  lemma ListingOrderIff(db: Db, id: Id)
    ensures Changes(Listing(db, id)) == Changes(LogsOf(db.logs, id)) <==> InTimeOrder(Changes(LogsOf(db.logs, id)))
  {
    ChangesOfByTime(LogsOf(db.logs, id));
    ByTimeFixesOrdered(Changes(LogsOf(db.logs, id)));
  }

  lemma {:induction false} FollowChanges(start: Status, rows: seq<LogRow>, id: Id)
    ensures Follow(start, Changes(rows), id) == Follow(start, rows, id)
  {
    if rows == [] {
    } else {
      var front, last := rows[..|rows| - 1], rows[|rows| - 1];
      FollowChanges(start, front, id);
      assert front + [last] == rows;
      ChangesSnoc(front, last);
      FollowOneMore(start, front, last, id);
      FollowOneMore(start, Changes(front), last, id);
    }
  }

  /** In that case the listing shows the chain, for every problem of every run. */
  lemma ListingShowsChain(ops: seq<Op>, id: Id)
    requires id in Exec(EMPTY, ops).problems && InTimeOrder(Changes(LogsOf(Exec(EMPTY, ops).logs, id)))
    ensures id in Exec(EMPTY, ops).initial
    ensures var db := Exec(EMPTY, ops);
            && Changes(Listing(db, id)) == Changes(LogsOf(db.logs, id))
            && Follow(db.initial[id], Listing(db, id), id) == Some(db.problems[id].status)
  {
    StatusChain(ops);
    hide Exec, Follow, Changes, ByTime, LogsOf, InTimeOrder;
    var db := Exec(EMPTY, ops);
    ListingOrderIff(db, id);
    FollowChanges(db.initial[id], Listing(db, id), id);
    FollowChanges(db.initial[id], LogsOf(db.logs, id), id);
    FollowOwnLogs(db.initial[id], db.logs, id);
  }

  const BLANK: Columns := Columns(None, None, None, None, "", "", "")

  /** An update of the status alone. */
  function StatusTo(status: int): UpdateInput {
    UpdateInput(Some(status), None, None, None, None, None, None, None, true)
  }

  /** Two updates that overlap need not: the one that began first may get the row lock second, and
      then the listing shows its change before the one it started from. */
  lemma OverlapBreaksListing(a: int, b: int, c: int, actor: int)
    requires a != b && b != c
    ensures var ops := [Create(0, Some(a), BLANK, true),
                        Update(0, StatusTo(b), actor, 2),
                        Update(0, StatusTo(c), actor, 1)];
            var db := Exec(EMPTY, ops);
            && db.logs == [LogRow(0, StatusChange(Some(a), Some(b)), "", actor, 2),
                           LogRow(0, StatusChange(Some(b), Some(c)), "", actor, 1)]
            && Follow(Some(a), Listing(db, 0), 0) == None
  {
    var x, y, z := Create(0, Some(a), BLANK, true), Update(0, StatusTo(b), actor, 2),
                   Update(0, StatusTo(c), actor, 1);
    var r := LogRow(0, StatusChange(Some(a), Some(b)), "", actor, 2);
    var s := LogRow(0, StatusChange(Some(b), Some(c)), "", actor, 1);
    hide Exec, Follow, ByTime, LogsOf, Apply;
    ThreeOps(x, y, z);
    TwoChanges(a, b, c, actor);
    LaterBegan(r, s);
    BrokenOrder(a, b, c, r, s);
  }

  lemma TwoChanges(a: int, b: int, c: int, actor: int)
    requires a != b && b != c
    ensures Apply(Apply(Apply(EMPTY, Create(0, Some(a), BLANK, true)), Update(0, StatusTo(b), actor, 2)),
                  Update(0, StatusTo(c), actor, 1)).logs
         == [LogRow(0, StatusChange(Some(a), Some(b)), "", actor, 2),
             LogRow(0, StatusChange(Some(b), Some(c)), "", actor, 1)]
  {
  }

  lemma BrokenOrder(a: int, b: int, c: int, r: LogRow, s: LogRow)
    requires a != b && s.problem == 0 && s.action == StatusChange(Some(b), Some(c))
    ensures Follow(Some(a), [s, r], 0) == None
  {
    FollowOneMore(Some(a), [], s, 0);
    FollowOneMore(Some(a), [s], r, 0);
    assert [] + [s] == [s] && [s] + [r] == [s, r];
  }

  lemma ThreeOps(x: Op, y: Op, z: Op)
    ensures Exec(EMPTY, [x, y, z]) == Apply(Apply(Apply(EMPTY, x), y), z)
  {
    assert [x, y, z][..2] == [x, y] && [x, y][..1] == [x] && [x][..0] == [];
    assert Exec(EMPTY, [x]) == Apply(EMPTY, x);
    assert Exec(EMPTY, [x, y]) == Apply(Apply(EMPTY, x), y);
  }

  /** Two rows of one problem, the second from a transaction that began earlier, swap places. */
  lemma LaterBegan(r: LogRow, s: LogRow)
    requires r.problem == s.problem && s.at < r.at
    ensures ByTime(LogsOf([r, s], r.problem)) == [s, r]
  {
    assert [r, s][..1] == [r] && [r][..0] == [];
    assert LogsOf([r], r.problem) == [r];
    assert LogsOf([r, s], r.problem) == [r, s];
    assert ByTime([r]) == [r];
    assert InsertByTime([], s) == [s];
    assert ByTime([r, s]) == InsertByTime([r], s);
  }

  // --- Updates ----------------------------------------------------------------------------------

  /** Every column sent replaces the stored one; the others stay. */
  ghost function UpdatedProblem(was: Problem, x: UpdateInput): (p: Problem)
    ensures p.uuid == was.uuid && p.deleted == was.deleted
    ensures p.status == if x.status.Some? then x.status else was.status
    ensures p.columns.category == if x.category.Some? then x.category else was.columns.category
    ensures p.columns.typeItem == if x.typeItem.Some? then x.typeItem else was.columns.typeItem
    ensures p.columns.inspection == if x.inspection.Some? then x.inspection else was.columns.inspection
    ensures p.columns.cover == if x.cover.Some? then x.cover else was.columns.cover
    ensures p.columns.title == if x.title.Some? then x.title.value else was.columns.title
    ensures p.columns.description == if x.description.Some? then x.description.value else was.columns.description
    ensures p.columns.note == if x.note.Some? then x.note.value else was.columns.note
  {
    was.(status := Kept(x.status, was.status), columns := Coalesced(x, was.columns))
  }

  // --- Deletion ---------------------------------------------------------------------------------

  /** A deleted problem is frozen: whatever is asked of it afterwards, it stays as it was deleted and no
      log row is added to it. */
  lemma {:induction false} DeletedIsFrozen(db: Db, ops: seq<Op>, id: Id)
    requires Inv(db) && id in db.problems && db.problems[id].deleted
    ensures id in Exec(db, ops).problems && Exec(db, ops).problems[id] == db.problems[id]
    ensures LogsOf(Exec(db, ops).logs, id) == LogsOf(db.logs, id)
    ensures Inv(Exec(db, ops))
  {
    hide Inv, LogsOf, Apply;
    if ops == [] {
    } else {
      var front, op := ops[..|ops| - 1], ops[|ops| - 1];
      DeletedIsFrozen(db, front, id);
      ApplyKeeps(Exec(db, front), op);
      ApplyFreezes(Exec(db, front), op, id);
    }
  }

  lemma ApplyFreezes(db: Db, op: Op, id: Id)
    requires Inv(db) && id in db.problems && db.problems[id].deleted
    ensures id in Apply(db, op).problems && Apply(db, op).problems[id] == db.problems[id]
    ensures LogsOf(Apply(db, op).logs, id) == LogsOf(db.logs, id)
  {
    hide Follow, LogsOf;
    var logs := Apply(db, op).logs;
    if logs != db.logs {
      LogsSnoc(db.logs, logs[|db.logs|], id);
    }
  }

  lemma LogsSnoc(logs: seq<LogRow>, row: LogRow, id: Id)
    ensures LogsOf(logs + [row], id) == LogsOf(logs, id) + if row.problem == id then [row] else []
  {
    assert (logs + [row])[..|logs|] == logs;
  }

  // --- The service as it runs -------------------------------------------------------------------

  class ProblemDb {
    var db: Db

    constructor ()
      ensures db == EMPTY && Inv(db)
    {
      db := EMPTY;
    }

    /** Idempotent on the client uuid: a repeated create returns the first problem while it lives. */
    method CreateProblem(uuid: int, status: Status, columns: Columns, referencesOk: bool)
      returns (r: Result<Id, ProblemError>)
      requires Inv(db)
      modifies this
      ensures Inv(db) && db == Apply(old(db), Create(uuid, status, columns, referencesOk))
      ensures uuid in old(db.byUuid) ==>
                r == if old(db.problems[db.byUuid[uuid]].deleted) then Failure(NotFound) else Success(old(db.byUuid[uuid]))
      ensures uuid !in old(db.byUuid) ==> r == if referencesOk then Success(old(db.next)) else Failure(MissingReference)
      ensures db.logs == old(db.logs)
      ensures uuid !in old(db.byUuid) && referencesOk ==>
                && old(db.next) !in old(db.problems)
                && db.byUuid == old(db.byUuid)[uuid := old(db.next)]
                && db.problems == old(db.problems)[old(db.next) := Problem(
                     uuid := uuid, status := status, columns := columns, deleted := false)]
      ensures uuid in old(db.byUuid) || !referencesOk ==> db.problems == old(db.problems) && db.byUuid == old(db.byUuid)
    {
      ApplyKeeps(db, Create(uuid, status, columns, referencesOk));
      hide Follow;
      var id := db.next;
      if uuid in db.byUuid {
        var existing := db.byUuid[uuid];
        db := db.(next := id + 1);
        if db.problems[existing].deleted {
          return Failure(NotFound);
        }
        return Success(existing);
      }
      if !referencesOk {
        db := db.(next := id + 1);
        return Failure(MissingReference);
      }
      db := Db(
        db.problems[id := Problem(uuid, status, columns, false)], db.byUuid[uuid := id], db.logs, id + 1,
        db.initial[id := status]);
      r := Success(id);
    }

    /** The other columns of the UPDATE, one COALESCE each. */
    method Coalesce(x: UpdateInput, current: Columns) returns (c: Columns)
      ensures c == Coalesced(x, current)
    {
      c := current;
      if x.category.Some? { c := c.(category := x.category); }
      if x.typeItem.Some? { c := c.(typeItem := x.typeItem); }
      if x.inspection.Some? { c := c.(inspection := x.inspection); }
      if x.cover.Some? { c := c.(cover := x.cover); }
      if x.title.Some? { c := c.(title := x.title.value); }
      if x.description.Some? { c := c.(description := x.description.value); }
      if x.note.Some? { c := c.(note := x.note.value); }
    }

    /** The update and its log row are one transaction: both or neither. */
    method UpdateProblem(id: Id, x: UpdateInput, actor: int, begun: Time) returns (r: Result<Problem, ProblemError>)
      requires Inv(db)
      modifies this
      ensures Inv(db) && db == Apply(old(db), Update(id, x, actor, begun))
      ensures r == if !Live(old(db), id) then Failure(NotFound)
                   else if !x.referencesOk then Failure(MissingReference) else Success(db.problems[id])
      ensures r.Failure? ==> db == old(db)
      ensures r.Success? <==> id in old(db.problems) && !old(db.problems)[id].deleted && x.referencesOk
      ensures r.Success? ==>
                && r.value == UpdatedProblem(old(db.problems)[id], x)
                && db.problems == old(db.problems)[id := r.value] && db.byUuid == old(db.byUuid)
                && var was := old(db.problems)[id].status;
                db.logs == if x.status.Some? && x.status != was
                           then old(db.logs) + [LogRow(
                             problem := id, action := StatusChange(from := was, to := x.status), note := "",
                             operator := actor, at := begun)]
                           else old(db.logs)
    {
      ApplyKeeps(db, Update(id, x, actor, begun));
      hide Follow;
      if id !in db.problems || db.problems[id].deleted {
        return Failure(NotFound);
      }
      var current := db.problems[id].status;
      if !x.referencesOk {
        return Failure(MissingReference);
      }
      var p := db.problems[id];
      if x.status.Some? { p := p.(status := x.status); }
      var c := Coalesce(x, p.columns);
      p := p.(columns := c);
      db := db.(problems := db.problems[id := p]);
      if StatusChanged(x.status, current) {
        db := db.(logs := db.logs + [LogRow(id, StatusChange(current, x.status), "", actor, begun)]);
      }
      r := Success(p);
    }

    /** Clients write comments and reassignments only. */
    method AppendLog(
        id: Id, kind: LogKind, note: string, operator: Option<int>, actor: int, operatorOk: bool, begun: Time)
      returns (error: Option<ProblemError>)
      requires Inv(db)
      modifies this
      ensures Inv(db)
      ensures db == Apply(old(db), CreateLog(
                id, kind, note, if operator.GetOr(0) != 0 then operator.value else actor, operatorOk, begun))
      ensures error == if kind.OtherKind? then Some(InvalidLogAction)
                       else if !Live(old(db), id) then Some(NotFound)
                       else if !operatorOk then Some(MissingReference) else None
      ensures error.None? <==>
                (kind.ClientComment? || kind.ClientReassign?) && id in old(db.problems) && !old(db.problems)[id].deleted && operatorOk
      ensures error.Some? ==> db == old(db)
      ensures error.None? ==>
                && db.problems == old(db.problems) && db.byUuid == old(db.byUuid) && |db.logs| == |old(db.logs)| + 1
                && old(db.logs) < db.logs
                && var row := db.logs[|old(db.logs)|];
                && row.problem == id && row.note == note && row.at == begun
                && row.operator == (if operator.Some? && operator.value != 0 then operator.value else actor)
                && (kind.ClientComment? ==> row.action == Comment) && (kind.ClientReassign? ==> row.action == Reassign)
    {
      var author := actor;
      if operator.Some? && operator.value != 0 {
        author := operator.value;
      }
      ApplyKeeps(db, CreateLog(id, kind, note, author, operatorOk, begun));
      hide Follow;
      if kind.OtherKind? {
        return Some(InvalidLogAction);
      }
      if id !in db.problems || db.problems[id].deleted {
        return Some(NotFound);
      }
      if !operatorOk {
        return Some(MissingReference);
      }
      var action := if kind.ClientComment? then Comment else Reassign;
      db := db.(logs := db.logs + [LogRow(id, action, note, author, begun)]);
      error := None;
    }

    method DeleteProblem(id: Id) returns (error: Option<ProblemError>)
      requires Inv(db)
      modifies this
      ensures Inv(db) && db == Apply(old(db), Delete(id))
      ensures error == if Live(old(db), id) then None else Some(NotFound)
      ensures error.None? <==> id in old(db.problems) && !old(db.problems)[id].deleted
      ensures error.Some? ==> db == old(db)
      ensures error.None? ==>
                && db.problems.Keys == old(db.problems).Keys && db.problems[id].deleted
                && db.problems[id].(deleted := false) == old(db.problems)[id]
                && (forall k :: k in db.problems && k != id ==> db.problems[k] == old(db.problems)[k])
                && db.byUuid == old(db.byUuid) && db.logs == old(db.logs)
    {
      ApplyKeeps(db, Delete(id));
      hide Follow;
      if id !in db.problems || db.problems[id].deleted {
        return Some(NotFound);
      }
      db := db.(problems := db.problems[id := db.problems[id].(deleted := true)]);
      error := None;
    }
  }
}
