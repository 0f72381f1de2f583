/** The batch sync service: one outer transaction, one savepoint per item, four ordered passes and
    client_uuid -> server id maps. */
module SyncService {
  import opened Wrappers
  import opened SyncModel
  import opened SyncTables
  import opened SyncStore
  import opened SyncSpec
  import opened SyncApply
  import opened SyncBatch
  import opened SyncMeaning

  /** A transaction's private copy of the tables. A savepoint is a saved copy; rolling back to it
      restores every table and index, but id sequences never go back. */
  class Tx {
    const ctx: Ctx
    var store: Store

    constructor (ctx: Ctx, store: Store)
      ensures this.ctx == ctx && this.store == store
    {
      this.ctx, this.store := ctx, store;
    }

    method RollbackTo(savepoint: Store)
      modifies this
      ensures store == savepoint.(next := old(store.next))
    {
      store := savepoint.(next := store.next);
    }
  }

  /** The resolution maps threaded through the passes of one batch. */
  class BatchState {
    var inspectionIds: map<Uuid, Id>
    var problemIds: map<Uuid, Id>

    constructor ()
      ensures inspectionIds == map[] && problemIds == map[]
    {
      inspectionIds, problemIds := map[], map[];
    }
  }

  function SessionOf(tx: Tx, state: BatchState): Session
    reads tx, state
  {
    Session(tx.store, state.inspectionIds, state.problemIds)
  }

  /** Errors that the body of a savepoint returns. */
  datatype SyncError = ParentNotFound | SeqClash | BadGeometry | OwnerMissing | Db(error: DbError)

  function RejectInspectionErr(uuid: Uuid, e: SyncError): ItemResult {
    if e == Db(ForeignKeyViolation) then Rejection(uuid, FkViolation) else Rejection(uuid, Internal)
  }

  function RejectTrajectoryErr(uuid: Uuid, e: SyncError): ItemResult {
    match e
    case ParentNotFound => Rejection(uuid, InspectionNotFound)
    case SeqClash => Rejection(uuid, SeqConflict)
    case BadGeometry => Rejection(uuid, InvalidGeom)
    case Db(ForeignKeyViolation) => Rejection(uuid, FkViolation)
    case _ => Rejection(uuid, Internal)
  }

  function RejectProblemErr(uuid: Uuid, e: SyncError): ItemResult {
    match e
    case ParentNotFound => Rejection(uuid, InspectionNotFound)
    case BadGeometry => Rejection(uuid, InvalidGeom)
    case Db(ForeignKeyViolation) => Rejection(uuid, FkViolation)
    case _ => Rejection(uuid, Internal)
  }

  function RejectMediaErr(uuid: Uuid, e: SyncError): ItemResult {
    match e
    case OwnerMissing => Rejection(uuid, OwnerNotFound)
    case Db(ForeignKeyViolation) => Rejection(uuid, FkViolation)
    case _ => Rejection(uuid, Internal)
  }

  // --- The four upserts -------------------------------------------------------------------------

  method UpsertInspection(tx: Tx, item: SyncInspection, state: BatchState) returns (r: ItemResult)
    requires Indexed(tx.store)
    modifies tx, state
    ensures (SessionOf(tx, state), r) == ApplyInspection(tx.ctx, old(SessionOf(tx, state)), item)
  {
    hide IndexOk, Inserted, InspectionRefsOk, TimesOk, InspectionRow;
    var row := RowOfInspection(tx.ctx, item);

    var savepoint := tx.store;
    var early := if row.status.UnknownStatus? then Some(OtherError) else None;
    var check := if TimesOk(row) then None else Some(OtherError);
    var late := if InspectionRefsOk(tx.ctx.refs, row) then None else Some(ForeignKeyViolation);
    var t, next, res := UpsertReturningId(
      tx.store.inspections, tx.store.next.inspection, item.uuid, row, early, check, late, true);
    tx.store := tx.store.(inspections := t, next := tx.store.next.(inspection := next));

    if res.Failure? {
      tx.RollbackTo(savepoint);
      return RejectInspectionErr(item.uuid, Db(res.error));
    }
    state.inspectionIds := state.inspectionIds[item.uuid := res.value.0];
    r := AcceptedOrDuplicate(item.uuid, res.value.0, res.value.1);
  }

  /** The request's columns, with the acting user, {} and IN_PROGRESS for what is absent. */
  method RowOfInspection(ctx: Ctx, item: SyncInspection) returns (row: InspectionData)
    ensures row == InspectionRow(ctx, item)
  {
    var inspectorId := ctx.actor;
    if item.inspectorId.Some? && item.inspectorId.value != 0 {
      inspectorId := item.inspectorId.value;
    }
    var device := "{}";
    if item.deviceInfo.Some? {
      device := item.deviceInfo.value;
    }
    var status := InProgress;
    if item.status.Some? && item.status.value != UnknownStatus("") {
      status := item.status.value;
    }
    row := InspectionData(
      item.projectId, item.taskId, inspectorId, status, item.startedAt, item.endedAt, device,
      item.note.GetOr(""), ctx.actor, None, 0, 0.0, 0, false);
  }

  method UpsertTrajectoryPoint(tx: Tx, item: SyncPoint, state: BatchState) returns (r: ItemResult)
    requires Indexed(tx.store)
    modifies tx
    ensures (SessionOf(tx, state), r) == ApplyPoint(old(SessionOf(tx, state)), item)
  {
    if !item.geom.encodes {
      return Rejection(item.uuid, InvalidGeom);
    }
    var savepoint := tx.store;
    var res := InsertTrajectoryPoint(tx, item, state);
    if res.Failure? {
      tx.RollbackTo(savepoint);
      return RejectTrajectoryErr(item.uuid, res.error);
    }
    r := AcceptedOrDuplicate(item.uuid, res.value.0, res.value.1);
  }

  /** The body of the savepoint; a failure may leave the tables half changed. */
  method InsertTrajectoryPoint(tx: Tx, item: SyncPoint, state: BatchState)
    returns (res: Result<(Id, bool), SyncError>)
    requires Indexed(tx.store) && item.geom.encodes
    modifies tx
    ensures var s := old(SessionOf(tx, state));
            var (s', r) := ApplyPoint(s, item);
            if res.Success? then
              SessionOf(tx, state) == s' && r == AcceptedOrDuplicate(item.uuid, res.value.0, res.value.1)
            else
              s' == s.(store := s.store.(next := tx.store.next)) && r == RejectTrajectoryErr(item.uuid, res.error)
  {
    var parent: Id;
    if item.inspection in state.inspectionIds {
      parent := state.inspectionIds[item.inspection];
    } else {
      var live := LiveInspectionId(tx.store, item.inspection);
      if live.None? {
        return Failure(ParentNotFound);
      }
      parent := live.value;
    }
    if !item.geom.valid {
      return Failure(BadGeometry);
    }
    var early := if FitsInt4(item.seqNo) then None else Some(OtherError);
    var late := if (parent, item.seqNo) in tx.store.bySeq then Some(UniqueViolation) else None;
    var row := PointData(parent, item.seqNo, Sample(
      Ewkb(item.geom), item.recordedAt, item.speed, item.bearing, item.altitude, item.accuracy));
    var t, next, up := UpsertReturningId(tx.store.points, tx.store.next.point, item.uuid, row, early, None, late, true);
    tx.store := tx.store.(points := t, next := tx.store.next.(point := next));
    if up.Failure? {
      return Failure(if up.error == UniqueViolation then SeqClash else Db(up.error));
    }
    if up.value.1 {
      tx.store := tx.store.(bySeq := tx.store.bySeq[(parent, item.seqNo) := up.value.0]);
    }
    res := Success(up.value);
  }

  method UpsertProblem(tx: Tx, item: SyncProblem, state: BatchState) returns (r: ItemResult)
    requires Indexed(tx.store)
    modifies tx, state
    ensures (SessionOf(tx, state), r) == ApplyProblem(tx.ctx, old(SessionOf(tx, state)), item)
  {
    if !item.geom.encodes {
      return Rejection(item.uuid, InvalidGeom);
    }
    var savepoint := tx.store;
    var res := InsertProblem(tx, item, state);
    if res.Failure? {
      tx.RollbackTo(savepoint);
      return RejectProblemErr(item.uuid, res.error);
    }
    state.problemIds := state.problemIds[item.uuid := res.value.0];
    r := AcceptedOrDuplicate(item.uuid, res.value.0, res.value.1);
  }

  method InsertProblem(tx: Tx, item: SyncProblem, state: BatchState)
    returns (res: Result<(Id, bool), SyncError>)
    requires Indexed(tx.store) && item.geom.encodes
    modifies tx
    ensures var s := old(SessionOf(tx, state));
            var (s', r) := ApplyProblem(tx.ctx, s, item);
            if res.Success? then
              && s' == Session(tx.store, s.inspectionIds, s.problemIds[item.uuid := res.value.0])
              && r == AcceptedOrDuplicate(item.uuid, res.value.0, res.value.1)
            else
              s' == s.(store := s.store.(next := tx.store.next)) && r == RejectProblemErr(item.uuid, res.error)
  {
    hide Inserted, IndexOk, ProblemRefsOk, FitsInt4;
    var parent: Option<Id> := None;
    if item.inspection.Some? {
      if item.inspection.value in state.inspectionIds {
        parent := Some(state.inspectionIds[item.inspection.value]);
      } else {
        parent := LiveInspectionId(tx.store, item.inspection.value);
        if parent.None? {
          return Failure(ParentNotFound);
        }
      }
    }
    var dictVersion := ResolveDictVersion(tx.ctx.refs, item.dictVersion);
    if !item.geom.valid {
      return Failure(BadGeometry);
    }
    var inspectorId := tx.ctx.actor;
    if item.inspectorId.Some? && item.inspectorId.value != 0 {
      inspectorId := item.inspectorId.value;
    }
    var row := ProblemData(parent, ProblemColumns(
      item.projectId, inspectorId, Ewkb(item.geom), item.typeItem, item.statusItem, item.categoryItem,
      dictVersion, item.title.GetOr(""), item.description.GetOr(""), item.note.GetOr(""),
      item.capturedAt, tx.ctx.actor), false);
    var early := if FitsInt4(dictVersion) then None else Some(OtherError);
    var late := if ProblemRefsOk(tx.ctx.refs, row.columns) then None else Some(ForeignKeyViolation);
    var visible := LiveProblemId(tx.store, item.uuid).Some?;
    var t, next, up := UpsertReturningId(
      tx.store.problems, tx.store.next.problem, item.uuid, row, early, None, late, visible);
    tx.store := tx.store.(problems := t, next := tx.store.next.(problem := next));
    res := if up.Success? then Success(up.value) else Failure(Db(up.error));
  }

  /** The supplied version, else the dictionary's current one, else 1. */
  method ResolveDictVersion(refs: Refs, supplied: Option<int>) returns (v: int)
    ensures v == supplied.GetOr(refs.problemTypeVersion.GetOr(1))
  {
    if supplied.Some? {
      return supplied.value;
    }
    if refs.problemTypeVersion.None? {
      return 1;
    }
    v := refs.problemTypeVersion.value;
  }

  method UpsertMedia(tx: Tx, item: SyncMedia, state: BatchState) returns (r: ItemResult)
    requires Indexed(tx.store)
    modifies tx
    ensures (SessionOf(tx, state), r) == ApplyMedia(tx.ctx, old(SessionOf(tx, state)), item)
  {
    var savepoint := tx.store;
    var res := InsertMedia(tx, item, state);
    if res.Failure? {
      tx.RollbackTo(savepoint);
      return RejectMediaErr(item.uuid, res.error);
    }
    r := AcceptedOrDuplicate(item.uuid, res.value.0, res.value.1);
  }

  method InsertMedia(tx: Tx, item: SyncMedia, state: BatchState)
    returns (res: Result<(Id, bool), SyncError>)
    requires Indexed(tx.store)
    modifies tx
    ensures var s := old(SessionOf(tx, state));
            var (s', r) := ApplyMedia(tx.ctx, s, item);
            if res.Success? then
              SessionOf(tx, state) == s' && r == AcceptedOrDuplicate(item.uuid, res.value.0, res.value.1)
            else
              s' == s.(store := s.store.(next := tx.store.next)) && r == RejectMediaErr(item.uuid, res.error)
  {
    hide Inserted, MediaEncodes, ResolveOwner, OwnerResolves;
    var region := "ap-guangzhou";
    if item.region.Some? && item.region.value != "" {
      region := item.region.value;
    }
    var contentType := "image/jpeg";
    if item.contentType.Some? && item.contentType.value != "" {
      contentType := item.contentType.value;
    }
    var owner := ResolveMediaOwner(tx, item, state);
    if owner.None? {
      return Failure(OwnerMissing);
    }
    var row := MediaData(OwnerKey(item.ownerType, owner.value), item.bucket, item.key, MediaColumns(
      item.tier, region, contentType, item.byteSize, item.width, item.height, item.etag,
      item.captureState, item.group, tx.ctx.actor), false);
    var early := if MediaEncodes(item) then None else Some(OtherError);
    var late := if (item.bucket, item.key) in tx.store.byObject then Some(UniqueViolation) else None;
    var visible := item.uuid in tx.store.media.byUuid
                   && !tx.store.media.rows[tx.store.media.byUuid[item.uuid]].data.deleted;
    var t, next, up := UpsertReturningId(
      tx.store.media, tx.store.next.media, item.uuid, row, early, None, late, visible);
    tx.store := tx.store.(media := t, next := tx.store.next.(media := next));
    if up.Failure? {
      return Failure(Db(up.error));
    }
    if up.value.1 {
      tx.store := tx.store.(byObject := tx.store.byObject[(item.bucket, item.key) := up.value.0]);
    }
    res := Success(up.value);
  }

  method ResolveMediaOwner(tx: Tx, item: SyncMedia, state: BatchState) returns (id: Option<Id>)
    requires Indexed(tx.store)
    ensures id == ResolveOwner(SessionOf(tx, state), item)
  {
    if item.owner.None? {
      return None;
    }
    var u := item.owner.value;
    if item.ownerType == InspectionOwner {
      if u in state.inspectionIds {
        return Some(state.inspectionIds[u]);
      }
      return LiveInspectionId(tx.store, u);
    }
    if item.ownerType == ProblemOwner {
      if u in state.problemIds {
        return Some(state.problemIds[u]);
      }
      return LiveProblemId(tx.store, u);
    }
    id := None;
  }

  // --- The batch --------------------------------------------------------------------------------

  /** The shared connection pool: the committed tables. */
  class Pool {
    var store: Store

    constructor (store: Store)
      ensures this.store == store
    {
      this.store := store;
    }

    /** A new installation: a first call of `Process` meets its requirements. */
    constructor Install(ghost refs: Refs)
      ensures store == EMPTY_STORE && StoreOk(store) && RefsOk(refs, store)
    {
      store := EMPTY_STORE;
      new;
      EmptyStoreOk(refs);
    }
  }

  method InspectionPass(
      tx: Tx, items: seq<SyncInspection>, state: BatchState, results: seq<ItemResult>,
      ghost s0: Store, ghost es: seq<Event>)
    returns (results': seq<ItemResult>)
    requires Indexed(tx.store) && BatchSoFar(tx.ctx, s0, es, SessionOf(tx, state), results)
    modifies tx, state
    ensures Indexed(tx.store)
    ensures BatchSoFar(tx.ctx, s0, es + InspectionEvents(items), SessionOf(tx, state), results')
  {
    hide BatchSoFar, ApplyInspection, ApplyPoint, ApplyProblem, ApplyMedia, IndexOk;
    results' := results;
    assert es + InspectionEvents(items[..0]) == es;
    for i := 0 to |items|
      invariant Indexed(tx.store)
      invariant BatchSoFar(tx.ctx, s0, es + InspectionEvents(items[..i]), SessionOf(tx, state), results')
    {
      ghost var done, s := es + InspectionEvents(items[..i]), SessionOf(tx, state);
      BatchGrows(tx.ctx, s0, done, s, results', OfInspection(items[i]));
      var r := UpsertInspection(tx, items[i], state);
      results' := results' + [r];
      assert done + [Deliver(OfInspection(items[i]))] == es + InspectionEvents(items[..i + 1]);
    }
    assert items[..|items|] == items;
  }

  method TrajectoryPass(
      tx: Tx, items: seq<SyncPoint>, state: BatchState, results: seq<ItemResult>,
      ghost s0: Store, ghost es: seq<Event>)
    returns (results': seq<ItemResult>)
    requires Indexed(tx.store) && BatchSoFar(tx.ctx, s0, es, SessionOf(tx, state), results)
    modifies tx
    ensures Indexed(tx.store)
    ensures BatchSoFar(tx.ctx, s0, es + PointEvents(items), SessionOf(tx, state), results')
  {
    hide BatchSoFar, ApplyInspection, ApplyPoint, ApplyProblem, ApplyMedia, IndexOk;
    results' := results;
    assert es + PointEvents(items[..0]) == es;
    for i := 0 to |items|
      invariant Indexed(tx.store)
      invariant BatchSoFar(tx.ctx, s0, es + PointEvents(items[..i]), SessionOf(tx, state), results')
    {
      ghost var done, s := es + PointEvents(items[..i]), SessionOf(tx, state);
      BatchGrows(tx.ctx, s0, done, s, results', OfPoint(items[i]));
      var r := UpsertTrajectoryPoint(tx, items[i], state);
      results' := results' + [r];
      assert done + [Deliver(OfPoint(items[i]))] == es + PointEvents(items[..i + 1]);
    }
    assert items[..|items|] == items;
  }

  method ProblemPass(
      tx: Tx, items: seq<SyncProblem>, state: BatchState, results: seq<ItemResult>,
      ghost s0: Store, ghost es: seq<Event>)
    returns (results': seq<ItemResult>)
    requires Indexed(tx.store) && BatchSoFar(tx.ctx, s0, es, SessionOf(tx, state), results)
    modifies tx, state
    ensures Indexed(tx.store)
    ensures BatchSoFar(tx.ctx, s0, es + ProblemEvents(items), SessionOf(tx, state), results')
  {
    hide BatchSoFar, ApplyInspection, ApplyPoint, ApplyProblem, ApplyMedia, IndexOk;
    results' := results;
    assert es + ProblemEvents(items[..0]) == es;
    for i := 0 to |items|
      invariant Indexed(tx.store)
      invariant BatchSoFar(tx.ctx, s0, es + ProblemEvents(items[..i]), SessionOf(tx, state), results')
    {
      ghost var done, s := es + ProblemEvents(items[..i]), SessionOf(tx, state);
      BatchGrows(tx.ctx, s0, done, s, results', OfProblem(items[i]));
      var r := UpsertProblem(tx, items[i], state);
      results' := results' + [r];
      assert done + [Deliver(OfProblem(items[i]))] == es + ProblemEvents(items[..i + 1]);
    }
    assert items[..|items|] == items;
  }

  method MediaPass(
      tx: Tx, items: seq<SyncMedia>, state: BatchState, results: seq<ItemResult>,
      ghost s0: Store, ghost es: seq<Event>)
    returns (results': seq<ItemResult>)
    requires Indexed(tx.store) && BatchSoFar(tx.ctx, s0, es, SessionOf(tx, state), results)
    modifies tx
    ensures Indexed(tx.store)
    ensures BatchSoFar(tx.ctx, s0, es + MediaEvents(items), SessionOf(tx, state), results')
  {
    hide BatchSoFar, ApplyInspection, ApplyPoint, ApplyProblem, ApplyMedia, IndexOk;
    results' := results;
    assert es + MediaEvents(items[..0]) == es;
    for i := 0 to |items|
      invariant Indexed(tx.store)
      invariant BatchSoFar(tx.ctx, s0, es + MediaEvents(items[..i]), SessionOf(tx, state), results')
    {
      ghost var done, s := es + MediaEvents(items[..i]), SessionOf(tx, state);
      BatchGrows(tx.ctx, s0, done, s, results', OfMedia(items[i]));
      var r := UpsertMedia(tx, items[i], state);
      results' := results' + [r];
      assert done + [Deliver(OfMedia(items[i]))] == es + MediaEvents(items[..i + 1]);
    }
    assert items[..|items|] == items;
  }

  /** Groups results by status; a bucket without members is absent. */
  method Bucketize(results: seq<ItemResult>) returns (out: BatchResult)
    ensures out == BatchResult(results, Bucket(WithStatus(results, Accepted)),
                               Bucket(WithStatus(results, Rejected)), Bucket(WithStatus(results, Duplicate)))
  {
    var accepted, rejected, duplicate: seq<ItemResult> := [], [], [];
    for i := 0 to |results|
      invariant accepted == WithStatus(results[..i], Accepted)
      invariant rejected == WithStatus(results[..i], Rejected)
      invariant duplicate == WithStatus(results[..i], Duplicate)
    {
      assert results[..i + 1][..i] == results[..i];
      match results[i].status {
        case Accepted => accepted := accepted + [results[i]];
        case Rejected => rejected := rejected + [results[i]];
        case Duplicate => duplicate := duplicate + [results[i]];
      }
    }
    assert results[..|results|] == results;
    out := BatchResult(results, None, None, None);
    if |accepted| > 0 { out := out.(accepted := Some(accepted)); }
    if |rejected| > 0 { out := out.(rejected := Some(rejected)); }
    if |duplicate| > 0 { out := out.(duplicate := Some(duplicate)); }
  }

  /** One batch in one transaction. `commits` is whether COMMIT succeeds; if it does not, every
      table is as before. If it does, the uuid-level view and every answer are the specification's,
      whatever the database and the batch, and no stored row is touched. */
  method Process(pool: Pool, ctx: Ctx, batch: Batch, commits: bool) returns (res: Option<BatchResult>)
    requires StoreOk(pool.store) && RefsOk(ctx.refs, pool.store)
    modifies pool
    ensures StoreOk(pool.store) && RefsOk(ctx.refs, pool.store)
    ensures res.Some? <==> commits
    ensures !commits ==> SameTables(old(pool.store), pool.store)
    ensures commits ==> BatchStep(ctx, old(pool.store), batch, pool.store, res.value.results)
    ensures commits ==> forall k :: 0 <= k < |res.value.results| && res.value.results[k].status == Accepted ==>
              && k < |BatchItems(batch)| && BatchItems(batch)[k].Deliver?
              && AsSent(ctx, ViewOf(pool.store), BatchItems(batch)[k].item)
    ensures commits ==> res.value == BatchResult(
              res.value.results, Bucket(WithStatus(res.value.results, Accepted)),
              Bucket(WithStatus(res.value.results, Rejected)), Bucket(WithStatus(res.value.results, Duplicate)))
  {
    hide StoreOk, RefsOk, ViewOf, BatchSoFar, BatchStep, IndexOk, WithStatus, AsSent;
    ghost var s0 := pool.store;
    BatchStarts(ctx, s0);
    var tx := new Tx(ctx, pool.store);
    var state := new BatchState();
    var results := InspectionPass(tx, batch.inspections.GetOr([]), state, [], s0, []);
    ghost var es := [] + InspectionEvents(batch.inspections.GetOr([]));
    results := TrajectoryPass(tx, batch.points.GetOr([]), state, results, s0, es);
    es := es + PointEvents(batch.points.GetOr([]));
    results := ProblemPass(tx, batch.problems.GetOr([]), state, results, s0, es);
    es := es + ProblemEvents(batch.problems.GetOr([]));
    results := MediaPass(tx, batch.media.GetOr([]), state, results, s0, es);
    assert es + MediaEvents(batch.media.GetOr([])) == BatchItems(batch);
    BatchEnds(ctx, s0, batch, SessionOf(tx, state), results);

    if !commits {
      DrawnOk(ctx.refs, s0, tx.store.next);
      pool.store := pool.store.(next := tx.store.next);
      return None;
    }
    pool.store := tx.store;
    AllAcceptedStored(ctx, s0, batch, pool.store, results);
    var out := Bucketize(results);
    res := Some(out);
  }

  lemma AllAcceptedStored(c: Ctx, s: Store, b: Batch, s': Store, rs: seq<ItemResult>)
    requires BatchStep(c, s, b, s', rs)
    ensures StoreOk(s')
    ensures forall k :: 0 <= k < |rs| && rs[k].status == Accepted ==>
              k < |BatchItems(b)| && BatchItems(b)[k].Deliver? && AsSent(c, ViewOf(s'), BatchItems(b)[k].item)
  {
    assert StoreOk(s');
    hide BatchStep, StoreOk, ViewOf, AsSent, BatchItems;
    forall k | 0 <= k < |rs| && rs[k].status == Accepted
      ensures k < |BatchItems(b)| && BatchItems(b)[k].Deliver? && AsSent(c, ViewOf(s'), BatchItems(b)[k].item)
    {
      AcceptedIsStored(c, s, b, s', rs, k);
    }
  }
}
