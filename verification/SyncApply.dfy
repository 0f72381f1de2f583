/** What one item does to tables and batch maps, server ids included, as a function. The service
    methods are proved equal to it; it is proved to refine the uuid-level specification. */
module SyncApply {
  import opened Wrappers
  import opened SyncModel
  import opened SyncTables
  import opened SyncStore
  import opened SyncSpec

  /** The tables as a transaction sees them, with the batch's client_uuid -> server id maps. */
  datatype Session = Session(store: Store, inspectionIds: map<Uuid, Id>, problemIds: map<Uuid, Id>)

  ghost predicate Indexed(s: Store) {
    IndexOk(s.inspections) && IndexOk(s.points) && IndexOk(s.problems) && IndexOk(s.media)
  }

  function Rejection(uuid: Uuid, reason: Reason): ItemResult {
    ItemResult(uuid, Rejected, None, Some(reason))
  }

  function AcceptedOrDuplicate(uuid: Uuid, serverId: Id, inserted: bool): ItemResult {
    ItemResult(uuid, if inserted then Accepted else Duplicate, Some(serverId), None)
  }

  /** SELECT id FROM inspections WHERE client_uuid = u AND deleted_at IS NULL. */
  function LiveInspectionId(s: Store, u: Uuid): Option<Id>
    requires Indexed(s)
  {
    if u in s.inspections.byUuid && !s.inspections.rows[s.inspections.byUuid[u]].data.deleted then
      Some(s.inspections.byUuid[u])
    else None
  }

  function LiveProblemId(s: Store, u: Uuid): Option<Id>
    requires Indexed(s)
  {
    if u in s.problems.byUuid && !s.problems.rows[s.problems.byUuid[u]].data.deleted then
      Some(s.problems.byUuid[u])
    else None
  }

  /** The batch map first, else a live row. */
  function ResolveInspection(s: Session, u: Uuid): Option<Id>
    requires Indexed(s.store)
  {
    if u in s.inspectionIds then Some(s.inspectionIds[u]) else LiveInspectionId(s.store, u)
  }

  function ResolveOwner(s: Session, m: SyncMedia): Option<Id>
    requires Indexed(s.store)
  {
    if m.owner.None? then None
    else match m.ownerType
      case InspectionOwner => ResolveInspection(s, m.owner.value)
      case ProblemOwner =>
        if m.owner.value in s.problemIds then Some(s.problemIds[m.owner.value])
        else LiveProblemId(s.store, m.owner.value)
      case _ => None
  }

  function PointRowAt(p: SyncPoint, parent: Id): PointData<Id> {
    PointData(parent, p.seqNo, PointSample(p))
  }

  function ProblemRowAt(c: Ctx, p: SyncProblem, parent: Option<Id>): ProblemData<Id> {
    ProblemData(parent, ProblemCols(c, p), false)
  }

  function MediaRowAt(c: Ctx, m: SyncMedia, owner: Id): MediaData<OwnerKey> {
    MediaData(OwnerKey(m.ownerType, owner), m.bucket, m.key, MediaCols(c, m), false)
  }

  function DrawInspection(s: Store): Store { s.(next := s.next.(inspection := s.next.inspection + 1)) }
  function DrawPoint(s: Store): Store { s.(next := s.next.(point := s.next.point + 1)) }
  function DrawProblem(s: Store): Store { s.(next := s.next.(problem := s.next.problem + 1)) }
  function DrawMedia(s: Store): Store { s.(next := s.next.(media := s.next.media + 1)) }

  function ApplyInspection(c: Ctx, s: Session, i: SyncInspection): (Session, ItemResult)
    requires Indexed(s.store)
  {
    var row := InspectionRow(c, i);
    if row.status.UnknownStatus? then (s, Rejection(i.uuid, Internal))
    else if !TimesOk(row) then (s.(store := DrawInspection(s.store)), Rejection(i.uuid, Internal))
    else if i.uuid in s.store.inspections.byUuid then
      var id := s.store.inspections.byUuid[i.uuid];
      (s.(store := DrawInspection(s.store), inspectionIds := s.inspectionIds[i.uuid := id]),
       AcceptedOrDuplicate(i.uuid, id, false))
    else if !InspectionRefsOk(c.refs, row) then
      (s.(store := DrawInspection(s.store)), Rejection(i.uuid, FkViolation))
    else
      var id := s.store.next.inspection;
      (s.(store := WithInspection(s.store, i.uuid, row), inspectionIds := s.inspectionIds[i.uuid := id]),
       AcceptedOrDuplicate(i.uuid, id, true))
  }

  function ApplyPoint(s: Session, p: SyncPoint): (Session, ItemResult)
    requires Indexed(s.store)
  {
    if !p.geom.encodes then (s, Rejection(p.uuid, InvalidGeom))
    else if ResolveInspection(s, p.inspection).None? then (s, Rejection(p.uuid, InspectionNotFound))
    else if !p.geom.valid then (s, Rejection(p.uuid, InvalidGeom))
    else if !FitsInt4(p.seqNo) then (s, Rejection(p.uuid, Internal))
    else if p.uuid in s.store.points.byUuid then
      (s.(store := DrawPoint(s.store)), AcceptedOrDuplicate(p.uuid, s.store.points.byUuid[p.uuid], false))
    else
      var parent := ResolveInspection(s, p.inspection).value;
      if (parent, p.seqNo) in s.store.bySeq then
        (s.(store := DrawPoint(s.store)), Rejection(p.uuid, SeqConflict))
      else
        (s.(store := WithPoint(s.store, p.uuid, PointRowAt(p, parent))),
         AcceptedOrDuplicate(p.uuid, s.store.next.point, true))
  }

  function ResolveOptionalInspection(s: Session, u: Option<Uuid>): Option<Id>
    requires Indexed(s.store)
  {
    if u.Some? then ResolveInspection(s, u.value) else None
  }

  function ApplyProblem(c: Ctx, s: Session, p: SyncProblem): (Session, ItemResult)
    requires Indexed(s.store)
  {
    var parent := ResolveOptionalInspection(s, p.inspection);
    if !p.geom.encodes then (s, Rejection(p.uuid, InvalidGeom))
    else if p.inspection.Some? && parent.None? then (s, Rejection(p.uuid, InspectionNotFound))
    else if !p.geom.valid then (s, Rejection(p.uuid, InvalidGeom))
    else if !FitsInt4(DictVersion(c.refs, p)) then (s, Rejection(p.uuid, Internal))
    else if LiveProblemId(s.store, p.uuid).Some? then
      var id := LiveProblemId(s.store, p.uuid).value;
      (s.(store := DrawProblem(s.store), problemIds := s.problemIds[p.uuid := id]),
       AcceptedOrDuplicate(p.uuid, id, false))
    else if p.uuid in s.store.problems.byUuid then
      (s.(store := DrawProblem(s.store)), Rejection(p.uuid, Internal))
    else if !ProblemRefsOk(c.refs, ProblemCols(c, p)) then
      (s.(store := DrawProblem(s.store)), Rejection(p.uuid, FkViolation))
    else
      var id := s.store.next.problem;
      (s.(store := WithProblem(s.store, p.uuid, ProblemRowAt(c, p, parent)),
          problemIds := s.problemIds[p.uuid := id]),
       AcceptedOrDuplicate(p.uuid, id, true))
  }

  function ApplyMedia(c: Ctx, s: Session, m: SyncMedia): (Session, ItemResult)
    requires Indexed(s.store)
  {
    var owner := ResolveOwner(s, m);
    if owner.None? then (s, Rejection(m.uuid, OwnerNotFound))
    else if !MediaEncodes(m) then (s, Rejection(m.uuid, Internal))
    else if m.uuid in s.store.media.byUuid then
      var id := s.store.media.byUuid[m.uuid];
      (s.(store := DrawMedia(s.store)),
       if s.store.media.rows[id].data.deleted then Rejection(m.uuid, Internal)
       else AcceptedOrDuplicate(m.uuid, id, false))
    else if (m.bucket, m.key) in s.store.byObject then
      (s.(store := DrawMedia(s.store)), Rejection(m.uuid, Internal))
    else
      (s.(store := WithMedia(s.store, m.uuid, MediaRowAt(c, m, owner.value))),
       AcceptedOrDuplicate(m.uuid, s.store.next.media, true))
  }

  function Apply(c: Ctx, s: Session, x: Item): (Session, ItemResult)
    requires Indexed(s.store)
  {
    match x
    case OfInspection(i) => ApplyInspection(c, s, i)
    case OfPoint(p) => ApplyPoint(s, p)
    case OfProblem(p) => ApplyProblem(c, s, p)
    case OfMedia(m) => ApplyMedia(c, s, m)
  }
}
