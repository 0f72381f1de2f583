/** Batch sync as a specification over client_uuids only: no server ids, no savepoints and no id
    maps. A run is a sequence of events; a batch is `Begin` followed by its items in pass order. */
module SyncSpec {
  import opened Wrappers
  import opened SyncModel
  import opened SyncStore

  datatype Item =
    | OfInspection(inspection: SyncInspection)
    | OfPoint(point: SyncPoint)
    | OfProblem(problem: SyncProblem)
    | OfMedia(media: SyncMedia)

  datatype Event = Begin | Deliver(item: Item)

  datatype Outcome = Accept | Duplic | Reject(reason: Reason)

  /** What fixes an answer besides the tables: the reference tables and the acting user. */
  datatype Ctx = Ctx(refs: Refs, actor: int)

  /** `synced` holds the inspections that this batch has already answered other than rejected. */
  datatype Spec = Spec(view: View, synced: set<Uuid>)

  function ItemUuid(x: Item): Uuid {
    match x
    case OfInspection(i) => i.uuid
    case OfPoint(p) => p.uuid
    case OfProblem(p) => p.uuid
    case OfMedia(m) => m.uuid
  }

  // --- The row an item stands for ---------------------------------------------------------------

  function InspectionRow(c: Ctx, i: SyncInspection): InspectionData {
    InspectionData(
      i.projectId, i.taskId,
      if i.inspectorId.Some? && i.inspectorId.value != 0 then i.inspectorId.value else c.actor,
      if i.status.Some? && i.status.value != UnknownStatus("") then i.status.value else InProgress,
      i.startedAt, i.endedAt, i.deviceInfo.GetOr("{}"), i.note.GetOr(""), c.actor,
      None, 0, 0.0, 0, false)
  }

  function PointSample(p: SyncPoint): Sample {
    Sample(Ewkb(p.geom), p.recordedAt, p.speed, p.bearing, p.altitude, p.accuracy)
  }

  function PointRow(p: SyncPoint): PointData<Uuid> {
    PointData(p.inspection, p.seqNo, PointSample(p))
  }

  function ProblemCols(c: Ctx, p: SyncProblem): ProblemColumns {
    ProblemColumns(
      p.projectId,
      if p.inspectorId.Some? && p.inspectorId.value != 0 then p.inspectorId.value else c.actor,
      Ewkb(p.geom), p.typeItem, p.statusItem, p.categoryItem, DictVersion(c.refs, p),
      p.title.GetOr(""), p.description.GetOr(""), p.note.GetOr(""), p.capturedAt, c.actor)
  }

  function DictVersion(refs: Refs, p: SyncProblem): int {
    p.dictVersion.GetOr(refs.problemTypeVersion.GetOr(1))
  }

  function ProblemRow(c: Ctx, p: SyncProblem): ProblemData<Uuid> {
    ProblemData(p.inspection, ProblemCols(c, p), false)
  }

  function MediaCols(c: Ctx, m: SyncMedia): MediaColumns {
    MediaColumns(
      m.tier,
      if m.region.Some? && m.region.value != "" then m.region.value else "ap-guangzhou",
      if m.contentType.Some? && m.contentType.value != "" then m.contentType.value else "image/jpeg",
      m.byteSize, m.width, m.height, m.etag, m.captureState, m.group, c.actor)
  }

  function MediaRow(c: Ctx, m: SyncMedia, owner: Uuid): MediaData<OwnerRef> {
    MediaData(ByUuid(m.ownerType, owner), m.bucket, m.key, MediaCols(c, m), false)
  }

  // --- The answer to an item --------------------------------------------------------------------

  ghost predicate LiveInspection(v: View, u: Uuid) {
    u in v.inspections && !v.inspections[u].deleted
  }

  ghost predicate LiveProblem(v: View, u: Uuid) {
    u in v.problems && !v.problems[u].deleted
  }

  /** A parent inspection resolves if this batch synced it or a live row has it. */
  ghost predicate InspectionResolves(sp: Spec, u: Uuid) {
    u in sp.synced || LiveInspection(sp.view, u)
  }

  ghost predicate SeqTaken(v: View, parent: Uuid, seqNo: int) {
    exists u :: u in v.points && v.points[u].parent == parent && v.points[u].seqNo == seqNo
  }

  ghost predicate ObjectTaken(v: View, bucket: string, key: string) {
    exists u :: u in v.media && v.media[u].bucket == bucket && v.media[u].key == key
  }

  /** The table's CHECK on the two times. */
  predicate TimesOk(d: InspectionData) {
    d.endedAt.Some? ==> d.endedAt.value >= d.startedAt
  }

  predicate Storable(d: InspectionData) {
    !d.status.UnknownStatus? && TimesOk(d)
  }

  ghost function InspectionOutcome(c: Ctx, sp: Spec, i: SyncInspection): Outcome {
    var d := InspectionRow(c, i);
    if !Storable(d) then Reject(Internal)
    else if i.uuid in sp.view.inspections then Duplic
    else if !InspectionRefsOk(c.refs, d) then Reject(FkViolation)
    else Accept
  }

  ghost function PointOutcome(sp: Spec, p: SyncPoint): Outcome {
    if !p.geom.encodes then Reject(InvalidGeom)
    else if !InspectionResolves(sp, p.inspection) then Reject(InspectionNotFound)
    else if !p.geom.valid then Reject(InvalidGeom)
    else if !FitsInt4(p.seqNo) then Reject(Internal)
    else if p.uuid in sp.view.points then Duplic
    else if SeqTaken(sp.view, p.inspection, p.seqNo) then Reject(SeqConflict)
    else Accept
  }

  ghost function ProblemOutcome(c: Ctx, sp: Spec, p: SyncProblem): Outcome {
    if !p.geom.encodes then Reject(InvalidGeom)
    else if p.inspection.Some? && !InspectionResolves(sp, p.inspection.value) then Reject(InspectionNotFound)
    else if !p.geom.valid then Reject(InvalidGeom)
    else if !FitsInt4(DictVersion(c.refs, p)) then Reject(Internal)
    else if LiveProblem(sp.view, p.uuid) then Duplic
    else if p.uuid in sp.view.problems then Reject(Internal)
    else if !ProblemRefsOk(c.refs, ProblemCols(c, p)) then Reject(FkViolation)
    else Accept
  }

  /** Problems need no batch memory here: only live rows ever resolve. */
  ghost predicate OwnerResolves(sp: Spec, m: SyncMedia) {
    && m.owner.Some?
    && match m.ownerType
       case InspectionOwner => InspectionResolves(sp, m.owner.value)
       case ProblemOwner => LiveProblem(sp.view, m.owner.value)
       case _ => false
  }

  predicate MediaEncodes(m: SyncMedia) {
    && !m.tier.UnknownTier? && !m.captureState.UnknownState?
    && OptionFitsInt4(m.width) && OptionFitsInt4(m.height)
  }

  ghost function MediaOutcome(sp: Spec, m: SyncMedia): Outcome {
    if !OwnerResolves(sp, m) then Reject(OwnerNotFound)
    else if !MediaEncodes(m) then Reject(Internal)
    else if m.uuid in sp.view.media then
      if sp.view.media[m.uuid].deleted then Reject(Internal) else Duplic
    else if ObjectTaken(sp.view, m.bucket, m.key) then Reject(Internal)
    else Accept
  }

  ghost function ItemOutcome(c: Ctx, sp: Spec, x: Item): Outcome {
    match x
    case OfInspection(i) => InspectionOutcome(c, sp, i)
    case OfPoint(p) => PointOutcome(sp, p)
    case OfProblem(p) => ProblemOutcome(c, sp, p)
    case OfMedia(m) => MediaOutcome(sp, m)
  }

  // --- The effect of an item --------------------------------------------------------------------

  /** The view with the row of an accepted item added. */
  ghost function Added(c: Ctx, v: View, x: Item): View
    requires x.OfMedia? ==> x.media.owner.Some?
  {
    match x
    case OfInspection(i) => v.(inspections := v.inspections[i.uuid := InspectionRow(c, i)])
    case OfPoint(p) => v.(points := v.points[p.uuid := PointRow(p)])
    case OfProblem(p) => v.(problems := v.problems[p.uuid := ProblemRow(c, p)])
    case OfMedia(m) => v.(media := v.media[m.uuid := MediaRow(c, m, m.owner.value)])
  }

  ghost function Step(c: Ctx, sp: Spec, x: Item): Spec {
    var o := ItemOutcome(c, sp, x);
    Spec(if o == Accept then Added(c, sp.view, x) else sp.view,
         if x.OfInspection? && !o.Reject? then sp.synced + {x.inspection.uuid} else sp.synced)
  }

  ghost function Next(c: Ctx, sp: Spec, e: Event): Spec {
    match e
    case Begin => Spec(sp.view, {})
    case Deliver(x) => Step(c, sp, x)
  }

  ghost function Run(c: Ctx, sp: Spec, es: seq<Event>): Spec {
    if es == [] then sp else Next(c, Run(c, sp, es[..|es| - 1]), es[|es| - 1])
  }

  /** The answer to the item delivered at position k of a run. */
  ghost function Answer(c: Ctx, sp: Spec, es: seq<Event>, k: nat): Outcome
    requires k < |es| && es[k].Deliver?
  {
    ItemOutcome(c, Run(c, sp, es[..k]), es[k].item)
  }

  lemma {:induction false} RunConcat(c: Ctx, sp: Spec, es: seq<Event>, fs: seq<Event>)
    ensures Run(c, sp, es + fs) == Run(c, Run(c, sp, es), fs)
  {
    if fs == [] {
      assert es + fs == es;
    } else {
      assert (es + fs)[..|es + fs| - 1] == es + fs[..|fs| - 1];
      RunConcat(c, sp, es, fs[..|fs| - 1]);
    }
  }

  // --- A batch as events ------------------------------------------------------------------------

  function InspectionEvents(items: seq<SyncInspection>): seq<Event> {
    seq(|items|, i requires 0 <= i < |items| => Deliver(OfInspection(items[i])))
  }

  function PointEvents(items: seq<SyncPoint>): seq<Event> {
    seq(|items|, i requires 0 <= i < |items| => Deliver(OfPoint(items[i])))
  }

  function ProblemEvents(items: seq<SyncProblem>): seq<Event> {
    seq(|items|, i requires 0 <= i < |items| => Deliver(OfProblem(items[i])))
  }

  function MediaEvents(items: seq<SyncMedia>): seq<Event> {
    seq(|items|, i requires 0 <= i < |items| => Deliver(OfMedia(items[i])))
  }

  /** The items of a batch in the order of the four passes. */
  function BatchItems(b: Batch): seq<Event> {
    InspectionEvents(b.inspections.GetOr([])) + PointEvents(b.points.GetOr([]))
    + ProblemEvents(b.problems.GetOr([])) + MediaEvents(b.media.GetOr([]))
  }

  function BatchEvents(b: Batch): seq<Event> {
    [Begin] + BatchItems(b)
  }
}
