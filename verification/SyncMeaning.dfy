/** What a committed batch stores and answers, said of the request's fields and the rows alone. */
module SyncMeaning {
  import opened Wrappers
  import opened SyncModel
  import opened SyncTables
  import opened SyncStore
  import opened SyncSpec
  import opened SyncRefine
  import opened SyncBatch
  import opened SyncReplay

  // --- What the view shows ----------------------------------------------------------------------

  /** The row a uuid's index entry leads to. */
  ghost predicate StoredAs<D>(t: Table<D>, u: Uuid, d: D) {
    u in t.byUuid && t.byUuid[u] in t.rows && t.rows[t.byUuid[u]].uuid == u && t.rows[t.byUuid[u]].data == d
  }

  /** The view has one entry per stored row, with every column of it; a reference by id shows as the uuid of
      the row it names. */
  lemma ViewIsTheTables(s: Store, u: Uuid)
    requires StoreOk(s)
    ensures var v := ViewOf(s);
            && (u in v.inspections <==> u in s.inspections.byUuid) && (u in v.points <==> u in s.points.byUuid)
            && (u in v.problems <==> u in s.problems.byUuid) && (u in v.media <==> u in s.media.byUuid)
            && (u in v.inspections ==> StoredAs(s.inspections, u, v.inspections[u]))
            && (u in v.points ==> PointStored(s, u, v.points[u]))
            && (u in v.problems ==> ProblemStored(s, u, v.problems[u]))
            && (u in v.media ==> MediaStored(s, u, v.media[u]))
  {
    assert ViewOf(s).inspections == InspectionsView(s.inspections);
    PointIsStored(s, u);
    ProblemIsStored(s, u);
    MediaIsStored(s, u);
    hide PointStored, ProblemStored, MediaStored;
  }

  ghost predicate PointStored(s: Store, u: Uuid, d: PointData<Uuid>) {
    && d.parent in s.inspections.byUuid
    && StoredAs(s.points, u, PointData(s.inspections.byUuid[d.parent], d.seqNo, d.sample))
  }

  ghost predicate ProblemStored(s: Store, u: Uuid, d: ProblemData<Uuid>) {
    && (d.inspection.Some? ==> d.inspection.value in s.inspections.byUuid)
    && StoredAs(s.problems, u, ProblemData(
         if d.inspection.Some? then Some(s.inspections.byUuid[d.inspection.value]) else None, d.columns, d.deleted))
  }

  /** Of a media row every column but the owner, and the owner if it is an inspection or a problem. */
  ghost predicate MediaStored(s: Store, u: Uuid, d: MediaData<OwnerRef>) {
    && u in s.media.byUuid && s.media.byUuid[u] in s.media.rows && s.media.rows[s.media.byUuid[u]].uuid == u
    && var row := s.media.rows[s.media.byUuid[u]].data;
    && row.bucket == d.bucket && row.key == d.key && row.columns == d.columns && row.deleted == d.deleted
    && row.owner.kind == d.owner.kind
    && (d.owner.ByUuid? && d.owner.kind == InspectionOwner ==>
          d.owner.uuid in s.inspections.byUuid && row.owner.id == s.inspections.byUuid[d.owner.uuid])
    && (d.owner.ByUuid? && d.owner.kind == ProblemOwner ==>
          d.owner.uuid in s.problems.byUuid && row.owner.id == s.problems.byUuid[d.owner.uuid])
  }

  lemma PointIsStored(s: Store, u: Uuid)
    requires StoreOk(s)
    ensures u in ViewOf(s).points <==> u in s.points.byUuid
    ensures u in ViewOf(s).points ==> PointStored(s, u, ViewOf(s).points[u])
  {
    assert ViewOf(s).points == PointsView(s.inspections, s.points);
  }

  lemma ProblemIsStored(s: Store, u: Uuid)
    requires StoreOk(s)
    ensures u in ViewOf(s).problems <==> u in s.problems.byUuid
    ensures u in ViewOf(s).problems ==> ProblemStored(s, u, ViewOf(s).problems[u])
  {
    assert ViewOf(s).problems == ProblemsView(s.inspections, s.problems);
  }

  lemma MediaIsStored(s: Store, u: Uuid)
    requires StoreOk(s)
    ensures u in ViewOf(s).media <==> u in s.media.byUuid
    ensures u in ViewOf(s).media ==> MediaStored(s, u, ViewOf(s).media[u])
  {
    assert ViewOf(s).media == MediaView(s.inspections, s.problems, s.media);
  }

  // --- Stored as sent ---------------------------------------------------------------------------

  /** The row has what was sent; the acting user, IN_PROGRESS, {} and no note stand for what was not;
      nothing derived yet. */
  ghost predicate InspectionAsSent(c: Ctx, i: SyncInspection, d: InspectionData) {
    && d.projectId == i.projectId && d.taskId == i.taskId && d.startedAt == i.startedAt && d.endedAt == i.endedAt
    && (i.inspectorId.Some? && i.inspectorId.value != 0 ==> d.inspectorId == i.inspectorId.value)
    && (i.inspectorId.None? || i.inspectorId.value == 0 ==> d.inspectorId == c.actor)
    && (i.status.None? || i.status.value == UnknownStatus("") ==> d.status == InProgress)
    && (i.status.Some? && i.status.value != UnknownStatus("") ==> d.status == i.status.value)
    && (d.status == InProgress || d.status == Finished || d.status == Abandoned)
    && (i.deviceInfo.Some? ==> d.device == i.deviceInfo.value) && (i.deviceInfo.None? ==> d.device == "{}")
    && (i.note.Some? ==> d.note == i.note.value) && (i.note.None? ==> d.note == "")
    && d.createdBy == c.actor && !d.deleted
    && d.route.None? && d.pointCount == 0 && d.mileage == 0.0 && d.duration == 0
  }

  /** Longitude and latitude are the first two coordinates. */
  ghost predicate PlacedAsSent(p: Point, g: Geometry) {
    && (|p.coordinates| >= 2 ==> g.0 == p.coordinates[0] && g.1 == p.coordinates[1])
    && (|p.coordinates| < 2 ==> g.0 == 0.0 && g.1 == 0.0)
  }

  ghost predicate PointAsSent(p: SyncPoint, d: PointData<Uuid>) {
    && d.parent == p.inspection && d.seqNo == p.seqNo && PlacedAsSent(p.geom, d.sample.geom)
    && d.sample.recordedAt == p.recordedAt && d.sample.speed == p.speed && d.sample.bearing == p.bearing
    && d.sample.altitude == p.altitude && d.sample.accuracy == p.accuracy
  }

  /** A dictionary version that is absent is the current one, else 1. */
  ghost predicate ProblemAsSent(c: Ctx, p: SyncProblem, d: ProblemData<Uuid>) {
    var q := d.columns;
    && d.inspection == p.inspection && !d.deleted
    && q.projectId == p.projectId && PlacedAsSent(p.geom, q.geom) && q.capturedAt == p.capturedAt && q.createdBy == c.actor
    && q.typeItem == p.typeItem && q.statusItem == p.statusItem && q.categoryItem == p.categoryItem
    && (p.inspectorId.Some? && p.inspectorId.value != 0 ==> q.inspectorId == p.inspectorId.value)
    && (p.inspectorId.None? || p.inspectorId.value == 0 ==> q.inspectorId == c.actor)
    && (p.dictVersion.Some? ==> q.dictVersion == p.dictVersion.value)
    && (p.dictVersion.None? && c.refs.problemTypeVersion.Some? ==> q.dictVersion == c.refs.problemTypeVersion.value)
    && (p.dictVersion.None? && c.refs.problemTypeVersion.None? ==> q.dictVersion == 1)
    && (p.title.Some? ==> q.title == p.title.value) && (p.title.None? ==> q.title == "")
    && (p.description.Some? ==> q.description == p.description.value) && (p.description.None? ==> q.description == "")
    && (p.note.Some? ==> q.note == p.note.value) && (p.note.None? ==> q.note == "")
  }

  ghost predicate MediaAsSent(c: Ctx, m: SyncMedia, d: MediaData<OwnerRef>) {
    var q := d.columns;
    && m.owner.Some? && d.owner == ByUuid(m.ownerType, m.owner.value) && d.bucket == m.bucket && d.key == m.key && !d.deleted
    && q.tier == m.tier && q.byteSize == m.byteSize && q.width == m.width && q.height == m.height && q.etag == m.etag
    && q.captureState == m.captureState && q.group == m.group && q.createdBy == c.actor
    && (m.region.None? || m.region.value == "" ==> q.region == "ap-guangzhou")
    && (m.region.Some? && m.region.value != "" ==> q.region == m.region.value)
    && (m.contentType.None? || m.contentType.value == "" ==> q.contentType == "image/jpeg")
    && (m.contentType.Some? && m.contentType.value != "" ==> q.contentType == m.contentType.value)
  }

  /** The item's row is there, as sent. */
  ghost predicate AsSent(c: Ctx, v: View, x: Item) {
    match x
    case OfInspection(i) => i.uuid in v.inspections && InspectionAsSent(c, i, v.inspections[i.uuid])
    case OfPoint(p) => p.uuid in v.points && PointAsSent(p, v.points[p.uuid])
    case OfProblem(p) => p.uuid in v.problems && ProblemAsSent(c, p, v.problems[p.uuid])
    case OfMedia(m) => m.uuid in v.media && MediaAsSent(c, m, v.media[m.uuid])
  }

  lemma AcceptedRowAsSent(c: Ctx, sp: Spec, x: Item)
    requires ItemOutcome(c, sp, x) == Accept
    ensures AsSent(c, Step(c, sp, x).view, x)
  {
    hide SeqTaken, ObjectTaken, LiveInspection, LiveProblem, InspectionRefsOk, ProblemRefsOk, MediaEncodes;
  }

  lemma AsSentKept(c: Ctx, v: View, w: View, x: Item)
    requires Within(v, w) && AsSent(c, v, x)
    ensures AsSent(c, w, x)
  {
    hide InspectionAsSent, PointAsSent, ProblemAsSent, MediaAsSent;
  }

  lemma AnsweredAsSent(c: Ctx, v: View, es: seq<Event>, k: nat)
    requires k < |es| && es[k].Deliver? && Answer(c, Spec(v, {}), es, k) == Accept
    ensures AsSent(c, Run(c, Spec(v, {}), es).view, es[k].item)
  {
    hide ItemOutcome, AsSent, Within, Step;
    var sp := Run(c, Spec(v, {}), es[..k]);
    AcceptedRowAsSent(c, sp, es[k].item);
    assert es[..k + 1][..k] == es[..k];
    PrefixWithin(c, Spec(v, {}), es, k + 1);
    AsSentKept(c, Step(c, sp, es[k].item).view, Run(c, Spec(v, {}), es).view, es[k].item);
  }

  /** Every item that a committed batch accepts is stored as it was sent. */
  lemma AcceptedIsStored(c: Ctx, s: Store, b: Batch, s': Store, rs: seq<ItemResult>, k: nat)
    requires BatchStep(c, s, b, s', rs) && k < |rs| && rs[k].status == Accepted
    ensures k < |BatchItems(b)| && BatchItems(b)[k].Deliver? && AsSent(c, ViewOf(s'), BatchItems(b)[k].item)
  {
    hide StoreOk, ViewOf, Run, AsSent, Extends, RefsOk, ItemOutcome, BatchItems;
    AnsweredAsSent(c, ViewOf(s), BatchItems(b), k);
  }

  /** Results come in the order of the items and bear their uuids. One that is not rejected has the id of
      the row its item has in its own table and no error; a rejected one has a reason and no id. */
  lemma ResultSays(c: Ctx, s: Store, b: Batch, s': Store, rs: seq<ItemResult>, k: nat)
    requires BatchStep(c, s, b, s', rs) && k < |rs|
    ensures |rs| == |BatchItems(b)| && BatchItems(b)[k].Deliver?
    ensures match BatchItems(b)[k].item
            case OfInspection(i) => rs[k].uuid == i.uuid && NamesRow(s'.inspections, i.uuid, rs[k])
            case OfPoint(p) => rs[k].uuid == p.uuid && NamesRow(s'.points, p.uuid, rs[k])
            case OfProblem(p) => rs[k].uuid == p.uuid && NamesRow(s'.problems, p.uuid, rs[k])
            case OfMedia(m) => rs[k].uuid == m.uuid && NamesRow(s'.media, m.uuid, rs[k])
    ensures var o := Answer(c, Spec(ViewOf(s), {}), BatchItems(b), k);
            && (rs[k].status == Accepted <==> o == Accept) && (rs[k].status == Duplicate <==> o == Duplic)
            && (rs[k].status == Rejected <==> o.Reject? && rs[k].error == Some(o.reason))
  {
    hide StoreOk, ViewOf, Run, Extends, RefsOk, ItemOutcome, BatchItems, Reports, NamesRow, Answer;
    ReportSays(s', BatchItems(b)[k].item, Answer(c, Spec(ViewOf(s), {}), BatchItems(b), k), rs[k]);
  }

  lemma ReportSays(s: Store, x: Item, o: Outcome, r: ItemResult)
    requires Reports(s, x, o, r)
    ensures match x
            case OfInspection(i) => r.uuid == i.uuid && NamesRow(s.inspections, i.uuid, r)
            case OfPoint(p) => r.uuid == p.uuid && NamesRow(s.points, p.uuid, r)
            case OfProblem(p) => r.uuid == p.uuid && NamesRow(s.problems, p.uuid, r)
            case OfMedia(m) => r.uuid == m.uuid && NamesRow(s.media, m.uuid, r)
    ensures (r.status == Accepted <==> o == Accept) && (r.status == Duplicate <==> o == Duplic)
    ensures r.status == Rejected <==> o.Reject? && r.error == Some(o.reason)
  {
  }

  ghost predicate NamesRow<D>(t: Table<D>, u: Uuid, r: ItemResult) {
    if r.status == Rejected then r.serverId.None? && r.error.Some?
    else u in t.byUuid && r.serverId == Some(t.byUuid[u]) && r.error.None?
  }

  // --- Why an item is answered as it is ---------------------------------------------------------

  /** An inspection this batch answered, or a live row. */
  ghost predicate Known(sp: Spec, u: Uuid) {
    u in sp.synced || (u in sp.view.inspections && !sp.view.inspections[u].deleted)
  }

  /** An inspection is refused for its status, its times or a missing project, inspector or task. */
  lemma InspectionAnswer(c: Ctx, sp: Spec, i: SyncInspection)
    ensures var o := ItemOutcome(c, sp, OfInspection(i));
            var literal := i.status.Some? && i.status.value.UnknownStatus? && i.status.value.text != "";
            var sound := !literal && (i.endedAt.Some? ==> i.startedAt <= i.endedAt.value);
            var author := if i.inspectorId.Some? && i.inspectorId.value != 0 then i.inspectorId.value else c.actor;
            var referenced := && i.projectId in c.refs.projects && author in c.refs.users
                              && (i.taskId.Some? ==> i.taskId.value in c.refs.tasks);
            && (o == Reject(Internal) <==> !sound)
            && (o == Duplic <==> sound && i.uuid in sp.view.inspections)
            && (o == Reject(FkViolation) <==> sound && i.uuid !in sp.view.inspections && !referenced)
            && (o == Accept <==> sound && i.uuid !in sp.view.inspections && referenced)
  {
  }

  /** A point is refused for its geometry, an unknown inspection, a sequence number out of range, or
      another point with its number in the same inspection. */
  lemma PointAnswer(c: Ctx, sp: Spec, p: SyncPoint)
    ensures var o := ItemOutcome(c, sp, OfPoint(p));
            var g := p.geom;
            var ready := g.encodes && g.valid && Known(sp, p.inspection) && -2147483648 <= p.seqNo <= 2147483647;
            var unseen := ready && p.uuid !in sp.view.points;
            var clash := exists q :: q in sp.view.points && sp.view.points[q].parent == p.inspection
                                       && sp.view.points[q].seqNo == p.seqNo;
            && (o == Reject(InspectionNotFound) <==> g.encodes && !Known(sp, p.inspection))
            && (o == Reject(InvalidGeom) <==> !g.encodes || (Known(sp, p.inspection) && !g.valid))
            && (o == Reject(Internal) <==> g.encodes && g.valid && Known(sp, p.inspection) && !ready)
            && (o == Duplic <==> ready && p.uuid in sp.view.points)
            && (o == Reject(SeqConflict) <==> unseen && clash)
            && (o == Accept <==> unseen && !clash)
  {
  }

  /** A problem is refused for its geometry, an unknown inspection if it names one, a dictionary version
      out of range, a deleted problem under its uuid, or a missing reference. */
  lemma ProblemAnswer(c: Ctx, sp: Spec, p: SyncProblem)
    ensures var o := ItemOutcome(c, sp, OfProblem(p));
            var g := p.geom;
            var placed := p.inspection.Some? ==> Known(sp, p.inspection.value);
            var version := if p.dictVersion.Some? then p.dictVersion.value
                           else if c.refs.problemTypeVersion.Some? then c.refs.problemTypeVersion.value else 1;
            var ready := g.encodes && placed && g.valid && -2147483648 <= version <= 2147483647;
            var stored, live := p.uuid in sp.view.problems, p.uuid in sp.view.problems && !sp.view.problems[p.uuid].deleted;
            var author := if p.inspectorId.Some? && p.inspectorId.value != 0 then p.inspectorId.value else c.actor;
            var referenced := && p.projectId in c.refs.projects && author in c.refs.users
                              && (p.typeItem.Some? ==> p.typeItem.value in c.refs.dictItems)
                              && (p.statusItem.Some? ==> p.statusItem.value in c.refs.dictItems)
                              && (p.categoryItem.Some? ==> p.categoryItem.value in c.refs.dictItems);
            && (o == Reject(InspectionNotFound) <==> g.encodes && !placed)
            && (o == Reject(InvalidGeom) <==> !g.encodes || (placed && !g.valid))
            && (o == Reject(Internal) <==> g.encodes && placed && g.valid && (!ready || (stored && !live)))
            && (o == Duplic <==> ready && live)
            && (o == Reject(FkViolation) <==> ready && !stored && !referenced)
            && (o == Accept <==> ready && !stored && referenced)
  {
  }

  /** A media reference is refused for its owner, a literal or size that does not encode, a deleted row
      under its uuid, or another row at its place. */
  lemma MediaAnswer(c: Ctx, sp: Spec, m: SyncMedia)
    ensures var o := ItemOutcome(c, sp, OfMedia(m));
            var owned := && m.owner.Some?
                         && (|| (m.ownerType == InspectionOwner && Known(sp, m.owner.value))
                             || (m.ownerType == ProblemOwner && m.owner.value in sp.view.problems
                                 && !sp.view.problems[m.owner.value].deleted));
            var encodes := && !m.tier.UnknownTier? && !m.captureState.UnknownState?
                           && (m.width.Some? ==> -2147483648 <= m.width.value <= 2147483647)
                           && (m.height.Some? ==> -2147483648 <= m.height.value <= 2147483647);
            var stored := m.uuid in sp.view.media;
            var clash := exists u :: u in sp.view.media && sp.view.media[u].bucket == m.bucket && sp.view.media[u].key == m.key;
            && (o == Reject(OwnerNotFound) <==> !owned)
            && (o == Duplic <==> owned && encodes && stored && !sp.view.media[m.uuid].deleted)
            && (o == Accept <==> owned && encodes && !stored && !clash)
            && (o == Reject(Internal) <==> owned && (!encodes || (if stored then sp.view.media[m.uuid].deleted else clash)))
  {
  }

  // --- What a step leaves alone -----------------------------------------------------------------

  ghost predicate OneMore<K, V>(m: map<K, V>, m': map<K, V>, k: K) {
    k !in m && m'.Keys == m.Keys + {k} && forall j :: j in m ==> m'[j] == m[j]
  }

  /** An accepted item adds its own row and nothing else; any other answer leaves the tables as they are.
      The batch remembers an inspection it has stored or found, and forgets all of them when it begins. */
  lemma StepAddsOne(c: Ctx, sp: Spec, x: Item)
    ensures var v, v', o := sp.view, Step(c, sp, x).view, ItemOutcome(c, sp, x);
            && (o != Accept ==> v' == v)
            && (o == Accept ==> AsSent(c, v', x))
            && (if x.OfInspection? && o == Accept then OneMore(v.inspections, v'.inspections, x.inspection.uuid)
                else v'.inspections == v.inspections)
            && (if x.OfPoint? && o == Accept then OneMore(v.points, v'.points, x.point.uuid) else v'.points == v.points)
            && (if x.OfProblem? && o == Accept then OneMore(v.problems, v'.problems, x.problem.uuid)
                else v'.problems == v.problems)
            && (if x.OfMedia? && o == Accept then OneMore(v.media, v'.media, x.media.uuid) else v'.media == v.media)
    ensures forall u :: u in Step(c, sp, x).synced <==>
              u in sp.synced || (x.OfInspection? && x.inspection.uuid == u && !ItemOutcome(c, sp, x).Reject?)
    ensures Next(c, sp, Begin) == Spec(sp.view, {})
  {
    hide SeqTaken, ObjectTaken, LiveInspection, InspectionRefsOk, ProblemRefsOk, MediaEncodes, AsSent;
    if ItemOutcome(c, sp, x) == Accept {
      AcceptedRowAsSent(c, sp, x);
    }
  }

  // --- The answer envelope ----------------------------------------------------------------------

  /** Each list holds exactly the results with its status, in the order of the answers, and every result
      is in one of the three. */
  lemma BucketsHoldAll(rs: seq<ItemResult>)
    ensures |WithStatus(rs, Accepted)| + |WithStatus(rs, Rejected)| + |WithStatus(rs, Duplicate)| == |rs|
    ensures forall st, r :: r in WithStatus(rs, st) <==> r in rs && r.status == st
  {
    hide WithStatus;
    BucketSizes(rs);
    forall st, r
      ensures r in WithStatus(rs, st) <==> r in rs && r.status == st
    {
      BucketHolds(rs, st, r);
    }
  }

  lemma {:induction false} BucketSizes(rs: seq<ItemResult>)
    ensures |WithStatus(rs, Accepted)| + |WithStatus(rs, Rejected)| + |WithStatus(rs, Duplicate)| == |rs|
  {
    if rs == [] {
    } else {
      BucketSizes(rs[..|rs| - 1]);
    }
  }

  lemma {:induction false} BucketHolds(rs: seq<ItemResult>, st: ItemStatus, r: ItemResult)
    ensures r in WithStatus(rs, st) <==> r in rs && r.status == st
  {
    if rs == [] {
    } else {
      hide WithStatus;
      var front, last := rs[..|rs| - 1], rs[|rs| - 1];
      assert rs == front + [last];
      BucketHolds(front, st, r);
      BucketsKeepOrder(front, last, st);
    }
  }

  /** Results keep their order within a list. */
  lemma BucketsKeepOrder(rs: seq<ItemResult>, r: ItemResult, st: ItemStatus)
    ensures WithStatus(rs + [r], st) == if r.status == st then WithStatus(rs, st) + [r] else WithStatus(rs, st)
  {
    assert (rs + [r])[..|rs|] == rs;
    assert WithStatus(rs, st) + [] == WithStatus(rs, st);
  }
}
