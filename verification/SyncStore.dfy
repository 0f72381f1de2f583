/** The four tables sync writes, their integrity constraints, and their uuid-level view. */
module SyncStore {
  import opened Wrappers
  import opened SyncModel
  import opened SyncTables

  /** Next values of the four id sequences. */
  datatype Seqs = Seqs(inspection: nat, point: nat, problem: nat, media: nat)

  /** `bySeq` is the unique index on (inspection_id, seq), `byObject` that on (cos_bucket, cos_key). */
  datatype Store = Store(
    inspections: Table<InspectionData>, points: Table<PointData<Id>>,
    problems: Table<ProblemData<Id>>, media: Table<MediaData<OwnerKey>>,
    bySeq: map<(Id, int), Id>, byObject: map<(string, string), Id>, next: Seqs)

  ghost predicate SeqIndexOk(points: Table<PointData<Id>>, bySeq: map<(Id, int), Id>) {
    && (forall k :: k in bySeq ==>
          bySeq[k] in points.rows && (points.rows[bySeq[k]].data.parent, points.rows[bySeq[k]].data.seqNo) == k)
    && (forall id :: id in points.rows ==>
          var k := (points.rows[id].data.parent, points.rows[id].data.seqNo);
          k in bySeq && bySeq[k] == id)
  }

  ghost predicate ObjectIndexOk(media: Table<MediaData<OwnerKey>>, byObject: map<(string, string), Id>) {
    && (forall k :: k in byObject ==>
          byObject[k] in media.rows && (media.rows[byObject[k]].data.bucket, media.rows[byObject[k]].data.key) == k)
    && (forall id :: id in media.rows ==>
          var k := (media.rows[id].data.bucket, media.rows[id].data.key);
          k in byObject && byObject[k] == id)
  }

  ghost predicate PointParentsOk(inspections: Table<InspectionData>, points: Table<PointData<Id>>) {
    forall id :: id in points.rows ==> points.rows[id].data.parent in inspections.rows
  }

  ghost predicate ParentOk(inspections: Table<InspectionData>, parent: Option<Id>) {
    parent.Some? ==> parent.value in inspections.rows
  }

  ghost predicate ProblemParentsOk(inspections: Table<InspectionData>, problems: Table<ProblemData<Id>>) {
    forall id :: id in problems.rows ==> ParentOk(inspections, problems.rows[id].data.inspection)
  }

  /** A media owner is a soft reference, so it may dangle; it never names an id not drawn yet. */
  ghost predicate OwnerDrawn(o: OwnerKey, next: Seqs) {
    && (o.kind == InspectionOwner ==> o.id < next.inspection)
    && (o.kind == ProblemOwner ==> o.id < next.problem)
  }

  ghost predicate OwnersOk(media: Table<MediaData<OwnerKey>>, next: Seqs) {
    forall id :: id in media.rows ==> OwnerDrawn(media.rows[id].data.owner, next)
  }

  /** Every constraint of the schema on the four tables, except those into the reference tables. */
  ghost predicate StoreOk(s: Store) {
    && TableOk(s.inspections, s.next.inspection)
    && TableOk(s.points, s.next.point)
    && TableOk(s.problems, s.next.problem)
    && TableOk(s.media, s.next.media)
    && SeqIndexOk(s.points, s.bySeq) && ObjectIndexOk(s.media, s.byObject)
    && PointParentsOk(s.inspections, s.points) && ProblemParentsOk(s.inspections, s.problems)
    && OwnersOk(s.media, s.next)
  }

  const EMPTY_STORE: Store :=
    Store(Table(map[], map[]), Table(map[], map[]), Table(map[], map[]), Table(map[], map[]), map[], map[], Seqs(0, 0, 0, 0))

  /** A new installation meets every constraint, under any reference tables. */
  lemma EmptyStoreOk(refs: Refs)
    ensures StoreOk(EMPTY_STORE) && RefsOk(refs, EMPTY_STORE)
  {
  }

  /** The foreign keys into projects, tasks, users and dict_item. */
  predicate InspectionRefsOk(refs: Refs, d: InspectionData) {
    && d.projectId in refs.projects && d.inspectorId in refs.users
    && (d.taskId.Some? ==> d.taskId.value in refs.tasks)
  }

  predicate ProblemRefsOk(refs: Refs, d: ProblemColumns) {
    && d.projectId in refs.projects && d.inspectorId in refs.users
    && (d.typeItem.Some? ==> d.typeItem.value in refs.dictItems)
    && (d.statusItem.Some? ==> d.statusItem.value in refs.dictItems)
    && (d.categoryItem.Some? ==> d.categoryItem.value in refs.dictItems)
  }

  ghost predicate RefsOk(refs: Refs, s: Store) {
    && (forall id :: id in s.inspections.rows ==> InspectionRefsOk(refs, s.inspections.rows[id].data))
    && (forall id :: id in s.problems.rows ==> ProblemRefsOk(refs, s.problems.rows[id].data.columns))
  }

  lemma RefsOkWithInspection(refs: Refs, s: Store, uuid: Uuid, d: InspectionData)
    requires RefsOk(refs, s) && InspectionRefsOk(refs, d)
    ensures RefsOk(refs, WithInspection(s, uuid, d))
  {
  }

  lemma RefsOkWithProblem(refs: Refs, s: Store, uuid: Uuid, d: ProblemData<Id>)
    requires RefsOk(refs, s) && ProblemRefsOk(refs, d.columns)
    ensures RefsOk(refs, WithProblem(s, uuid, d))
  {
  }

  /** The same rows; only the id sequences may have moved on. */
  ghost predicate SameTables(s: Store, s': Store) {
    s' == s.(next := s'.next)
  }

  ghost predicate SeqsAdvance(q: Seqs, q': Seqs) {
    q.inspection <= q'.inspection && q.point <= q'.point && q.problem <= q'.problem && q.media <= q'.media
  }

  /** Nothing stored in `s` is changed or gone in `s'`. */
  ghost predicate Extends(s: Store, s': Store) {
    && RowsKept(s.inspections, s'.inspections)
    && RowsKept(s.points, s'.points)
    && RowsKept(s.problems, s'.problems)
    && RowsKept(s.media, s'.media)
    && SeqsAdvance(s.next, s'.next)
  }

  lemma ExtendsTransitive(s0: Store, s1: Store, s2: Store)
    requires Extends(s0, s1) && Extends(s1, s2)
    ensures Extends(s0, s2)
  {
  }

  // --- The uuid-level view ----------------------------------------------------------------------

  /** What the tables say once server ids are forgotten: rows named by client_uuid throughout. */
  datatype View = View(
    inspections: map<Uuid, InspectionData>, points: map<Uuid, PointData<Uuid>>,
    problems: map<Uuid, ProblemData<Uuid>>, media: map<Uuid, MediaData<OwnerRef>>)

  ghost function PointByUuid(d: PointData<Id>, parent: Uuid): PointData<Uuid> {
    PointData(parent, d.seqNo, d.sample)
  }

  ghost function ProblemByUuid(d: ProblemData<Id>, parent: Option<Uuid>): ProblemData<Uuid> {
    ProblemData(parent, d.columns, d.deleted)
  }

  ghost function MediaByUuid(d: MediaData<OwnerKey>, owner: OwnerRef): MediaData<OwnerRef> {
    MediaData(owner, d.bucket, d.key, d.columns, d.deleted)
  }

  ghost function OwnerRefOf(
      inspections: Table<InspectionData>, problems: Table<ProblemData<Id>>, o: OwnerKey): OwnerRef
  {
    if o.kind == InspectionOwner && o.id in inspections.rows then
      ByUuid(o.kind, inspections.rows[o.id].uuid)
    else if o.kind == ProblemOwner && o.id in problems.rows then
      ByUuid(o.kind, problems.rows[o.id].uuid)
    else
      ById(o.kind, o.id)
  }

  ghost function ParentUuid(inspections: Table<InspectionData>, parent: Option<Id>): Option<Uuid>
    requires ParentOk(inspections, parent)
  {
    if parent.Some? then Some(inspections.rows[parent.value].uuid) else None
  }

  ghost function InspectionsView(t: Table<InspectionData>): (v: map<Uuid, InspectionData>)
    requires IndexOk(t)
    ensures v.Keys == t.byUuid.Keys
  {
    map u | u in t.byUuid :: t.rows[t.byUuid[u]].data
  }

  ghost function PointsView(inspections: Table<InspectionData>, t: Table<PointData<Id>>): (v: map<Uuid, PointData<Uuid>>)
    requires IndexOk(t) && PointParentsOk(inspections, t)
    ensures v.Keys == t.byUuid.Keys
  {
    map u | u in t.byUuid ::
      PointByUuid(t.rows[t.byUuid[u]].data, inspections.rows[t.rows[t.byUuid[u]].data.parent].uuid)
  }

  ghost function ProblemsView(inspections: Table<InspectionData>, t: Table<ProblemData<Id>>): (v: map<Uuid, ProblemData<Uuid>>)
    requires IndexOk(t) && ProblemParentsOk(inspections, t)
    ensures v.Keys == t.byUuid.Keys
  {
    map u | u in t.byUuid ::
      ProblemByUuid(t.rows[t.byUuid[u]].data, ParentUuid(inspections, t.rows[t.byUuid[u]].data.inspection))
  }

  ghost function MediaView(
      inspections: Table<InspectionData>, problems: Table<ProblemData<Id>>, t: Table<MediaData<OwnerKey>>)
    : (v: map<Uuid, MediaData<OwnerRef>>)
    requires IndexOk(t)
    ensures v.Keys == t.byUuid.Keys
  {
    map u | u in t.byUuid ::
      MediaByUuid(t.rows[t.byUuid[u]].data, OwnerRefOf(inspections, problems, t.rows[t.byUuid[u]].data.owner))
  }

  ghost function ViewOf(s: Store): View
    requires StoreOk(s)
  {
    View(InspectionsView(s.inspections), PointsView(s.inspections, s.points),
         ProblemsView(s.inspections, s.problems), MediaView(s.inspections, s.problems, s.media))
  }

  /** The view and the kept rows determine the tables: server ids included. */
  lemma SameViewSameTables(s: Store, s': Store)
    requires StoreOk(s) && StoreOk(s') && Extends(s, s') && ViewOf(s) == ViewOf(s')
    ensures SameTables(s, s')
  {
    var v, v' := ViewOf(s), ViewOf(s');
    assert v.inspections.Keys == v'.inspections.Keys && v.points.Keys == v'.points.Keys;
    assert v.problems.Keys == v'.problems.Keys && v.media.Keys == v'.media.Keys;
    SameKeysSameTable(s.inspections, s'.inspections);
    SameKeysSameTable(s.points, s'.points);
    SameKeysSameTable(s.problems, s'.problems);
    SameKeysSameTable(s.media, s'.media);
    SameSeqIndex(s.points, s.bySeq, s'.bySeq);
    SameObjectIndex(s.media, s.byObject, s'.byObject);
  }

  lemma SameSeqIndex(points: Table<PointData<Id>>, ix: map<(Id, int), Id>, ix': map<(Id, int), Id>)
    requires SeqIndexOk(points, ix) && SeqIndexOk(points, ix')
    ensures ix == ix'
  {
  }

  lemma SameObjectIndex(
      media: Table<MediaData<OwnerKey>>, ix: map<(string, string), Id>, ix': map<(string, string), Id>)
    requires ObjectIndexOk(media, ix) && ObjectIndexOk(media, ix')
    ensures ix == ix'
  {
  }

  /** Drawing ids moves no row, so nothing the view shows changes. */
  lemma DrawnOk(refs: Refs, s: Store, next: Seqs)
    requires StoreOk(s) && RefsOk(refs, s) && SeqsAdvance(s.next, next)
    ensures var s' := s.(next := next);
            StoreOk(s') && RefsOk(refs, s') && Extends(s, s') && ViewOf(s') == ViewOf(s)
  {
  }

  // --- One insertion into each table ------------------------------------------------------------

  function WithInspection(s: Store, uuid: Uuid, d: InspectionData): Store {
    s.(inspections := Inserted(s.inspections, s.next.inspection, uuid, d),
       next := s.next.(inspection := s.next.inspection + 1))
  }

  function WithPoint(s: Store, uuid: Uuid, d: PointData<Id>): Store {
    s.(points := Inserted(s.points, s.next.point, uuid, d),
       bySeq := s.bySeq[(d.parent, d.seqNo) := s.next.point],
       next := s.next.(point := s.next.point + 1))
  }

  function WithProblem(s: Store, uuid: Uuid, d: ProblemData<Id>): Store {
    s.(problems := Inserted(s.problems, s.next.problem, uuid, d),
       next := s.next.(problem := s.next.problem + 1))
  }

  function WithMedia(s: Store, uuid: Uuid, d: MediaData<OwnerKey>): Store {
    s.(media := Inserted(s.media, s.next.media, uuid, d),
       byObject := s.byObject[(d.bucket, d.key) := s.next.media],
       next := s.next.(media := s.next.media + 1))
  }

  lemma WithInspectionOk(s: Store, uuid: Uuid, d: InspectionData)
    requires StoreOk(s) && uuid !in s.inspections.byUuid
    ensures var s' := WithInspection(s, uuid, d);
            && StoreOk(s') && Extends(s, s')
            && ViewOf(s') == ViewOf(s).(inspections := ViewOf(s).inspections[uuid := d])
  {
    WithInspectionStoreOk(s, uuid, d);
    var t' := Inserted(s.inspections, s.next.inspection, uuid, d);
    InspectionsViewInserted(s.inspections, s.next.inspection, uuid, d);
    PointsViewKeepsParents(s.inspections, t', s.points);
    ProblemsViewKeepsParents(s.inspections, t', s.problems);
    MediaViewKeepsOwners(s.inspections, t', s.problems, s.problems, s.media, s.next);
  }

  lemma WithInspectionStoreOk(s: Store, uuid: Uuid, d: InspectionData)
    requires StoreOk(s) && uuid !in s.inspections.byUuid
    ensures StoreOk(WithInspection(s, uuid, d)) && Extends(s, WithInspection(s, uuid, d))
  {
    InsertedOk(s.inspections, s.next.inspection, uuid, d);
  }

  lemma WithPointOk(s: Store, uuid: Uuid, d: PointData<Id>)
    requires StoreOk(s) && uuid !in s.points.byUuid
    requires d.parent in s.inspections.rows && (d.parent, d.seqNo) !in s.bySeq
    ensures var s' := WithPoint(s, uuid, d);
            && StoreOk(s') && Extends(s, s')
            && ViewOf(s') == ViewOf(s).(points :=
                 ViewOf(s).points[uuid := PointByUuid(d, s.inspections.rows[d.parent].uuid)])
  {
    WithPointStoreOk(s, uuid, d);
    PointsViewInserted(s.inspections, s.points, s.next.point, uuid, d);
    hide IndexOk, SeqIndexOk, ObjectIndexOk, PointParentsOk, ProblemParentsOk, OwnersOk, Inserted, Extends;
    hide InspectionsView, PointsView, ProblemsView, MediaView, PointByUuid;
  }

  lemma WithPointStoreOk(s: Store, uuid: Uuid, d: PointData<Id>)
    requires StoreOk(s) && uuid !in s.points.byUuid
    requires d.parent in s.inspections.rows && (d.parent, d.seqNo) !in s.bySeq
    ensures StoreOk(WithPoint(s, uuid, d)) && Extends(s, WithPoint(s, uuid, d))
  {
    hide SeqIndexOk, ObjectIndexOk, IndexOk, PointParentsOk, ProblemParentsOk, OwnersOk, PointsView, Inserted, RowsKept;
    InsertedOk(s.points, s.next.point, uuid, d);
    PointsViewInserted(s.inspections, s.points, s.next.point, uuid, d);
    SeqIndexInserted(s.points, s.bySeq, s.next.point, uuid, d);
    OwnersStayDrawn(s.media, s.next, WithPoint(s, uuid, d).next);
    AllRowsKept(s);
  }

  lemma WithProblemOk(s: Store, uuid: Uuid, d: ProblemData<Id>)
    requires StoreOk(s) && uuid !in s.problems.byUuid && ParentOk(s.inspections, d.inspection)
    ensures var s' := WithProblem(s, uuid, d);
            && StoreOk(s') && Extends(s, s')
            && ViewOf(s') == ViewOf(s).(problems := ViewOf(s).problems[uuid :=
                 ProblemByUuid(d, ParentUuid(s.inspections, d.inspection))])
  {
    WithProblemStoreOk(s, uuid, d);
    NewIdsAreLater(s.problems, s.next.problem, uuid, d);
    ProblemsViewInserted(s.inspections, s.problems, s.next.problem, uuid, d);
    MediaViewKeepsOwners(s.inspections, s.inspections, s.problems, WithProblem(s, uuid, d).problems, s.media, s.next);
    hide IndexOk, SeqIndexOk, ObjectIndexOk, PointParentsOk, ProblemParentsOk, ParentOk, OwnersOk, Inserted, Extends;
    hide InspectionsView, PointsView, ProblemsView, MediaView, ProblemByUuid, ParentUuid;
  }

  lemma WithProblemStoreOk(s: Store, uuid: Uuid, d: ProblemData<Id>)
    requires StoreOk(s) && uuid !in s.problems.byUuid && ParentOk(s.inspections, d.inspection)
    ensures StoreOk(WithProblem(s, uuid, d)) && Extends(s, WithProblem(s, uuid, d))
  {
    hide SeqIndexOk, ObjectIndexOk, IndexOk, PointParentsOk, ProblemParentsOk, ParentOk, OwnersOk, ProblemsView, Inserted, RowsKept;
    InsertedOk(s.problems, s.next.problem, uuid, d);
    ProblemsViewInserted(s.inspections, s.problems, s.next.problem, uuid, d);
    OwnersStayDrawn(s.media, s.next, WithProblem(s, uuid, d).next);
    AllRowsKept(s);
  }

  lemma NewIdsAreLater<D>(t: Table<D>, next: nat, uuid: Uuid, d: D)
    ensures forall id :: id in Inserted(t, next, uuid, d).rows && id < next ==> id in t.rows
    ensures TableOk(t, next) && uuid !in t.byUuid ==> UuidsKept(t, Inserted(t, next, uuid, d))
    ensures UuidsKept(t, t)
  {
  }

  lemma WithMediaOk(s: Store, uuid: Uuid, d: MediaData<OwnerKey>)
    requires StoreOk(s) && uuid !in s.media.byUuid
    requires OwnerDrawn(d.owner, s.next) && (d.bucket, d.key) !in s.byObject
    ensures var s' := WithMedia(s, uuid, d);
            && StoreOk(s') && Extends(s, s')
            && ViewOf(s') == ViewOf(s).(media :=
                 ViewOf(s).media[uuid := MediaByUuid(d, OwnerRefOf(s.inspections, s.problems, d.owner))])
  {
    WithMediaStoreOk(s, uuid, d);
    MediaViewInserted(s.inspections, s.problems, s.media, s.next.media, uuid, d);
    hide IndexOk, SeqIndexOk, ObjectIndexOk, PointParentsOk, ProblemParentsOk, OwnersOk, Inserted, Extends;
    hide InspectionsView, PointsView, ProblemsView, MediaView, MediaByUuid, OwnerRefOf, OwnerDrawn;
  }

  lemma WithMediaStoreOk(s: Store, uuid: Uuid, d: MediaData<OwnerKey>)
    requires StoreOk(s) && uuid !in s.media.byUuid
    requires OwnerDrawn(d.owner, s.next) && (d.bucket, d.key) !in s.byObject
    ensures StoreOk(WithMedia(s, uuid, d)) && Extends(s, WithMedia(s, uuid, d))
  {
    hide SeqIndexOk, ObjectIndexOk, IndexOk, PointParentsOk, ProblemParentsOk, OwnersOk, OwnerDrawn, Inserted, RowsKept;
    InsertedOk(s.media, s.next.media, uuid, d);
    ObjectIndexInserted(s.media, s.byObject, s.next.media, uuid, d);
    OwnersInserted(s.media, s.next, WithMedia(s, uuid, d).next, s.next.media, uuid, d);
    AllRowsKept(s);
  }

  /** Owner references stay drawn when sequences move on. */
  lemma OwnersStayDrawn(media: Table<MediaData<OwnerKey>>, next: Seqs, next': Seqs)
    requires OwnersOk(media, next) && SeqsAdvance(next, next')
    ensures OwnersOk(media, next')
  {
  }

  lemma OwnersInserted(
      media: Table<MediaData<OwnerKey>>, next: Seqs, next': Seqs, id: Id, uuid: Uuid, d: MediaData<OwnerKey>)
    requires OwnersOk(media, next) && SeqsAdvance(next, next') && OwnerDrawn(d.owner, next)
    ensures OwnersOk(Inserted(media, id, uuid, d), next')
  {
  }

  lemma AllRowsKept(s: Store)
    ensures RowsKept(s.inspections, s.inspections) && RowsKept(s.points, s.points)
    ensures RowsKept(s.problems, s.problems) && RowsKept(s.media, s.media)
  {
  }

  lemma InspectionsViewInserted(t: Table<InspectionData>, next: nat, uuid: Uuid, d: InspectionData)
    requires TableOk(t, next) && uuid !in t.byUuid
    ensures IndexOk(Inserted(t, next, uuid, d))
    ensures InspectionsView(Inserted(t, next, uuid, d)) == InspectionsView(t)[uuid := d]
  {
    InsertedOk(t, next, uuid, d);
  }

  lemma PointsViewInserted(
      inspections: Table<InspectionData>, t: Table<PointData<Id>>, next: nat, uuid: Uuid, d: PointData<Id>)
    requires TableOk(t, next) && uuid !in t.byUuid
    requires PointParentsOk(inspections, t) && d.parent in inspections.rows
    ensures IndexOk(Inserted(t, next, uuid, d)) && PointParentsOk(inspections, Inserted(t, next, uuid, d))
    ensures PointsView(inspections, Inserted(t, next, uuid, d))
         == PointsView(inspections, t)[uuid := PointByUuid(d, inspections.rows[d.parent].uuid)]
  {
    InsertedOk(t, next, uuid, d);
  }

  lemma OldRowsStay<D>(t: Table<D>, next: nat, uuid: Uuid, d: D)
    requires TableOk(t, next) && uuid !in t.byUuid
    ensures var t' := Inserted(t, next, uuid, d);
            && IndexOk(t') && t'.byUuid.Keys == t.byUuid.Keys + {uuid}
            && t'.byUuid[uuid] == next && next in t'.rows && t'.rows[next] == Row(uuid, d)
            && forall u :: u in t.byUuid ==>
                 t'.byUuid[u] == t.byUuid[u] && t.byUuid[u] in t'.rows && t'.rows[t.byUuid[u]] == t.rows[t.byUuid[u]]
  {
  }

  lemma ProblemsViewInserted(
      inspections: Table<InspectionData>, t: Table<ProblemData<Id>>, next: nat, uuid: Uuid, d: ProblemData<Id>)
    requires TableOk(t, next) && uuid !in t.byUuid
    requires ProblemParentsOk(inspections, t) && ParentOk(inspections, d.inspection)
    ensures IndexOk(Inserted(t, next, uuid, d)) && ProblemParentsOk(inspections, Inserted(t, next, uuid, d))
    ensures ProblemsView(inspections, Inserted(t, next, uuid, d))
         == ProblemsView(inspections, t)[uuid := ProblemByUuid(d, ParentUuid(inspections, d.inspection))]
  {
    hide ParentUuid, ParentOk, TableOk, IndexOk;
    InsertedOk(t, next, uuid, d);
    OldRowsStay(t, next, uuid, d);
  }

  lemma MediaViewInserted(
      inspections: Table<InspectionData>, problems: Table<ProblemData<Id>>,
      t: Table<MediaData<OwnerKey>>, next: nat, uuid: Uuid, d: MediaData<OwnerKey>)
    requires TableOk(t, next) && uuid !in t.byUuid
    ensures IndexOk(Inserted(t, next, uuid, d))
    ensures MediaView(inspections, problems, Inserted(t, next, uuid, d))
         == MediaView(inspections, problems, t)[uuid := MediaByUuid(d, OwnerRefOf(inspections, problems, d.owner))]
  {
    InsertedOk(t, next, uuid, d);
  }

  lemma SeqIndexInserted(
      t: Table<PointData<Id>>, bySeq: map<(Id, int), Id>, next: nat, uuid: Uuid, d: PointData<Id>)
    requires TableOk(t, next) && SeqIndexOk(t, bySeq) && (d.parent, d.seqNo) !in bySeq
    ensures SeqIndexOk(Inserted(t, next, uuid, d), bySeq[(d.parent, d.seqNo) := next])
  {
  }

  lemma ObjectIndexInserted(
      t: Table<MediaData<OwnerKey>>, byObject: map<(string, string), Id>, next: nat, uuid: Uuid,
      d: MediaData<OwnerKey>)
    requires TableOk(t, next) && ObjectIndexOk(t, byObject) && (d.bucket, d.key) !in byObject
    ensures ObjectIndexOk(Inserted(t, next, uuid, d), byObject[(d.bucket, d.key) := next])
  {
  }

  lemma PointsViewKeepsParents(
      inspections: Table<InspectionData>, inspections': Table<InspectionData>, t: Table<PointData<Id>>)
    requires IndexOk(t) && UuidsKept(inspections, inspections') && PointParentsOk(inspections, t)
    ensures PointParentsOk(inspections', t) && PointsView(inspections', t) == PointsView(inspections, t)
  {
  }

  lemma ProblemsViewKeepsParents(
      inspections: Table<InspectionData>, inspections': Table<InspectionData>, t: Table<ProblemData<Id>>)
    requires IndexOk(t) && UuidsKept(inspections, inspections') && ProblemParentsOk(inspections, t)
    ensures ProblemParentsOk(inspections', t) && ProblemsView(inspections', t) == ProblemsView(inspections, t)
  {
    forall u | u in t.byUuid
      ensures ParentUuid(inspections', t.rows[t.byUuid[u]].data.inspection)
           == ParentUuid(inspections, t.rows[t.byUuid[u]].data.inspection)
    {
    }
  }

  /** An owner reference keeps its meaning: new rows only take ids no reference can name yet. */
  lemma MediaViewKeepsOwners(
      inspections: Table<InspectionData>, inspections': Table<InspectionData>,
      problems: Table<ProblemData<Id>>, problems': Table<ProblemData<Id>>,
      media: Table<MediaData<OwnerKey>>, next: Seqs)
    requires IndexOk(media) && OwnersOk(media, next)
    requires UuidsKept(inspections, inspections') && UuidsKept(problems, problems')
    requires forall id :: id in inspections'.rows && id < next.inspection ==> id in inspections.rows
    requires forall id :: id in problems'.rows && id < next.problem ==> id in problems.rows
    ensures MediaView(inspections', problems', media) == MediaView(inspections, problems, media)
  {
  }
}
