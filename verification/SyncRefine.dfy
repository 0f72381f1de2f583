/** Items applied to tables and id maps refine the uuid-level specification. */
module SyncRefine {
  import opened Wrappers
  import opened SyncModel
  import opened SyncTables
  import opened SyncStore
  import opened SyncSpec
  import opened SyncApply

  /** Each map entry names a row with that uuid; a problem entry names a live one. */
  ghost predicate MapsOk(s: Store, inspectionIds: map<Uuid, Id>, problemIds: map<Uuid, Id>) {
    && (forall u :: u in inspectionIds ==>
          inspectionIds[u] in s.inspections.rows && s.inspections.rows[inspectionIds[u]].uuid == u)
    && (forall u :: u in problemIds ==>
          && problemIds[u] in s.problems.rows && s.problems.rows[problemIds[u]].uuid == u
          && !s.problems.rows[problemIds[u]].data.deleted)
  }

  ghost predicate SessionOk(c: Ctx, s: Session) {
    StoreOk(s.store) && RefsOk(c.refs, s.store) && MapsOk(s.store, s.inspectionIds, s.problemIds)
  }

  /** What the specification sees of a session: its uuid-level view and the uuids in the map. */
  ghost function Abstract(s: Session): Spec
    requires StoreOk(s.store)
  {
    Spec(ViewOf(s.store), s.inspectionIds.Keys)
  }

  ghost function ServerIds(s: Store, x: Item): map<Uuid, Id> {
    match x
    case OfInspection(_) => s.inspections.byUuid
    case OfPoint(_) => s.points.byUuid
    case OfProblem(_) => s.problems.byUuid
    case OfMedia(_) => s.media.byUuid
  }

  /** A result reports an outcome: an accepted or duplicate item with the id of its row, a rejected
      one with its reason. */
  ghost predicate Reports(s: Store, x: Item, o: Outcome, r: ItemResult) {
    && r.uuid == ItemUuid(x)
    && match o
       case Reject(reason) => r.status == Rejected && r.serverId == None && r.error == Some(reason)
       case _ =>
         && r.status == (if o == Accept then Accepted else Duplicate) && r.error == None
         && r.uuid in ServerIds(s, x) && r.serverId == Some(ServerIds(s, x)[r.uuid])
  }

  lemma ReportsKept(s: Store, s': Store, x: Item, o: Outcome, r: ItemResult)
    requires Indexed(s) && Indexed(s') && Extends(s, s') && Reports(s, x, o, r)
    ensures Reports(s', x, o, r)
  {
    if !o.Reject? {
      match x
      case OfInspection(_) => KeptId(s.inspections, s'.inspections, r.uuid);
      case OfPoint(_) => KeptId(s.points, s'.points, r.uuid);
      case OfProblem(_) => KeptId(s.problems, s'.problems, r.uuid);
      case OfMedia(_) => KeptId(s.media, s'.media, r.uuid);
    }
  }

  lemma KeptId<D>(t: Table<D>, t': Table<D>, u: Uuid)
    requires IndexOk(t) && IndexOk(t') && RowsKept(t, t') && u in t.byUuid
    ensures u in t'.byUuid && t'.byUuid[u] == t.byUuid[u]
  {
    assert t.byUuid[u] in t'.rows;
  }

  // --- What the concrete tests mean -------------------------------------------------------------

  lemma LiveInspectionIdMeans(s: Store, u: Uuid)
    requires StoreOk(s)
    ensures LiveInspectionId(s, u).Some? <==> LiveInspection(ViewOf(s), u)
  {
    var v := InspectionsView(s.inspections);
    assert ViewOf(s).inspections == v;
    if u in s.inspections.byUuid {
      assert v[u] == s.inspections.rows[s.inspections.byUuid[u]].data;
    } else {
      assert u !in v;
    }
  }

  lemma LiveProblemIdMeans(s: Store, u: Uuid)
    requires StoreOk(s)
    ensures LiveProblemId(s, u).Some? <==> LiveProblem(ViewOf(s), u)
  {
    var v := ProblemsView(s.inspections, s.problems);
    assert ViewOf(s).problems == v;
    if u in s.problems.byUuid {
      assert v[u].deleted == s.problems.rows[s.problems.byUuid[u]].data.deleted;
    } else {
      assert u !in v;
    }
  }

  /** A resolved parent is a stored inspection with the uuid asked for. */
  lemma ResolveInspectionMeans(c: Ctx, s: Session, u: Uuid)
    requires SessionOk(c, s)
    ensures ResolveInspection(s, u).Some? <==> InspectionResolves(Abstract(s), u)
    ensures ResolveInspection(s, u).Some? ==>
              var id := ResolveInspection(s, u).value;
              id in s.store.inspections.rows && s.store.inspections.rows[id].uuid == u
  {
    LiveInspectionIdMeans(s.store, u);
  }

  /** The problem map never resolves anything that the live rows do not. */
  lemma ResolveOwnerMeans(c: Ctx, s: Session, m: SyncMedia)
    requires SessionOk(c, s)
    ensures ResolveOwner(s, m).Some? <==> OwnerResolves(Abstract(s), m)
    ensures ResolveOwner(s, m).Some? ==>
              && m.owner.Some?
              && OwnerRefOf(s.store.inspections, s.store.problems, OwnerKey(m.ownerType, ResolveOwner(s, m).value))
                 == ByUuid(m.ownerType, m.owner.value)
              && OwnerDrawn(OwnerKey(m.ownerType, ResolveOwner(s, m).value), s.store.next)
  {
    if m.owner.Some? {
      var u := m.owner.value;
      if m.ownerType == InspectionOwner {
        ResolveInspectionMeans(c, s, u);
      } else if m.ownerType == ProblemOwner {
        LiveProblemIdMeans(s.store, u);
        if u in s.problemIds {
          assert s.store.problems.byUuid[u] == s.problemIds[u];
        }
      }
    }
  }

  /** The (inspection_id, seq) index says exactly whether some point of the parent has the seq. */
  lemma SeqIndexMeans(s: Store, parent: Id, seqNo: int)
    requires StoreOk(s) && parent in s.inspections.rows
    ensures (parent, seqNo) in s.bySeq <==> SeqTaken(ViewOf(s), s.inspections.rows[parent].uuid, seqNo)
  {
    var v, u := PointsView(s.inspections, s.points), s.inspections.rows[parent].uuid;
    if (parent, seqNo) in s.bySeq {
      var p := s.points.rows[s.bySeq[(parent, seqNo)]].uuid;
      assert v[p].parent == u && v[p].seqNo == seqNo;
    }
    if SeqTaken(ViewOf(s), u, seqNo) {
      var p :| p in v && v[p].parent == u && v[p].seqNo == seqNo;
      var d := s.points.rows[s.points.byUuid[p]].data;
      assert s.inspections.byUuid[u] == parent == d.parent;
    }
  }

  lemma ObjectIndexMeans(s: Store, bucket: string, key: string)
    requires StoreOk(s)
    ensures (bucket, key) in s.byObject <==> ObjectTaken(ViewOf(s), bucket, key)
  {
    var v := MediaView(s.inspections, s.problems, s.media);
    if (bucket, key) in s.byObject {
      var m := s.media.rows[s.byObject[(bucket, key)]].uuid;
      assert v[m].bucket == bucket && v[m].key == key;
    }
    if ObjectTaken(ViewOf(s), bucket, key) {
      var m :| m in v && v[m].bucket == bucket && v[m].key == key;
      var d := s.media.rows[s.media.byUuid[m]].data;
      assert (d.bucket, d.key) in s.byObject;
    }
  }

  // --- One item ---------------------------------------------------------------------------------

  /** A step from s to s' with result r does to the view what the specification says. */
  ghost predicate Refines(c: Ctx, s: Session, x: Item, s': Session, r: ItemResult)
    requires StoreOk(s.store)
  {
    && SessionOk(c, s') && Extends(s.store, s'.store)
    && Abstract(s') == Step(c, Abstract(s), x)
    && Reports(s'.store, x, ItemOutcome(c, Abstract(s), x), r)
    && (r.status == Rejected ==> s' == s.(store := s.store.(next := s'.store.next)))
  }

  lemma UnacceptedRefines(c: Ctx, s: Session, x: Item, o: Outcome, s': Session, r: ItemResult)
    requires SessionOk(c, s) && o == ItemOutcome(c, Abstract(s), x) && !o.Accept?
    requires UnacceptedTo(s, x, o, s', r)
    requires x.OfProblem? && o == Duplic ==> LiveProblemId(s.store, x.problem.uuid).Some?
    ensures Refines(c, s, x, s', r)
  {
    MapsOkUnaccepted(s, x, o, s', r);
    DrawnRefines(c, s, x, s', r);
  }

  lemma MapsOkUnaccepted(s: Session, x: Item, o: Outcome, s': Session, r: ItemResult)
    requires Indexed(s.store) && MapsOk(s.store, s.inspectionIds, s.problemIds)
    requires UnacceptedTo(s, x, o, s', r) && !o.Accept?
    requires x.OfProblem? && o == Duplic ==> LiveProblemId(s.store, x.problem.uuid).Some?
    ensures MapsOk(s.store, s'.inspectionIds, s'.problemIds)
    ensures s'.inspectionIds.Keys
         == if x.OfInspection? && !o.Reject? then s.inspectionIds.Keys + {x.inspection.uuid} else s.inspectionIds.Keys
  {
  }

  /** Only id sequences moved: enough for rejected and duplicate items. */
  lemma DrawnRefines(c: Ctx, s: Session, x: Item, s': Session, r: ItemResult)
    requires SessionOk(c, s) && SeqsAdvance(s.store.next, s'.store.next)
    requires SameTables(s.store, s'.store) && MapsOk(s.store, s'.inspectionIds, s'.problemIds)
    requires !ItemOutcome(c, Abstract(s), x).Accept?
    requires s'.inspectionIds.Keys == Step(c, Abstract(s), x).synced
    requires Reports(s.store, x, ItemOutcome(c, Abstract(s), x), r)
    requires r.status == Rejected ==> s'.inspectionIds == s.inspectionIds && s'.problemIds == s.problemIds
    ensures Refines(c, s, x, s', r)
  {
    var next := s'.store.next;
    DrawnOk(c.refs, s.store, next);
    assert s'.store == s.store.(next := next);
    assert MapsOk(s'.store, s'.inspectionIds, s'.problemIds);
    assert Reports(s'.store, x, ItemOutcome(c, Abstract(s), x), r);
    PartsRefine(c, s, x, s', r);
  }

  lemma PartsRefine(c: Ctx, s: Session, x: Item, s': Session, r: ItemResult)
    requires StoreOk(s.store) && StoreOk(s'.store) && RefsOk(c.refs, s'.store)
    requires MapsOk(s'.store, s'.inspectionIds, s'.problemIds) && Extends(s.store, s'.store)
    requires ViewOf(s'.store) == Step(c, Abstract(s), x).view
    requires s'.inspectionIds.Keys == Step(c, Abstract(s), x).synced
    requires Reports(s'.store, x, ItemOutcome(c, Abstract(s), x), r)
    requires r.status == Rejected ==> s' == s.(store := s.store.(next := s'.store.next))
    ensures Refines(c, s, x, s', r)
  {
    assert SessionOk(c, s');
    assert Extends(s.store, s'.store);
    assert Abstract(s') == Step(c, Abstract(s), x);
    assert Reports(s'.store, x, ItemOutcome(c, Abstract(s), x), r);
  }

  /** The effect of an item that is not accepted: id sequences may move, a duplicate may enter a
      map, and the answer reports the outcome. */
  ghost predicate UnacceptedTo(s: Session, x: Item, o: Outcome, s': Session, r: ItemResult) {
    && SameTables(s.store, s'.store) && SeqsAdvance(s.store.next, s'.store.next)
    && Reports(s.store, x, o, r)
    && s'.inspectionIds == (if x.OfInspection? && o == Duplic && r.serverId.Some?
                            then s.inspectionIds[r.uuid := r.serverId.value] else s.inspectionIds)
    && s'.problemIds == (if x.OfProblem? && o == Duplic && r.serverId.Some?
                         then s.problemIds[r.uuid := r.serverId.value] else s.problemIds)
  }

  /** The effect of an accepted item: its row is added, and the answer locates it. */
  ghost predicate AcceptedTo(c: Ctx, s: Session, x: Item, s': Session, r: ItemResult)
    requires StoreOk(s.store)
  {
    && (x.OfMedia? ==> x.media.owner.Some?)
    && SessionOk(c, s') && Extends(s.store, s'.store)
    && ViewOf(s'.store) == Added(c, ViewOf(s.store), x)
    && s'.inspectionIds.Keys == s.inspectionIds.Keys + (if x.OfInspection? then {x.inspection.uuid} else {})
    && Reports(s'.store, x, Accept, r)
  }

  lemma AcceptedRefines(c: Ctx, s: Session, x: Item, s': Session, r: ItemResult)
    requires StoreOk(s.store) && ItemOutcome(c, Abstract(s), x) == Accept && AcceptedTo(c, s, x, s', r)
    ensures Refines(c, s, x, s', r)
  {
    StepAccepted(c, Abstract(s), x);
    PartsRefine(c, s, x, s', r);
  }

  lemma StepAccepted(c: Ctx, sp: Spec, x: Item)
    requires ItemOutcome(c, sp, x) == Accept && (x.OfMedia? ==> x.media.owner.Some?)
    ensures Step(c, sp, x)
         == Spec(Added(c, sp.view, x), sp.synced + (if x.OfInspection? then {x.inspection.uuid} else {}))
  {
  }

  lemma MapsOkKept(s: Store, s': Store, ids: map<Uuid, Id>, pids: map<Uuid, Id>)
    requires MapsOk(s, ids, pids) && Extends(s, s')
    ensures MapsOk(s', ids, pids)
  {
  }

  lemma MapsOkInspection(s: Store, ids: map<Uuid, Id>, pids: map<Uuid, Id>, u: Uuid, id: Id)
    requires MapsOk(s, ids, pids) && id in s.inspections.rows && s.inspections.rows[id].uuid == u
    ensures MapsOk(s, ids[u := id], pids) && ids[u := id].Keys == ids.Keys + {u}
  {
  }

  lemma MapsOkProblem(s: Store, ids: map<Uuid, Id>, pids: map<Uuid, Id>, u: Uuid, id: Id)
    requires MapsOk(s, ids, pids) && id in s.problems.rows && s.problems.rows[id].uuid == u
    requires !s.problems.rows[id].data.deleted
    ensures MapsOk(s, ids, pids[u := id])
  {
  }

  // For each kind: what the concrete tests mean; the concrete branches are the specification's
  // given that meaning; and the two put together.

  lemma InspectionBranches(c: Ctx, s: Session, sp: Spec, i: SyncInspection)
    requires Indexed(s.store) && (i.uuid in s.store.inspections.byUuid <==> i.uuid in sp.view.inspections)
    ensures var (s', r) := ApplyInspection(c, s, i);
            var o := InspectionOutcome(c, sp, i);
            if o == Accept then
              && i.uuid !in s.store.inspections.byUuid
              && InspectionRefsOk(c.refs, InspectionRow(c, i))
              && s' == s.(store := WithInspection(s.store, i.uuid, InspectionRow(c, i)),
                          inspectionIds := s.inspectionIds[i.uuid := s.store.next.inspection])
              && r == AcceptedOrDuplicate(i.uuid, s.store.next.inspection, true)
            else UnacceptedTo(s, OfInspection(i), o, s', r)
  {
  }

  lemma WithInspectionAdds(c: Ctx, s: Store, i: SyncInspection)
    requires StoreOk(s) && i.uuid !in s.inspections.byUuid
    ensures var s' := WithInspection(s, i.uuid, InspectionRow(c, i));
            StoreOk(s') && Extends(s, s') && ViewOf(s') == Added(c, ViewOf(s), OfInspection(i))
  {
    WithInspectionOk(s, i.uuid, InspectionRow(c, i));
  }

  lemma AcceptedInspectionAdds(c: Ctx, s: Session, i: SyncInspection, s': Session, r: ItemResult)
    requires SessionOk(c, s)
    requires i.uuid !in s.store.inspections.byUuid && InspectionRefsOk(c.refs, InspectionRow(c, i))
    requires s' == s.(store := WithInspection(s.store, i.uuid, InspectionRow(c, i)),
                      inspectionIds := s.inspectionIds[i.uuid := s.store.next.inspection])
    requires r == AcceptedOrDuplicate(i.uuid, s.store.next.inspection, true)
    ensures AcceptedTo(c, s, OfInspection(i), s', r)
  {
    var row := InspectionRow(c, i);
    WithInspectionAdds(c, s.store, i);
    RefsOkWithInspection(c.refs, s.store, i.uuid, row);
    MapsOkKept(s.store, s'.store, s.inspectionIds, s.problemIds);
    MapsOkInspection(s'.store, s.inspectionIds, s.problemIds, i.uuid, s.store.next.inspection);
    assert Reports(s'.store, OfInspection(i), Accept, r);
  }

  lemma InspectionRefines(c: Ctx, s: Session, i: SyncInspection)
    requires SessionOk(c, s)
    ensures var (s', r) := ApplyInspection(c, s, i); Refines(c, s, OfInspection(i), s', r)
  {
    assert ViewOf(s.store).inspections.Keys == s.store.inspections.byUuid.Keys;
    InspectionBranches(c, s, Abstract(s), i);
    var (s', r) := ApplyInspection(c, s, i);
    if InspectionOutcome(c, Abstract(s), i) == Accept {
      AcceptedInspectionAdds(c, s, i, s', r);
      AcceptedRefines(c, s, OfInspection(i), s', r);
    } else {
      UnacceptedRefines(c, s, OfInspection(i), InspectionOutcome(c, Abstract(s), i), s', r);
    }
  }

  lemma PointBranches(s: Session, sp: Spec, p: SyncPoint)
    requires Indexed(s.store)
    requires var parent := ResolveInspection(s, p.inspection);
             && (parent.Some? <==> InspectionResolves(sp, p.inspection))
             && (parent.Some? ==>
                  ((parent.value, p.seqNo) in s.store.bySeq <==> SeqTaken(sp.view, p.inspection, p.seqNo)))
    requires p.uuid in s.store.points.byUuid <==> p.uuid in sp.view.points
    ensures var (s', r) := ApplyPoint(s, p);
            var o := PointOutcome(sp, p);
            if o == Accept then
              && p.uuid !in s.store.points.byUuid && ResolveInspection(s, p.inspection).Some?
              && var parent := ResolveInspection(s, p.inspection).value;
              && (parent, p.seqNo) !in s.store.bySeq
              && s' == s.(store := WithPoint(s.store, p.uuid, PointRowAt(p, parent)))
              && r == AcceptedOrDuplicate(p.uuid, s.store.next.point, true)
            else UnacceptedTo(s, OfPoint(p), o, s', r)
  {
    hide ResolveInspection, InspectionResolves, SeqTaken, WithPoint, PointRowAt, IndexOk;
  }

  lemma PointTestsMean(c: Ctx, s: Session, p: SyncPoint)
    requires SessionOk(c, s)
    ensures var parent := ResolveInspection(s, p.inspection);
            && (parent.Some? <==> InspectionResolves(Abstract(s), p.inspection))
            && (parent.Some? ==>
                 && parent.value in s.store.inspections.rows
                 && s.store.inspections.rows[parent.value].uuid == p.inspection
                 && ((parent.value, p.seqNo) in s.store.bySeq
                     <==> SeqTaken(ViewOf(s.store), p.inspection, p.seqNo)))
    ensures p.uuid in s.store.points.byUuid <==> p.uuid in ViewOf(s.store).points
  {
    ResolveInspectionMeans(c, s, p.inspection);
    var parent := ResolveInspection(s, p.inspection);
    if parent.Some? {
      SeqIndexMeans(s.store, parent.value, p.seqNo);
    }
    assert ViewOf(s.store).points.Keys == s.store.points.byUuid.Keys;
  }

  lemma PointRefines(c: Ctx, s: Session, p: SyncPoint)
    requires SessionOk(c, s)
    ensures var (s', r) := ApplyPoint(s, p); Refines(c, s, OfPoint(p), s', r)
  {
    PointTestsMean(c, s, p);
    PointBranches(s, Abstract(s), p);
    var (s', r) := ApplyPoint(s, p);
    if PointOutcome(Abstract(s), p) == Accept {
      AcceptedPointRefines(c, s, p);
    } else {
      UnacceptedRefines(c, s, OfPoint(p), PointOutcome(Abstract(s), p), s', r);
    }
  }

  lemma AcceptedPointRefines(c: Ctx, s: Session, p: SyncPoint)
    requires SessionOk(c, s) && PointOutcome(Abstract(s), p) == Accept
    ensures var (s', r) := ApplyPoint(s, p); Refines(c, s, OfPoint(p), s', r)
  {
    hide StoreOk, RefsOk, MapsOk, ViewOf, PointOutcome, ItemOutcome, ApplyPoint, Refines, UnacceptedTo, AcceptedTo, ResolveInspection;
    SessionIndexed(c, s);
    PointTestsMean(c, s, p);
    PointBranches(s, Abstract(s), p);
    OutcomesByKind(c, Abstract(s));
    var (s', r) := ApplyPoint(s, p);
    AcceptedPointAdds(c, s, p, ResolveInspection(s, p.inspection).value, s', r);
    AcceptedRefines(c, s, OfPoint(p), s', r);
  }

  lemma WithPointAdds(c: Ctx, s: Store, p: SyncPoint, parent: Id)
    requires StoreOk(s) && p.uuid !in s.points.byUuid && (parent, p.seqNo) !in s.bySeq
    requires parent in s.inspections.rows && s.inspections.rows[parent].uuid == p.inspection
    ensures var s' := WithPoint(s, p.uuid, PointRowAt(p, parent));
            StoreOk(s') && Extends(s, s') && ViewOf(s') == Added(c, ViewOf(s), OfPoint(p))
  {
    hide StoreOk, ViewOf, WithPoint, Extends;
    var row := PointRowAt(p, parent);
    assert PointByUuid(row, p.inspection) == PointRow(p);
    WithPointOk(s, p.uuid, row);
  }

  lemma AcceptedPointAdds(c: Ctx, s: Session, p: SyncPoint, parent: Id, s': Session, r: ItemResult)
    requires SessionOk(c, s) && p.uuid !in s.store.points.byUuid && (parent, p.seqNo) !in s.store.bySeq
    requires parent in s.store.inspections.rows && s.store.inspections.rows[parent].uuid == p.inspection
    requires s' == s.(store := WithPoint(s.store, p.uuid, PointRowAt(p, parent)))
    requires r == AcceptedOrDuplicate(p.uuid, s.store.next.point, true)
    ensures AcceptedTo(c, s, OfPoint(p), s', r)
  {
    hide StoreOk, ViewOf, Added, Extends, PointRowAt;
    WithPointAdds(c, s.store, p, parent);
    assert RefsOk(c.refs, s'.store);
    MapsOkKept(s.store, s'.store, s.inspectionIds, s.problemIds);
    assert Reports(s'.store, OfPoint(p), Accept, r);
  }

  lemma ProblemBranches(c: Ctx, s: Session, sp: Spec, p: SyncProblem)
    requires Indexed(s.store)
    requires p.inspection.Some? ==>
               (ResolveInspection(s, p.inspection.value).Some? <==> InspectionResolves(sp, p.inspection.value))
    requires LiveProblemId(s.store, p.uuid).Some? <==> LiveProblem(sp.view, p.uuid)
    requires p.uuid in s.store.problems.byUuid <==> p.uuid in sp.view.problems
    ensures var (s', r) := ApplyProblem(c, s, p);
            var o := ProblemOutcome(c, sp, p);
            if o == Accept then
              && p.uuid !in s.store.problems.byUuid && ProblemRefsOk(c.refs, ProblemCols(c, p))
              && (p.inspection.Some? ==> ResolveInspection(s, p.inspection.value).Some?)
              && s' == s.(store := WithProblem(s.store, p.uuid, ProblemRowAt(c, p, ResolveOptionalInspection(s, p.inspection))),
                          problemIds := s.problemIds[p.uuid := s.store.next.problem])
              && r == AcceptedOrDuplicate(p.uuid, s.store.next.problem, true)
            else
              && UnacceptedTo(s, OfProblem(p), o, s', r)
              && (o == Duplic ==> LiveProblemId(s.store, p.uuid).Some?)
  {
    hide ResolveInspection, InspectionResolves, LiveProblem, WithProblem, ProblemRowAt, ProblemCols, ProblemRefsOk, IndexOk;
    LiveIdIsIndexed(s.store, p.uuid);
    hide LiveProblemId;
  }

  lemma LiveIdIsIndexed(s: Store, u: Uuid)
    requires Indexed(s)
    ensures LiveProblemId(s, u).Some? ==> u in s.problems.byUuid && LiveProblemId(s, u).value == s.problems.byUuid[u]
  {
  }

  lemma ProblemTestsMean(c: Ctx, s: Session, p: SyncProblem)
    requires SessionOk(c, s)
    ensures p.inspection.Some? ==>
              (ResolveInspection(s, p.inspection.value).Some? <==> InspectionResolves(Abstract(s), p.inspection.value))
    ensures var parent := ResolveOptionalInspection(s, p.inspection);
            && ParentOk(s.store.inspections, parent)
            && (parent.Some? ==> ParentUuid(s.store.inspections, parent) == p.inspection)
    ensures LiveProblemId(s.store, p.uuid).Some? <==> LiveProblem(ViewOf(s.store), p.uuid)
    ensures p.uuid in s.store.problems.byUuid <==> p.uuid in ViewOf(s.store).problems
  {
    if p.inspection.Some? {
      ResolveInspectionMeans(c, s, p.inspection.value);
    }
    LiveProblemIdMeans(s.store, p.uuid);
    assert ViewOf(s.store).problems.Keys == s.store.problems.byUuid.Keys;
  }

  lemma ProblemShape(c: Ctx, s: Session, p: SyncProblem)
    requires SessionOk(c, s)
    ensures var (s', r) := ApplyProblem(c, s, p);
            var o := ProblemOutcome(c, Abstract(s), p);
            if o == Accept then
              ProblemAccepted(c, s, p, ResolveOptionalInspection(s, p.inspection), s', r)
            else
              && UnacceptedTo(s, OfProblem(p), o, s', r)
              && (o == Duplic ==> LiveProblemId(s.store, p.uuid).Some?)
  {
    ProblemTestsMean(c, s, p);
    ProblemBranches(c, s, Abstract(s), p);
  }

  /** An accepted problem's new session: one row more, under the resolved parent, and in the map. */
  ghost predicate ProblemAccepted(
      c: Ctx, s: Session, p: SyncProblem, parent: Option<Id>, s': Session, r: ItemResult)
  {
    && p.uuid !in s.store.problems.byUuid && ProblemRefsOk(c.refs, ProblemCols(c, p))
    && ParentOk(s.store.inspections, parent) && ParentUuid(s.store.inspections, parent) == p.inspection
    && s' == s.(store := WithProblem(s.store, p.uuid, ProblemRowAt(c, p, parent)),
                problemIds := s.problemIds[p.uuid := s.store.next.problem])
    && r == AcceptedOrDuplicate(p.uuid, s.store.next.problem, true)
  }

  lemma WithProblemAdds(c: Ctx, s: Store, p: SyncProblem, parent: Option<Id>)
    requires StoreOk(s) && p.uuid !in s.problems.byUuid
    requires ParentOk(s.inspections, parent) && ParentUuid(s.inspections, parent) == p.inspection
    ensures var s' := WithProblem(s, p.uuid, ProblemRowAt(c, p, parent));
            StoreOk(s') && Extends(s, s') && ViewOf(s') == Added(c, ViewOf(s), OfProblem(p))
  {
    WithProblemOk(s, p.uuid, ProblemRowAt(c, p, parent));
  }

  lemma AcceptedProblemAdds(
      c: Ctx, s: Session, p: SyncProblem, parent: Option<Id>, s': Session, r: ItemResult)
    requires SessionOk(c, s)
    requires ProblemAccepted(c, s, p, parent, s', r)
    ensures AcceptedTo(c, s, OfProblem(p), s', r)
  {
    hide StoreOk, ViewOf, Added, RefsOk, Extends;
    var row := ProblemRowAt(c, p, parent);
    WithProblemAdds(c, s.store, p, parent);
    assert s'.store == WithProblem(s.store, p.uuid, row);
    RefsOkWithProblem(c.refs, s.store, p.uuid, row);
    MapsOkKept(s.store, s'.store, s.inspectionIds, s.problemIds);
    MapsOkProblem(s'.store, s.inspectionIds, s.problemIds, p.uuid, s.store.next.problem);
    assert Reports(s'.store, OfProblem(p), Accept, r);
  }

  lemma UnacceptedProblemRefines(c: Ctx, s: Session, p: SyncProblem, s': Session, r: ItemResult)
    requires SessionOk(c, s) && ProblemOutcome(c, Abstract(s), p) != Accept
    requires UnacceptedTo(s, OfProblem(p), ProblemOutcome(c, Abstract(s), p), s', r)
    requires ProblemOutcome(c, Abstract(s), p) == Duplic ==> LiveProblemId(s.store, p.uuid).Some?
    ensures Refines(c, s, OfProblem(p), s', r)
  {
    UnacceptedRefines(c, s, OfProblem(p), ProblemOutcome(c, Abstract(s), p), s', r);
  }

  lemma ProblemRefines(c: Ctx, s: Session, p: SyncProblem)
    requires SessionOk(c, s)
    ensures var (s', r) := ApplyProblem(c, s, p); Refines(c, s, OfProblem(p), s', r)
  {
    ProblemShape(c, s, p);
    OutcomesByKind(c, Abstract(s));
    SessionIndexed(c, s);
    hide SessionOk, Abstract, ProblemOutcome, ItemOutcome, ApplyProblem, Refines, UnacceptedTo, AcceptedTo, ProblemAccepted, Indexed;
    hide ResolveOptionalInspection;
    var (s', r) := ApplyProblem(c, s, p);
    if ProblemOutcome(c, Abstract(s), p) == Accept {
      AcceptedProblemAdds(c, s, p, ResolveOptionalInspection(s, p.inspection), s', r);
      AcceptedRefines(c, s, OfProblem(p), s', r);
    } else {
      UnacceptedProblemRefines(c, s, p, s', r);
    }
  }

  lemma OutcomesByKind(c: Ctx, sp: Spec)
    ensures forall p :: ItemOutcome(c, sp, OfPoint(p)) == PointOutcome(sp, p)
    ensures forall p :: ItemOutcome(c, sp, OfProblem(p)) == ProblemOutcome(c, sp, p)
    ensures forall m :: ItemOutcome(c, sp, OfMedia(m)) == MediaOutcome(sp, m)
  {
  }

  lemma SessionIndexed(c: Ctx, s: Session)
    requires SessionOk(c, s)
    ensures StoreOk(s.store) && Indexed(s.store)
  {
  }

  lemma MediaBranches(c: Ctx, s: Session, sp: Spec, m: SyncMedia)
    requires Indexed(s.store)
    requires ResolveOwner(s, m).Some? <==> OwnerResolves(sp, m)
    requires m.uuid in s.store.media.byUuid <==> m.uuid in sp.view.media
    requires m.uuid in sp.view.media ==>
               sp.view.media[m.uuid].deleted == s.store.media.rows[s.store.media.byUuid[m.uuid]].data.deleted
    requires (m.bucket, m.key) in s.store.byObject <==> ObjectTaken(sp.view, m.bucket, m.key)
    ensures var (s', r) := ApplyMedia(c, s, m);
            var o := MediaOutcome(sp, m);
            if o == Accept then
              && m.uuid !in s.store.media.byUuid && (m.bucket, m.key) !in s.store.byObject
              && ResolveOwner(s, m).Some?
              && s' == s.(store := WithMedia(s.store, m.uuid, MediaRowAt(c, m, ResolveOwner(s, m).value)))
              && r == AcceptedOrDuplicate(m.uuid, s.store.next.media, true)
            else UnacceptedTo(s, OfMedia(m), o, s', r)
  {
    hide ResolveOwner, OwnerResolves, ObjectTaken, WithMedia, MediaRowAt, MediaCols, MediaEncodes, IndexOk;
  }

  lemma StoredMediaMeans(s: Store, u: Uuid)
    requires StoreOk(s)
    ensures u in ViewOf(s).media <==> u in s.media.byUuid
    ensures u in s.media.byUuid ==> ViewOf(s).media[u].deleted == s.media.rows[s.media.byUuid[u]].data.deleted
  {
    var v := MediaView(s.inspections, s.problems, s.media);
    assert ViewOf(s).media == v;
  }

  lemma MediaTestsMean(c: Ctx, s: Session, m: SyncMedia)
    requires SessionOk(c, s)
    ensures ResolveOwner(s, m).Some? <==> OwnerResolves(Abstract(s), m)
    ensures m.uuid in s.store.media.byUuid <==> m.uuid in ViewOf(s.store).media
    ensures m.uuid in ViewOf(s.store).media ==>
              ViewOf(s.store).media[m.uuid].deleted == s.store.media.rows[s.store.media.byUuid[m.uuid]].data.deleted
    ensures (m.bucket, m.key) in s.store.byObject <==> ObjectTaken(ViewOf(s.store), m.bucket, m.key)
  {
    ResolveOwnerMeans(c, s, m);
    ObjectIndexMeans(s.store, m.bucket, m.key);
    StoredMediaMeans(s.store, m.uuid);
  }

  lemma MediaShape(c: Ctx, s: Session, m: SyncMedia)
    requires SessionOk(c, s)
    ensures var (s', r) := ApplyMedia(c, s, m);
            if MediaOutcome(Abstract(s), m) == Accept then
              ResolveOwner(s, m).Some? && MediaAccepted(c, s, m, ResolveOwner(s, m).value, s', r)
            else UnacceptedTo(s, OfMedia(m), MediaOutcome(Abstract(s), m), s', r)
  {
    MediaTestsMean(c, s, m);
    MediaBranches(c, s, Abstract(s), m);
    ResolveOwnerMeans(c, s, m);
  }

  /** An accepted media item's new session: one row more, owned by the resolved owner. */
  ghost predicate MediaAccepted(c: Ctx, s: Session, m: SyncMedia, owner: Id, s': Session, r: ItemResult) {
    && m.uuid !in s.store.media.byUuid && (m.bucket, m.key) !in s.store.byObject && m.owner.Some?
    && OwnerDrawn(OwnerKey(m.ownerType, owner), s.store.next)
    && OwnerRefOf(s.store.inspections, s.store.problems, OwnerKey(m.ownerType, owner))
       == ByUuid(m.ownerType, m.owner.value)
    && s' == s.(store := WithMedia(s.store, m.uuid, MediaRowAt(c, m, owner)))
    && r == AcceptedOrDuplicate(m.uuid, s.store.next.media, true)
  }

  lemma WithMediaAdds(c: Ctx, s: Store, m: SyncMedia, owner: Id)
    requires StoreOk(s) && m.uuid !in s.media.byUuid && (m.bucket, m.key) !in s.byObject && m.owner.Some?
    requires OwnerDrawn(OwnerKey(m.ownerType, owner), s.next)
    requires OwnerRefOf(s.inspections, s.problems, OwnerKey(m.ownerType, owner)) == ByUuid(m.ownerType, m.owner.value)
    ensures var s' := WithMedia(s, m.uuid, MediaRowAt(c, m, owner));
            StoreOk(s') && Extends(s, s') && ViewOf(s') == Added(c, ViewOf(s), OfMedia(m))
  {
    hide StoreOk, ViewOf, WithMedia, Extends, OwnerRefOf, OwnerDrawn;
    var row := MediaRowAt(c, m, owner);
    assert MediaByUuid(row, ByUuid(m.ownerType, m.owner.value)) == MediaRow(c, m, m.owner.value);
    WithMediaOk(s, m.uuid, row);
  }

  lemma AcceptedMediaAdds(c: Ctx, s: Session, m: SyncMedia, owner: Id, s': Session, r: ItemResult)
    requires SessionOk(c, s) && MediaAccepted(c, s, m, owner, s', r)
    ensures AcceptedTo(c, s, OfMedia(m), s', r)
  {
    hide StoreOk, ViewOf, Added, Extends, MediaRowAt;
    var row := MediaRowAt(c, m, owner);
    WithMediaAdds(c, s.store, m, owner);
    assert RefsOk(c.refs, s'.store);
    MapsOkKept(s.store, s'.store, s.inspectionIds, s.problemIds);
    assert Reports(s'.store, OfMedia(m), Accept, r);
  }

  lemma MediaRefines(c: Ctx, s: Session, m: SyncMedia)
    requires SessionOk(c, s)
    ensures var (s', r) := ApplyMedia(c, s, m); Refines(c, s, OfMedia(m), s', r)
  {
    MediaShape(c, s, m);
    OutcomesByKind(c, Abstract(s));
    SessionIndexed(c, s);
    hide SessionOk, Abstract, MediaOutcome, ItemOutcome, ApplyMedia, Refines, UnacceptedTo, AcceptedTo, MediaAccepted, Indexed;
    hide ResolveOwner;
    var (s', r) := ApplyMedia(c, s, m);
    if MediaOutcome(Abstract(s), m) == Accept {
      AcceptedMediaAdds(c, s, m, ResolveOwner(s, m).value, s', r);
      AcceptedRefines(c, s, OfMedia(m), s', r);
    } else {
      UnacceptedMediaRefines(c, s, m, s', r);
    }
  }

  lemma UnacceptedMediaRefines(c: Ctx, s: Session, m: SyncMedia, s': Session, r: ItemResult)
    requires SessionOk(c, s) && MediaOutcome(Abstract(s), m) != Accept
    requires UnacceptedTo(s, OfMedia(m), MediaOutcome(Abstract(s), m), s', r)
    ensures Refines(c, s, OfMedia(m), s', r)
  {
    UnacceptedRefines(c, s, OfMedia(m), MediaOutcome(Abstract(s), m), s', r);
  }

  /** Every item, on every database and id maps: tables and maps stay well formed, nothing stored is
      touched, the uuid-level view and the answer are the specification's, and a rejected item
      leaves tables and maps exactly as they were. */
  lemma ApplyRefines(c: Ctx, s: Session, x: Item)
    requires SessionOk(c, s)
    ensures var (s', r) := Apply(c, s, x); Refines(c, s, x, s', r)
  {
    hide StoreOk, ViewOf, RefsOk, MapsOk, Refines, ApplyInspection, ApplyPoint, ApplyProblem, ApplyMedia;
    match x
    case OfInspection(i) => InspectionRefines(c, s, i);
    case OfPoint(p) => PointRefines(c, s, p);
    case OfProblem(p) => ProblemRefines(c, s, p);
    case OfMedia(m) => MediaRefines(c, s, m);
  }
}
