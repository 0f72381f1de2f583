/** Closing an inspection: the route is the line through its trajectory points in seq order, and
    point count, mileage and duration are derived from it in one statement. */
module InspectionFinish {
  import opened Wrappers
  import opened SyncModel
  import opened SyncTables
  import opened SyncStore
  import opened SyncSpec
  import opened SyncBatch
  import opened SyncMeaning
  import opened SyncService
  import opened Ordering

  datatype FinishError = NotFound | NotInProgress | EndedBeforeStarted

  /** `endedAt` absent means now; `note` absent leaves the note; `discard` abandons the session. */
  datatype FinishInput = FinishInput(endedAt: Option<Time>, note: Option<string>, discard: bool)

  // --- The route --------------------------------------------------------------------------------

  /** The geometries of an inspection's points by seq. */
  function SamplesAt(points: Table<PointData<Id>>, bySeq: map<(Id, int), Id>, id: Id): map<int, Geometry>
    requires SeqIndexOk(points, bySeq)
  {
    map key | key in bySeq && key.0 == id :: key.1 := points.rows[bySeq[key]].data.sample.geom
  }

  /** The same, read off the uuid-level view. */
  ghost function SamplesOf(points: map<Uuid, PointData<Uuid>>, u: Uuid): map<int, Geometry>
    requires PlacesDistinct(points)
  {
    map p | p in points && points[p].parent == u :: points[p].seqNo := points[p].sample.geom
  }

  function Line(samples: map<int, Geometry>): seq<Geometry> {
    var ks := InOrder(samples.Keys);
    seq(|ks|, i requires 0 <= i < |ks| => samples[ks[i]])
  }

  /** Length of a line under a metric on points. */
  function Length(line: seq<Geometry>, metric: (Geometry, Geometry) -> real): real {
    if |line| < 2 then 0.0 else Length(line[..|line| - 1], metric) + metric(line[|line| - 2], line[|line| - 1])
  }

  /** Fewer than two points give no route and no mileage. */
  function Route(samples: map<int, Geometry>): Option<seq<Geometry>> {
    if |samples| >= 2 then Some(Line(samples)) else None
  }

  /** EXTRACT(EPOCH FROM interval)::bigint: to the nearest second, halves away from zero. */
  function WholeSeconds(microseconds: int): int {
    if microseconds < 0 then -((-microseconds + 500_000) / 1_000_000) else (microseconds + 500_000) / 1_000_000
  }

  ghost function Closed(
      d: InspectionData, samples: map<int, Geometry>, input: FinishInput, endedAt: Time,
      metric: (Geometry, Geometry) -> real): InspectionData
  {
    var route := Route(samples);
    d.(status := if input.discard then Abandoned else Finished,
       endedAt := Some(endedAt),
       route := route,
       pointCount := |samples|,
       mileage := if route.Some? then Length(route.value, metric) else 0.0,
       duration := WholeSeconds(endedAt - d.startedAt),
       note := input.note.GetOr(d.note))
  }

  /** The line visits every sample once, in increasing seq order. */
  ghost predicate InSeqOrder(line: seq<Geometry>, samples: map<int, Geometry>, order: seq<int>) {
    && |order| == |line| == |samples|
    && (forall k :: k in order <==> k in samples)
    && (forall i, j :: 0 <= i < j < |order| ==> order[i] < order[j])
    && (forall i :: 0 <= i < |line| ==> order[i] in samples && line[i] == samples[order[i]])
  }

  /** The length of one segment is the metric between its ends. */
  lemma OneSegment(p: Geometry, q: Geometry, metric: (Geometry, Geometry) -> real)
    ensures Length([p], metric) == 0.0 && Length([p, q], metric) == metric(p, q)
  {
    assert [p, q][..1] == [p];
  }

  /** A line is as long as its parts on both sides of any of its points. */
  lemma {:induction false} LengthSplits(a: seq<Geometry>, p: Geometry, b: seq<Geometry>, metric: (Geometry, Geometry) -> real)
    ensures Length(a + [p] + b, metric) == Length(a + [p], metric) + Length([p] + b, metric)
  {
    if b == [] {
      assert a + [p] + b == a + [p] && [p] + b == [p];
    } else {
      var front := b[..|b| - 1];
      LengthSplits(a, p, front, metric);
      var whole, part := a + [p] + b, [p] + b;
      assert whole[..|whole| - 1] == a + [p] + front && part[..|part| - 1] == [p] + front;
    }
  }

  /** What a closed row says: no route below two points; else the route runs through all of them in
      seq order and the mileage is its length; counts and times agree with the samples and the row. */
  lemma ClosedRowMeans(
      d: InspectionData, samples: map<int, Geometry>, input: FinishInput, endedAt: Time,
      metric: (Geometry, Geometry) -> real)
    requires endedAt >= d.startedAt && forall p, q :: metric(p, q) >= 0.0
    ensures var r := Closed(d, samples, input, endedAt, metric);
            && (r.route.None? <==> |samples| < 2)
            && (r.route.Some? ==> exists order :: InSeqOrder(r.route.value, samples, order))
            && r.pointCount == |samples|
            && r.mileage >= 0.0 && (|samples| < 2 ==> r.mileage == 0.0)
            && (r.route.Some? ==> r.mileage == Length(r.route.value, metric))
            && (forall i, j :: samples.Keys == {i, j} && i < j ==> r.mileage == metric(samples[i], samples[j]))
            && (input.note.Some? ==> r.note == input.note.value) && (input.note.None? ==> r.note == d.note)
            && r.endedAt == Some(endedAt) && r.duration >= 0
            && r.duration * 1_000_000 - 500_000 <= endedAt - d.startedAt < r.duration * 1_000_000 + 500_000
            && Storable(r) && r.status in {Finished, Abandoned} && (r.status == Abandoned <==> input.discard)
            && r == d.(status := r.status, endedAt := r.endedAt, route := r.route, pointCount := r.pointCount,
                       mileage := r.mileage, duration := r.duration, note := r.note)
  {
    hide Closed, Line, Length, InSeqOrder, Route;
    ClosedColumns(d, samples, input, endedAt, metric);
    ClosedRoute(d, samples, input, endedAt, metric);
    ClosedMileageOfTwo(d, samples, input, endedAt, metric);
  }

  lemma ClosedColumns(
      d: InspectionData, samples: map<int, Geometry>, input: FinishInput, endedAt: Time,
      metric: (Geometry, Geometry) -> real)
    requires endedAt >= d.startedAt
    ensures var r := Closed(d, samples, input, endedAt, metric);
            && r.pointCount == |samples|
            && (input.note.Some? ==> r.note == input.note.value) && (input.note.None? ==> r.note == d.note)
            && r.endedAt == Some(endedAt) && r.duration >= 0
            && r.duration * 1_000_000 - 500_000 <= endedAt - d.startedAt < r.duration * 1_000_000 + 500_000
            && Storable(r) && r.status in {Finished, Abandoned} && (r.status == Abandoned <==> input.discard)
            && r == d.(status := r.status, endedAt := r.endedAt, route := r.route, pointCount := r.pointCount,
                       mileage := r.mileage, duration := r.duration, note := r.note)
  {
    hide WholeSeconds, Line, Length, Route;
    RoundsToSeconds(endedAt - d.startedAt);
  }

  lemma ClosedRoute(
      d: InspectionData, samples: map<int, Geometry>, input: FinishInput, endedAt: Time,
      metric: (Geometry, Geometry) -> real)
    requires forall p, q :: metric(p, q) >= 0.0
    ensures var r := Closed(d, samples, input, endedAt, metric);
            && (r.route.None? <==> |samples| < 2)
            && (r.route.Some? ==> exists order :: InSeqOrder(r.route.value, samples, order))
            && r.mileage >= 0.0 && (|samples| < 2 ==> r.mileage == 0.0)
            && (r.route.Some? ==> r.mileage == Length(r.route.value, metric))
  {
    hide WholeSeconds, Line, Length, InSeqOrder;
    if |samples| >= 2 {
      LineInOrder(samples);
      LengthNotNegative(Line(samples), metric);
    }
  }

  lemma ClosedMileageOfTwo(
      d: InspectionData, samples: map<int, Geometry>, input: FinishInput, endedAt: Time,
      metric: (Geometry, Geometry) -> real)
    ensures var r := Closed(d, samples, input, endedAt, metric);
            forall i, j :: samples.Keys == {i, j} && i < j ==> r.mileage == metric(samples[i], samples[j])
  {
    hide WholeSeconds, Line, Length;
    TwoSamples(samples, metric);
  }

  /** Of two points the route is the segment from the lower to the higher seq. */
  lemma TwoSamples(samples: map<int, Geometry>, metric: (Geometry, Geometry) -> real)
    ensures forall i, j :: samples.Keys == {i, j} && i < j ==>
              |samples| == 2 && Length(Line(samples), metric) == metric(samples[i], samples[j])
  {
    hide Line, Length;
    forall i, j | samples.Keys == {i, j} && i < j
      ensures |samples| == 2 && Length(Line(samples), metric) == metric(samples[i], samples[j])
    {
      LineOfTwo(samples, i, j);
      OneSegment(samples[i], samples[j], metric);
    }
  }

  lemma LineOfTwo(samples: map<int, Geometry>, i: int, j: int)
    requires samples.Keys == {i, j} && i < j
    ensures |samples| == 2 && Line(samples) == [samples[i], samples[j]]
  {
    hide InOrder;
    TwoInOrder(samples.Keys, i, j);
  }

  lemma TwoInOrder(ks: set<int>, i: int, j: int)
    requires ks == {i, j} && i < j
    ensures |ks| == 2 && InOrder(ks) == [i, j]
  {
    var r := InOrder(ks);
    assert i in r && j in r && |r| == |ks| == 2;
    assert r[0] in r && r[1] in r;
  }

  lemma RoundsToSeconds(microseconds: nat)
    ensures var n := WholeSeconds(microseconds);
            n >= 0 && n * 1_000_000 - 500_000 <= microseconds < n * 1_000_000 + 500_000
  {
  }

  lemma LineInOrder(samples: map<int, Geometry>)
    ensures InSeqOrder(Line(samples), samples, InOrder(samples.Keys))
  {
    hide InOrder;
    var ks := InOrder(samples.Keys);
    assert forall i :: 0 <= i < |ks| ==> ks[i] in ks;
  }

  lemma {:induction false} LengthNotNegative(line: seq<Geometry>, metric: (Geometry, Geometry) -> real)
    requires forall p, q :: metric(p, q) >= 0.0
    ensures Length(line, metric) >= 0.0
  {
    if |line| >= 2 {
      LengthNotNegative(line[..|line| - 1], metric);
    }
  }

  ghost function WithClosed(s: Store, id: Id, d: InspectionData): Store
    requires id in s.inspections.rows
  {
    s.(inspections := s.inspections.(rows := s.inspections.rows[id := s.inspections.rows[id].(data := d)]))
  }

  /** Points, by uuid, never share a place in a route. */
  ghost predicate PlacesDistinct(points: map<Uuid, PointData<Uuid>>) {
    forall p, q | p in points && q in points ::
      points[p].parent == points[q].parent && points[p].seqNo == points[q].seqNo ==> p == q
  }

  lemma StorePlacesDistinct(inspections: Table<InspectionData>, points: Table<PointData<Id>>, bySeq: map<(Id, int), Id>)
    requires IndexOk(inspections) && IndexOk(points) && PointParentsOk(inspections, points) && SeqIndexOk(points, bySeq)
    ensures PlacesDistinct(PointsView(inspections, points))
  {
    var v := PointsView(inspections, points);
    forall p, q | p in v && q in v && v[p].parent == v[q].parent && v[p].seqNo == v[q].seqNo
      ensures p == q
    {
      var a, b := points.rows[points.byUuid[p]].data, points.rows[points.byUuid[q]].data;
      assert inspections.byUuid[v[p].parent] == a.parent;
      assert inspections.byUuid[v[q].parent] == b.parent;
      assert bySeq[(a.parent, a.seqNo)] == points.byUuid[p];
    }
  }

  lemma SampleInView(
      inspections: Table<InspectionData>, points: Table<PointData<Id>>, bySeq: map<(Id, int), Id>, id: Id, k: int)
    requires IndexOk(inspections) && IndexOk(points) && PointParentsOk(inspections, points) && SeqIndexOk(points, bySeq)
    requires id in inspections.rows && (id, k) in bySeq
    ensures var v, p := PointsView(inspections, points), points.rows[bySeq[(id, k)]].uuid;
            && p in v && v[p].parent == inspections.rows[id].uuid && v[p].seqNo == k
            && v[p].sample.geom == SamplesAt(points, bySeq, id)[k]
  {
    assert points.byUuid[points.rows[bySeq[(id, k)]].uuid] == bySeq[(id, k)];
  }

  lemma SampleFromView(
      inspections: Table<InspectionData>, points: Table<PointData<Id>>, bySeq: map<(Id, int), Id>, id: Id, p: Uuid)
    requires IndexOk(inspections) && IndexOk(points) && PointParentsOk(inspections, points) && SeqIndexOk(points, bySeq)
    requires id in inspections.rows && p in points.byUuid
    requires PointsView(inspections, points)[p].parent == inspections.rows[id].uuid
    ensures (id, PointsView(inspections, points)[p].seqNo) in bySeq
  {
    var d := points.rows[points.byUuid[p]].data;
    assert inspections.byUuid[inspections.rows[id].uuid] == d.parent;
  }

  lemma SampleKeysAgree(
      inspections: Table<InspectionData>, points: Table<PointData<Id>>, bySeq: map<(Id, int), Id>, id: Id)
    requires IndexOk(inspections) && IndexOk(points) && PointParentsOk(inspections, points) && SeqIndexOk(points, bySeq)
    requires id in inspections.rows && PlacesDistinct(PointsView(inspections, points))
    ensures SamplesAt(points, bySeq, id).Keys
         == SamplesOf(PointsView(inspections, points), inspections.rows[id].uuid).Keys
  {
    hide IndexOk, PointParentsOk, SeqIndexOk, PointsView;
    var v := PointsView(inspections, points);
    var a, b := SamplesAt(points, bySeq, id), SamplesOf(v, inspections.rows[id].uuid);
    forall k | k in a.Keys
      ensures k in b.Keys
    {
      SampleInView(inspections, points, bySeq, id, k);
    }
    forall k | k in b.Keys
      ensures k in a.Keys
    {
      var p :| p in v && v[p].parent == inspections.rows[id].uuid && v[p].seqNo == k;
      SampleFromView(inspections, points, bySeq, id, p);
    }
  }

  /** What closing reads is a function of the uuid-level view: server ids do not matter. */
  lemma SamplesAreTheView(
      inspections: Table<InspectionData>, points: Table<PointData<Id>>, bySeq: map<(Id, int), Id>, id: Id)
    requires IndexOk(inspections) && IndexOk(points) && PointParentsOk(inspections, points) && SeqIndexOk(points, bySeq)
    requires id in inspections.rows && PlacesDistinct(PointsView(inspections, points))
    ensures SamplesAt(points, bySeq, id) == SamplesOf(PointsView(inspections, points), inspections.rows[id].uuid)
  {
    hide IndexOk, PointParentsOk, SeqIndexOk, PointsView, SamplesAt, SamplesOf, PlacesDistinct;
    SampleKeysAgree(inspections, points, bySeq, id);
    var v, u := PointsView(inspections, points), inspections.rows[id].uuid;
    forall k | k in SamplesAt(points, bySeq, id).Keys
      ensures SamplesOf(v, u)[k] == SamplesAt(points, bySeq, id)[k]
    {
      KeyOfSample(points, bySeq, id, k);
      SampleAgrees(inspections, points, bySeq, id, k);
    }
  }

  lemma KeyOfSample(points: Table<PointData<Id>>, bySeq: map<(Id, int), Id>, id: Id, k: int)
    requires SeqIndexOk(points, bySeq) && k in SamplesAt(points, bySeq, id)
    ensures (id, k) in bySeq
  {
  }

  lemma SampleAgrees(
      inspections: Table<InspectionData>, points: Table<PointData<Id>>, bySeq: map<(Id, int), Id>, id: Id, k: int)
    requires IndexOk(inspections) && IndexOk(points) && PointParentsOk(inspections, points) && SeqIndexOk(points, bySeq)
    requires id in inspections.rows && PlacesDistinct(PointsView(inspections, points)) && (id, k) in bySeq
    ensures var b := SamplesOf(PointsView(inspections, points), inspections.rows[id].uuid);
            k in b && b[k] == SamplesAt(points, bySeq, id)[k]
  {
    var p := points.rows[bySeq[(id, k)]].uuid;
    hide IndexOk, PointParentsOk, PointsView, SamplesOf, PlacesDistinct;
    SampleInView(inspections, points, bySeq, id, k);
    SampleAtPlace(PointsView(inspections, points), inspections.rows[id].uuid, p);
  }

  lemma SampleAtPlace(v: map<Uuid, PointData<Uuid>>, u: Uuid, p: Uuid)
    requires PlacesDistinct(v) && p in v && v[p].parent == u
    ensures v[p].seqNo in SamplesOf(v, u) && SamplesOf(v, u)[v[p].seqNo] == v[p].sample.geom
  {
  }

  /** Two databases with one uuid-level view close an inspection to the same route, point count and
      mileage. */
  lemma SameViewSameRoute(s: Store, id: Id, s': Store, id': Id)
    requires StoreOk(s) && StoreOk(s') && ViewOf(s).points == ViewOf(s').points
    requires id in s.inspections.rows && id' in s'.inspections.rows
    requires s.inspections.rows[id].uuid == s'.inspections.rows[id'].uuid
    ensures SamplesAt(s.points, s.bySeq, id) == SamplesAt(s'.points, s'.bySeq, id')
  {
    StorePlacesDistinct(s.inspections, s.points, s.bySeq);
    StorePlacesDistinct(s'.inspections, s'.points, s'.bySeq);
    SamplesAreTheView(s.inspections, s.points, s.bySeq, id);
    SamplesAreTheView(s'.inspections, s'.points, s'.bySeq, id');
  }

  // --- Finish -----------------------------------------------------------------------------------

  ghost predicate Finishable(s: Store, id: Id, input: FinishInput, now: Time) {
    && id in s.inspections.rows && !s.inspections.rows[id].data.deleted
    && s.inspections.rows[id].data.status == InProgress
    && input.endedAt.GetOr(now) >= s.inspections.rows[id].data.startedAt
  }

  lemma WithClosedOk(s: Store, id: Id, d: InspectionData)
    requires StoreOk(s) && id in s.inspections.rows
    ensures StoreOk(WithClosed(s, id, d))
    ensures ViewOf(WithClosed(s, id, d))
         == ViewOf(s).(inspections := ViewOf(s).inspections[s.inspections.rows[id].uuid := d])
  {
    var t, t' := s.inspections, WithClosed(s, id, d).inspections;
    ClosedTableOk(t, s.next.inspection, id, d);
    PointsViewKeepsParents(t, t', s.points);
    ProblemsViewKeepsParents(t, t', s.problems);
    MediaViewKeepsOwners(t, t', s.problems, s.problems, s.media, s.next);
    assert StoreOk(WithClosed(s, id, d));
  }

  lemma ClosedTableOk(t: Table<InspectionData>, next: nat, id: Id, d: InspectionData)
    requires TableOk(t, next) && id in t.rows
    ensures var t' := t.(rows := t.rows[id := t.rows[id].(data := d)]);
            TableOk(t', next) && UuidsKept(t, t') && InspectionsView(t') == InspectionsView(t)[t.rows[id].uuid := d]
  {
  }

  /** The UPDATE's new row, from the aggregated points. */
  method CloseRow(
      d: InspectionData, samples: map<int, Geometry>, input: FinishInput, endedAt: Time,
      metric: (Geometry, Geometry) -> real)
    returns (d': InspectionData)
    requires endedAt >= d.startedAt
    ensures d' == Closed(d, samples, input, endedAt, metric)
  {
    hide Line, Length;
    var target := Finished;
    if input.discard {
      target := Abandoned;
    }
    var route := Route(samples);
    var mileage := if route.Some? then Length(route.value, metric) else 0.0;
    var elapsed := WholeSeconds(endedAt - d.startedAt);
    d' := d.(
      status := target, endedAt := Some(endedAt), route := route, pointCount := |samples|, mileage := mileage,
      duration := if elapsed > 0 then elapsed else 0, note := if input.note.None? then d.note else input.note.value);
  }

  /** Closes a session that is in progress; any other is left as it is. */
  method Finish(
      pool: Pool, id: Id, input: FinishInput, now: Time, metric: (Geometry, Geometry) -> real)
    returns (error: Option<FinishError>)
    requires StoreOk(pool.store)
    modifies pool
    ensures StoreOk(pool.store)
    ensures error.None? <==> Finishable(old(pool.store), id, input, now)
    ensures error.Some? ==> pool.store == old(pool.store)
    ensures error.None? ==>
              pool.store == WithClosed(old(pool.store), id, Closed(
                old(pool.store.inspections.rows[id].data),
                SamplesAt(old(pool.store.points), old(pool.store.bySeq), id),
                input, input.endedAt.GetOr(now), metric))
    ensures error == Some(NotFound) <==>
              id !in old(pool.store.inspections.rows) || old(pool.store.inspections.rows[id].data.deleted)
    ensures error == Some(EndedBeforeStarted) <==>
              && id in old(pool.store.inspections.rows) && !old(pool.store.inspections.rows[id].data.deleted)
              && old(pool.store.inspections.rows[id].data.status) == InProgress
              && (if input.endedAt.Some? then input.endedAt.value else now) < old(pool.store.inspections.rows[id].data.startedAt)
    ensures error == Some(NotInProgress) <==>
              && id in old(pool.store.inspections.rows) && !old(pool.store.inspections.rows[id].data.deleted)
              && old(pool.store.inspections.rows[id].data.status) != InProgress
  {
    var s := pool.store;
    assert SeqIndexOk(s.points, s.bySeq);
    hide StoreOk, ViewOf, SeqIndexOk;
    if id !in s.inspections.rows || s.inspections.rows[id].data.deleted {
      return Some(NotFound);
    }
    var d := s.inspections.rows[id].data;
    if d.status != InProgress {
      return Some(NotInProgress);
    }
    var endedAt := now;
    if input.endedAt.Some? {
      endedAt := input.endedAt.value;
    }
    if endedAt < d.startedAt {
      return Some(EndedBeforeStarted);
    }
    var d' := CloseRow(d, SamplesAt(s.points, s.bySeq, id), input, endedAt, metric);
    WithClosedOk(s, id, d');
    pool.store := s.(inspections := s.inspections.(rows := s.inspections.rows[id := s.inspections.rows[id].(data := d')]));
    error := None;
  }

  /** An inspection accepted without a status can be closed at every time not before its start, and at no
      other; what was sent is what is closed. */
  lemma AcceptedIsFinishable(
      c: Ctx, s: Store, b: Batch, s': Store, rs: seq<ItemResult>, k: nat, i: SyncInspection, input: FinishInput, now: Time)
    requires BatchStep(c, s, b, s', rs) && k < |rs| && rs[k].status == Accepted
    requires k < |BatchItems(b)| && BatchItems(b)[k] == Deliver(OfInspection(i)) && i.status.None?
    ensures i.uuid in s'.inspections.byUuid && s'.inspections.byUuid[i.uuid] in s'.inspections.rows
    ensures var id := s'.inspections.byUuid[i.uuid];
            && InspectionAsSent(c, i, s'.inspections.rows[id].data)
            && (Finishable(s', id, input, now) <==>
                  i.startedAt <= (if input.endedAt.Some? then input.endedAt.value else now))
  {
    hide StoreOk, ViewOf, BatchItems, BatchStep, PointStored, ProblemStored, MediaStored;
    StepIsStored(c, s, b, s', rs);
    AcceptedIsStored(c, s, b, s', rs, k);
    ViewIsTheTables(s', i.uuid);
  }

  lemma StepIsStored(c: Ctx, s: Store, b: Batch, s': Store, rs: seq<ItemResult>)
    requires BatchStep(c, s, b, s', rs)
    ensures StoreOk(s')
  {
  }
}
