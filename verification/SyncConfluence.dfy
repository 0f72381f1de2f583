/** Confluence: however a conflict-free outbox is cut into batches, ordered, repeated and retried,
    every run that answers each item once ends in the same uuid-level database. */
module SyncConfluence {
  import opened Wrappers
  import opened SyncModel
  import opened SyncStore
  import opened SyncSpec
  import opened SyncReplay

  // --- Conflict-free outboxes -------------------------------------------------------------------

  /** Nothing about the item itself makes the server reject it. */
  predicate Sound(c: Ctx, x: Item) {
    match x
    case OfInspection(i) => Storable(InspectionRow(c, i)) && InspectionRefsOk(c.refs, InspectionRow(c, i))
    case OfPoint(p) => p.geom.encodes && p.geom.valid && FitsInt4(p.seqNo)
    case OfProblem(p) =>
      p.geom.encodes && p.geom.valid && FitsInt4(DictVersion(c.refs, p)) && ProblemRefsOk(c.refs, ProblemCols(c, p))
    case OfMedia(m) => m.owner.Some? && (m.ownerType == InspectionOwner || m.ownerType == ProblemOwner) && MediaEncodes(m)
  }

  /** The item clashes with nothing stored before the run: no soft-deleted row holds its uuid, and
      unless its own row is already there, its (inspection, seq) or (bucket, key) is free. */
  ghost predicate Fits(v: View, x: Item) {
    match x
    case OfInspection(i) => i.uuid in v.inspections ==> !v.inspections[i.uuid].deleted
    case OfPoint(p) => p.uuid in v.points || !SeqTaken(v, p.inspection, p.seqNo)
    case OfProblem(p) => p.uuid in v.problems ==> !v.problems[p.uuid].deleted
    case OfMedia(m) => if m.uuid in v.media then !v.media[m.uuid].deleted else !ObjectTaken(v, m.bucket, m.key)
  }

  /** Two items compete for the same uuid, the same place in a route or the same stored object. */
  predicate Compete(x: Item, y: Item) {
    match (x, y)
    case (OfInspection(i), OfInspection(j)) => i.uuid == j.uuid
    case (OfPoint(p), OfPoint(q)) => p.uuid == q.uuid || (p.inspection == q.inspection && p.seqNo == q.seqNo)
    case (OfProblem(p), OfProblem(q)) => p.uuid == q.uuid
    case (OfMedia(m), OfMedia(n)) => m.uuid == n.uuid || (m.bucket == n.bucket && m.key == n.key)
    case _ => false
  }

  ghost predicate ConflictFree(c: Ctx, v: View, outbox: set<Item>) {
    && (forall x :: x in outbox ==> Sound(c, x) && Fits(v, x))
    && (forall x, y :: x in outbox && y in outbox && Compete(x, y) ==> x == y)
  }

  // --- The database a complete run must reach ---------------------------------------------------

  /** A row not there before the run is an outbox item's. */
  ghost predicate NewRowsFrom(c: Ctx, v: View, outbox: set<Item>, w: View) {
    && (forall u :: u in w.inspections && u !in v.inspections ==>
          exists i :: OfInspection(i) in outbox && i.uuid == u && w.inspections[u] == InspectionRow(c, i))
    && (forall u :: u in w.points && u !in v.points ==>
          exists p :: OfPoint(p) in outbox && p.uuid == u && w.points[u] == PointRow(p))
    && (forall u :: u in w.problems && u !in v.problems ==>
          exists p :: OfProblem(p) in outbox && p.uuid == u && w.problems[u] == ProblemRow(c, p))
    && (forall u :: u in w.media && u !in v.media ==>
          exists m :: OfMedia(m) in outbox && m.uuid == u && m.owner.Some?
                      && w.media[u] == MediaRow(c, m, m.owner.value))
  }

  ghost predicate Stored(w: View, x: Item) {
    match x
    case OfInspection(i) => i.uuid in w.inspections
    case OfPoint(p) => p.uuid in w.points
    case OfProblem(p) => p.uuid in w.problems
    case OfMedia(m) => m.uuid in w.media
  }

  /** Everything from before, untouched, plus exactly the outbox items not there yet. */
  ghost predicate Merged(c: Ctx, v: View, outbox: set<Item>, w: View) {
    && Within(v, w) && NewRowsFrom(c, v, outbox, w)
    && forall x :: x in outbox ==> Stored(w, x)
  }

  lemma SameMaps<D>(a: map<Uuid, D>, b: map<Uuid, D>)
    ensures SubMap(a, b) && SubMap(b, a) ==> a == b
  {
  }

  lemma MergedIsUnique(c: Ctx, v: View, outbox: set<Item>, w: View, w': View)
    requires ConflictFree(c, v, outbox) && Merged(c, v, outbox, w) && Merged(c, v, outbox, w')
    ensures w == w'
  {
    hide ConflictFree, Merged;
    MergedWithin(c, v, outbox, w, w');
    MergedWithin(c, v, outbox, w', w);
    SameMaps(w.inspections, w'.inspections);
    SameMaps(w.points, w'.points);
    SameMaps(w.problems, w'.problems);
    SameMaps(w.media, w'.media);
  }

  lemma MergedInspectionsWithin(c: Ctx, v: View, outbox: set<Item>, w: View, w': View)
    requires ConflictFree(c, v, outbox) && Merged(c, v, outbox, w) && Merged(c, v, outbox, w')
    ensures SubMap(w.inspections, w'.inspections)
  {
    forall u | u in w.inspections
      ensures u in w'.inspections && w'.inspections[u] == w.inspections[u]
    {
      if u !in v.inspections {
        var x :| OfInspection(x) in outbox && x.uuid == u && w.inspections[u] == InspectionRow(c, x);
        assert Stored(w', OfInspection(x));
        var y :| OfInspection(y) in outbox && y.uuid == u && w'.inspections[u] == InspectionRow(c, y);
        assert Compete(OfInspection(x), OfInspection(y));
      }
    }
  }

  lemma MergedPointsWithin(c: Ctx, v: View, outbox: set<Item>, w: View, w': View)
    requires ConflictFree(c, v, outbox) && Merged(c, v, outbox, w) && Merged(c, v, outbox, w')
    ensures SubMap(w.points, w'.points)
  {
    forall u | u in w.points
      ensures u in w'.points && w'.points[u] == w.points[u]
    {
      if u !in v.points {
        var x :| OfPoint(x) in outbox && x.uuid == u && w.points[u] == PointRow(x);
        assert Stored(w', OfPoint(x));
        var y :| OfPoint(y) in outbox && y.uuid == u && w'.points[u] == PointRow(y);
        assert Compete(OfPoint(x), OfPoint(y));
      }
    }
  }

  lemma MergedProblemsWithin(c: Ctx, v: View, outbox: set<Item>, w: View, w': View)
    requires ConflictFree(c, v, outbox) && Merged(c, v, outbox, w) && Merged(c, v, outbox, w')
    ensures SubMap(w.problems, w'.problems)
  {
    forall u | u in w.problems
      ensures u in w'.problems && w'.problems[u] == w.problems[u]
    {
      if u !in v.problems {
        var x :| OfProblem(x) in outbox && x.uuid == u && w.problems[u] == ProblemRow(c, x);
        assert Stored(w', OfProblem(x));
        var y :| OfProblem(y) in outbox && y.uuid == u && w'.problems[u] == ProblemRow(c, y);
        assert Compete(OfProblem(x), OfProblem(y));
      }
    }
  }

  lemma MergedMediaWithin(c: Ctx, v: View, outbox: set<Item>, w: View, w': View)
    requires ConflictFree(c, v, outbox) && Merged(c, v, outbox, w) && Merged(c, v, outbox, w')
    ensures SubMap(w.media, w'.media)
  {
    forall u | u in w.media
      ensures u in w'.media && w'.media[u] == w.media[u]
    {
      if u !in v.media {
        var x :| OfMedia(x) in outbox && x.uuid == u && x.owner.Some? && w.media[u] == MediaRow(c, x, x.owner.value);
        assert Stored(w', OfMedia(x));
        var y :| OfMedia(y) in outbox && y.uuid == u && y.owner.Some? && w'.media[u] == MediaRow(c, y, y.owner.value);
        assert Compete(OfMedia(x), OfMedia(y));
      }
    }
  }

  lemma MergedWithin(c: Ctx, v: View, outbox: set<Item>, w: View, w': View)
    requires ConflictFree(c, v, outbox) && Merged(c, v, outbox, w) && Merged(c, v, outbox, w')
    ensures Within(w, w')
  {
    MergedInspectionsWithin(c, v, outbox, w, w');
    MergedPointsWithin(c, v, outbox, w, w');
    MergedProblemsWithin(c, v, outbox, w, w');
    MergedMediaWithin(c, v, outbox, w, w');
    hide ConflictFree, Merged;
  }

  // --- What every run keeps ---------------------------------------------------------------------

  ghost predicate Between(c: Ctx, v: View, outbox: set<Item>, sp: Spec) {
    && Within(v, sp.view) && NewRowsFrom(c, v, outbox, sp.view)
    && forall u :: u in sp.synced ==> LiveInspection(sp.view, u)
  }

  /** The parent an item needs is a live row. */
  ghost predicate ParentLive(v: View, x: Item) {
    match x
    case OfInspection(_) => true
    case OfPoint(p) => LiveInspection(v, p.inspection)
    case OfProblem(p) => p.inspection.Some? ==> LiveInspection(v, p.inspection.value)
    case OfMedia(m) =>
      && m.owner.Some?
      && if m.ownerType == InspectionOwner then LiveInspection(v, m.owner.value) else LiveProblem(v, m.owner.value)
  }

  /** An outbox item is answered other than rejected exactly when its parent is live: neither the
      batch boundaries nor what arrived before it matter otherwise. */
  lemma AnsweredIffParentLive(c: Ctx, v: View, outbox: set<Item>, sp: Spec, x: Item)
    requires ConflictFree(c, v, outbox) && Between(c, v, outbox, sp) && x in outbox
    ensures !ItemOutcome(c, sp, x).Reject? <==> ParentLive(sp.view, x)
  {
    match x
    case OfInspection(i) =>
    case OfPoint(p) => PointPlaceFree(c, v, outbox, sp, p);
    case OfProblem(p) => ProblemNotDeleted(c, v, outbox, sp, p);
    case OfMedia(m) => MediaPlaceFree(c, v, outbox, sp, m);
  }

  lemma CompetingAreEqual(c: Ctx, v: View, outbox: set<Item>, x: Item, y: Item)
    requires ConflictFree(c, v, outbox) && x in outbox && y in outbox
    ensures Compete(x, y) ==> x == y
  {
  }

  lemma PointPlaceFree(c: Ctx, v: View, outbox: set<Item>, sp: Spec, p: SyncPoint)
    requires ConflictFree(c, v, outbox) && Between(c, v, outbox, sp) && OfPoint(p) in outbox
    ensures p.uuid in sp.view.points || !SeqTaken(sp.view, p.inspection, p.seqNo)
  {
    assert Fits(v, OfPoint(p));
    if p.uuid !in sp.view.points && SeqTaken(sp.view, p.inspection, p.seqNo) {
      var u :| u in sp.view.points && sp.view.points[u].parent == p.inspection && sp.view.points[u].seqNo == p.seqNo;
      if u !in v.points {
        var q :| OfPoint(q) in outbox && q.uuid == u && sp.view.points[u] == PointRow(q);
        CompetingAreEqual(c, v, outbox, OfPoint(p), OfPoint(q));
      }
      assert false;
    }
  }

  lemma ProblemNotDeleted(c: Ctx, v: View, outbox: set<Item>, sp: Spec, p: SyncProblem)
    requires ConflictFree(c, v, outbox) && Between(c, v, outbox, sp) && OfProblem(p) in outbox
    ensures p.uuid in sp.view.problems ==> !sp.view.problems[p.uuid].deleted
  {
    assert Fits(v, OfProblem(p));
  }

  lemma MediaPlaceFree(c: Ctx, v: View, outbox: set<Item>, sp: Spec, m: SyncMedia)
    requires ConflictFree(c, v, outbox) && Between(c, v, outbox, sp) && OfMedia(m) in outbox
    ensures if m.uuid in sp.view.media then !sp.view.media[m.uuid].deleted
            else !ObjectTaken(sp.view, m.bucket, m.key)
  {
    assert Fits(v, OfMedia(m));
    if m.uuid !in sp.view.media && ObjectTaken(sp.view, m.bucket, m.key) {
      var u :| u in sp.view.media && sp.view.media[u].bucket == m.bucket && sp.view.media[u].key == m.key;
      if u !in v.media {
        var n :| OfMedia(n) in outbox && n.uuid == u && n.owner.Some? && sp.view.media[u] == MediaRow(c, n, n.owner.value);
        CompetingAreEqual(c, v, outbox, OfMedia(m), OfMedia(n));
      }
      assert false;
    }
  }

  lemma StepBetween(c: Ctx, v: View, outbox: set<Item>, sp: Spec, x: Item)
    requires ConflictFree(c, v, outbox) && Between(c, v, outbox, sp) && x in outbox
    ensures Between(c, v, outbox, Step(c, sp, x))
    ensures !ItemOutcome(c, sp, x).Reject? ==> Stored(Step(c, sp, x).view, x)
  {
    var sp' := Step(c, sp, x);
    NextGrows(c, sp, Deliver(x));
    WithinTransitive(v, sp.view, sp'.view);
    AddedRowsFrom(c, v, outbox, sp, x);
    if x.OfInspection? {
      SyncedStayLive(c, v, outbox, sp, x.inspection);
    }
  }

  lemma AddedRowsFrom(c: Ctx, v: View, outbox: set<Item>, sp: Spec, x: Item)
    requires x in outbox && NewRowsFrom(c, v, outbox, sp.view)
    ensures NewRowsFrom(c, v, outbox, Step(c, sp, x).view)
  {
  }

  lemma SyncedStayLive(c: Ctx, v: View, outbox: set<Item>, sp: Spec, i: SyncInspection)
    requires ConflictFree(c, v, outbox) && Between(c, v, outbox, sp) && OfInspection(i) in outbox
    ensures var sp' := Step(c, sp, OfInspection(i));
            forall u :: u in sp'.synced ==> LiveInspection(sp'.view, u)
  {
    assert Fits(v, OfInspection(i));
  }

  ghost predicate FromOutbox(outbox: set<Item>, es: seq<Event>) {
    forall k :: 0 <= k < |es| && es[k].Deliver? ==> es[k].item in outbox
  }

  lemma {:induction false} RunBetween(c: Ctx, v: View, outbox: set<Item>, es: seq<Event>)
    requires ConflictFree(c, v, outbox) && FromOutbox(outbox, es)
    ensures Between(c, v, outbox, Run(c, Spec(v, {}), es))
  {
    if es == [] {
    } else {
      var front := es[..|es| - 1];
      assert FromOutbox(outbox, front);
      RunBetween(c, v, outbox, front);
      if es[|es| - 1].Deliver? {
        StepBetween(c, v, outbox, Run(c, Spec(v, {}), front), es[|es| - 1].item);
      }
    }
  }

  lemma StoredKept(v: View, w: View, x: Item)
    requires Within(v, w) && Stored(v, x)
    ensures Stored(w, x)
  {
  }

  /** An item answered at position k is stored at the end. */
  lemma AnsweredIsStored(c: Ctx, v: View, outbox: set<Item>, es: seq<Event>, k: nat)
    requires ConflictFree(c, v, outbox) && FromOutbox(outbox, es)
    requires k < |es| && es[k].Deliver? && !Answer(c, Spec(v, {}), es, k).Reject?
    ensures Stored(Run(c, Spec(v, {}), es).view, es[k].item)
  {
    hide ConflictFree, Between, Stored, Within, ItemOutcome;
    var sp := Run(c, Spec(v, {}), es[..k]);
    assert FromOutbox(outbox, es[..k]);
    RunBetween(c, v, outbox, es[..k]);
    StepBetween(c, v, outbox, sp, es[k].item);
    assert es[..k + 1][..k] == es[..k];
    PrefixWithin(c, Spec(v, {}), es, k + 1);
    StoredKept(Step(c, sp, es[k].item).view, Run(c, Spec(v, {}), es).view, es[k].item);
  }

  // --- Runs that get every item through ---------------------------------------------------------

  /** y is the parent item that x names. */
  predicate ParentOf(y: Item, x: Item) {
    match (y, x)
    case (OfInspection(i), OfPoint(p)) => i.uuid == p.inspection
    case (OfInspection(i), OfProblem(p)) => p.inspection == Some(i.uuid)
    case (OfInspection(i), OfMedia(m)) => m.ownerType == InspectionOwner && m.owner == Some(i.uuid)
    case (OfProblem(q), OfMedia(m)) => m.ownerType == ProblemOwner && m.owner == Some(q.uuid)
    case _ => false
  }

  /** The item at position k comes after its parent did, in this batch or an earlier one, unless
      the parent was stored before the run. */
  ghost predicate AfterParent(v: View, es: seq<Event>, k: nat)
    requires k < |es|
    decreases k
  {
    && es[k].Deliver?
    && (ParentLive(v, es[k].item)
        || exists j :: 0 <= j < k && AfterParent(v, es, j) && ParentOf(es[j].item, es[k].item))
  }

  /** Every outbox item comes, at least once, after its parent: the client retries a rejected child
      until its parent has arrived. */
  ghost predicate Timely(v: View, outbox: set<Item>, es: seq<Event>) {
    && FromOutbox(outbox, es)
    && forall x :: x in outbox ==> exists k :: 0 <= k < |es| && es[k] == Deliver(x) && AfterParent(v, es, k)
  }

  lemma {:induction false} AfterParentIsAnswered(c: Ctx, v: View, outbox: set<Item>, es: seq<Event>, k: nat)
    requires ConflictFree(c, v, outbox) && FromOutbox(outbox, es)
    requires k < |es| && AfterParent(v, es, k)
    ensures !Answer(c, Spec(v, {}), es, k).Reject?
    decreases k
  {
    var sp := Run(c, Spec(v, {}), es[..k]);
    assert FromOutbox(outbox, es[..k]);
    RunBetween(c, v, outbox, es[..k]);
    if ParentLive(v, es[k].item) {
      LiveStaysLive(v, sp.view, es[k].item);
    } else {
      var j :| 0 <= j < k && AfterParent(v, es, j) && ParentOf(es[j].item, es[k].item);
      AfterParentIsAnswered(c, v, outbox, es, j);
      assert es[..k][..j] == es[..j];
      AnsweredIsStored(c, v, outbox, es[..k], j);
      StoredParentIsLive(c, v, outbox, sp, es[j].item, es[k].item);
    }
    AnsweredIffParentLive(c, v, outbox, sp, es[k].item);
  }

  lemma LiveStaysLive(v: View, w: View, x: Item)
    requires Within(v, w) && ParentLive(v, x)
    ensures ParentLive(w, x)
  {
  }

  lemma StoredParentIsLive(c: Ctx, v: View, outbox: set<Item>, sp: Spec, y: Item, x: Item)
    requires ConflictFree(c, v, outbox) && Between(c, v, outbox, sp) && y in outbox
    requires Stored(sp.view, y) && ParentOf(y, x)
    ensures ParentLive(sp.view, x)
  {
    assert Fits(v, y);
  }

  /** A timely run ends in the merge of what was there and the outbox. */
  lemma TimelyRunMerges(c: Ctx, v: View, outbox: set<Item>, es: seq<Event>)
    requires ConflictFree(c, v, outbox) && Timely(v, outbox, es)
    ensures Merged(c, v, outbox, Run(c, Spec(v, {}), es).view)
  {
    RunBetween(c, v, outbox, es);
    forall x | x in outbox
      ensures Stored(Run(c, Spec(v, {}), es).view, x)
    {
      var k :| 0 <= k < |es| && es[k] == Deliver(x) && AfterParent(v, es, k);
      AfterParentIsAnswered(c, v, outbox, es, k);
      AnsweredIsStored(c, v, outbox, es, k);
    }
  }

  /** Any two timely runs of one conflict-free outbox, whatever their batches, orders, repetitions
      and retries, end in the same uuid-level database. */
  lemma Confluence(c: Ctx, v: View, outbox: set<Item>, es: seq<Event>, fs: seq<Event>)
    requires ConflictFree(c, v, outbox) && Timely(v, outbox, es) && Timely(v, outbox, fs)
    ensures Run(c, Spec(v, {}), es).view == Run(c, Spec(v, {}), fs).view
  {
    TimelyRunMerges(c, v, outbox, es);
    TimelyRunMerges(c, v, outbox, fs);
    MergedIsUnique(c, v, outbox, Run(c, Spec(v, {}), es).view, Run(c, Spec(v, {}), fs).view);
  }
}
