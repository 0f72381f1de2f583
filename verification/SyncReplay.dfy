/** Replay: the same batch a second time changes no row and turns every answer that was not a
    rejection into a duplicate with the same server id. */
module SyncReplay {
  import opened Wrappers
  import opened SyncModel
  import opened SyncStore
  import opened SyncSpec
  import opened SyncRefine
  import opened SyncBatch

  ghost predicate SubMap<D>(a: map<Uuid, D>, b: map<Uuid, D>) {
    forall u :: u in a ==> u in b && b[u] == a[u]
  }

  ghost predicate Within(v: View, w: View) {
    && SubMap(v.inspections, w.inspections) && SubMap(v.points, w.points)
    && SubMap(v.problems, w.problems) && SubMap(v.media, w.media)
  }

  // --- Runs only add rows -----------------------------------------------------------------------

  lemma NextGrows(c: Ctx, sp: Spec, e: Event)
    ensures Within(sp.view, Next(c, sp, e).view)
    ensures e.Deliver? ==> sp.synced <= Next(c, sp, e).synced
  {
    hide InspectionRow, ProblemRow, ProblemCols, MediaRow, PointRow, SeqTaken, ObjectTaken, LiveInspection, LiveProblem, Storable;
  }

  lemma {:induction false} RunGrows(c: Ctx, sp: Spec, es: seq<Event>)
    ensures Within(sp.view, Run(c, sp, es).view)
    ensures (forall k :: 0 <= k < |es| ==> es[k].Deliver?) ==> sp.synced <= Run(c, sp, es).synced
  {
    if es == [] {
    } else {
      var front := es[..|es| - 1];
      RunGrows(c, sp, front);
      NextGrows(c, Run(c, sp, front), es[|es| - 1]);
      WithinTransitive(sp.view, Run(c, sp, front).view, Run(c, sp, es).view);
      if forall k :: 0 <= k < |es| ==> es[k].Deliver? {
        assert forall k :: 0 <= k < |front| ==> front[k] == es[k];
        assert es[|es| - 1].Deliver?;
      }
    }
  }

  lemma WithinTransitive(v: View, w: View, x: View)
    requires Within(v, w) && Within(w, x)
    ensures Within(v, x)
  {
  }

  /** Every state on the way lies within the state at the end. */
  lemma PrefixWithin(c: Ctx, sp: Spec, es: seq<Event>, k: nat)
    requires k <= |es|
    ensures Within(Run(c, sp, es[..k]).view, Run(c, sp, es).view)
    ensures (forall j :: k <= j < |es| ==> es[j].Deliver?) ==> Run(c, sp, es[..k]).synced <= Run(c, sp, es).synced
  {
    assert es == es[..k] + es[k..];
    RunConcat(c, sp, es[..k], es[k..]);
    RunGrows(c, Run(c, sp, es[..k]), es[k..]);
    if forall j :: k <= j < |es| ==> es[j].Deliver? {
      assert forall j :: 0 <= j < |es[k..]| ==> es[k..][j] == es[k + j];
    }
  }

  ghost predicate NoInspections(es: seq<Event>) {
    forall k :: 0 <= k < |es| ==> es[k].Deliver? && !es[k].item.OfInspection?
  }

  ghost predicate AllMedia(es: seq<Event>) {
    forall k :: 0 <= k < |es| ==> es[k].Deliver? && es[k].item.OfMedia?
  }

  lemma {:induction false} NoInspectionsKeep(c: Ctx, sp: Spec, es: seq<Event>)
    requires NoInspections(es)
    ensures Run(c, sp, es).view.inspections == sp.view.inspections && Run(c, sp, es).synced == sp.synced
  {
    if es == [] {
    } else {
      var front := es[..|es| - 1];
      assert NoInspections(front);
      NoInspectionsKeep(c, sp, front);
    }
  }

  lemma {:induction false} AllMediaKeep(c: Ctx, sp: Spec, es: seq<Event>)
    requires AllMedia(es)
    ensures Run(c, sp, es).view.problems == sp.view.problems
  {
    if es == [] {
    } else {
      var front := es[..|es| - 1];
      assert AllMedia(front);
      AllMediaKeep(c, sp, front);
    }
  }

  // --- One item again ---------------------------------------------------------------------------

  /** How a second answer must relate to the first. */
  ghost predicate AnsweredAgain(first: Outcome, second: Outcome) {
    second != Accept && (!first.Reject? ==> second == Duplic)
  }

  /** The inspection pass: no parents, so only the view matters. */
  lemma InspectionAgain(c: Ctx, sp: Spec, w: View, synced: set<Uuid>, i: SyncInspection)
    requires Within(Step(c, sp, OfInspection(i)).view, w) && Within(sp.view, w)
    ensures AnsweredAgain(InspectionOutcome(c, sp, i), InspectionOutcome(c, Spec(w, synced), i))
  {
  }

  /** The other passes: the parents resolve as they did the first time. */
  ghost predicate ParentsAgree(v: View, w: View, x: Item) {
    v.inspections == w.inspections && (x.OfMedia? ==> v.problems == w.problems)
  }

  lemma ItemAgain(c: Ctx, sp: Spec, w: View, x: Item)
    requires !x.OfInspection? && ParentsAgree(sp.view, w, x)
    requires Within(Step(c, sp, x).view, w) && Within(sp.view, w)
    ensures AnsweredAgain(ItemOutcome(c, sp, x), ItemOutcome(c, Spec(w, sp.synced), x))
  {
    match x
    case OfPoint(p) => PointAgain(c, sp, w, p);
    case OfProblem(p) =>
    case OfMedia(m) => MediaAgain(c, sp, w, m);
  }

  lemma PointAgain(c: Ctx, sp: Spec, w: View, p: SyncPoint)
    requires sp.view.inspections == w.inspections
    requires Within(Step(c, sp, OfPoint(p)).view, w) && Within(sp.view, w)
    ensures AnsweredAgain(PointOutcome(sp, p), PointOutcome(Spec(w, sp.synced), p))
  {
    if SeqTaken(sp.view, p.inspection, p.seqNo) {
      var u :| u in sp.view.points && sp.view.points[u].parent == p.inspection && sp.view.points[u].seqNo == p.seqNo;
      assert u in w.points && w.points[u] == sp.view.points[u];
    }
  }

  lemma MediaAgain(c: Ctx, sp: Spec, w: View, m: SyncMedia)
    requires sp.view.inspections == w.inspections && sp.view.problems == w.problems
    requires Within(Step(c, sp, OfMedia(m)).view, w) && Within(sp.view, w)
    ensures AnsweredAgain(MediaOutcome(sp, m), MediaOutcome(Spec(w, sp.synced), m))
  {
    if ObjectTaken(sp.view, m.bucket, m.key) {
      var u :| u in sp.view.media && sp.view.media[u].bucket == m.bucket && sp.view.media[u].key == m.key;
      assert u in w.media && w.media[u] == sp.view.media[u];
    }
  }

  // --- A pass again -----------------------------------------------------------------------------

  /** Replaying `es`, first run from sp, on the view w: no row is added. */
  ghost predicate SegmentAgain(c: Ctx, sp: Spec, es: seq<Event>, sp': Spec) {
    && Run(c, sp', es).view == sp'.view
    && forall k :: 0 <= k < |es| && es[k].Deliver? ==>
         AnsweredAgain(Answer(c, sp, es, k), Answer(c, sp', es, k))
  }

  /** A pass without inspections, started with the same synced set on a view it lies within. */
  lemma {:induction false} PassAgain(c: Ctx, sp: Spec, es: seq<Event>, w: View)
    requires NoInspections(es) && Within(Run(c, sp, es).view, w)
    requires sp.view.inspections == w.inspections
    requires (forall k :: 0 <= k < |es| ==> !es[k].item.OfMedia?) || (AllMedia(es) && sp.view.problems == w.problems)
    ensures SegmentAgain(c, sp, es, Spec(w, sp.synced))
    ensures Run(c, Spec(w, sp.synced), es) == Spec(w, sp.synced)
  {
    if es == [] {
    } else {
      var n := |es| - 1;
      var front, x := es[..n], es[n].item;
      var mid := Run(c, sp, front);
      PrefixWithin(c, sp, es, n);
      assert NoInspections(front);
      if AllMedia(es) {
        assert AllMedia(front);
        AllMediaKeep(c, sp, front);
      }
      NoInspectionsKeep(c, sp, front);
      PassAgain(c, sp, front, w);
      ItemAgain(c, mid, w, x);
      AnswersOfFront(c, sp, es);
      AnswersOfFront(c, Spec(w, sp.synced), es);
    }
  }

  lemma AnswersOfFront(c: Ctx, sp: Spec, es: seq<Event>)
    requires es != []
    ensures forall k :: 0 <= k < |es| - 1 && es[k].Deliver? ==>
              Answer(c, sp, es[..|es| - 1], k) == Answer(c, sp, es, k)
  {
    forall k | 0 <= k < |es| - 1
      ensures es[..|es| - 1][..k] == es[..k]
    {
    }
  }

  /** The inspection pass again: the same uuids end up in the map. */
  lemma InspectionPassAgain(c: Ctx, v: View, items: seq<SyncInspection>, w: View)
    requires var sp := Run(c, Spec(v, {}), InspectionEvents(items));
             Within(sp.view, w) && sp.view.inspections == w.inspections
    ensures SegmentAgain(c, Spec(v, {}), InspectionEvents(items), Spec(w, {}))
    ensures Run(c, Spec(w, {}), InspectionEvents(items))
         == Spec(w, Run(c, Spec(v, {}), InspectionEvents(items)).synced)
  {
    var es := InspectionEvents(items);
    InspectionPrefixAgain(c, v, items, w, |items|);
    assert es[..|items|] == es;
    SyncedCovers(c, v, items);
    var first, again := Run(c, Spec(v, {}), es).synced, Run(c, Spec(w, {}), es).synced;
    assert again == first;
  }

  /** The map holds every uuid the pass inserted. */
  lemma {:induction false} SyncedCovers(c: Ctx, v: View, items: seq<SyncInspection>)
    ensures var sp := Run(c, Spec(v, {}), InspectionEvents(items));
            sp.view.inspections.Keys <= v.inspections.Keys + sp.synced
  {
    if items == [] {
    } else {
      var front := items[..|items| - 1];
      SyncedCovers(c, v, front);
      assert InspectionEvents(items)[..|items| - 1] == InspectionEvents(front);
    }
  }

  ghost predicate PrefixAgain(c: Ctx, v: View, es: seq<Event>, w: View, k: nat)
    requires k <= |es|
  {
    var first, again := Run(c, Spec(v, {}), es[..k]), Run(c, Spec(w, {}), es[..k]);
    && SegmentAgain(c, Spec(v, {}), es[..k], Spec(w, {}))
    && first.synced <= again.synced <= Run(c, Spec(v, {}), es).synced
  }

  lemma {:induction false} InspectionPrefixAgain(c: Ctx, v: View, items: seq<SyncInspection>, w: View, k: nat)
    requires k <= |items|
    requires var sp := Run(c, Spec(v, {}), InspectionEvents(items));
             Within(sp.view, w) && sp.view.inspections == w.inspections
    ensures PrefixAgain(c, v, InspectionEvents(items), w, k)
  {
    var es := InspectionEvents(items);
    if k > 0 {
      InspectionPrefixAgain(c, v, items, w, k - 1);
      InspectionStepAgain(c, v, items, w, k - 1);
      PrefixWithin(c, Spec(v, {}), es, k);
      PrefixGrows(c, v, es, w, k);
    }
  }

  lemma PrefixGrows(c: Ctx, v: View, es: seq<Event>, w: View, k: nat)
    requires 0 < k <= |es| && es[k - 1].Deliver? && es[k - 1].item.OfInspection?
    requires PrefixAgain(c, v, es, w, k - 1)
    requires var first, again := Answer(c, Spec(v, {}), es, k - 1), Answer(c, Spec(w, {}), es, k - 1);
             && AnsweredAgain(first, again)
             && (again == Duplic ==> ItemUuid(es[k - 1].item) in Run(c, Spec(v, {}), es).synced)
    ensures PrefixAgain(c, v, es, w, k)
  {
    var x := es[k - 1].item;
    assert es[..k][..k - 1] == es[..k - 1];
    var first, again := Run(c, Spec(v, {}), es[..k - 1]), Run(c, Spec(w, {}), es[..k - 1]);
    assert Run(c, Spec(v, {}), es[..k]) == Step(c, first, x);
    assert Run(c, Spec(w, {}), es[..k]) == Step(c, again, x);
    SegmentGrows(c, Spec(v, {}), es[..k], Spec(w, {}));
  }

  lemma SegmentGrows(c: Ctx, sp: Spec, es: seq<Event>, sp': Spec)
    requires es != [] && es[|es| - 1].Deliver? && SegmentAgain(c, sp, es[..|es| - 1], sp')
    requires AnsweredAgain(Answer(c, sp, es, |es| - 1), Answer(c, sp', es, |es| - 1))
    ensures SegmentAgain(c, sp, es, sp')
  {
    AnswersOfFront(c, sp, es);
    AnswersOfFront(c, sp', es);
  }

  lemma InspectionStepAgain(c: Ctx, v: View, items: seq<SyncInspection>, w: View, k: nat)
    requires k < |items|
    requires var sp := Run(c, Spec(v, {}), InspectionEvents(items));
             Within(sp.view, w) && sp.view.inspections == w.inspections
    requires Run(c, Spec(w, {}), InspectionEvents(items)[..k]).view == w
    ensures var es := InspectionEvents(items);
            var first, again := Answer(c, Spec(v, {}), es, k), Answer(c, Spec(w, {}), es, k);
            && AnsweredAgain(first, again)
            && (again == Duplic ==> items[k].uuid in Run(c, Spec(v, {}), es).synced)
  {
    var es, i := InspectionEvents(items), items[k];
    var before := Run(c, Spec(v, {}), es[..k]);
    assert es[..k + 1][..k] == es[..k];
    PrefixWithin(c, Spec(v, {}), es, k);
    PrefixWithin(c, Spec(v, {}), es, k + 1);
    WithinTransitive(before.view, Run(c, Spec(v, {}), es).view, w);
    WithinTransitive(Run(c, Spec(v, {}), es[..k + 1]).view, Run(c, Spec(v, {}), es).view, w);
    InspectionAgain(c, before, w, Run(c, Spec(w, {}), es[..k]).synced, i);
    SyncedCovers(c, v, items);
    if i.uuid in v.inspections {
      RunGrows(c, Spec(v, {}), es[..k]);
    }
  }

  // --- A batch again ----------------------------------------------------------------------------

  /** On every view and every batch, client_uuids repeating inside it or not: the batch run again
      on its own result adds nothing, accepts nothing, and answers duplicate wherever the first run
      did not reject. */
  lemma ReplaySpec(c: Ctx, v: View, b: Batch)
    ensures SegmentAgain(c, Spec(v, {}), BatchItems(b), Spec(Run(c, Spec(v, {}), BatchItems(b)).view, {}))
  {
    var ins := b.inspections.GetOr([]);
    var p := PointEvents(b.points.GetOr([])) + ProblemEvents(b.problems.GetOr([]));
    var m := MediaEvents(b.media.GetOr([]));
    assert BatchItems(b) == InspectionEvents(ins) + p + m;
    PassesAgain(c, v, ins, p, m);
  }

  lemma PassesAgain(c: Ctx, v: View, ins: seq<SyncInspection>, p: seq<Event>, m: seq<Event>)
    requires NoInspections(p) && (forall k :: 0 <= k < |p| ==> !p[k].item.OfMedia?) && AllMedia(m)
    ensures var es := InspectionEvents(ins) + p + m;
            SegmentAgain(c, Spec(v, {}), es, Spec(Run(c, Spec(v, {}), es).view, {}))
  {
    hide Run, SegmentAgain, Within, InspectionEvents;
    var a, sp0 := InspectionEvents(ins), Spec(v, {});
    var sp1 := Run(c, sp0, a);
    var sp2 := Run(c, sp1, p);
    var w := Run(c, sp2, m).view;
    RunConcat(c, sp0, a, p);
    RunConcat(c, sp0, a + p, m);
    NoInspectionsKeep(c, sp1, p);
    NoInspectionsKeep(c, sp2, m);
    RunGrows(c, sp2, m);
    RunGrows(c, sp1, p);
    WithinTransitive(sp1.view, sp2.view, w);
    InspectionPassAgain(c, v, ins, w);
    PassAgain(c, sp1, p, w);
    SegmentsJoin(c, sp0, a, p, Spec(w, {}));
    RunConcat(c, Spec(w, {}), a, p);
    AllMediaKeep(c, sp2, m);
    WithinItself(w);
    PassAgain(c, sp2, m, w);
    SegmentsJoin(c, sp0, a + p, m, Spec(w, {}));
  }

  lemma WithinItself(v: View)
    ensures Within(v, v)
  {
  }

  lemma SegmentsJoin(c: Ctx, sp: Spec, es: seq<Event>, fs: seq<Event>, sp': Spec)
    requires SegmentAgain(c, sp, es, sp')
    requires SegmentAgain(c, Run(c, sp, es), fs, Run(c, sp', es))
    ensures SegmentAgain(c, sp, es + fs, sp')
  {
    RunConcat(c, sp', es, fs);
    forall k | 0 <= k < |es + fs| && (es + fs)[k].Deliver?
      ensures AnsweredAgain(Answer(c, sp, es + fs, k), Answer(c, sp', es + fs, k))
    {
      if k < |es| {
        assert (es + fs)[..k] == es[..k];
      } else {
        assert (es + fs)[..k] == es + fs[..k - |es|];
        RunConcat(c, sp, es, fs[..k - |es|]);
        RunConcat(c, sp', es, fs[..k - |es|]);
        assert AnsweredAgain(Answer(c, Run(c, sp, es), fs, k - |es|), Answer(c, Run(c, sp', es), fs, k - |es|));
      }
    }
  }

  /** Two committed runs of one batch: the second leaves every table exactly as the first did, and
      answers duplicate with the same server id wherever the first accepted or found a duplicate. */
  lemma ReplayChangesNothing(
      c: Ctx, s0: Store, b: Batch, s1: Store, rs1: seq<ItemResult>, s2: Store, rs2: seq<ItemResult>)
    requires BatchStep(c, s0, b, s1, rs1) && BatchStep(c, s1, b, s2, rs2)
    ensures SameTables(s1, s2)
    ensures |rs1| == |rs2|
    ensures forall k :: 0 <= k < |rs1| ==>
              && rs2[k].status != Accepted
              && (rs1[k].status != Rejected ==>
                    rs2[k] == ItemResult(rs1[k].uuid, Duplicate, rs1[k].serverId, None))
  {
    ReplaySpec(c, ViewOf(s0), b);
    SameViewSameTables(s1, s2);
    var es, sp, sp' := BatchItems(b), Spec(ViewOf(s0), {}), Spec(ViewOf(s1), {});
    assert AllReport(c, sp, es, s1, rs1) && AllReport(c, sp', es, s2, rs2);
    SameAnswersAgain(c, sp, es, sp', s1, rs1, s2, rs2);
  }

  lemma SameAnswersAgain(
      c: Ctx, sp: Spec, es: seq<Event>, sp': Spec,
      s1: Store, rs1: seq<ItemResult>, s2: Store, rs2: seq<ItemResult>)
    requires SegmentAgain(c, sp, es, sp') && SameTables(s1, s2)
    requires AllReport(c, sp, es, s1, rs1) && AllReport(c, sp', es, s2, rs2)
    ensures |rs1| == |rs2|
    ensures forall k :: 0 <= k < |rs1| ==>
              && rs2[k].status != Accepted
              && (rs1[k].status != Rejected ==>
                    rs2[k] == ItemResult(rs1[k].uuid, Duplicate, rs1[k].serverId, None))
  {
    forall k | 0 <= k < |rs1|
      ensures rs2[k].status != Accepted
      ensures rs1[k].status != Rejected ==> rs2[k] == ItemResult(rs1[k].uuid, Duplicate, rs1[k].serverId, None)
    {
      var x := es[k].item;
      assert Reports(s1, x, Answer(c, sp, es, k), rs1[k]);
      assert Reports(s2, x, Answer(c, sp', es, k), rs2[k]);
      assert ServerIds(s1, x) == ServerIds(s2, x);
    }
  }
}
