/** Whole runs of committed batches on the tables: any two ways to push one conflict-free outbox
    end in the same uuid-level database and close an inspection to the same route. */
module SyncRuns {
  import opened Wrappers
  import opened SyncModel
  import opened SyncStore
  import opened SyncSpec
  import opened SyncBatch
  import opened SyncReplay
  import opened SyncConfluence
  import opened InspectionFinish

  /** One call of `Process`: no results when its transaction did not commit. */
  datatype Attempt = Attempt(batch: Batch, results: Option<seq<ItemResult>>)

  /** The events of the committed attempts. */
  function AllEvents(ts: seq<Attempt>): seq<Event> {
    if ts == [] then []
    else AllEvents(ts[..|ts| - 1]) + (if ts[|ts| - 1].results.Some? then BatchEvents(ts[|ts| - 1].batch) else [])
  }

  /** The contract of `Process` as a relation between the tables before and after. */
  ghost predicate Link(c: Ctx, s: Store, t: Attempt, s': Store) {
    if t.results.Some? then BatchStep(c, s, t.batch, s', t.results.value)
    else StoreOk(s) && StoreOk(s') && SameTables(s, s')
  }

  /** The tables before the first attempt and after each one. */
  ghost predicate Chain(c: Ctx, ss: seq<Store>, ts: seq<Attempt>) {
    && |ss| == |ts| + 1 && StoreOk(ss[0])
    && forall k :: 0 <= k < |ts| ==> Link(c, ss[k], ts[k], ss[k + 1])
  }

  lemma {:induction false} ChainIsRun(c: Ctx, ss: seq<Store>, ts: seq<Attempt>)
    requires Chain(c, ss, ts)
    ensures StoreOk(ss[|ts|])
    ensures ViewOf(ss[|ts|]) == Run(c, Spec(ViewOf(ss[0]), {}), AllEvents(ts)).view
  {
    if ts == [] {
    } else {
      var n := |ts| - 1;
      var front := ts[..n];
      ChainIsRun(c, ss[..n + 1], front);
      assert Link(c, ss[n], ts[n], ss[n + 1]);
      LinkIsRun(c, Spec(ViewOf(ss[0]), {}), AllEvents(front), ss[n], ts[n], ss[n + 1]);
    }
  }

  lemma LinkIsRun(c: Ctx, sp: Spec, es: seq<Event>, s: Store, t: Attempt, s': Store)
    requires Link(c, s, t, s') && ViewOf(s) == Run(c, sp, es).view
    ensures ViewOf(s') == Run(c, sp, es + (if t.results.Some? then BatchEvents(t.batch) else [])).view
  {
    if t.results.Some? {
      RunConcat(c, sp, es, BatchEvents(t.batch));
      BatchRestarts(c, Run(c, sp, es), t.batch);
    } else {
      assert es + [] == es;
    }
  }

  lemma BatchRestarts(c: Ctx, sp: Spec, b: Batch)
    ensures Run(c, sp, BatchEvents(b)) == Run(c, Spec(sp.view, {}), BatchItems(b))
  {
    RunConcat(c, sp, [Begin], BatchItems(b));
    assert [Begin][..0] == [];
  }

  /** Two chains of attempts from the same tables, each timely for one conflict-free outbox: the
      same database up to server ids, and so the same closed inspection whichever id it got. */
  lemma ChainsConverge(c: Ctx, outbox: set<Item>, ss: seq<Store>, ts: seq<Attempt>, ss': seq<Store>, ts': seq<Attempt>)
    requires Chain(c, ss, ts) && Chain(c, ss', ts') && ss[0] == ss'[0]
    requires ConflictFree(c, ViewOf(ss[0]), outbox)
    requires Timely(ViewOf(ss[0]), outbox, AllEvents(ts)) && Timely(ViewOf(ss[0]), outbox, AllEvents(ts'))
    ensures StoreOk(ss[|ts|]) && StoreOk(ss'[|ts'|])
    ensures ViewOf(ss[|ts|]) == ViewOf(ss'[|ts'|])
  {
    ChainIsRun(c, ss, ts);
    ChainIsRun(c, ss', ts');
    Confluence(c, ViewOf(ss[0]), outbox, AllEvents(ts), AllEvents(ts'));
  }

  /** Equal views, equal closing: route, point count, mileage, duration and every other column. */
  lemma SameViewSameClosing(
      s: Store, s': Store, u: Uuid, input: FinishInput, endedAt: Time, metric: (Geometry, Geometry) -> real)
    requires StoreOk(s) && StoreOk(s') && ViewOf(s) == ViewOf(s')
    requires u in s.inspections.byUuid
    ensures u in s'.inspections.byUuid
    ensures var id, id' := s.inspections.byUuid[u], s'.inspections.byUuid[u];
            Closed(s.inspections.rows[id].data, SamplesAt(s.points, s.bySeq, id), input, endedAt, metric)
            == Closed(s'.inspections.rows[id'].data, SamplesAt(s'.points, s'.bySeq, id'), input, endedAt, metric)
  {
    assert u in ViewOf(s).inspections;
    assert u in ViewOf(s').inspections;
    var id, id' := s.inspections.byUuid[u], s'.inspections.byUuid[u];
    assert ViewOf(s).inspections[u] == s.inspections.rows[id].data;
    assert ViewOf(s').inspections[u] == s'.inspections.rows[id'].data;
    hide Closed;
    SameViewSameRoute(s, id, s', id');
  }

  // --- Sending the whole outbox again -----------------------------------------------------------

  /** The batch holds the items of the outbox, in any order and any number of times. */
  ghost predicate Holds(b: Batch, outbox: set<Item>) {
    && FromOutbox(outbox, BatchItems(b))
    && forall x :: x in outbox ==> Deliver(x) in BatchItems(b)
  }

  /** Each item's parent is stored already or is in the outbox too. */
  ghost predicate SelfContained(v: View, outbox: set<Item>) {
    forall x :: x in outbox ==> ParentLive(v, x) || exists y :: y in outbox && ParentOf(y, x)
  }

  function Pass(x: Item): nat {
    match x
    case OfInspection(_) => 0
    case OfPoint(_) => 1
    case OfProblem(_) => 2
    case OfMedia(_) => 3
  }

  lemma PassesInOrder(b: Batch, j: nat, k: nat)
    requires j < |BatchItems(b)| && k < |BatchItems(b)|
    ensures BatchItems(b)[j].Deliver? && BatchItems(b)[k].Deliver?
    ensures Pass(BatchItems(b)[j].item) < Pass(BatchItems(b)[k].item) ==> j < k
  {
  }

  /** Whatever happened before, one batch holding the whole outbox brings everything in: the order
      of the passes puts each parent before its children. */
  lemma WholeOutboxIsTimely(v: View, outbox: set<Item>, es: seq<Event>, b: Batch)
    requires FromOutbox(outbox, es) && Holds(b, outbox) && SelfContained(v, outbox)
    ensures Timely(v, outbox, es + BatchEvents(b))
  {
    var fs, n := es + BatchEvents(b), |es| + 1;
    BatchFromOutbox(outbox, es, b);
    assert forall k :: 0 <= k < |BatchItems(b)| ==> fs[n + k] == BatchItems(b)[k];
    hide BatchItems, BatchEvents;
    forall x | x in outbox
      ensures exists k :: 0 <= k < |fs| && fs[k] == Deliver(x) && AfterParent(v, fs, k)
    {
      var k :| 0 <= k < |BatchItems(b)| && BatchItems(b)[k] == Deliver(x);
      AfterParentInBatch(v, outbox, fs, n, b, k);
      assert fs[n + k] == Deliver(x);
    }
  }

  lemma BatchFromOutbox(outbox: set<Item>, es: seq<Event>, b: Batch)
    requires FromOutbox(outbox, es) && FromOutbox(outbox, BatchItems(b))
    ensures FromOutbox(outbox, es + BatchEvents(b))
    ensures |es + BatchEvents(b)| == |es| + 1 + |BatchItems(b)|
  {
    hide BatchItems;
    var fs, n := es + BatchEvents(b), |es| + 1;
    forall k | 0 <= k < |fs| && fs[k].Deliver?
      ensures fs[k].item in outbox
    {
      if k < |es| {
        assert fs[k] == es[k];
      } else {
        assert k >= n;
        assert fs[k] == BatchItems(b)[k - n];
      }
    }
  }

  lemma AfterParentInBatch(v: View, outbox: set<Item>, fs: seq<Event>, n: nat, b: Batch, k: nat)
    requires Holds(b, outbox) && SelfContained(v, outbox)
    requires |fs| == n + |BatchItems(b)| && forall i :: 0 <= i < |BatchItems(b)| ==> fs[n + i] == BatchItems(b)[i]
    requires k < |BatchItems(b)|
    ensures AfterParent(v, fs, n + k)
    decreases k
  {
    PassesInOrder(b, k, k);
    var x := BatchItems(b)[k].item;
    assert fs[n + k].item == x && x in outbox;
    if !ParentLive(v, x) {
      var y :| y in outbox && ParentOf(y, x);
      var j :| 0 <= j < |BatchItems(b)| && BatchItems(b)[j] == Deliver(y);
      PassesInOrder(b, j, k);
      AfterParentInBatch(v, outbox, fs, n, b, j);
      assert fs[n + j].item == y;
    }
  }

  /** Two timely chains, then closing: the same row for an inspection, whatever ids it got. */
  lemma SameClosingAfterChains(
      c: Ctx, outbox: set<Item>, ss: seq<Store>, ts: seq<Attempt>, ss': seq<Store>, ts': seq<Attempt>,
      u: Uuid, input: FinishInput, endedAt: Time, metric: (Geometry, Geometry) -> real)
    requires Chain(c, ss, ts) && Chain(c, ss', ts') && ss[0] == ss'[0]
    requires ConflictFree(c, ViewOf(ss[0]), outbox)
    requires Timely(ViewOf(ss[0]), outbox, AllEvents(ts)) && Timely(ViewOf(ss[0]), outbox, AllEvents(ts'))
    requires StoreOk(ss[|ts|]) && StoreOk(ss'[|ts'|]) && u in ss[|ts|].inspections.byUuid
    ensures u in ss'[|ts'|].inspections.byUuid
    ensures var s, s' := ss[|ts|], ss'[|ts'|];
            var id, id' := s.inspections.byUuid[u], s'.inspections.byUuid[u];
            Closed(s.inspections.rows[id].data, SamplesAt(s.points, s.bySeq, id), input, endedAt, metric)
            == Closed(s'.inspections.rows[id'].data, SamplesAt(s'.points, s'.bySeq, id'), input, endedAt, metric)
  {
    ChainsConverge(c, outbox, ss, ts, ss', ts');
    hide Chain, Closed, ConflictFree, Timely, ViewOf;
    SameViewSameClosing(ss[|ts|], ss'[|ts'|], u, input, endedAt, metric);
  }

  // --- Where batch boundaries matter ------------------------------------------------------------

  /** The inspection an item names as its parent. */
  function ParentInspection(x: Item): Option<Uuid> {
    match x
    case OfInspection(_) => None
    case OfPoint(p) => Some(p.inspection)
    case OfProblem(p) => p.inspection
    case OfMedia(m) => if m.ownerType == InspectionOwner then m.owner else None
  }

  /** The encoder's verdict comes before the parent is looked up. */
  predicate Encodes(x: Item) {
    match x
    case OfPoint(p) => p.geom.encodes
    case OfProblem(p) => p.geom.encodes
    case _ => true
  }

  /** One batch has synced the parent and the other has not, and no live row has it. */
  ghost predicate BatchMatters(v: View, synced: set<Uuid>, synced': set<Uuid>, x: Item) {
    && Encodes(x) && ParentInspection(x).Some?
    && var u := ParentInspection(x).value;
    (u in synced) != (u in synced') && !LiveInspection(v, u)
  }

  /** On one database two batches answer an item alike if and only if they do not differ over a parent
      that is not live: for points, problems and inspection-owned media. */
  lemma SameAnswerIff(c: Ctx, v: View, synced: set<Uuid>, synced': set<Uuid>, x: Item)
    ensures ItemOutcome(c, Spec(v, synced), x) == ItemOutcome(c, Spec(v, synced'), x) <==>
              !BatchMatters(v, synced, synced', x)
  {
    hide SeqTaken, ObjectTaken, Storable, InspectionRow, ProblemCols, ProblemRefsOk, InspectionRefsOk, LiveProblem;
  }

  /** An item delivered in the running batch or in a fresh one. */
  lemma FreshBatchIff(c: Ctx, sp: Spec, x: Item)
    ensures ItemOutcome(c, sp, x) == ItemOutcome(c, Spec(sp.view, {}), x) <==>
              !(Encodes(x) && ParentInspection(x).Some? && ParentInspection(x).value in sp.synced
                && !LiveInspection(sp.view, ParentInspection(x).value))
  {
    hide ItemOutcome, Encodes, ParentInspection, LiveInspection;
    SameAnswerIff(c, sp.view, sp.synced, {}, x);
  }

  ghost predicate Delivers(es: seq<Event>) {
    forall k :: 0 <= k < |es| ==> es[k].Deliver?
  }

  ghost predicate SameAnswers(c: Ctx, sp: Spec, sp': Spec, es: seq<Event>)
    requires Delivers(es)
  {
    forall k :: 0 <= k < |es| ==> Answer(c, sp, es, k) == Answer(c, sp', es, k)
  }

  /** At position k of the items the two batches differ over a parent that is not live. */
  ghost predicate DiffersAt(c: Ctx, sp: Spec, sp': Spec, es: seq<Event>, k: nat)
    requires Delivers(es) && k < |es|
  {
    var a, b := Run(c, sp, es[..k]), Run(c, sp', es[..k]);
    BatchMatters(a.view, a.synced, b.synced, es[k].item)
  }

  ghost predicate NeverDiffers(c: Ctx, sp: Spec, sp': Spec, es: seq<Event>)
    requires Delivers(es)
  {
    forall k :: 0 <= k < |es| ==> !DiffersAt(c, sp, sp', es, k)
  }

  lemma SameAnswersSnoc(c: Ctx, sp: Spec, sp': Spec, es: seq<Event>)
    requires Delivers(es) && es != []
    ensures Delivers(es[..|es| - 1])
    ensures SameAnswers(c, sp, sp', es) <==>
              && SameAnswers(c, sp, sp', es[..|es| - 1])
              && Answer(c, sp, es, |es| - 1) == Answer(c, sp', es, |es| - 1)
  {
    hide ItemOutcome, Run;
    var n := |es| - 1;
    forall k | 0 <= k < n
      ensures es[..n][..k] == es[..k]
    {
    }
    assert forall k :: 0 <= k < n ==> es[..n][k] == es[k];
    if SameAnswers(c, sp, sp', es) {
      forall k | 0 <= k < n
        ensures Answer(c, sp, es[..n], k) == Answer(c, sp', es[..n], k)
      {
        assert Answer(c, sp, es, k) == Answer(c, sp', es, k);
      }
    }
    if SameAnswers(c, sp, sp', es[..n]) && Answer(c, sp, es, n) == Answer(c, sp', es, n) {
      forall k | 0 <= k < |es|
        ensures Answer(c, sp, es, k) == Answer(c, sp', es, k)
      {
        if k < n {
          assert Answer(c, sp, es[..n], k) == Answer(c, sp', es[..n], k);
        }
      }
    }
  }

  lemma NeverDiffersSnoc(c: Ctx, sp: Spec, sp': Spec, es: seq<Event>)
    requires Delivers(es) && es != []
    ensures Delivers(es[..|es| - 1])
    ensures NeverDiffers(c, sp, sp', es) <==>
              NeverDiffers(c, sp, sp', es[..|es| - 1]) && !DiffersAt(c, sp, sp', es, |es| - 1)
  {
    hide BatchMatters, Run;
    var n := |es| - 1;
    forall k | 0 <= k < n
      ensures DiffersAt(c, sp, sp', es[..n], k) <==> DiffersAt(c, sp, sp', es, k)
    {
      assert es[..n][..k] == es[..k] && es[..n][k] == es[k];
    }
  }

  /** Items run on one database after two different beginnings of a batch. */
  lemma {:induction false} SameAnswersIff(c: Ctx, sp: Spec, sp': Spec, es: seq<Event>)
    requires Delivers(es) && sp.view == sp'.view
    ensures SameAnswers(c, sp, sp', es) <==> NeverDiffers(c, sp, sp', es)
    ensures SameAnswers(c, sp, sp', es) ==> Run(c, sp, es).view == Run(c, sp', es).view
  {
    if es == [] {
    } else {
      hide ItemOutcome, BatchMatters, Added, SameAnswers, NeverDiffers, Delivers;
      var n := |es| - 1;
      SameAnswersSnoc(c, sp, sp', es);
      NeverDiffersSnoc(c, sp, sp', es);
      SameAnswersIff(c, sp, sp', es[..n]);
      var a, b := Run(c, sp, es[..n]), Run(c, sp', es[..n]);
      if SameAnswers(c, sp, sp', es[..n]) {
        SameAnswerIff(c, a.view, a.synced, b.synced, es[n].item);
      }
    }
  }

  /** Cutting a batch in two after `es`: every later item is answered alike if and only if none of them
      meets a parent that `es` synced, that the new batch has not, and that is not live. Then the
      database ends the same too. */
  lemma CutIff(c: Ctx, v: View, es: seq<Event>, fs: seq<Event>)
    requires Delivers(es) && Delivers(fs)
    ensures var sp := Run(c, Spec(v, {}), es);
            && (AnswersSurviveCut(c, v, es, fs) <==> NeverDiffers(c, sp, Spec(sp.view, {}), fs))
            && (AnswersSurviveCut(c, v, es, fs) ==>
                  Run(c, Spec(v, {}), es + fs).view == Run(c, Spec(v, {}), es + [Begin] + fs).view)
  {
    var sp := Run(c, Spec(v, {}), es);
    CutBegins(c, v, es);
    hide Run, ItemOutcome, Delivers, NeverDiffers;
    var cut := Run(c, Spec(v, {}), es + [Begin]);
    SameAnswersIff(c, sp, cut, fs);
    RunConcat(c, Spec(v, {}), es, fs);
    RunConcat(c, Spec(v, {}), es + [Begin], fs);
    SurvivalIsSameAnswers(c, v, es, fs);
  }

  lemma CutBegins(c: Ctx, v: View, es: seq<Event>)
    ensures Run(c, Spec(v, {}), es + [Begin]) == Spec(Run(c, Spec(v, {}), es).view, {})
  {
    assert (es + [Begin])[..|es|] == es;
  }

  /** The items after the cut get the answers they get without it. */
  ghost predicate AnswersSurviveCut(c: Ctx, v: View, es: seq<Event>, fs: seq<Event>) {
    forall j :: |es| <= j < |es| + |fs| ==> AnswerIn(c, v, es + fs, j) == AnswerIn(c, v, es + [Begin] + fs, j + 1)
  }

  lemma SurvivalIsSameAnswers(c: Ctx, v: View, es: seq<Event>, fs: seq<Event>)
    requires Delivers(fs)
    ensures AnswersSurviveCut(c, v, es, fs) <==>
              SameAnswers(c, Run(c, Spec(v, {}), es), Run(c, Spec(v, {}), es + [Begin]), fs)
  {
    hide Run, ItemOutcome, AnswerIn;
    var a, b := Run(c, Spec(v, {}), es), Run(c, Spec(v, {}), es + [Begin]);
    forall j | |es| <= j < |es| + |fs|
      ensures AnswerIn(c, v, es + fs, j) == Some(Answer(c, a, fs, j - |es|))
      ensures AnswerIn(c, v, es + [Begin] + fs, j + 1) == Some(Answer(c, b, fs, j - |es|))
    {
      AnswerAfter(c, v, es, fs, j - |es|);
      AnswerAfter(c, v, es + [Begin], fs, j - |es|);
    }
    hide Answer;
    if AnswersSurviveCut(c, v, es, fs) {
      forall k | 0 <= k < |fs|
        ensures Answer(c, a, fs, k) == Answer(c, b, fs, k)
      {
        assert AnswerIn(c, v, es + fs, |es| + k) == AnswerIn(c, v, es + [Begin] + fs, |es| + k + 1);
      }
    }
  }

  /** The answer at a position of a run, if an item is delivered there. */
  ghost function AnswerIn(c: Ctx, v: View, es: seq<Event>, k: nat): Option<Outcome> {
    if k < |es| && es[k].Deliver? then Some(Answer(c, Spec(v, {}), es, k)) else None
  }

  lemma AnswerAfter(c: Ctx, v: View, es: seq<Event>, fs: seq<Event>, k: nat)
    requires k < |fs| && fs[k].Deliver?
    ensures AnswerIn(c, v, es + fs, |es| + k) == Some(Answer(c, Run(c, Spec(v, {}), es), fs, k))
  {
    assert (es + fs)[..|es| + k] == es + fs[..k];
    assert (es + fs)[|es| + k] == fs[k];
    RunConcat(c, Spec(v, {}), es, fs[..k]);
  }

  /** A batch syncs stored inspections only, so the parent in question is one that is soft-deleted. */
  lemma {:induction false} SyncedAreStored(c: Ctx, v: View, es: seq<Event>)
    ensures var sp := Run(c, Spec(v, {}), es);
            sp.synced <= sp.view.inspections.Keys
  {
    if es == [] {
    } else {
      hide Run;
      var n := |es| - 1;
      SyncedAreStored(c, v, es[..n]);
      RunSnoc(c, Spec(v, {}), es);
      SyncedStoredNext(c, Run(c, Spec(v, {}), es[..n]), es[n]);
    }
  }

  lemma RunSnoc(c: Ctx, sp: Spec, es: seq<Event>)
    requires es != []
    ensures Run(c, sp, es) == Next(c, Run(c, sp, es[..|es| - 1]), es[|es| - 1])
  {
  }

  lemma SyncedStoredNext(c: Ctx, sp: Spec, e: Event)
    requires sp.synced <= sp.view.inspections.Keys
    ensures Next(c, sp, e).synced <= Next(c, sp, e).view.inspections.Keys
  {
    NextGrows(c, sp, e);
    hide PointOutcome, ProblemOutcome, MediaOutcome;
  }

  /** Such a parent: a point sent in the same batch as a soft-deleted inspection is stored, one sent in
      the next batch is rejected. This is why a conflict-free outbox meets no soft-deleted inspection. */
  lemma DeletedInspectionCounterexample(c: Ctx, v: View, i: SyncInspection, p: SyncPoint)
    requires i.uuid in v.inspections && v.inspections[i.uuid].deleted && Storable(InspectionRow(c, i))
    requires p.inspection == i.uuid && Sound(c, OfPoint(p)) && p.uuid !in v.points && Fits(v, OfPoint(p))
    ensures var together := [Begin, Deliver(OfInspection(i)), Deliver(OfPoint(p))];
            Answer(c, Spec(v, {}), together, 2) == Accept
    ensures var apart := [Begin, Deliver(OfInspection(i)), Begin, Deliver(OfPoint(p))];
            Answer(c, Spec(v, {}), apart, 3) == Reject(InspectionNotFound)
  {
    var together := [Begin, Deliver(OfInspection(i)), Deliver(OfPoint(p))];
    var apart := [Begin, Deliver(OfInspection(i)), Begin, Deliver(OfPoint(p))];
    var es := [Begin, Deliver(OfInspection(i))];
    assert es[..1] == [Begin] && [Begin][..0] == [];
    assert Run(c, Spec(v, {}), [Begin]) == Spec(v, {});
    assert Run(c, Spec(v, {}), es) == Spec(v, {i.uuid});
    assert together[..2] == es;
    assert apart[..3] == es + [Begin];
    CutBegins(c, v, es);
    assert Run(c, Spec(v, {}), apart[..3]) == Spec(v, {});
  }
}
