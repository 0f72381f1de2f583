/** What a whole batch does to the tables, stated against the specification. */
module SyncBatch {
  import opened Wrappers
  import opened SyncModel
  import opened SyncStore
  import opened SyncSpec
  import opened SyncApply
  import opened SyncRefine

  /** Every result reports the specification's answer to its item, in order. */
  ghost predicate AllReport(c: Ctx, sp: Spec, es: seq<Event>, s: Store, rs: seq<ItemResult>) {
    && |rs| == |es|
    && forall k :: 0 <= k < |es| ==> es[k].Deliver? && Reports(s, es[k].item, Answer(c, sp, es, k), rs[k])
  }

  /** After the items `es`, started on the tables s0: the view is the specification's, and so is
      every answer; nothing stored was touched. */
  ghost predicate BatchSoFar(c: Ctx, s0: Store, es: seq<Event>, s: Session, rs: seq<ItemResult>) {
    && StoreOk(s0) && SessionOk(c, s) && Extends(s0, s.store)
    && Abstract(s) == Run(c, Spec(ViewOf(s0), {}), es)
    && AllReport(c, Spec(ViewOf(s0), {}), es, s.store, rs)
  }

  lemma BatchStarts(c: Ctx, s0: Store)
    requires StoreOk(s0) && RefsOk(c.refs, s0)
    ensures Indexed(s0) && BatchSoFar(c, s0, [], Session(s0, map[], map[]), [])
  {
    hide StoreOk, ViewOf, RefsOk, MapsOk, Run, Extends, Indexed, AllReport;
    StoreIsIndexed(s0);
    var sp := Spec(ViewOf(s0), {});
    RunOfNone(c, sp);
    NothingReported(c, sp, s0);
    var ids: map<Uuid, Id> := map[];
    assert ids.Keys == {};
  }

  lemma NothingReported(c: Ctx, sp: Spec, s: Store)
    ensures AllReport(c, sp, [], s, []) && MapsOk(s, map[], map[]) && Extends(s, s)
  {
  }

  lemma StoreIsIndexed(s: Store)
    requires StoreOk(s)
    ensures Indexed(s)
  {
  }

  lemma RunOfNone(c: Ctx, sp: Spec)
    ensures Run(c, sp, []) == sp
  {
  }

  lemma BatchEnds(c: Ctx, s0: Store, b: Batch, s: Session, rs: seq<ItemResult>)
    requires BatchSoFar(c, s0, BatchItems(b), s, rs)
    ensures StoreOk(s.store) && RefsOk(c.refs, s.store) && BatchStep(c, s0, b, s.store, rs)
    ensures SeqsAdvance(s0.next, s.store.next)
  {
    assert StoreOk(s0);
    assert StoreOk(s.store);
    assert RefsOk(c.refs, s.store);
    assert Extends(s0, s.store);
    assert ViewOf(s.store) == Abstract(s).view;
    assert AllReport(c, Spec(ViewOf(s0), {}), BatchItems(b), s.store, rs);
  }

  lemma BatchGrows(c: Ctx, s0: Store, es: seq<Event>, s: Session, rs: seq<ItemResult>, x: Item)
    requires Indexed(s.store) && BatchSoFar(c, s0, es, s, rs)
    ensures var (s', r) := Apply(c, s, x);
            Indexed(s'.store) && BatchSoFar(c, s0, es + [Deliver(x)], s', rs + [r])
  {
    var sp := Spec(ViewOf(s0), {});
    var es' := es + [Deliver(x)];
    ApplyRefines(c, s, x);
    var (s', r) := Apply(c, s, x);
    ExtendsTransitive(s0, s.store, s'.store);
    assert es'[..|es|] == es;
    assert Abstract(s') == Run(c, sp, es');
    AllReportGrows(c, sp, es, s.store, rs, x, s'.store, r);
  }

  lemma AllReportGrows(
      c: Ctx, sp: Spec, es: seq<Event>, s: Store, rs: seq<ItemResult>, x: Item, s': Store, r: ItemResult)
    requires Indexed(s) && Indexed(s') && Extends(s, s') && AllReport(c, sp, es, s, rs)
    requires Reports(s', x, ItemOutcome(c, Run(c, sp, es), x), r)
    ensures AllReport(c, sp, es + [Deliver(x)], s', rs + [r])
  {
    var es', rs' := es + [Deliver(x)], rs + [r];
    forall k | 0 <= k < |es'|
      ensures es'[k].Deliver? && Reports(s', es'[k].item, Answer(c, sp, es', k), rs'[k])
    {
      if k < |es| {
        assert es'[..k] == es[..k];
        ReportsKept(s, s', es[k].item, Answer(c, sp, es, k), rs[k]);
      } else {
        assert es'[..k] == es;
      }
    }
  }

  /** A committed batch: the contract of `Process` as a relation between the tables before, the
      tables after and the results. */
  ghost predicate BatchStep(c: Ctx, s: Store, b: Batch, s': Store, rs: seq<ItemResult>) {
    && StoreOk(s) && StoreOk(s') && RefsOk(c.refs, s') && Extends(s, s')
    && ViewOf(s') == Run(c, Spec(ViewOf(s), {}), BatchItems(b)).view
    && AllReport(c, Spec(ViewOf(s), {}), BatchItems(b), s', rs)
  }

  // --- The answer envelope ----------------------------------------------------------------------

  /** The results with a given status, in order. */
  function WithStatus(rs: seq<ItemResult>, status: ItemStatus): seq<ItemResult> {
    if rs == [] then []
    else
      WithStatus(rs[..|rs| - 1], status) + (if rs[|rs| - 1].status == status then [rs[|rs| - 1]] else [])
  }

  function Bucket(rs: seq<ItemResult>): Option<seq<ItemResult>> {
    if rs == [] then None else Some(rs)
  }
}
