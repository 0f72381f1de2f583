/** What holds after any run of the media machine, from the empty table. */
module MediaRuns {
  import opened Wrappers
  import opened SyncModel
  import opened MediaKeys
  import opened MediaTable
  import opened MediaMachine
  import opened MediaProofs

  ghost function Exec(cfg: Config, w: World, trace: seq<Action>): (w': World)
    requires Inv(cfg, w)
    ensures Inv(cfg, w') && Grows(w, w')
  {
    if trace == [] then
      GrowsItself(w);
      w
    else
      var v := Exec(cfg, w, trace[..|trace| - 1]);
      NextKeeps(cfg, v, trace[|trace| - 1]);
      GrowsTransitive(w, v, Next(cfg, v, trace[|trace| - 1]));
      Next(cfg, v, trace[|trace| - 1])
  }

  /** The world after a run from the empty table. */
  ghost function Reached(cfg: Config, trace: seq<Action>): (w: World)
    ensures Inv(cfg, w)
  {
    EmptyOk(cfg);
    Exec(cfg, EMPTY, trace)
  }

  lemma ExecSnoc(cfg: Config, w: World, trace: seq<Action>, a: Action)
    requires Inv(cfg, w)
    ensures Exec(cfg, w, trace + [a]) == Next(cfg, Exec(cfg, w, trace), a)
  {
    hide Inv, Grows, Next;
    assert (trace + [a])[..|trace|] == trace;
  }

  lemma {:induction false} ExecConcat(cfg: Config, w: World, xs: seq<Action>, ys: seq<Action>)
    requires Inv(cfg, w)
    ensures Exec(cfg, w, xs + ys) == Exec(cfg, Exec(cfg, w, xs), ys)
  {
    hide Inv, Grows;
    if ys == [] {
      assert xs + ys == xs;
    } else {
      assert (xs + ys)[..|xs + ys| - 1] == xs + ys[..|ys| - 1];
      ExecConcat(cfg, w, xs, ys[..|ys| - 1]);
    }
  }

  /** However many derive runs interleave, fail and are retried: every derived row carries its
      original's group, and an original has at most one row per tier. */
  lemma SiblingsAgree(cfg: Config, trace: seq<Action>, id: Id, id': Id)
    requires var w := Reached(cfg, trace); id in w.log.parents && id' in w.log.parents
    ensures var w := Reached(cfg, trace);
            var o := w.log.parents[id];
            && id in w.db.rows && o in w.db.rows
            && w.db.rows[id].group.Some? && w.db.rows[id].group == w.db.rows[o].group
            && w.db.rows[id].head.place == SiblingPlace(cfg, w.db.rows[o].head, w.db.rows[id].head.tier)
            && (w.log.parents[id'] == o && id' in w.db.rows && w.db.rows[id'].head.tier == w.db.rows[id].head.tier ==>
                  id == id')
  {
    var w := Reached(cfg, trace);
    assert RowOk(cfg, w, id) && RowOk(cfg, w, id');
    hide SiblingPlace;
    assert w.db.byPlace[w.db.rows[id].head.place] == id;
    assert w.db.byPlace[w.db.rows[id'].head.place] == id';
  }

  /** The rows of both tiers: verified, in the original's group, stored, and owned like it. */
  ghost predicate TiersPresent(cfg: Config, w: World, id: Id) {
    && id in w.db.rows && w.db.rows[id].group.Some?
    && TierPresent(cfg, w, w.db.rows[id], Web) && TierPresent(cfg, w, w.db.rows[id], Thumb)
  }

  ghost predicate TierPresent(cfg: Config, w: World, original: Row, tier: Tier) {
    var place := SiblingPlace(cfg, original.head, tier);
    && place in w.db.byPlace && w.db.byPlace[place] in w.db.rows && place in w.db.objects
    && var row := w.db.rows[w.db.byPlace[place]];
    && row.head.tier == tier && row.group == original.group
    && row.state == Confirmed && row.verifiedAt.Some?
    && row.head.ownerType == original.head.ownerType && row.head.owner == original.head.owner
  }

  lemma SiblingIsPresent(cfg: Config, w: World, source: Source, tier: Tier)
    requires DbOk(w.db) && RowsOk(cfg, w) && SourceOk(w, source) && HasSibling(cfg, w, source, tier) && Derived(tier)
    ensures TierPresent(cfg, w, w.db.rows[source.id], tier)
  {
    var id := w.db.byPlace[SiblingPlace(cfg, source.head, tier)];
    assert RowOk(cfg, w, id) && RowOk(cfg, w, source.id);
    var s, t := source.head, w.db.rows[id].head.tier;
    KeysDisjoint(s.ownerType, s.owner, s.uuid, t, s.ownerType, s.owner, s.uuid, tier);
  }

  lemma CompletedRunHasTiers(cfg: Config, w: World, p: Run)
    requires Inv(cfg, w) && p.Completed? && RunOk(cfg, w, p)
    ensures TiersPresent(cfg, w, p.source.id)
    ensures w.db.rows[p.source.id].group == Some(p.group)
  {
    hide ConfirmationsOk, FlagsOk, RowsOk, DbOk, SiblingPlace;
    assert HasSibling(cfg, w, p.source, DERIVE_TIERS[0].0);
    assert HasSibling(cfg, w, p.source, DERIVE_TIERS[1].0);
    SiblingIsPresent(cfg, w, p.source, Web);
    SiblingIsPresent(cfg, w, p.source, Thumb);
  }

  /** A run that completed left both tiers, and nothing later takes them away. */
  lemma CompletedHasTiers(cfg: Config, w: World, r: RunId)
    requires Inv(cfg, w) && r in w.runs && w.runs[r].Completed?
    ensures TiersPresent(cfg, w, w.runs[r].source.id)
    ensures w.db.rows[w.runs[r].source.id].group == Some(w.runs[r].group)
  {
    RunOfRuns(cfg, w, r);
    CompletedRunHasTiers(cfg, w, w.runs[r]);
  }

  lemma TiersStayPresent(cfg: Config, w: World, trace: seq<Action>, r: RunId)
    requires Inv(cfg, w) && r in w.runs && w.runs[r].Completed?
    ensures TiersPresent(cfg, Exec(cfg, w, trace), w.runs[r].source.id)
    ensures Exec(cfg, w, trace).db.rows[w.runs[r].source.id].group == Some(w.runs[r].group)
  {
    RunOfRuns(cfg, w, r);
    var p, w' := w.runs[r], Exec(cfg, w, trace);
    hide Exec, Inv, RunOk, Grows;
    RunCarries(cfg, w, w', p);
    CompletedRunHasTiers(cfg, w', p);
  }

  /** A row is confirmed only verified. An upload's tag and size are those storage reported at its
      one confirmation, the only one that asks for a derive run. */
  lemma ConfirmedMeansVerified(cfg: Config, trace: seq<Action>, id: Id)
    requires var w := Reached(cfg, trace); id in w.db.rows && w.db.rows[id].state == Confirmed
    ensures var w := Reached(cfg, trace);
            var row, cs := w.db.rows[id], w.log.confirmations;
            && row.verifiedAt.Some? && row.content.byteSize.Some?
            && (id !in w.log.parents ==>
                  exists k :: 0 <= k < |cs| && cs[k].id == id && cs[k].enqueued
                    && row.content.etag == Some(cs[k].etag) && row.content.byteSize == Some(cs[k].size)
                    && row.verifiedAt == Some(cs[k].at)
                    && forall j :: 0 <= j < |cs| && cs[j].id == id ==> j == k)
  {
    hide Inv, Reached;
    ConfirmedIsVerified(cfg, Reached(cfg, trace), id);
  }

  lemma ConfirmedIsVerified(cfg: Config, w: World, id: Id)
    requires Inv(cfg, w) && id in w.db.rows && w.db.rows[id].state == Confirmed
    ensures var row, cs := w.db.rows[id], w.log.confirmations;
            && row.verifiedAt.Some? && row.content.byteSize.Some?
            && (id !in w.log.parents ==>
                  exists k :: 0 <= k < |cs| && cs[k].id == id && cs[k].enqueued
                    && row.content.etag == Some(cs[k].etag) && row.content.byteSize == Some(cs[k].size)
                    && row.verifiedAt == Some(cs[k].at)
                    && forall j :: 0 <= j < |cs| && cs[j].id == id ==> j == k)
  {
    hide RunsOk, FlagsOk, DbOk, SiblingPlace;
    var cs := w.log.confirmations;
    if id in w.log.parents {
      assert RowOk(cfg, w, id);
    } else {
      var k :| 0 <= k < |cs| && cs[k].id == id;
      assert ConfirmationOk(w, cs[k]);
    }
  }

  /** Each pass flags live UPLOADING rows that have grown stale, none flagged by a pass before. */
  lemma ReapFlagsOnce(cfg: Config, trace: seq<Action>, cutoff: Time, now: Time)
    ensures var w := Reached(cfg, trace);
            var stale := StaleIds(w.db, cutoff);
            && Next(cfg, w, Reap(cutoff, now)).log.flagged == w.log.flagged + [stale]
            && forall k, id :: 0 <= k < |w.log.flagged| && id in w.log.flagged[k] ==> id !in stale
  {
    hide RowsOk, RunsOk, ConfirmationsOk, Reached, DbOk;
    var w := Reached(cfg, trace);
    forall k, id | 0 <= k < |w.log.flagged| && id in w.log.flagged[k]
      ensures id !in StaleIds(w.db, cutoff)
    {
      assert w.db.rows[id].reapedAt.Some?;
    }
  }

  /** What a pass does to a row: a flagged one gets the mark and nothing else, others stay. */
  lemma ReapedRow(db: Db, cutoff: Time, now: Time, id: Id)
    requires id in db.rows
    ensures Reaped(db, cutoff, now).rows.Keys == db.rows.Keys
    ensures Reaped(db, cutoff, now).rows[id]
         == if id in StaleIds(db, cutoff) then db.rows[id].(reapedAt := Some(now)) else db.rows[id]
    ensures id in StaleIds(db, cutoff) ==> db.rows[id].state == Uploading && !db.rows[id].deleted
  {
  }

  /** After any run a row bears the mark if and only if some pass of the reaper flagged it, and then
      exactly one did. */
  lemma MarkedByOnePass(cfg: Config, trace: seq<Action>, id: Id)
    ensures var w := Reached(cfg, trace);
            && (id in w.db.rows && w.db.rows[id].reapedAt.Some? <==>
                  exists k :: 0 <= k < |w.log.flagged| && id in w.log.flagged[k])
            && forall j, k | 0 <= j < |w.log.flagged| && 0 <= k < |w.log.flagged| ::
                 id in w.log.flagged[j] && id in w.log.flagged[k] ==> j == k
  {
    hide RowsOk, RunsOk, ConfirmationsOk, Reached, DbOk;
    var w := Reached(cfg, trace);
    assert FlagsOk(w);
  }

  /** Steps other than a pass and a deletion touch neither the mark nor the deletion of a row. */
  lemma AdvanceFrame(cfg: Config, w: World, r: RunId, p: Run, draw: Draw, id: Id)
    requires DbOk(w.db) && id in w.db.rows
    ensures var w' := AdvanceStep(cfg, w, r, p, draw);
            && id in w'.db.rows && w'.db.rows[id].reapedAt == w.db.rows[id].reapedAt
            && w'.db.rows[id].deleted == w.db.rows[id].deleted
  {
    hide DbOk, DeriveKey, Loaded, SiblingHead, SiblingPlace, RunOk;
    NotNext(w.db, id);
  }

  lemma NextFrame(cfg: Config, w: World, a: Action, id: Id)
    requires DbOk(w.db) && id in w.db.rows
    ensures var rows' := Next(cfg, w, a).db.rows;
            && id in rows'
            && rows'[id].reapedAt == (if a.Reap? && id in StaleIds(w.db, a.cutoff) then Some(a.at) else w.db.rows[id].reapedAt)
            && rows'[id].deleted == (w.db.rows[id].deleted || a == SoftDelete(id))
            && (a.Reap? && id in StaleIds(w.db, a.cutoff) ==> rows'[id] == w.db.rows[id].(reapedAt := Some(a.at)))
  {
    hide DbOk, ConfirmOutcomeOf, AdvanceStep, UploadRow, RequestOutcomeOf, ConfirmedRow, Reaped;
    NotNext(w.db, id);
    match a
    case Reap(cutoff, now) => ReapedRow(w.db, cutoff, now, id);
    case Advance(r, draw) =>
      if r in w.runs {
        AdvanceFrame(cfg, w, r, w.runs[r], draw, id);
      }
    case Confirm(x, now) =>
      if ConfirmOutcomeOf(w.db, x) == ConfirmOutcome.Verified {
        ConfirmFrame(w, x, now, id);
      }
    case _ =>
  }

  lemma ConfirmFrame(w: World, x: ConfirmInput, now: Time, id: Id)
    requires DbOk(w.db) && id in w.db.rows && ConfirmOutcomeOf(w.db, x) == ConfirmOutcome.Verified
    ensures var rows' := ConfirmStep(w, x, now).db.rows;
            id in rows' && rows'[id].reapedAt == w.db.rows[id].reapedAt && rows'[id].deleted == w.db.rows[id].deleted
  {
  }

  lemma NotNext(db: Db, id: Id)
    requires DbOk(db) && id in db.rows
    ensures id != db.next
  {
  }

  /** Whatever the step, a row gains the mark only in a pass of the reaper, while it is live, stale
      and still UPLOADING; the pass changes nothing else about it. */
  lemma OnlyReapMarks(cfg: Config, w: World, a: Action, id: Id)
    requires Inv(cfg, w) && id in w.db.rows && w.db.rows[id].reapedAt.None?
    ensures var rows' := Next(cfg, w, a).db.rows;
            && id in rows'
            && (rows'[id].reapedAt.Some? <==>
                  && a.Reap? && w.db.rows[id].state == Uploading && !w.db.rows[id].deleted
                  && w.db.rows[id].createdAt < a.cutoff)
            && (rows'[id].reapedAt.Some? ==> rows'[id] == w.db.rows[id].(reapedAt := Some(a.at)))
  {
    hide RowsOk, RunsOk, ConfirmationsOk, FlagsOk, DbOk, Next;
    NextFrame(cfg, w, a, id);
  }

  // --- Soft deletion ----------------------------------------------------------------------------

  /** A row is soft-deleted after a run only if the run deleted it. */
  lemma {:induction false} DeletedOnlyOnRequest(cfg: Config, trace: seq<Action>, id: Id)
    requires id in Reached(cfg, trace).db.rows && Reached(cfg, trace).db.rows[id].deleted
    ensures SoftDelete(id) in trace
  {
    hide Reached, Next, Inv, DbOk;
    if trace == [] {
      ReachedByOne(cfg, [], SoftDelete(id));
    } else {
      var front, a := trace[..|trace| - 1], trace[|trace| - 1];
      assert front + [a] == trace;
      ReachedByOne(cfg, front, a);
      DeletesOne(cfg, Reached(cfg, front), a, id);
      if a != SoftDelete(id) {
        DeletedOnlyOnRequest(cfg, front, id);
      }
    }
  }

  lemma DeletesOne(cfg: Config, w: World, a: Action, id: Id)
    requires Inv(cfg, w) && id in Next(cfg, w, a).db.rows && Next(cfg, w, a).db.rows[id].deleted
    ensures a == SoftDelete(id) || (id in w.db.rows && w.db.rows[id].deleted)
  {
    hide RowsOk, RunsOk, ConfirmationsOk, FlagsOk, DbOk, Next;
    if id in w.db.rows {
      NextFrame(cfg, w, a, id);
    } else {
      NewRowsAreLive(cfg, w, a, id);
    }
  }

  lemma NewRowsAreLive(cfg: Config, w: World, a: Action, id: Id)
    requires DbOk(w.db) && id !in w.db.rows && id in Next(cfg, w, a).db.rows
    ensures !Next(cfg, w, a).db.rows[id].deleted
  {
    hide DbOk, AdvanceStep, UploadRow, ConfirmStep, Reaped, Update, RequestOutcomeOf, ConfirmOutcomeOf;
    match a
    case Request(x, actor, now) => UploadIsLive(cfg, x, actor, now);
    case Confirm(x, now) => if ConfirmOutcomeOf(w.db, x) == ConfirmOutcome.Verified { ConfirmStepIs(w, x, now); }
    case Reap(cutoff, now) => ReapedKeys(w.db, cutoff, now);
    case SoftDelete(i) => UpdateKeys(w.db, i);
    case Advance(r, draw) => if r in w.runs { NewSiblingIsLive(cfg, w, r, w.runs[r], draw, id); }
    case _ =>
  }

  lemma UploadIsLive(cfg: Config, x: CredentialsInput, actor: int, now: Time)
    ensures !UploadRow(cfg, x, actor, now).deleted
  {
  }

  lemma ReapedKeys(db: Db, cutoff: Time, now: Time)
    ensures Reaped(db, cutoff, now).rows.Keys == db.rows.Keys
  {
  }

  lemma UpdateKeys(db: Db, id: Id)
    ensures id in db.rows ==> Update(db, id, db.rows[id].(deleted := true)).rows.Keys == db.rows.Keys
  {
  }

  lemma NewSiblingIsLive(cfg: Config, w: World, r: RunId, p: Run, draw: Draw, id: Id)
    requires DbOk(w.db) && id !in w.db.rows && id in AdvanceStep(cfg, w, r, p, draw).db.rows
    ensures !AdvanceStep(cfg, w, r, p, draw).db.rows[id].deleted
  {
    hide DbOk, Loaded, SiblingHead, SiblingPlace, DeriveKey;
  }

  /** The rows of both tiers that a completed run left are live, unless the run deletes them. */
  lemma TiersStayLive(cfg: Config, trace: seq<Action>, r: RunId, tier: Tier)
    requires Derived(tier) && r in Reached(cfg, trace).runs && Reached(cfg, trace).runs[r].Completed?
    ensures var w := Reached(cfg, trace);
            var o := w.runs[r].source.id;
            && o in w.db.rows && TierPresent(cfg, w, w.db.rows[o], tier)
            && var id := w.db.byPlace[SiblingPlace(cfg, w.db.rows[o].head, tier)];
            (SoftDelete(id) in trace || !w.db.rows[id].deleted)
  {
    var w := Reached(cfg, trace);
    CompletedHasTiers(cfg, w, r);
    hide Reached, Inv, SiblingPlace;
    var o := w.runs[r].source.id;
    var id := w.db.byPlace[SiblingPlace(cfg, w.db.rows[o].head, tier)];
    if w.db.rows[id].deleted {
      DeletedOnlyOnRequest(cfg, trace, id);
    }
  }

  // --- The mark and the derive path -------------------------------------------------------------

  /** The report fits the row and what is stored for it. */
  predicate ReportFits(db: Db, row: Row, x: ConfirmInput) {
    && x.uuid == row.head.uuid && !row.deleted && row.head.tier == Original
    && (x.key == "" || x.key == row.head.place.key)
    && row.head.place in db.objects
    && NormalTag(db.objects[row.head.place].etag) == NormalTag(x.etag)
    && |db.objects[row.head.place].bytes| == x.byteSize
    && CanTransition(row.state, Confirmed)
  }

  /** In any reachable state a confirmation puts a row that was not confirmed into the derive path if
      and only if the report fits it. The reaper's mark is no part of the condition. */
  lemma DerivableIffReportFits(cfg: Config, w: World, id: Id, x: ConfirmInput, now: Time)
    requires Inv(cfg, w) && id in w.db.rows && w.db.rows[id].state != Confirmed
    ensures Loaded(Next(cfg, w, Confirm(x, now)).db, id) != Skipped <==> ReportFits(w.db, w.db.rows[id], x)
  {
    hide RowsOk, RunsOk, ConfirmationsOk, FlagsOk, NormalTag, ConfirmStep, DbOk, ConfirmOutcomeOf, ReportFits;
    VerifiedIffFits(w.db, id, x);
    if ConfirmOutcomeOf(w.db, x) == ConfirmOutcome.Verified {
      ConfirmedIs(w, id, x, now);
    }
  }

  /** A report is verified for that row if and only if it fits it. */
  lemma VerifiedIffFits(db: Db, id: Id, x: ConfirmInput)
    requires DbOk(db) && id in db.rows && db.rows[id].state != Confirmed
    ensures (ConfirmOutcomeOf(db, x) == ConfirmOutcome.Verified && db.byUuid[x.uuid] == id && db.rows[id].head.tier == Original)
            <==> ReportFits(db, db.rows[id], x)
    ensures ReportFits(db, db.rows[id], x) ==> !db.rows[id].deleted
  {
    hide NormalTag, PlaceIndexOk;
  }

  lemma ConfirmedIs(w: World, id: Id, x: ConfirmInput, now: Time)
    requires DbOk(w.db) && id in w.db.rows && ConfirmOutcomeOf(w.db, x) == ConfirmOutcome.Verified
    ensures var rows' := ConfirmStep(w, x, now).db.rows;
            && x.uuid in w.db.byUuid && id in rows'
            && rows'[id].head == w.db.rows[id].head && rows'[id].deleted == w.db.rows[id].deleted
            && (w.db.byUuid[x.uuid] == id ==> rows'[id].state == Confirmed)
            && (w.db.byUuid[x.uuid] != id ==> rows'[id] == w.db.rows[id])
            && !w.db.rows[w.db.byUuid[x.uuid]].deleted
  {
    hide NormalTag, PlaceIndexOk;
  }

  lemma ReachedByOne(cfg: Config, trace: seq<Action>, a: Action)
    ensures Reached(cfg, trace + [a]) == Next(cfg, Reached(cfg, trace), a)
    ensures trace == [] ==> Reached(cfg, trace) == EMPTY
  {
    EmptyOk(cfg);
    ExecSnoc(cfg, EMPTY, trace, a);
  }

  /** A run in which that happens to a marked row: it is confirmed after the pass that marked it. */
  lemma ReapedUploadStillDerives(cfg: Config, x: CredentialsInput, actor: int, created: Time, blob: Blob, cutoff: Time)
    requires x.tier == Original && ValidOwnerType(x.ownerType) && created < cutoff
    ensures var place := UploadHead(cfg, x, actor).place;
            var report := ConfirmInput(x.uuid, place.key, blob.etag, |blob.bytes|, None, None);
            var trace := [Request(x, actor, created), Reap(cutoff, cutoff), Upload(place, blob), Confirm(report, cutoff)];
            var w := Reached(cfg, trace);
            && 0 in w.db.rows && w.db.rows[0].reapedAt == Some(cutoff) && w.db.rows[0].state == Confirmed
            && w.log.confirmations == [Confirmation(0, blob.etag, |blob.bytes|, cutoff, true)]
            && Loaded(w.db, 0) == Grouping(Source(0, UploadHead(cfg, x, actor)))
  {
    var place := UploadHead(cfg, x, actor).place;
    var report := ConfirmInput(x.uuid, place.key, blob.etag, |blob.bytes|, None, None);
    var a, b, c, d := Request(x, actor, created), Reap(cutoff, cutoff), Upload(place, blob), Confirm(report, cutoff);
    hide Inv, Grows, OriginalKey, NormalTag, Exec, Reached, DbOk, AdvanceStep, UploadHead, Next;
    assert [] + [a] == [a] && [a] + [b] == [a, b] && [a, b] + [c] == [a, b, c] && [a, b, c] + [d] == [a, b, c, d];
    ReachedByOne(cfg, [], a);
    ReachedByOne(cfg, [a], b);
    ReachedByOne(cfg, [a, b], c);
    ReachedByOne(cfg, [a, b, c], d);
    UploadMarked(cfg, x, actor, created, cutoff);
    UploadConfirmed(cfg, Reached(cfg, [a, b]), x, actor, created, blob, report, cutoff);
  }

  /** The table with one upload, marked by the reaper's first pass. */
  ghost predicate OneMarked(cfg: Config, w: World, x: CredentialsInput, actor: int, created: Time, cutoff: Time) {
    var row := UploadRow(cfg, x, actor, created);
    && w.db.rows == map[0 := row.(reapedAt := Some(cutoff))]
    && w.db.byUuid == map[x.uuid := 0] && w.log.confirmations == []
  }

  lemma UploadMarked(cfg: Config, x: CredentialsInput, actor: int, created: Time, cutoff: Time)
    requires x.tier == Original && ValidOwnerType(x.ownerType) && created < cutoff
    ensures DbOk(EMPTY.db) && DbOk(Next(cfg, EMPTY, Request(x, actor, created)).db)
    ensures OneMarked(cfg, Next(cfg, Next(cfg, EMPTY, Request(x, actor, created)), Reap(cutoff, cutoff)), x, actor, created, cutoff)
  {
    hide OriginalKey;
    EmptyOk(cfg);
    NextKeeps(cfg, EMPTY, Request(x, actor, created));
    hide Inv, Grows, AdvanceStep;
    var w := Next(cfg, EMPTY, Request(x, actor, created));
    assert w.db.rows == map[0 := UploadRow(cfg, x, actor, created)];
  }

  lemma UploadConfirmed(
      cfg: Config, w: World, x: CredentialsInput, actor: int, created: Time, blob: Blob, report: ConfirmInput, now: Time)
    requires Inv(cfg, w) && OneMarked(cfg, w, x, actor, created, now) && x.tier == Original
    requires var place := UploadHead(cfg, x, actor).place;
             report == ConfirmInput(x.uuid, place.key, blob.etag, |blob.bytes|, None, None)
    ensures var w1 := Next(cfg, w, Upload(UploadHead(cfg, x, actor).place, blob));
            && DbOk(w1.db)
            && var w' := Next(cfg, w1, Confirm(report, now));
            && 0 in w'.db.rows && w'.db.rows[0].reapedAt == Some(now) && w'.db.rows[0].state == Confirmed
            && w'.log.confirmations == [Confirmation(0, blob.etag, |blob.bytes|, now, true)]
            && Loaded(w'.db, 0) == Grouping(Source(0, UploadHead(cfg, x, actor)))
  {
    hide Inv, Grows, DbOk, UploadHead, UploadRow, Put, ConfirmOutcomeOf, ConfirmStep, Loaded, AdvanceStep, RequestOutcomeOf, OneMarked;
    InvHasDb(cfg, w);
    var place := UploadHead(cfg, x, actor).place;
    var w1 := Next(cfg, w, Upload(place, blob));
    NextKeeps(cfg, w, Upload(place, blob));
    InvHasDb(cfg, w1);
    PutKeepsMarked(cfg, w, x, actor, created, now, place, blob);
    UploadFits(cfg, w1.db, x, actor, created, now, blob, report);
    VerifiedIffFits(w1.db, 0, report);
    ConfirmedFirst(cfg, w1, x, actor, created, blob, report, now);
  }

  lemma PutKeepsMarked(
      cfg: Config, w: World, x: CredentialsInput, actor: int, created: Time, marked: Time, place: Place, blob: Blob)
    requires OneMarked(cfg, w, x, actor, created, marked)
    ensures var w' := w.(db := Put(w.db, place, blob));
            && OneMarked(cfg, w', x, actor, created, marked) && place in w'.db.objects && w'.db.objects[place] == blob
            && w'.db.rows == map[0 := UploadRow(cfg, x, actor, created).(reapedAt := Some(marked))]
            && w'.db.byUuid == map[x.uuid := 0]
  {
    hide UploadRow;
  }

  lemma InvHasDb(cfg: Config, w: World)
    requires Inv(cfg, w)
    ensures DbOk(w.db)
  {
  }

  /** The one row of such a table fits the report about its object. */
  lemma UploadFits(
      cfg: Config, db: Db, x: CredentialsInput, actor: int, created: Time, marked: Time, blob: Blob, report: ConfirmInput)
    requires x.tier == Original && db.rows == map[0 := UploadRow(cfg, x, actor, created).(reapedAt := Some(marked))]
    requires var place := UploadHead(cfg, x, actor).place;
             && place in db.objects && db.objects[place] == blob
             && report == ConfirmInput(x.uuid, place.key, blob.etag, |blob.bytes|, None, None)
    ensures 0 in db.rows && ReportFits(db, db.rows[0], report) && db.rows[0].state != Confirmed
  {
    hide OriginalKey, NormalTag;
  }

  lemma ConfirmedFirst(
      cfg: Config, w: World, x: CredentialsInput, actor: int, created: Time, blob: Blob, report: ConfirmInput, now: Time)
    requires DbOk(w.db) && OneMarked(cfg, w, x, actor, created, now) && x.tier == Original
    requires ConfirmOutcomeOf(w.db, report) == ConfirmOutcome.Verified && w.db.byUuid[report.uuid] == 0
    requires var place := UploadHead(cfg, x, actor).place;
             && place in w.db.objects && w.db.objects[place] == blob
             && report == ConfirmInput(x.uuid, place.key, blob.etag, |blob.bytes|, None, None)
    ensures var w' := ConfirmStep(w, report, now);
            && 0 in w'.db.rows && w'.db.rows[0].reapedAt == Some(now) && w'.db.rows[0].state == Confirmed
            && w'.log.confirmations == [Confirmation(0, blob.etag, |blob.bytes|, now, true)]
            && Loaded(w'.db, 0) == Grouping(Source(0, UploadHead(cfg, x, actor)))
  {
    hide OriginalKey, NormalTag, DbOk, ConfirmOutcomeOf;
  }
}
