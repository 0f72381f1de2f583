/** Every action of the media machine keeps its invariant and only ever grows the tables. */
module MediaProofs {
  import opened Wrappers
  import opened SyncModel
  import opened MediaKeys
  import opened MediaTable
  import opened MediaMachine

  // --- What growth alone preserves --------------------------------------------------------------

  lemma RowCarries(cfg: Config, w: World, w': World, id: Id)
    requires Grows(w, w') && RowsOk(cfg, w) && id in w.db.rows
    ensures RowOk(cfg, w', id)
  {
    assert RowGrows(w.db.rows[id], w'.db.rows[id]);
    if id in w.log.parents {
      var o := w.log.parents[id];
      assert RowOk(cfg, w, id);
      assert RowGrows(w.db.rows[o], w'.db.rows[o]);
    }
  }

  lemma SourceCarries(w: World, w': World, source: Source)
    requires Grows(w, w') && SourceOk(w, source)
    ensures SourceOk(w', source)
    ensures w.db.rows[source.id].group.Some? ==> w'.db.rows[source.id].group == w.db.rows[source.id].group
  {
    assert RowGrows(w.db.rows[source.id], w'.db.rows[source.id]);
  }

  lemma SiblingsCarry(cfg: Config, w: World, w': World, source: Source, i: nat)
    requires Grows(w, w') && i <= |DERIVE_TIERS| && HasSiblingsBelow(cfg, w, source, i)
    ensures HasSiblingsBelow(cfg, w', source, i)
  {
    forall j | 0 <= j < i
      ensures HasSibling(cfg, w', source, DERIVE_TIERS[j].0)
    {
      assert HasSibling(cfg, w, source, DERIVE_TIERS[j].0);
    }
  }

  lemma RunCarries(cfg: Config, w: World, w': World, p: Run)
    requires Grows(w, w') && RunOk(cfg, w, p)
    ensures RunOk(cfg, w', p)
  {
    match p
    case Grouping(source) => SourceCarries(w, w', source);
    case Getting(source, g) => SourceCarries(w, w', source);
    case Putting(source, g, _, i) =>
      SourceCarries(w, w', source);
      SiblingsCarry(cfg, w, w', source, i);
    case Inserting(source, g, _, i, _) =>
      SourceCarries(w, w', source);
      SiblingsCarry(cfg, w, w', source, i);
    case Completed(source, g) =>
      SourceCarries(w, w', source);
      SiblingsCarry(cfg, w, w', source, |DERIVE_TIERS|);
    case _ =>
  }

  /** Only run r moved. */
  lemma RunsCarry(cfg: Config, w: World, w': World, r: RunId)
    requires Grows(w, w') && RunsOk(cfg, w)
    requires forall q :: q in w'.runs && q != r ==> q in w.runs && w'.runs[q] == w.runs[q]
    requires r in w'.runs ==> RunOk(cfg, w', w'.runs[r])
    ensures RunsOk(cfg, w')
  {
    forall q | q in w'.runs
      ensures RunOk(cfg, w', w'.runs[q])
    {
      if q != r {
        RunCarries(cfg, w, w', w'.runs[q]);
      }
    }
  }

  lemma SameRunsCarry(cfg: Config, w: World, w': World)
    requires Grows(w, w') && RunsOk(cfg, w) && w'.runs == w.runs
    ensures RunsOk(cfg, w')
  {
    forall q | q in w'.runs
      ensures RunOk(cfg, w', w'.runs[q])
    {
      RunCarries(cfg, w, w', w'.runs[q]);
    }
  }

  /** No row but `id` is new. */
  lemma RowsCarry(cfg: Config, w: World, w': World, id: Id)
    requires Grows(w, w') && RowsOk(cfg, w)
    requires w'.db.rows.Keys <= w.db.rows.Keys + {id} && w'.log.parents.Keys <= w'.db.rows.Keys
    requires id in w'.db.rows && id !in w.db.rows ==> RowOk(cfg, w', id)
    ensures RowsOk(cfg, w')
  {
    forall k | k in w'.db.rows
      ensures RowOk(cfg, w', k)
    {
      if k in w.db.rows {
        RowCarries(cfg, w, w', k);
      }
    }
  }

  lemma ConfirmationsCarry(w: World, w': World)
    requires Grows(w, w') && ConfirmationsOk(w) && w'.log.confirmations == w.log.confirmations
    requires forall id :: id in w'.db.rows && id !in w'.log.parents && w'.db.rows[id].state == Confirmed ==>
               id in w.db.rows && w.db.rows[id].state == Confirmed
    ensures ConfirmationsOk(w')
  {
    var cs := w.log.confirmations;
    forall k | 0 <= k < |cs|
      ensures ConfirmationOk(w', cs[k])
    {
      assert ConfirmationOk(w, cs[k]);
      assert RowGrows(w.db.rows[cs[k].id], w'.db.rows[cs[k].id]);
    }
  }

  ghost predicate NoNewMark(w: World, w': World) {
    forall id :: id in w'.db.rows && w'.db.rows[id].reapedAt.Some? ==>
      id in w.db.rows && w.db.rows[id].reapedAt.Some?
  }

  lemma FlagsCarry(w: World, w': World)
    requires Grows(w, w') && FlagsOk(w) && w'.log.flagged == w.log.flagged && NoNewMark(w, w')
    ensures FlagsOk(w')
  {
    var fs := w.log.flagged;
    forall k, id | 0 <= k < |fs| && id in fs[k]
      ensures id in w'.db.rows && w'.db.rows[id].reapedAt.Some?
    {
      assert RowGrows(w.db.rows[id], w'.db.rows[id]);
    }
  }

  /** No newly confirmed upload, no new mark in the history. */
  ghost predicate Quiet(w: World, w': World) {
    && w'.log.confirmations == w.log.confirmations && w'.log.flagged == w.log.flagged && NoNewMark(w, w')
    && forall id :: id in w'.db.rows && id !in w'.log.parents && w'.db.rows[id].state == Confirmed ==>
         id in w.db.rows && w.db.rows[id].state == Confirmed
  }

  lemma ParentsAreRows(cfg: Config, w: World)
    requires RowsOk(cfg, w)
    ensures w.log.parents.Keys <= w.db.rows.Keys
  {
  }

  /** A quiet step that adds at most the row `id` and moves at most the run r. */
  lemma QuietKeeps(cfg: Config, w: World, w': World, id: Id, r: RunId)
    requires Inv(cfg, w) && Grows(w, w') && Quiet(w, w') && DbOk(w'.db)
    requires w'.db.rows.Keys <= w.db.rows.Keys + {id} && w'.log.parents.Keys <= w'.db.rows.Keys
    requires id in w'.db.rows && id !in w.db.rows ==> RowOk(cfg, w', id)
    requires forall q :: q in w'.runs && q != r ==> q in w.runs && w'.runs[q] == w.runs[q]
    requires r in w'.runs ==> RunOk(cfg, w', w'.runs[r])
    ensures Inv(cfg, w')
  {
    hide Grows, DbOk, RowOk, RunOk, ConfirmationsOk, FlagsOk;
    RunsCarry(cfg, w, w', r);
    RowsCarry(cfg, w, w', id);
    ConfirmationsCarry(w, w');
    FlagsCarry(w, w');
  }

  /** A quiet step that neither adds a row nor moves a run. */
  lemma QuietRowsKeep(cfg: Config, w: World, w': World)
    requires Inv(cfg, w) && Grows(w, w') && Quiet(w, w') && DbOk(w'.db)
    requires w'.db.rows.Keys == w.db.rows.Keys && w'.log.parents == w.log.parents && w'.runs == w.runs
    ensures Inv(cfg, w')
  {
    hide Grows, DbOk, RowOk, RunOk, ConfirmationsOk, FlagsOk;
    SameRunsCarry(cfg, w, w');
    RowsCarry(cfg, w, w', w.db.next);
    ConfirmationsCarry(w, w');
    FlagsCarry(w, w');
  }

  // --- How the tables grow ----------------------------------------------------------------------

  lemma GrowsItself(w: World)
    ensures Grows(w, w)
  {
  }

  /** Replacing one row by one that grows it. */
  lemma UpdateGrows(w: World, w': World, id: Id, row: Row)
    requires id in w.db.rows && w'.db == Update(w.db, id, row) && RowGrows(w.db.rows[id], row)
    requires w'.log.parents == w.log.parents
    requires w.log.confirmations <= w'.log.confirmations && w.log.flagged <= w'.log.flagged
    ensures Grows(w, w')
  {
  }

  /** Inserting a row at a free place, as an upload or as a sibling. */
  lemma InsertGrows(w: World, w': World, row: Row)
    requires DbOk(w.db) && row.head.place !in w.db.byPlace && w'.db == Insert(w.db, row)
    requires w'.log.confirmations == w.log.confirmations && w'.log.flagged == w.log.flagged
    requires w.db.next !in w.log.parents
    requires w'.log.parents == w.log.parents
             || (w.db.next in w'.log.parents && w'.log.parents == w.log.parents[w.db.next := w'.log.parents[w.db.next]])
    ensures Grows(w, w')
  {
    hide RowGrows, RowsGrow, UuidIndexOk, PlaceIndexOk;
    RowsGrowByOne(w.db, row);
  }

  lemma RowsGrowByOne(db: Db, row: Row)
    requires DbOk(db)
    ensures RowsGrow(db.rows, Insert(db, row).rows)
  {
    hide UuidIndexOk, PlaceIndexOk;
  }

  lemma PutOk(db: Db, place: Place, blob: Blob)
    requires DbOk(db)
    ensures DbOk(Put(db, place, blob))
  {
  }

  /** A put changes no row. */
  lemma PutGrows(w: World, w': World, place: Place, blob: Blob)
    requires w'.db == Put(w.db, place, blob) && w'.log == w.log
    ensures Grows(w, w')
  {
  }

  // --- Credential requests ----------------------------------------------------------------------

  /** The unique (bucket, key) index never refuses a request whose uuid is new. */
  lemma UploadPlaceIsFree(cfg: Config, w: World, x: CredentialsInput, actor: int)
    requires Inv(cfg, w) && x.uuid !in w.db.byUuid
    ensures UploadHead(cfg, x, actor).place !in w.db.byPlace
  {
    var place := UploadHead(cfg, x, actor).place;
    if place in w.db.byPlace {
      var id := w.db.byPlace[place];
      var head := w.db.rows[id].head;
      assert RowOk(cfg, w, id);
      DeriveKeyOfOriginal(x.ownerType, x.owner, x.uuid, Original);
      if id in w.log.parents {
        var o := w.db.rows[w.log.parents[id]].head;
        assert RowOk(cfg, w, w.log.parents[id]);
        KeysDisjoint(o.ownerType, o.owner, o.uuid, head.tier, x.ownerType, x.owner, x.uuid, Original);
      } else {
        DeriveKeyOfOriginal(head.ownerType, head.owner, head.uuid, Original);
        KeysDisjoint(head.ownerType, head.owner, head.uuid, Original, x.ownerType, x.owner, x.uuid, Original);
      }
      assert false;
    }
  }

  lemma RunOfRuns(cfg: Config, w: World, r: RunId)
    requires RunsOk(cfg, w) && r in w.runs
    ensures RunOk(cfg, w, w.runs[r])
  {
  }

  /** Adding an upload that is not confirmed yet. */
  lemma FreshRowKeeps(cfg: Config, w: World, w': World, row: Row)
    requires w' == w.(db := Insert(w.db, row)) && row.state != Confirmed && row.reapedAt.None?
    requires Inv(cfg, w) && Grows(w, w') && DbOk(w'.db) && RowOk(cfg, w', w.db.next)
    ensures Inv(cfg, w')
  {
    hide RowsOk, RunsOk, RowOk, RunOk, Grows, ConfirmationsOk, FlagsOk, DbOk;
    ParentsAreRows(cfg, w);
    SameRunsCarry(cfg, w, w');
    RowsCarry(cfg, w, w', w.db.next);
    ConfirmationsCarry(w, w');
    FlagsCarry(w, w');
  }

  lemma RequestKeeps(cfg: Config, w: World, x: CredentialsInput, actor: int, now: Time)
    requires Inv(cfg, w)
    ensures var w' := Next(cfg, w, Request(x, actor, now)); Inv(cfg, w') && Grows(w, w')
  {
    hide RowsOk, RunsOk, ConfirmationsOk, FlagsOk, OriginalKey, DbOk, Grows;
    var w' := Next(cfg, w, Request(x, actor, now));
    if RequestOutcomeOf(cfg, w.db, x, actor) == Fresh {
      var row := UploadRow(cfg, x, actor, now);
      NextIsFresh(cfg, w);
      InsertOk(w.db, row);
      InsertGrows(w, w', row);
      FreshRowKeeps(cfg, w, w', row);
    } else {
      GrowsItself(w);
    }
  }

  lemma UploadKeeps(cfg: Config, w: World, place: Place, blob: Blob)
    requires Inv(cfg, w)
    ensures var w' := Next(cfg, w, Upload(place, blob)); Inv(cfg, w') && Grows(w, w')
  {
    hide RowsOk, RunsOk, ConfirmationsOk, FlagsOk, Grows, DbOk;
    var w' := Next(cfg, w, Upload(place, blob));
    PutGrows(w, w', place, blob);
    PutOk(w.db, place, blob);
    QuietRowsKeep(cfg, w, w');
  }

  // --- Confirmations, reaping, deletion ---------------------------------------------------------

  lemma ConfirmKeeps(cfg: Config, w: World, x: ConfirmInput, now: Time)
    requires Inv(cfg, w)
    ensures var w' := Next(cfg, w, Confirm(x, now)); Inv(cfg, w') && Grows(w, w')
  {
    hide RowsOk, RunsOk, ConfirmationsOk, FlagsOk, Grows, ConfirmOutcomeOf, ConfirmStep;
    GrowsItself(w);
    if ConfirmOutcomeOf(w.db, x) == Verified {
      VerifiedConfirmKeeps(cfg, w, x, now);
    }
  }

  lemma VerifiedConfirmKeeps(cfg: Config, w: World, x: ConfirmInput, now: Time)
    requires Inv(cfg, w) && ConfirmOutcomeOf(w.db, x) == Verified
    ensures Inv(cfg, ConfirmStep(w, x, now)) && Grows(w, ConfirmStep(w, x, now))
  {
    ConfirmGrows(cfg, w, x, now);
    ConfirmStepIs(w, x, now);
    ParentsAreRows(cfg, w);
    ConfirmationAdded(cfg, w, x, now);
    hide RowsOk, RunsOk, ConfirmationsOk, FlagsOk, Grows, ConfirmOutcomeOf, DbOk, ConfirmStep, NoNewMark;
    var w' := ConfirmStep(w, x, now);
    RowsCarry(cfg, w, w', w.db.byUuid[x.uuid]);
    SameRunsCarry(cfg, w, w');
    FlagsCarry(w, w');
  }

  lemma ConfirmGrows(cfg: Config, w: World, x: ConfirmInput, now: Time)
    requires DbOk(w.db) && RowsOk(cfg, w) && ConfirmOutcomeOf(w.db, x) == Verified
    ensures Grows(w, ConfirmStep(w, x, now)) && DbOk(ConfirmStep(w, x, now).db)
  {
    hide ConfirmOutcomeOf, RowsOk, DbOk, Grows;
    VerifiedRow(cfg, w, x);
    var w' := ConfirmStep(w, x, now);
    var id := w.db.byUuid[x.uuid];
    UpdateOk(w.db, id, w'.db.rows[id]);
    UpdateGrows(w, w', id, w'.db.rows[id]);
  }

  lemma ConfirmStepIs(w: World, x: ConfirmInput, now: Time)
    requires DbOk(w.db) && ConfirmOutcomeOf(w.db, x) == Verified
    ensures x.uuid in w.db.byUuid
    ensures var w' := ConfirmStep(w, x, now);
            && w'.db.rows.Keys == w.db.rows.Keys && w'.log.parents == w.log.parents && w'.runs == w.runs
            && w'.log.flagged == w.log.flagged && NoNewMark(w, w')
  {
  }

  /** Only an upload that is not confirmed yet, and whose object is stored, is verified. */
  lemma VerifiedRow(cfg: Config, w: World, x: ConfirmInput)
    requires DbOk(w.db) && RowsOk(cfg, w) && ConfirmOutcomeOf(w.db, x) == Verified
    ensures x.uuid in w.db.byUuid
    ensures var id := w.db.byUuid[x.uuid];
            && id in w.db.rows && id !in w.log.parents && w.db.rows[id].head.tier == Original
            && w.db.rows[id].state != Confirmed && w.db.rows[id].head.place in w.db.objects
            && |w.db.objects[w.db.rows[id].head.place].bytes| == x.byteSize
            && w.db.rows[id].head.uuid == x.uuid
  {
    assert RowOk(cfg, w, w.db.byUuid[x.uuid]);
  }

  lemma ConfirmationAdded(cfg: Config, w: World, x: ConfirmInput, now: Time)
    requires Inv(cfg, w) && ConfirmOutcomeOf(w.db, x) == Verified
    requires Grows(w, ConfirmStep(w, x, now))
    ensures ConfirmationsOk(ConfirmStep(w, x, now))
  {
    hide ConfirmOutcomeOf, RowsOk, RunsOk, FlagsOk, DbOk, Grows, ConfirmationsOk;
    VerifiedRow(cfg, w, x);
    var w' := ConfirmStep(w, x, now);
    var c := w'.log.confirmations[|w.log.confirmations|];
    assert ConfirmationOk(w', c);
    OneMoreConfirmation(w, w', c);
  }

  lemma OneMoreConfirmation(w: World, w': World, c: Confirmation)
    requires ConfirmationsOk(w) && Grows(w, w') && w'.log.confirmations == w.log.confirmations + [c]
    requires c.id in w.db.rows && w.db.rows[c.id].state != Confirmed && ConfirmationOk(w', c)
    requires w'.log.parents == w.log.parents && w'.db.rows == w.db.rows[c.id := w'.db.rows[c.id]]
    ensures ConfirmationsOk(w')
  {
    hide Grows, ConfirmationOk;
    OldConfirmations(w, w', c);
    var cs, cs' := w.log.confirmations, w'.log.confirmations;
    forall k | k in w'.db.rows && k !in w'.log.parents && w'.db.rows[k].state == Confirmed
      ensures exists i :: 0 <= i < |cs'| && cs'[i].id == k
    {
      if k == c.id {
        assert cs'[|cs|].id == c.id;
      } else {
        var i :| 0 <= i < |cs| && cs[i].id == k;
        assert cs'[i].id == k;
      }
    }
  }

  lemma OldConfirmations(w: World, w': World, c: Confirmation)
    requires ConfirmationsOk(w) && Grows(w, w') && w'.log.confirmations == w.log.confirmations + [c]
    requires c.id in w.db.rows && w.db.rows[c.id].state != Confirmed && ConfirmationOk(w', c)
    requires w'.log.parents == w.log.parents
    ensures var cs, cs' := w.log.confirmations, w'.log.confirmations;
            && (forall k :: 0 <= k < |cs'| ==> ConfirmationOk(w', cs'[k]))
            && (forall k :: 0 <= k < |cs| ==> cs'[k] == cs[k] && cs[k].id != c.id)
  {
    var cs, cs' := w.log.confirmations, w'.log.confirmations;
    forall k | 0 <= k < |cs|
      ensures ConfirmationOk(w', cs[k]) && cs[k].id != c.id
    {
      assert ConfirmationOk(w, cs[k]);
    }
  }

  lemma SameHeadsOk(db: Db, db': Db)
    requires DbOk(db) && db' == db.(rows := db'.rows) && db'.rows.Keys == db.rows.Keys
    requires forall id :: id in db.rows ==> db'.rows[id].head == db.rows[id].head
    ensures DbOk(db')
  {
  }

  lemma ReapedGrows(db: Db, cutoff: Time, now: Time)
    requires DbOk(db)
    ensures DbOk(Reaped(db, cutoff, now)) && RowsGrow(db.rows, Reaped(db, cutoff, now).rows)
    ensures forall id :: id in StaleIds(db, cutoff) ==>
              && id in db.rows && id in Reaped(db, cutoff, now).rows
              && db.rows[id].reapedAt.None? && Reaped(db, cutoff, now).rows[id].reapedAt.Some?
    ensures Reaped(db, cutoff, now).rows.Keys == db.rows.Keys
    ensures forall id :: id in db.rows ==> Reaped(db, cutoff, now).rows[id].state == db.rows[id].state
    ensures forall id :: id in db.rows && id !in StaleIds(db, cutoff) ==>
              Reaped(db, cutoff, now).rows[id] == db.rows[id]
  {
    var db' := Reaped(db, cutoff, now);
    assert db'.rows.Keys == db.rows.Keys;
    forall id | id in db.rows
      ensures RowGrows(db.rows[id], db'.rows[id]) && db'.rows[id].state == db.rows[id].state
      ensures id in StaleIds(db, cutoff) ==> db.rows[id].reapedAt.None? && db'.rows[id].reapedAt.Some?
    {
    }
    assert DbOk(db') by {
      SameHeadsOk(db, db');
    }
  }

  lemma OneMoreFlagging(w: World, w': World, stale: set<Id>)
    requires forall id :: id in w'.db.rows && w'.db.rows[id].reapedAt.Some? && id !in stale ==>
               id in w.db.rows && w.db.rows[id].reapedAt.Some?
    requires FlagsOk(w) && RowsGrow(w.db.rows, w'.db.rows) && w'.log.flagged == w.log.flagged + [stale]
    requires forall id :: id in stale ==>
               id in w.db.rows && w.db.rows[id].reapedAt.None? && w'.db.rows[id].reapedAt.Some?
    ensures FlagsOk(w')
  {
    var fs := w'.log.flagged;
    forall k, id | 0 <= k < |fs| && id in fs[k]
      ensures id in w'.db.rows && w'.db.rows[id].reapedAt.Some?
      ensures k < |w.log.flagged| ==> id !in stale
    {
      if k < |w.log.flagged| {
        assert id in w.log.flagged[k];
        assert RowGrows(w.db.rows[id], w'.db.rows[id]);
      }
    }
    forall id | id in w'.db.rows && w'.db.rows[id].reapedAt.Some?
      ensures exists k :: 0 <= k < |fs| && id in fs[k]
    {
      if id in stale {
        assert id in fs[|w.log.flagged|];
      } else {
        var k :| 0 <= k < |w.log.flagged| && id in w.log.flagged[k];
        assert id in fs[k];
      }
    }
  }

  lemma ReapKeeps(cfg: Config, w: World, cutoff: Time, now: Time)
    requires Inv(cfg, w)
    ensures var w' := Next(cfg, w, Reap(cutoff, now)); Inv(cfg, w') && Grows(w, w')
  {
    hide RowsOk, RunsOk, ConfirmationsOk, FlagsOk, DbOk, RowGrows;
    var w' := Next(cfg, w, Reap(cutoff, now));
    ReapedGrows(w.db, cutoff, now);
    OneMoreFlagging(w, w', StaleIds(w.db, cutoff));
    assert Grows(w, w');
    ParentsAreRows(cfg, w);
    hide Grows, RowsGrow;
    RowsCarry(cfg, w, w', w.db.next);
    SameRunsCarry(cfg, w, w');
    ConfirmationsCarry(w, w');
  }

  lemma SoftDeleteKeeps(cfg: Config, w: World, id: Id)
    requires Inv(cfg, w)
    ensures var w' := Next(cfg, w, SoftDelete(id)); Inv(cfg, w') && Grows(w, w')
  {
    hide RowsOk, RunsOk, ConfirmationsOk, FlagsOk, DbOk, Grows;
    var w' := Next(cfg, w, SoftDelete(id));
    if id in w.db.rows {
      var row := w.db.rows[id].(deleted := true);
      UpdateOk(w.db, id, row);
      UpdateGrows(w, w', id, row);
      QuietRowsKeep(cfg, w, w');
    } else {
      GrowsItself(w);
    }
  }

  // --- Derive runs ------------------------------------------------------------------------------

  /** A step that moves one run and touches no table. */
  lemma MoveKeeps(cfg: Config, w: World, r: RunId, p: Run)
    requires Inv(cfg, w) && RunOk(cfg, w, p)
    ensures var w' := w.(runs := w.runs[r := p]); Inv(cfg, w') && Grows(w, w')
  {
    hide RowsOk, RunsOk, RunOk, ConfirmationsOk, FlagsOk, RowsGrow;
    var w' := w.(runs := w.runs[r := p]);
    GrowsItself(w);
    assert Grows(w, w');
    hide Grows, DbOk;
    RunCarries(cfg, w, w', p);
    ParentsAreRows(cfg, w);
    QuietKeeps(cfg, w, w', w.db.next, r);
  }

  lemma LoadedOk(cfg: Config, w: World, id: Id)
    requires Inv(cfg, w)
    ensures RunOk(cfg, w, Loaded(w.db, id))
  {
    if Derivable(w.db, id) {
      assert RowOk(cfg, w, id);
    }
  }

  /** The group is fixed once: whichever run gets here first decides, all others adopt. */
  lemma GroupKeeps(cfg: Config, w: World, r: RunId, source: Source, draw: Draw)
    requires Inv(cfg, w) && SourceOk(w, source)
    ensures var w' := AdvanceStep(cfg, w, r, Grouping(source), draw); Inv(cfg, w') && Grows(w, w')
  {
    hide RowsOk, RunsOk, ConfirmationsOk, FlagsOk, DbOk, Grows;
    var w', id := AdvanceStep(cfg, w, r, Grouping(source), draw), source.id;
    assert id in w.db.rows;
    var row := w.db.rows[id].(group := Some(EffectiveGroup(w.db, id, draw.uuid)));
    UpdateOk(w.db, id, row);
    UpdateGrows(w, w', id, row);
    SourceCarries(w, w', source);
    ParentsAreRows(cfg, w);
    QuietKeeps(cfg, w, w', id, r);
  }

  lemma PutKeeps(cfg: Config, w: World, r: RunId, source: Source, g: Uuid, bytes: Bytes, i: nat)
    requires Inv(cfg, w) && RunOk(cfg, w, Putting(source, g, bytes, i))
    ensures var w' := PutStep(cfg, w, r, source, g, bytes, i); Inv(cfg, w') && Grows(w, w')
  {
    hide RowsOk, RunsOk, ConfirmationsOk, FlagsOk, DbOk, Grows, HasSibling, SiblingPlace;
    var w' := PutStep(cfg, w, r, source, g, bytes, i);
    var place := SiblingPlace(cfg, source.head, DERIVE_TIERS[i].0);
    var file := cfg.resize(bytes, DERIVE_TIERS[i].1, source.head.contentType);
    var blob := Blob(file.0, cfg.etagOf(file.0));
    assert w'.db == Put(w.db, place, blob) && w'.runs == w.runs[r := Inserting(source, g, bytes, i, file)];
    assert place in w'.db.objects;
    PutGrows(w, w', place, blob);
    PutOk(w.db, place, blob);
    RunCarries(cfg, w, w', Putting(source, g, bytes, i));
    ParentsAreRows(cfg, w);
    QuietKeeps(cfg, w, w', w.db.next, r);
  }

  /** A row already at the derived place is this original's sibling: keys of other uploads and of
      other tiers never fall there. */
  lemma RowAtDerivedPlace(cfg: Config, w: World, source: Source, tier: Tier)
    requires Inv(cfg, w) && SourceOk(w, source) && Derived(tier)
    requires SiblingPlace(cfg, source.head, tier) in w.db.byPlace
    ensures HasSibling(cfg, w, source, tier)
  {
    var id := w.db.byPlace[SiblingPlace(cfg, source.head, tier)];
    var head, s := w.db.rows[id].head, source.head;
    assert RowOk(cfg, w, source.id);
    assert RowOk(cfg, w, id);
    if id in w.log.parents {
      var o := w.db.rows[w.log.parents[id]].head;
      assert RowOk(cfg, w, w.log.parents[id]);
      KeysDisjoint(o.ownerType, o.owner, o.uuid, head.tier, s.ownerType, s.owner, s.uuid, tier);
      assert w.db.byUuid[o.uuid] == w.log.parents[id];
    } else {
      DeriveKeyOfOriginal(head.ownerType, head.owner, head.uuid, Original);
      KeysDisjoint(head.ownerType, head.owner, head.uuid, Original, s.ownerType, s.owner, s.uuid, tier);
      assert false;
    }
  }

  lemma NextIsFresh(cfg: Config, w: World)
    requires DbOk(w.db) && RowsOk(cfg, w)
    ensures w.db.next !in w.db.rows && w.db.next !in w.log.parents
  {
  }

  lemma InsertedSibling(cfg: Config, w: World, source: Source, tier: Tier, id: Id)
    requires var place := SiblingPlace(cfg, source.head, tier);
             place in w.db.byPlace && w.db.byPlace[place] == id && id in w.log.parents && w.log.parents[id] == source.id
    ensures HasSibling(cfg, w, source, tier)
  {
  }

  lemma SiblingAdded(
      cfg: Config, w: World, r: RunId, source: Source, g: Uuid, bytes: Bytes, i: nat, file: (Bytes, string), draw: Draw)
    requires Inv(cfg, w) && RunOk(cfg, w, Inserting(source, g, bytes, i, file))
    requires SiblingPlace(cfg, source.head, DERIVE_TIERS[i].0) !in w.db.byPlace && draw.uuid !in w.db.byUuid
    ensures var w' := InsertStep(cfg, w, r, source, g, bytes, i, file, draw); Inv(cfg, w') && Grows(w, w')
  {
    hide OriginalKey, DeriveKey, RowsOk, RunsOk, ConfirmationsOk, FlagsOk, HasSibling, SiblingPlace, Grows, DbOk;
    var w', id := InsertStep(cfg, w, r, source, g, bytes, i, file, draw), w.db.next;
    var tier := DERIVE_TIERS[i].0;
    var head := SiblingHead(cfg, source.head, tier, draw.uuid, file.1);
    var row := SiblingRow(head, g, |file.0|, draw.now);
    NextIsFresh(cfg, w);
    assert head.place == SiblingPlace(cfg, source.head, tier);
    assert w' == World(Insert(w.db, row), w.runs[r := AfterTier(source, g, bytes, i)],
                       w.log.(parents := w.log.parents[id := source.id]));
    InsertOk(w.db, row);
    InsertGrows(w, w', row);
    assert w'.db.rows[source.id] == w.db.rows[source.id];
    assert IsSibling(cfg, w'.db, row, w'.db.rows[source.id]);
    assert RowOk(cfg, w', id);
    SourceCarries(w, w', source);
    SiblingsCarry(cfg, w, w', source, i);
    assert HasSibling(cfg, w', source, tier) by {
      assert w'.db.byPlace[head.place] == id;
      InsertedSibling(cfg, w', source, tier, id);
    }
    TierDone(cfg, w', source, g, bytes, i);
    ParentsAreRows(cfg, w);
    hide RowOk, RunOk;
    QuietKeeps(cfg, w, w', id, r);
  }

  lemma TierAlreadyDone(cfg: Config, w: World, source: Source, g: Uuid, bytes: Bytes, i: nat)
    requires i < |DERIVE_TIERS| && GroupIs(w, source, g) && HasSiblingsBelow(cfg, w, source, i) && Inv(cfg, w)
    requires SiblingPlace(cfg, source.head, DERIVE_TIERS[i].0) in w.db.byPlace
    ensures RunOk(cfg, w, AfterTier(source, g, bytes, i))
  {
    hide Inv, HasSibling, SiblingPlace, HasSiblingsBelow, AfterTier, RunOk;
    RowAtDerivedPlace(cfg, w, source, DERIVE_TIERS[i].0);
    TierDone(cfg, w, source, g, bytes, i);
  }

  lemma FailedOk(cfg: Config, w: World)
    ensures RunOk(cfg, w, Failed)
  {
  }

  lemma InsertStepSuppressed(
      cfg: Config, w: World, r: RunId, source: Source, g: Uuid, bytes: Bytes, i: nat, file: (Bytes, string), draw: Draw)
    requires i < |DERIVE_TIERS|
    ensures var place := SiblingPlace(cfg, source.head, DERIVE_TIERS[i].0);
            var w' := InsertStep(cfg, w, r, source, g, bytes, i, file, draw);
            && (place in w.db.byPlace ==> w' == w.(runs := w.runs[r := AfterTier(source, g, bytes, i)]))
            && (place !in w.db.byPlace && draw.uuid in w.db.byUuid ==> w' == w.(runs := w.runs[r := Failed]))
  {
  }

  lemma InsertSuppressed(
      cfg: Config, w: World, r: RunId, source: Source, g: Uuid, bytes: Bytes, i: nat, file: (Bytes, string), draw: Draw)
    requires i < |DERIVE_TIERS| && GroupIs(w, source, g) && HasSiblingsBelow(cfg, w, source, i) && Inv(cfg, w)
    requires SiblingPlace(cfg, source.head, DERIVE_TIERS[i].0) in w.db.byPlace || draw.uuid in w.db.byUuid
    ensures var w' := InsertStep(cfg, w, r, source, g, bytes, i, file, draw); Inv(cfg, w') && Grows(w, w')
  {
    hide Inv, SourceOk, GroupIs, HasSiblingsBelow, Grows, HasSibling, SiblingPlace, InsertStep, AfterTier, RunOk;
    var tier := DERIVE_TIERS[i].0;
    InsertStepSuppressed(cfg, w, r, source, g, bytes, i, file, draw);
    if SiblingPlace(cfg, source.head, tier) in w.db.byPlace {
      TierAlreadyDone(cfg, w, source, g, bytes, i);
      MoveKeeps(cfg, w, r, AfterTier(source, g, bytes, i));
    } else {
      FailedOk(cfg, w);
      MoveKeeps(cfg, w, r, Failed);
    }
  }

  /** The insert leaves the tier's sibling there, whether it or another run made it. */
  lemma InsertKeeps(
      cfg: Config, w: World, r: RunId, source: Source, g: Uuid, bytes: Bytes, i: nat, file: (Bytes, string), draw: Draw)
    requires Inv(cfg, w) && RunOk(cfg, w, Inserting(source, g, bytes, i, file))
    ensures var w' := InsertStep(cfg, w, r, source, g, bytes, i, file, draw); Inv(cfg, w') && Grows(w, w')
  {
    hide RowsOk, RunsOk, ConfirmationsOk, FlagsOk, DbOk, Grows, InsertStep;
    var place := SiblingPlace(cfg, source.head, DERIVE_TIERS[i].0);
    if place !in w.db.byPlace && draw.uuid !in w.db.byUuid {
      SiblingAdded(cfg, w, r, source, g, bytes, i, file, draw);
    } else {
      InsertSuppressed(cfg, w, r, source, g, bytes, i, file, draw);
    }
  }

  lemma TierDone(cfg: Config, w: World, source: Source, g: Uuid, bytes: Bytes, i: nat)
    requires GroupIs(w, source, g) && i < |DERIVE_TIERS| && HasSiblingsBelow(cfg, w, source, i)
    requires HasSibling(cfg, w, source, DERIVE_TIERS[i].0)
    ensures RunOk(cfg, w, AfterTier(source, g, bytes, i))
  {
  }

  lemma LoadKeeps(cfg: Config, w: World, r: RunId, id: Id, draw: Draw)
    requires Inv(cfg, w)
    ensures var w' := AdvanceStep(cfg, w, r, Loading(id), draw); Inv(cfg, w') && Grows(w, w')
  {
    LoadedOk(cfg, w, id);
    hide Inv, RunOk, Grows, Loaded;
    MoveKeeps(cfg, w, r, Loaded(w.db, id));
  }

  lemma GetKeeps(cfg: Config, w: World, r: RunId, source: Source, g: Uuid, draw: Draw)
    requires Inv(cfg, w) && GroupIs(w, source, g)
    ensures var w' := AdvanceStep(cfg, w, r, Getting(source, g), draw); Inv(cfg, w') && Grows(w, w')
  {
    hide RowsOk, RunsOk, ConfirmationsOk, FlagsOk, Grows, DbOk, SourceOk;
    if source.head.place in w.db.objects {
      MoveKeeps(cfg, w, r, Putting(source, g, w.db.objects[source.head.place].bytes, 0));
    } else {
      MoveKeeps(cfg, w, r, Failed);
    }
  }

  lemma AdvanceKeeps(cfg: Config, w: World, r: RunId, draw: Draw)
    requires Inv(cfg, w) && r in w.runs
    ensures var w' := AdvanceStep(cfg, w, r, w.runs[r], draw); Inv(cfg, w') && Grows(w, w')
  {
    var p := w.runs[r];
    RunOfRuns(cfg, w, r);
    GrowsItself(w);
    hide RowsOk, RunsOk, ConfirmationsOk, FlagsOk, Grows, DbOk, SourceOk, GroupIs, HasSiblingsBelow, SiblingPlace;
    match p
    case Loading(id) => LoadKeeps(cfg, w, r, id, draw);
    case Grouping(source) => GroupKeeps(cfg, w, r, source, draw);
    case Getting(source, g) => GetKeeps(cfg, w, r, source, g, draw);
    case Putting(source, g, bytes, i) => PutKeeps(cfg, w, r, source, g, bytes, i);
    case Inserting(source, g, bytes, i, file) => InsertKeeps(cfg, w, r, source, g, bytes, i, file, draw);
    case _ =>
  }

  /** One step of anyone keeps the invariant and only grows the tables. */
  lemma NextKeeps(cfg: Config, w: World, a: Action)
    requires Inv(cfg, w)
    ensures Inv(cfg, Next(cfg, w, a)) && Grows(w, Next(cfg, w, a))
  {
    GrowsItself(w);
    hide RowsOk, RunsOk, ConfirmationsOk, FlagsOk, DbOk, Grows, ConfirmOutcomeOf, ConfirmStep, AdvanceStep, Reaped;
    match a
    case Request(x, actor, now) => RequestKeeps(cfg, w, x, actor, now);
    case Upload(place, blob) => UploadKeeps(cfg, w, place, blob);
    case Confirm(x, now) => ConfirmKeeps(cfg, w, x, now);
    case Reap(cutoff, now) => ReapKeeps(cfg, w, cutoff, now);
    case SoftDelete(id) => SoftDeleteKeeps(cfg, w, id);
    case Start(r, id) =>
      if r !in w.runs {
        MoveKeeps(cfg, w, r, Loading(id));
      }
    case Advance(r, draw) =>
      if r in w.runs {
        AdvanceKeeps(cfg, w, r, draw);
      }
    case Fail(r) =>
      if r in w.runs {
        MoveKeeps(cfg, w, r, Failed);
      }
  }
}
