/** The media service, its derive worker and its reaper as they run, each call proved to be the
    corresponding steps of the media machine. */
module MediaService {
  import opened Wrappers
  import opened SyncModel
  import opened Decimals
  import opened MediaKeys
  import opened MediaTable
  import opened MediaMachine
  import opened MediaProofs
  import opened MediaRuns
  import opened MediaFiles

  datatype MediaError = NotFound | TierNotOriginal | InvalidOwnerType | VerificationFailed

  datatype Outcome = Done | SkipRetry | Retry

  /** The numbers of the statements for the two tiers: an upload and an insert each. */
  const TIER_STATEMENTS: seq<nat> := [3, 4, 5, 6]

  datatype Turn = Turn(others: seq<Action>, fails: bool, draw: Draw)

  /** The action is a step of that run. */
  predicate Moves(a: Action, run: RunId) {
    (a.Start? || a.Advance? || a.Fail?) && a.run == run
  }

  /** The steps of a trace that are not the run's. */
  ghost function OthersOf(trace: seq<Action>, run: RunId): seq<Action> {
    if trace == [] then []
    else OthersOf(trace[..|trace| - 1], run) + if Moves(trace[|trace| - 1], run) then [] else [trace[|trace| - 1]]
  }

  /** What others do before the statements with these numbers. */
  ghost function TurnsOf(env: nat -> Turn, gaps: seq<nat>): seq<Action> {
    if gaps == [] then [] else TurnsOf(env, gaps[..|gaps| - 1]) + env(gaps[|gaps| - 1]).others
  }

  /** The trace leads from `start` to w, and besides the run's own steps it holds exactly what the
      schedule puts before the statements `gaps`. */
  ghost predicate Follows(
      cfg: Config, start: World, w: World, trace: seq<Action>, run: RunId, env: nat -> Turn, gaps: seq<nat>)
  {
    Inv(cfg, start) && w == Exec(cfg, start, trace) && OthersOf(trace, run) == TurnsOf(env, gaps)
  }

  lemma OwnStep(
      cfg: Config, start: World, w: World, trace: seq<Action>, run: RunId, env: nat -> Turn, gaps: seq<nat>, a: Action)
    requires Follows(cfg, start, w, trace, run, env, gaps) && Moves(a, run)
    ensures DbOk(w.db) && Follows(cfg, start, Next(cfg, w, a), trace + [a], run, env, gaps)
  {
    hide Inv, Grows, Next, Moves;
    DbIsOk(cfg, w);
    ExecSnoc(cfg, start, trace, a);
    assert (trace + [a])[..|trace|] == trace;
  }

  lemma {:induction false} OthersAppend(trace: seq<Action>, others: seq<Action>, run: RunId)
    requires forall k :: 0 <= k < |others| ==> !Moves(others[k], run)
    ensures OthersOf(trace + others, run) == OthersOf(trace, run) + others
  {
    if others == [] {
      assert trace + others == trace;
    } else {
      var front := others[..|others| - 1];
      assert (trace + others)[..|trace + others| - 1] == trace + front;
      OthersAppend(trace, front, run);
    }
  }

  lemma GapTaken(
      cfg: Config, start: World, w: World, trace: seq<Action>, run: RunId, env: nat -> Turn, gaps: seq<nat>, k: nat)
    requires Follows(cfg, start, w, trace, run, env, gaps) && Inv(cfg, w)
    requires forall i :: 0 <= i < |env(k).others| ==> !Moves(env(k).others[i], run)
    ensures Follows(cfg, start, Exec(cfg, w, env(k).others), trace + env(k).others, run, env, gaps + [k])
  {
    hide Inv, Grows, Exec, Moves;
    ExecConcat(cfg, start, trace, env(k).others);
    OthersAppend(trace, env(k).others, run);
    assert (gaps + [k])[..|gaps|] == gaps;
  }

  lemma FirstStep(cfg: Config, start: World, run: RunId, id: Id, env: nat -> Turn)
    requires Inv(cfg, start)
    ensures DbOk(start.db) && Follows(cfg, start, Next(cfg, start, Start(run, id)), [Start(run, id)], run, env, [])
  {
    hide Inv, Grows, Next;
    DbIsOk(cfg, start);
    ExecSnoc(cfg, start, [], Start(run, id));
    var a := Start(run, id);
    assert [] + [a] == [a] && [a][..0] == [] && Moves(a, run);
    assert OthersOf([a], run) == OthersOf([], run) + [];
    assert Exec(cfg, start, []) == start;
  }

  lemma OthersDoNotMove(cfg: Config, w: World, a: Action, run: RunId)
    requires DbOk(w.db) && run in w.runs && !Moves(a, run)
    ensures run in Next(cfg, w, a).runs && Next(cfg, w, a).runs[run] == w.runs[run]
  {
    hide UploadRow, RequestOutcomeOf, ConfirmOutcomeOf, Reaped, Insert, Update, Put, EffectiveGroup, Loaded, SiblingHead, SiblingRow;
  }

  lemma DbIsOk(cfg: Config, w: World)
    requires Inv(cfg, w)
    ensures DbOk(w.db)
  {
  }

  lemma NextIdIsFree(cfg: Config, w: World)
    requires Inv(cfg, w)
    ensures w.db.next !in w.db.rows
  {
  }

  lemma KnownRow(db: Db, u: Uuid)
    requires DbOk(db)
    ensures u in db.byUuid ==> db.byUuid[u] in db.rows && db.rows[db.byUuid[u]].head.uuid == u
  {
  }

  /** What gets verified is always an upload: derived rows are confirmed from the start. */
  lemma VerifiedIsUpload(cfg: Config, w: World, x: ConfirmInput)
    requires Inv(cfg, w) && DbOk(w.db) && ConfirmOutcomeOf(w.db, x) == Verified
    ensures x.uuid in w.db.byUuid && w.db.byUuid[x.uuid] in w.db.rows
    ensures w.db.rows[w.db.byUuid[x.uuid]].head.tier == Original
  {
    VerifiedRow(cfg, w, x);
  }

  /** Rows are never removed, so the original a run works on is still there. */
  lemma SourceIsThere(cfg: Config, w: World, run: RunId)
    requires Inv(cfg, w) && run in w.runs && w.runs[run].Grouping?
    ensures w.runs[run].source.id in w.db.rows
  {
    RunOfRuns(cfg, w, run);
  }

  lemma StartRun(cfg: Config, w: World, run: RunId, id: Id)
    requires Inv(cfg, w) && run !in w.runs
    ensures var w' := w.(runs := w.runs[run := Loading(id)]);
            DbOk(w.db) && Inv(cfg, w') && w' == Next(cfg, w, Start(run, id))
  {
    hide Inv, DbOk, Grows;
    DbIsOk(cfg, w);
    NextKeeps(cfg, w, Start(run, id));
  }

  // --- The rows calls leave behind --------------------------------------------------------------

  /** The row of a new upload, column by column. */
  ghost predicate IsNewUpload(cfg: Config, x: CredentialsInput, actor: int, now: Time, row: Row) {
    && row.head.uuid == x.uuid && row.head.ownerType == x.ownerType && row.head.owner == x.owner
    && row.head.tier == Original && row.head.region == cfg.region && row.head.createdBy == actor
    && row.head.place.bucket == cfg.original
    && row.head.place.key == "media/" + OwnerText(x.ownerType) + "/" + Decimal(x.owner) + "/" + UuidText(x.uuid) + "/original.jpg"
    && row.head.contentType == (if x.contentType == "" then "image/jpeg" else x.contentType)
    && row.content.byteSize == (if x.byteSize > 0 then Some(x.byteSize) else None)
    && row.content.width.None? && row.content.height.None? && row.content.etag.None?
    && row.state == Uploading && row.verifiedAt.None? && row.group.None? && row.createdAt == now
    && row.reapedAt.None? && !row.deleted
  }

  /** The report is about a live row that is not confirmed, and fits it and what is stored for it. */
  ghost predicate Fits(db: Db, x: ConfirmInput) {
    && x.uuid in db.byUuid && db.byUuid[x.uuid] in db.rows
    && var row := db.rows[db.byUuid[x.uuid]];
    && !row.deleted && row.state != Confirmed && !row.state.UnknownState?
    && (x.key == "" || x.key == row.head.place.key)
    && row.head.place in db.objects
    && |db.objects[row.head.place].bytes| == x.byteSize
    && NormalTag(db.objects[row.head.place].etag) == NormalTag(x.etag)
  }

  /** That row confirmed, and every other row as before. */
  ghost predicate ConfirmedAs(db: Db, db': Db, x: ConfirmInput, now: Time) {
    && Fits(db, x) && db'.rows.Keys == db.rows.Keys && db'.objects == db.objects
    && var id := db.byUuid[x.uuid];
    && (forall k :: k in db.rows && k != id ==> db'.rows[k] == db.rows[k])
    && var was, row := db.rows[id], db'.rows[id];
    && row.state == Confirmed && row.verifiedAt == Some(now)
    && row.content.byteSize == Some(x.byteSize) && row.content.etag == Some(db.objects[was.head.place].etag)
    && row.content.width == (if x.width.Some? then x.width else was.content.width)
    && row.content.height == (if x.height.Some? then x.height else was.content.height)
    && row.head == was.head && row.group == was.group && row.createdAt == was.createdAt
    && row.reapedAt == was.reapedAt && row.deleted == was.deleted
  }

  /** The row of a derived file but for its tier and place, which `MediaFiles` gives. */
  ghost predicate IsNewSibling(source: Source, group: Uuid, file: (Bytes, string), draw: Draw, row: Row) {
    && row.head.uuid == draw.uuid && row.head.ownerType == source.head.ownerType && row.head.owner == source.head.owner
    && row.head.region == source.head.region && row.head.createdBy == source.head.createdBy
    && row.head.contentType == file.1 && row.content.byteSize == Some(|file.0|)
    && row.content.width.None? && row.content.height.None? && row.content.etag.None?
    && row.state == Confirmed && row.verifiedAt == Some(draw.now) && row.group == Some(group)
    && row.createdAt == draw.now && row.reapedAt.None? && !row.deleted
  }

  lemma NewUploadIs(cfg: Config, x: CredentialsInput, actor: int, now: Time)
    requires x.tier == Original
    ensures IsNewUpload(cfg, x, actor, now, UploadRow(cfg, x, actor, now))
    ensures PrefixOf(UploadRow(cfg, x, actor, now).head.place.key)
         == "media/" + OwnerText(x.ownerType) + "/" + Decimal(x.owner) + "/" + UuidText(x.uuid) + "/"
  {
    var dir := UploadDir(x.ownerType, x.owner, x.uuid);
    hide LastSlash;
    LastSlashOf(dir, "original.jpg");
    assert dir + "/original.jpg" == dir + "/" + "original.jpg";
    assert (dir + "/" + "original.jpg")[..|dir| + 1] == dir + "/";
  }

  class MediaPool {
    const cfg: Config
    var world: World

    constructor (cfg: Config)
      ensures this.cfg == cfg && world == EMPTY && Inv(cfg, world)
    {
      this.cfg := cfg;
      world := EMPTY;
      EmptyOk(cfg);
    }

    // --- Service --------------------------------------------------------------------------------

    /** Step 1 of an upload: the key to upload to and the prefix the credentials cover. A replayed
        request gets the key of the first one. */
    method IssueUploadCredentials(x: CredentialsInput, actor: int, now: Time)
      returns (r: Result<(string, string), MediaError>)
      requires Inv(cfg, world)
      modifies this`world
      ensures Inv(cfg, world) && world == Next(cfg, old(world), Request(x, actor, now))
      ensures r == Failure(TierNotOriginal) <==> x.tier != Original
      ensures r == Failure(InvalidOwnerType) <==> x.tier == Original && x.ownerType.UnknownOwner?
      ensures r == Failure(NotFound) <==>
                && x.tier == Original && !x.ownerType.UnknownOwner? && x.uuid in old(world.db.byUuid)
                && old(world.db.rows[world.db.byUuid[x.uuid]].deleted)
      ensures r.Success? ==>
                && x.uuid in world.db.byUuid && world.db.byUuid[x.uuid] in world.db.rows
                && r.value.0 == world.db.rows[world.db.byUuid[x.uuid]].head.place.key
                && r.value.1 == PrefixOf(r.value.0)
      ensures x.uuid in old(world.db.byUuid) || r.Failure? ==> world == old(world)
      ensures r.Success? && x.uuid !in old(world.db.byUuid) ==>
                && IsNewUpload(cfg, x, actor, now, world.db.rows[world.db.byUuid[x.uuid]])
                && world.db.rows == old(world.db.rows)[world.db.byUuid[x.uuid] := world.db.rows[world.db.byUuid[x.uuid]]]
                && world.db.byUuid[x.uuid] !in old(world.db.rows)
                && r.value.1 == "media/" + OwnerText(x.ownerType) + "/" + Decimal(x.owner) + "/" + UuidText(x.uuid) + "/"
    {
      hide Inv, DbOk, Grows, OriginalKey, PrefixOf, IsNewUpload;
      if x.tier == Original {
        NewUploadIs(cfg, x, actor, now);
      }
      NextIdIsFree(cfg, world);
      DbIsOk(cfg, world);
      NextKeeps(cfg, world, Request(x, actor, now));
      KnownRow(world.db, x.uuid);
      if x.tier != Original {
        return Failure(TierNotOriginal);
      }
      if !ValidOwnerType(x.ownerType) {
        return Failure(InvalidOwnerType);
      }
      var db, row := world.db, UploadRow(cfg, x, actor, now);
      var key := row.head.place.key;
      if x.uuid !in db.byUuid {
        UploadPlaceIsFree(cfg, world, x, actor);
        world := world.(db := db.(
          rows := db.rows[db.next := row], byUuid := db.byUuid[x.uuid := db.next],
          byPlace := db.byPlace[row.head.place := db.next], next := db.next + 1));
      } else {
        var existing := db.rows[db.byUuid[x.uuid]];
        if existing.deleted {
          return Failure(NotFound);
        }
        key := existing.head.place.key;
      }
      r := Success((key, PrefixOf(key)));
    }

    /** Step 3: the row becomes confirmed only when the stored object matches the report. The flag
        asks for a derive run; a second confirmation succeeds without asking again. */
    method ConfirmUpload(x: ConfirmInput, now: Time) returns (r: Result<(Row, bool), MediaError>)
      requires Inv(cfg, world)
      modifies this`world
      ensures Inv(cfg, world) && world == Next(cfg, old(world), Confirm(x, now))
      ensures r == Failure(NotFound) <==>
                x.uuid !in old(world.db.byUuid) || old(world.db.rows[world.db.byUuid[x.uuid]].deleted)
      ensures r == Failure(VerificationFailed) <==> ConfirmOutcomeOf(old(world.db), x) == ConfirmOutcome.VerifyFailed
      ensures r.Success? ==>
                && x.uuid in world.db.byUuid && world.db.byUuid[x.uuid] in world.db.rows
                && r.value.0 == world.db.rows[world.db.byUuid[x.uuid]] && r.value.0.state == Confirmed
      ensures r.Success? ==> (r.value.1 <==> world.log.confirmations != old(world.log.confirmations))
      ensures r.Success? && r.value.1 <==> Fits(old(world.db), x)
      ensures r.Success? && r.value.1 ==> ConfirmedAs(old(world.db), world.db, x, now)
      ensures r.Failure? || !r.value.1 ==> world == old(world)
    {
      hide Inv, DbOk, Grows, NormalTag;
      DbIsOk(cfg, world);
      NextKeeps(cfg, world, Confirm(x, now));
      KnownRow(world.db, x.uuid);
      var db := world.db;
      if x.uuid !in db.byUuid || db.rows[db.byUuid[x.uuid]].deleted {
        return Failure(NotFound);
      }
      var id := db.byUuid[x.uuid];
      var row := db.rows[id];
      if row.state == Confirmed {
        return Success((row, false));
      }
      if x.key != "" && x.key != row.head.place.key {
        return Failure(VerificationFailed);
      }
      if row.head.place !in db.objects {
        return Failure(VerificationFailed);
      }
      var etag, size := db.objects[row.head.place].etag, |db.objects[row.head.place].bytes|;
      if NormalTag(etag) != NormalTag(x.etag) || size != x.byteSize {
        return Failure(VerificationFailed);
      }
      if !CanTransition(row.state, Confirmed) {
        return Failure(VerificationFailed);
      }
      VerifiedIsUpload(cfg, world, x);
      var row' := row.(
        state := Confirmed, verifiedAt := Some(now),
        content := Content(
          Some(x.byteSize), if x.width.Some? then x.width else row.content.width,
          if x.height.Some? then x.height else row.content.height, Some(etag)));
      world := world.(
        db := db.(rows := db.rows[id := row']),
        log := world.log.(confirmations := world.log.confirmations
          + [Confirmation(id, etag, size, now, row.head.tier == Original)]));
      r := Success((row', row.head.tier == Original));
    }

    /** One pass of the reaper: marks the stale uploads and counts them. */
    method ReapStale(cutoff: Time, now: Time) returns (flagged: nat)
      requires Inv(cfg, world)
      modifies this`world
      ensures Inv(cfg, world) && world == Next(cfg, old(world), Reap(cutoff, now))
      ensures flagged == |StaleIds(old(world.db), cutoff)|
      ensures forall id :: id in old(world.db.rows) ==>
                && id in world.db.rows
                && var row := old(world.db.rows)[id];
                && (id in StaleIds(old(world.db), cutoff) <==>
                      row.state == Uploading && !row.deleted && row.reapedAt.None? && row.createdAt < cutoff)
                && world.db.rows[id] == if id in StaleIds(old(world.db), cutoff) then row.(reapedAt := Some(now)) else row
    {
      hide Inv, DbOk, Grows;
      DbIsOk(cfg, world);
      NextKeeps(cfg, world, Reap(cutoff, now));
      var db := world.db;
      var stale := set id | id in db.rows && Stale(db.rows[id], cutoff);
      world := world.(
        db := Reaped(db, cutoff, now), log := world.log.(flagged := world.log.flagged + [stale]));
      flagged := |stale|;
    }

    // --- Worker ---------------------------------------------------------------------------------

    /** The others take their steps. */
    method Interleave(run: RunId, others: seq<Action>)
      requires Inv(cfg, world) && run in world.runs
      requires forall k :: 0 <= k < |others| ==> !Moves(others[k], run)
      modifies this`world
      ensures Inv(cfg, world) && world == Exec(cfg, old(world), others)
      ensures run in world.runs && world.runs[run] == old(world.runs[run])
    {
      hide Inv, Grows;
      assert others[..0] == [];
      for i := 0 to |others|
        invariant Inv(cfg, world) && world == Exec(cfg, old(world), others[..i])
        invariant run in world.runs && world.runs[run] == old(world.runs[run])
      {
        NextKeeps(cfg, world, others[i]);
        DbIsOk(cfg, world);
        OthersDoNotMove(cfg, world, others[i], run);
        ExecSnoc(cfg, old(world), others[..i], others[i]);
        assert others[..i + 1] == others[..i] + [others[i]];
        world := Next(cfg, world, others[i]);
      }
      assert others[..|others|] == others;
    }

    /** Reads the original and refuses one that is gone, of another tier or not confirmed. */
    method LoadOriginal(run: RunId, id: Id, draw: Draw) returns (r: Option<(Source, Option<Uuid>)>)
      requires Inv(cfg, world) && run in world.runs && world.runs[run] == Loading(id)
      modifies this`world
      ensures Inv(cfg, world) && world == Next(cfg, old(world), Advance(run, draw))
      ensures run in world.runs
      ensures r.None? ==> world.runs[run] == Skipped
      ensures r.None? <==> !Derivable(old(world.db), id)
      ensures r.None? <==>
                || id !in old(world.db.rows) || old(world.db.rows)[id].deleted
                || old(world.db.rows)[id].head.tier != Original || old(world.db.rows)[id].state != Confirmed
      ensures r.Some? ==>
                && r.value.0.head == old(world.db.rows)[id].head && r.value.1 == old(world.db.rows)[id].group
      ensures r.Some? ==>
                && r.value.0.id == id
                && world.runs[run] == if r.value.1.Some? then Getting(r.value.0, r.value.1.value) else Grouping(r.value.0)
    {
      hide Inv, DbOk, Grows;
      DbIsOk(cfg, world);
      NextKeeps(cfg, world, Advance(run, draw));
      var rows := world.db.rows;
      if id !in rows || rows[id].deleted || rows[id].head.tier != Original || rows[id].state != Confirmed {
        world := world.(runs := world.runs[run := Skipped]);
        return None;
      }
      var source, group := Source(id, rows[id].head), rows[id].group;
      if group.Some? {
        world := world.(runs := world.runs[run := Getting(source, group.value)]);
      } else {
        world := world.(runs := world.runs[run := Grouping(source)]);
      }
      r := Some((source, group));
    }

    /** Sets the group unless the row has one, and returns the one it has now. */
    method EnsureGroup(run: RunId, source: Source, draw: Draw) returns (effective: Uuid)
      requires Inv(cfg, world) && run in world.runs && world.runs[run] == Grouping(source)
      modifies this`world
      ensures Inv(cfg, world) && world == Next(cfg, old(world), Advance(run, draw))
      ensures run in world.runs && world.runs[run] == Getting(source, effective)
      ensures source.id in old(world.db.rows) && source.id in world.db.rows
      ensures effective == if old(world.db.rows)[source.id].group.Some? then old(world.db.rows)[source.id].group.value else draw.uuid
      ensures world.db.rows == old(world.db.rows)[source.id := world.db.rows[source.id]]
      ensures world.db.rows[source.id] == old(world.db.rows)[source.id].(group := Some(effective))
    {
      hide Inv, DbOk, Grows;
      DbIsOk(cfg, world);
      NextKeeps(cfg, world, Advance(run, draw));
      SourceIsThere(cfg, world, run);
      var row := world.db.rows[source.id];
      effective := if row.group.Some? then row.group.value else draw.uuid;
      world := world.(
        db := world.db.(rows := world.db.rows[source.id := row.(group := Some(effective))]),
        runs := world.runs[run := Getting(source, effective)]);
    }

    method GetOriginal(run: RunId, source: Source, group: Uuid, draw: Draw) returns (r: Option<Bytes>)
      requires Inv(cfg, world) && run in world.runs && world.runs[run] == Getting(source, group)
      modifies this`world
      ensures Inv(cfg, world) && world == Next(cfg, old(world), Advance(run, draw))
      ensures run in world.runs && world.runs[run] == if r.Some? then Putting(source, group, r.value, 0) else Failed
      ensures world.db == old(world.db)
      ensures r == if source.head.place in world.db.objects then Some(world.db.objects[source.head.place].bytes) else None
    {
      hide Inv, DbOk, Grows;
      DbIsOk(cfg, world);
      NextKeeps(cfg, world, Advance(run, draw));
      if source.head.place in world.db.objects {
        r := Some(world.db.objects[source.head.place].bytes);
        world := world.(runs := world.runs[run := Putting(source, group, r.value, 0)]);
      } else {
        r := None;
        world := world.(runs := world.runs[run := Failed]);
      }
    }

    method PutTier(run: RunId, source: Source, group: Uuid, bytes: Bytes, i: nat, draw: Draw) returns (file: (Bytes, string))
      requires i < |DERIVE_TIERS|
      requires Inv(cfg, world) && run in world.runs && world.runs[run] == Putting(source, group, bytes, i)
      modifies this`world
      ensures Inv(cfg, world) && world == Next(cfg, old(world), Advance(run, draw))
      ensures run in world.runs && world.runs[run] == Inserting(source, group, bytes, i, file)
    {
      hide Inv, DbOk, Grows;
      DbIsOk(cfg, world);
      NextKeeps(cfg, world, Advance(run, draw));
      var place := Place(BucketFor(cfg, DERIVE_TIERS[i].0), DeriveKey(source.head.place.key, DERIVE_TIERS[i].0));
      file := cfg.resize(bytes, DERIVE_TIERS[i].1, source.head.contentType);
      world := world.(
        db := world.db.(objects := world.db.objects[place := Blob(file.0, cfg.etagOf(file.0))]),
        runs := world.runs[run := Inserting(source, group, bytes, i, file)]);
    }

    /** Inserts the tier's row, already verified, unless (bucket, key) is taken. */
    method InsertSibling(
        run: RunId, source: Source, group: Uuid, bytes: Bytes, i: nat, file: (Bytes, string), draw: Draw)
      returns (ok: bool)
      requires i < |DERIVE_TIERS|
      requires Inv(cfg, world) && run in world.runs && world.runs[run] == Inserting(source, group, bytes, i, file)
      modifies this`world
      ensures Inv(cfg, world) && world == Next(cfg, old(world), Advance(run, draw))
      ensures run in world.runs && world.runs[run] == if ok then AfterTier(source, group, bytes, i) else Failed
      ensures world.db.rows == old(world.db.rows) || (
                && old(world.db.next) !in old(world.db.rows) && old(world.db.next) in world.db.rows
                && world.db.rows == old(world.db.rows)[old(world.db.next) := world.db.rows[old(world.db.next)]]
                && IsNewSibling(source, group, file, draw, world.db.rows[old(world.db.next)]))
    {
      hide Inv, DbOk, Grows, DeriveKey;
      NextIdIsFree(cfg, world);
      DbIsOk(cfg, world);
      NextKeeps(cfg, world, Advance(run, draw));
      var db, tier := world.db, DERIVE_TIERS[i].0;
      var place := Place(BucketFor(cfg, tier), DeriveKey(source.head.place.key, tier));
      ok := place in db.byPlace || draw.uuid !in db.byUuid;
      if place !in db.byPlace && draw.uuid !in db.byUuid {
        var head := Head(draw.uuid, source.head.ownerType, source.head.owner, tier, place, source.head.region, file.1,
                         source.head.createdBy);
        var row := Row(head, Content(Some(|file.0|), None, None, None), Confirmed, Some(draw.now), Some(group), draw.now,
                       None, false);
        world := World(
          db.(rows := db.rows[db.next := row], byUuid := db.byUuid[draw.uuid := db.next],
              byPlace := db.byPlace[place := db.next], next := db.next + 1),
          world.runs, world.log.(parents := world.log.parents[db.next := source.id]));
      }
      world := world.(runs := world.runs[run := if ok then AfterTier(source, group, bytes, i) else Failed]);
    }

    /** A statement or storage call failed, or the process died: asynq will retry with a new run. */
    method Abandon(run: RunId)
      requires Inv(cfg, world) && run in world.runs && !Ended(world.runs[run])
      modifies this`world
      ensures Inv(cfg, world) && world == Next(cfg, old(world), Fail(run))
      ensures run in world.runs && world.runs[run] == Failed
    {
      hide Inv, DbOk, Grows;
      DbIsOk(cfg, world);
      NextKeeps(cfg, world, Fail(run));
      world := world.(runs := world.runs[run := Failed]);
    }

    /** One tier: its object, then its row. */
    method DeriveTier(
        run: RunId, source: Source, group: Uuid, bytes: Bytes, i: nat, env: nat -> Turn,
        ghost start: World, ghost trace: seq<Action>, ghost gaps: seq<nat>)
      returns (ok: bool, ghost trace': seq<Action>, ghost gaps': seq<nat>)
      requires i < |DERIVE_TIERS|
      requires Inv(cfg, world) && Follows(cfg, start, world, trace, run, env, gaps)
      requires run in world.runs && world.runs[run] == Putting(source, group, bytes, i)
      requires forall k, i :: 0 <= i < |env(k).others| ==> !Moves(env(k).others[i], run)
      modifies this`world
      ensures Inv(cfg, world) && Follows(cfg, start, world, trace', run, env, gaps')
      ensures run in world.runs && world.runs[run] == if ok then AfterTier(source, group, bytes, i) else Failed
      ensures gaps' == gaps + [3 + 2 * i] || gaps' == gaps + [3 + 2 * i, 4 + 2 * i]
      ensures ok ==> gaps' == gaps + [3 + 2 * i, 4 + 2 * i]
    {
      hide Inv, Grows, Exec, Next, Moves, DbOk, Follows;
      ghost var t := Before(run, env, 3 + 2 * i, start, trace, gaps);
      gaps' := gaps + [3 + 2 * i];
      if env(3 + 2 * i).fails {
        trace' := GiveUp(run, start, t, env, gaps');
        return false, trace', gaps';
      }
      OwnAdvance(run, env(3 + 2 * i).draw);
      OwnStep(cfg, start, world, t, run, env, gaps', Advance(run, env(3 + 2 * i).draw));
      var file := PutTier(run, source, group, bytes, i, env(3 + 2 * i).draw);
      t := t + [Advance(run, env(3 + 2 * i).draw)];

      t := Before(run, env, 4 + 2 * i, start, t, gaps');
      gaps' := gaps' + [4 + 2 * i];
      assert gaps' == gaps + [3 + 2 * i, 4 + 2 * i];
      if env(4 + 2 * i).fails {
        trace' := GiveUp(run, start, t, env, gaps');
        return false, trace', gaps';
      }
      OwnAdvance(run, env(4 + 2 * i).draw);
      OwnStep(cfg, start, world, t, run, env, gaps', Advance(run, env(4 + 2 * i).draw));
      ok := InsertSibling(run, source, group, bytes, i, file, env(4 + 2 * i).draw);
      trace' := t + [Advance(run, env(4 + 2 * i).draw)];
    }

    /** One derive task, with the steps of any other processes between its own statements. `env(k)`
        gives those that come before statement k, whether statement k fails, and what it draws. The
        call is a run of the media machine made of its own steps and the others' in the gaps of the
        statements it reached, in order; statement 1 is left out when the row has a group. When it is
        done both tiers are there, in the group the original then has; it is dropped if and only if
        the original is not fit to derive when it is read. */
    method HandleDeriveTiers(run: RunId, id: Id, env: nat -> Turn)
      returns (outcome: Outcome, ghost trace: seq<Action>, ghost gaps: seq<nat>)
      requires Inv(cfg, world) && run !in world.runs
      requires forall k, i :: 0 <= i < |env(k).others| ==> !Moves(env(k).others[i], run)
      modifies this`world
      ensures Inv(cfg, world) && Follows(cfg, old(world), world, trace, run, env, gaps)
      ensures InOrder(gaps)
      ensures outcome == Done ==> TiersPresent(cfg, world, id)
      ensures outcome == Done ==> id in world.db.rows
      ensures outcome == Done ==>
                forall dir, b :: Undisturbed(cfg, old(world), trace, world.db.rows[id].head, dir, b) ==>
                  FilesAt(cfg, world, world.db.rows[id].head.contentType, dir, b)
      ensures run in world.runs
      ensures outcome == Done <==> world.runs[run].Completed?
      ensures outcome == Retry <==> world.runs[run].Failed?
      ensures outcome == SkipRetry <==> world.runs[run].Skipped?
      ensures outcome == SkipRetry <==>
                !env(0).fails && !Derivable(Exec(cfg, old(world), [Start(run, id)] + env(0).others).db, id)
    {
      hide Inv, Grows, Exec, TiersPresent, Next, Moves, DbOk, Follows, Derivable, InOrder, Undisturbed, FilesAt;
      ghost var start := world;
      FirstStep(cfg, start, run, id, env);
      StartRun(cfg, world, run, id);
      world := world.(runs := world.runs[run := Loading(id)]);
      trace, gaps := [Start(run, id)], [];

      trace := Before(run, env, 0, start, trace, gaps);
      gaps := gaps + [0];
      assert gaps == [0];
      GapsInOrder([], 0);
      assert world == Exec(cfg, start, [Start(run, id)] + env(0).others) by {
        TraceIs(cfg, start, world, trace, run, env, gaps);
      }
      if env(0).fails {
        trace := GiveUp(run, start, trace, env, gaps);
        return Retry, trace, gaps;
      }
      OwnAdvance(run, env(0).draw);
      OwnStep(cfg, start, world, trace, run, env, gaps, Advance(run, env(0).draw));
      var loaded := LoadOriginal(run, id, env(0).draw);
      trace := trace + [Advance(run, env(0).draw)];
      if loaded.None? {
        return SkipRetry, trace, gaps;
      }
      var source, read := loaded.value.0, loaded.value.1;

      var group;
      ghost var one: seq<nat> := if read.Some? then [] else [1];
      GapsInOrder(one, 0);
      assert [0] == [0] + [];
      group, trace, gaps := AdoptGroup(run, source, read, env, start, trace, gaps);
      if group.None? {
        return Retry, trace, gaps;
      }

      var got;
      got, trace, gaps := Download(run, source, group.value, env, start, trace, gaps);
      if got.None? {
        return Retry, trace, gaps;
      }
      var bytes := got.value;

      var ok;
      ghost var head, m := gaps, 0;
      ok, trace, gaps, m := DeriveAll(run, source, group.value, bytes, env, start, trace, gaps);
      GapsInOrder(one, m);
      if !ok {
        return Retry, trace, gaps;
      }
      CompletedHasTiers(cfg, world, run);
      TraceIs(cfg, start, world, trace, run, env, gaps);
      FilesAfterRun(cfg, start, trace, run, id);
      outcome := Done;
    }

    /** The group the row had when it was read, or the one it has after statement 1. */
    method AdoptGroup(
        run: RunId, source: Source, read: Option<Uuid>, env: nat -> Turn,
        ghost start: World, ghost tr: seq<Action>, ghost head: seq<nat>)
      returns (group: Option<Uuid>, ghost trace: seq<Action>, ghost gaps: seq<nat>)
      requires Inv(cfg, world) && Follows(cfg, start, world, tr, run, env, head) && run in world.runs
      requires world.runs[run] == if read.Some? then Getting(source, read.value) else Grouping(source)
      requires forall k, i :: 0 <= i < |env(k).others| ==> !Moves(env(k).others[i], run)
      modifies this`world
      ensures Inv(cfg, world) && Follows(cfg, start, world, trace, run, env, gaps) && run in world.runs
      ensures gaps == if read.Some? then head else head + [1]
      ensures world.runs[run] == if group.Some? then Getting(source, group.value) else Failed
    {
      hide Inv, Grows, Exec, Next, Moves, DbOk, Follows;
      if read.Some? {
        return read, tr, head;
      }
      trace := Before(run, env, 1, start, tr, head);
      gaps := head + [1];
      if env(1).fails {
        trace := GiveUp(run, start, trace, env, gaps);
        return None, trace, gaps;
      }
      OwnAdvance(run, env(1).draw);
      OwnStep(cfg, start, world, trace, run, env, gaps, Advance(run, env(1).draw));
      var effective := EnsureGroup(run, source, env(1).draw);
      trace := trace + [Advance(run, env(1).draw)];
      group := Some(effective);
    }

    method Download(
        run: RunId, source: Source, group: Uuid, env: nat -> Turn,
        ghost start: World, ghost tr: seq<Action>, ghost head: seq<nat>)
      returns (got: Option<Bytes>, ghost trace: seq<Action>, ghost gaps: seq<nat>)
      requires Inv(cfg, world) && Follows(cfg, start, world, tr, run, env, head) && run in world.runs
      requires world.runs[run] == Getting(source, group)
      requires forall k, i :: 0 <= i < |env(k).others| ==> !Moves(env(k).others[i], run)
      modifies this`world
      ensures Inv(cfg, world) && Follows(cfg, start, world, trace, run, env, gaps) && run in world.runs
      ensures gaps == head + [2]
      ensures world.runs[run] == if got.Some? then Putting(source, group, got.value, 0) else Failed
    {
      hide Inv, Grows, Exec, Next, Moves, DbOk, Follows;
      trace := Before(run, env, 2, start, tr, head);
      gaps := head + [2];
      if env(2).fails {
        trace := GiveUp(run, start, trace, env, gaps);
        return None, trace, gaps;
      }
      OwnAdvance(run, env(2).draw);
      OwnStep(cfg, start, world, trace, run, env, gaps, Advance(run, env(2).draw));
      got := GetOriginal(run, source, group, env(2).draw);
      trace := trace + [Advance(run, env(2).draw)];
    }

    /** Both tiers in turn; m counts the statements reached. */
    method DeriveAll(
        run: RunId, source: Source, group: Uuid, bytes: Bytes, env: nat -> Turn,
        ghost start: World, ghost tr: seq<Action>, ghost head: seq<nat>)
      returns (ok: bool, ghost trace: seq<Action>, ghost gaps: seq<nat>, ghost m: nat)
      requires Inv(cfg, world) && Follows(cfg, start, world, tr, run, env, head)
      requires run in world.runs && world.runs[run] == Putting(source, group, bytes, 0)
      requires forall k, i :: 0 <= i < |env(k).others| ==> !Moves(env(k).others[i], run)
      modifies this`world
      ensures Inv(cfg, world) && Follows(cfg, start, world, trace, run, env, gaps) && run in world.runs
      ensures world.runs[run] == if ok then Completed(source, group) else Failed
      ensures m <= 4 && gaps == head + TIER_STATEMENTS[..m]
    {
      hide Inv, Grows, Exec, Next, Moves, DbOk, Follows;
      trace, gaps, m := tr, head, 0;
      assert TIER_STATEMENTS[..0] == [];
      for i := 0 to |DERIVE_TIERS|
        invariant Inv(cfg, world) && Follows(cfg, start, world, trace, run, env, gaps) && run in world.runs
        invariant m == 2 * i && gaps == head + TIER_STATEMENTS[..m]
        invariant world.runs[run]
               == if i < |DERIVE_TIERS| then Putting(source, group, bytes, i) else Completed(source, group)
      {
        ghost var before := gaps;
        ok, trace, gaps := DeriveTier(run, source, group, bytes, i, env, start, trace, gaps);
        TierGaps(head, i);
        m := m + |gaps| - |before|;
        if !ok {
          return;
        }
      }
      ok := true;
    }

    /** What happens before statement k of this run, added to the trace. */
    method Before(run: RunId, env: nat -> Turn, k: nat, ghost start: World, ghost trace: seq<Action>, ghost gaps: seq<nat>)
      returns (ghost trace': seq<Action>)
      requires Inv(cfg, world) && Follows(cfg, start, world, trace, run, env, gaps) && run in world.runs
      requires forall i :: 0 <= i < |env(k).others| ==> !Moves(env(k).others[i], run)
      modifies this`world
      ensures Inv(cfg, world) && Follows(cfg, start, world, trace', run, env, gaps + [k])
      ensures trace' == trace + env(k).others
      ensures run in world.runs && world.runs[run] == old(world.runs[run])
    {
      hide Inv, Grows, Exec, Follows;
      GapTaken(cfg, start, world, trace, run, env, gaps, k);
      Interleave(run, env(k).others);
      trace' := trace + env(k).others;
    }

    method GiveUp(run: RunId, ghost start: World, ghost trace: seq<Action>, ghost env: nat -> Turn, ghost gaps: seq<nat>)
      returns (ghost trace': seq<Action>)
      requires Inv(cfg, world) && Follows(cfg, start, world, trace, run, env, gaps)
      requires run in world.runs && !Ended(world.runs[run])
      modifies this`world
      ensures Inv(cfg, world) && Follows(cfg, start, world, trace', run, env, gaps)
      ensures run in world.runs && world.runs[run] == Failed
    {
      hide Inv, Grows, Exec, Follows;
      OwnStep(cfg, start, world, trace, run, env, gaps, Fail(run));
      Abandon(run);
      trace' := trace + [Fail(run)];
    }
  }

  lemma TierGaps(head: seq<nat>, i: nat)
    requires i < 2
    ensures head + TIER_STATEMENTS[..2 * i] + [3 + 2 * i] == head + TIER_STATEMENTS[..2 * i + 1]
    ensures head + TIER_STATEMENTS[..2 * i] + [3 + 2 * i, 4 + 2 * i] == head + TIER_STATEMENTS[..2 * i + 2]
  {
  }

  /** The statements a run reached, in order; statement 1 is left out when the row has a group. */
  ghost predicate InOrder(gaps: seq<nat>) {
    gaps <= [0, 1, 2, 3, 4, 5, 6] || gaps <= [0, 2, 3, 4, 5, 6]
  }

  lemma GapsInOrder(one: seq<nat>, m: nat)
    requires (one == [] || one == [1]) && m <= 4
    ensures var head := [0] + one;
            InOrder([0]) && InOrder(head) && InOrder(head + [2]) && InOrder(head + [2] + TIER_STATEMENTS[..m])
  {
  }

  lemma OwnAdvance(run: RunId, draw: Draw)
    ensures Moves(Advance(run, draw), run)
  {
  }

  lemma TraceIs(
      cfg: Config, start: World, w: World, trace: seq<Action>, run: RunId, env: nat -> Turn, gaps: seq<nat>)
    requires Follows(cfg, start, w, trace, run, env, gaps)
    ensures Inv(cfg, start) && w == Exec(cfg, start, trace)
  {
  }
}
