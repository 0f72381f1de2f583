/** Uploads, confirmations, reaping and any number of derive runs as one state machine. Each action
    is one atomic statement; runs interleave, fail and are retried at any point. */
module MediaMachine {
  import opened Wrappers
  import opened SyncModel
  import opened MediaKeys
  import opened MediaTable

  type RunId = nat

  /** Where a derive run stands: about to load, to fix the group, to download, to upload tier i, to
      insert the row of tier i, or ended. */
  datatype Run =
    | Loading(id: Id)
    | Grouping(source: Source)
    | Getting(source: Source, group: Uuid)
    | Putting(source: Source, group: Uuid, bytes: Bytes, tier: nat)
    | Inserting(source: Source, group: Uuid, bytes: Bytes, tier: nat, file: (Bytes, string))
    | Completed(source: Source, group: Uuid)
    | Skipped
    | Failed

  const DERIVE_TIERS: seq<(Tier, nat)> := [(Web, 1920), (Thumb, 320)]

  /** What storage reported when a row was confirmed. */
  datatype Confirmation = Confirmation(id: Id, etag: string, size: int, at: Time, enqueued: bool)

  /** History: `parents` names the original each derived row was inserted for. */
  datatype Log = Log(parents: map<Id, Id>, confirmations: seq<Confirmation>, flagged: seq<set<Id>>)

  datatype World = World(db: Db, runs: map<RunId, Run>, log: Log)

  /** The random uuid and the clock an action may use. */
  datatype Draw = Draw(uuid: Uuid, now: Time)

  datatype Action =
    | Request(request: CredentialsInput, actor: int, at: Time)
    | Upload(place: Place, blob: Blob)
    | Confirm(confirm: ConfirmInput, at: Time)
    | Reap(cutoff: Time, at: Time)
    | SoftDelete(id: Id)
    | Start(run: RunId, id: Id)
    | Advance(run: RunId, draw: Draw)
    | Fail(run: RunId)

  // --- Steps ------------------------------------------------------------------------------------

  function Next(cfg: Config, w: World, a: Action): World
    requires DbOk(w.db)
  {
    match a
    case Request(x, actor, now) =>
      if RequestOutcomeOf(cfg, w.db, x, actor) == Fresh then w.(db := Insert(w.db, UploadRow(cfg, x, actor, now))) else w
    case Upload(place, blob) => w.(db := Put(w.db, place, blob))
    case Confirm(x, now) => if ConfirmOutcomeOf(w.db, x) == Verified then ConfirmStep(w, x, now) else w
    case Reap(cutoff, now) =>
      w.(db := Reaped(w.db, cutoff, now), log := w.log.(flagged := w.log.flagged + [StaleIds(w.db, cutoff)]))
    case SoftDelete(id) =>
      if id in w.db.rows then w.(db := Update(w.db, id, w.db.rows[id].(deleted := true))) else w
    case Start(r, id) => if r in w.runs then w else w.(runs := w.runs[r := Loading(id)])
    case Advance(r, draw) => if r in w.runs then AdvanceStep(cfg, w, r, w.runs[r], draw) else w
    case Fail(r) => if r in w.runs && !Ended(w.runs[r]) then w.(runs := w.runs[r := Failed]) else w
  }

  predicate Ended(p: Run) {
    p.Completed? || p.Skipped? || p.Failed?
  }

  function ConfirmStep(w: World, x: ConfirmInput, now: Time): World
    requires DbOk(w.db) && ConfirmOutcomeOf(w.db, x) == Verified
  {
    var id := w.db.byUuid[x.uuid];
    var row := w.db.rows[id];
    var blob := w.db.objects[row.head.place];
    w.(db := Update(w.db, id, ConfirmedRow(row, blob, x, now)),
       log := w.log.(confirmations := w.log.confirmations
         + [Confirmation(id, blob.etag, |blob.bytes|, now, row.head.tier == Original)]))
  }

  function AdvanceStep(cfg: Config, w: World, r: RunId, p: Run, draw: Draw): World
    requires DbOk(w.db)
  {
    match p
    case Loading(id) => w.(runs := w.runs[r := Loaded(w.db, id)])
    case Grouping(source) =>
      if source.id !in w.db.rows then w.(runs := w.runs[r := Failed])
      else
        var g := EffectiveGroup(w.db, source.id, draw.uuid);
        w.(db := WithGroup(w.db, source.id, g), runs := w.runs[r := Getting(source, g)])
    case Getting(source, g) =>
      w.(runs := w.runs[r :=
        if source.head.place in w.db.objects then Putting(source, g, w.db.objects[source.head.place].bytes, 0)
        else Failed])
    case Putting(source, g, bytes, i) => if i < |DERIVE_TIERS| then PutStep(cfg, w, r, source, g, bytes, i) else w
    case Inserting(source, g, bytes, i, file) =>
      if i < |DERIVE_TIERS| then InsertStep(cfg, w, r, source, g, bytes, i, file, draw) else w
    case _ => w
  }

  /** What a run knows after loadOriginal: it is dropped, or has a group already, or needs one. */
  function Loaded(db: Db, id: Id): Run {
    if !Derivable(db, id) then Skipped
    else if db.rows[id].group.Some? then Getting(Source(id, db.rows[id].head), db.rows[id].group.value)
    else Grouping(Source(id, db.rows[id].head))
  }

  function PutStep(cfg: Config, w: World, r: RunId, source: Source, g: Uuid, bytes: Bytes, i: nat): World
    requires i < |DERIVE_TIERS|
  {
    var (tier, edge) := DERIVE_TIERS[i];
    var file := cfg.resize(bytes, edge, source.head.contentType);
    w.(db := Put(w.db, SiblingPlace(cfg, source.head, tier), Blob(file.0, cfg.etagOf(file.0))),
       runs := w.runs[r := Inserting(source, g, bytes, i, file)])
  }

  function AfterTier(source: Source, g: Uuid, bytes: Bytes, i: nat): Run {
    if i + 1 < |DERIVE_TIERS| then Putting(source, g, bytes, i + 1) else Completed(source, g)
  }

  /** INSERT ... ON CONFLICT (cos_bucket, cos_key) DO NOTHING, under a drawn client_uuid. */
  function InsertStep(
      cfg: Config, w: World, r: RunId, source: Source, g: Uuid, bytes: Bytes, i: nat, file: (Bytes, string),
      draw: Draw): World
    requires i < |DERIVE_TIERS|
  {
    var tier := DERIVE_TIERS[i].0;
    var head := SiblingHead(cfg, source.head, tier, draw.uuid, file.1);
    if head.place in w.db.byPlace then w.(runs := w.runs[r := AfterTier(source, g, bytes, i)])
    else if draw.uuid in w.db.byUuid then w.(runs := w.runs[r := Failed])
    else
      World(Insert(w.db, SiblingRow(head, g, |file.0|, draw.now)),
            w.runs[r := AfterTier(source, g, bytes, i)],
            w.log.(parents := w.log.parents[w.db.next := source.id]))
  }

  // --- What every step keeps --------------------------------------------------------------------

  /** No row vanishes or changes its fixed columns; a group once set stays; the capture rank never
      falls; a confirmed row keeps its content; a reaped mark stays. */
  ghost predicate RowsGrow(rows: map<Id, Row>, rows': map<Id, Row>) {
    forall id :: id in rows ==> id in rows' && RowGrows(rows[id], rows'[id])
  }

  ghost predicate RowGrows(row: Row, row': Row) {
    && row'.head == row.head && row'.createdAt == row.createdAt
    && (row.group.Some? ==> row'.group == row.group)
    && Rank(row.state) <= Rank(row'.state)
    && (row.state == Confirmed ==>
          row'.state == Confirmed && row'.content == row.content && row'.verifiedAt == row.verifiedAt)
    && (row.reapedAt.Some? ==> row'.reapedAt == row.reapedAt)
    && (row.deleted ==> row'.deleted)
  }

  ghost predicate Grows(w: World, w': World) {
    && RowsGrow(w.db.rows, w'.db.rows)
    && (forall p :: p in w.db.byPlace ==> p in w'.db.byPlace && w'.db.byPlace[p] == w.db.byPlace[p])
    && w.db.objects.Keys <= w'.db.objects.Keys
    && (forall id :: id in w.log.parents ==> id in w'.log.parents && w'.log.parents[id] == w.log.parents[id])
    && (forall id :: id in w'.log.parents && id in w.db.rows ==> id in w.log.parents)
    && w.log.confirmations <= w'.log.confirmations && w.log.flagged <= w'.log.flagged
  }

  lemma GrowsTransitive(w: World, w': World, w'': World)
    requires Grows(w, w') && Grows(w', w'')
    ensures Grows(w, w'')
  {
  }

  // --- The invariant ----------------------------------------------------------------------------

  /** A row some credential request made. */
  ghost predicate IsUpload(cfg: Config, head: Head) {
    head.tier == Original && head.place == Place(cfg.original, OriginalKey(head.ownerType, head.owner, head.uuid))
  }

  /** A derived row: it has its original's owner and group, sits at the derived place, and was
      inserted verified, with its object already in the store. */
  ghost predicate IsSibling(cfg: Config, db: Db, row: Row, parent: Row) {
    && Derived(row.head.tier)
    && row.head.place == SiblingPlace(cfg, parent.head, row.head.tier)
    && row.head.ownerType == parent.head.ownerType && row.head.owner == parent.head.owner
    && row.group.Some? && row.group == parent.group
    && row.state == Confirmed && row.verifiedAt.Some? && row.content.byteSize.Some?
    && row.head.place in db.objects
  }

  ghost predicate RowOk(cfg: Config, w: World, id: Id)
    requires id in w.db.rows
  {
    if id in w.log.parents then
      && w.log.parents[id] in w.db.rows && w.log.parents[id] !in w.log.parents
      && IsSibling(cfg, w.db, w.db.rows[id], w.db.rows[w.log.parents[id]])
    else
      IsUpload(cfg, w.db.rows[id].head)
  }

  ghost predicate RowsOk(cfg: Config, w: World) {
    && (forall id :: id in w.db.rows ==> RowOk(cfg, w, id))
    && (forall id :: id in w.log.parents ==> id in w.db.rows)
  }

  /** The original a run works on, as it saw it. */
  ghost predicate SourceOk(w: World, source: Source) {
    && source.id in w.db.rows && source.id !in w.log.parents
    && w.db.rows[source.id].head == source.head && w.db.rows[source.id].state == Confirmed
  }

  ghost predicate GroupIs(w: World, source: Source, g: Uuid) {
    SourceOk(w, source) && w.db.rows[source.id].group == Some(g)
  }

  ghost predicate HasSibling(cfg: Config, w: World, source: Source, tier: Tier) {
    var place := SiblingPlace(cfg, source.head, tier);
    && place in w.db.byPlace
    && w.db.byPlace[place] in w.log.parents && w.log.parents[w.db.byPlace[place]] == source.id
  }

  ghost predicate HasSiblingsBelow(cfg: Config, w: World, source: Source, i: nat)
    requires i <= |DERIVE_TIERS|
  {
    forall j :: 0 <= j < i ==> HasSibling(cfg, w, source, DERIVE_TIERS[j].0)
  }

  ghost predicate RunOk(cfg: Config, w: World, p: Run) {
    match p
    case Grouping(source) => SourceOk(w, source)
    case Getting(source, g) => GroupIs(w, source, g)
    case Putting(source, g, _, i) => GroupIs(w, source, g) && i < |DERIVE_TIERS| && HasSiblingsBelow(cfg, w, source, i)
    case Inserting(source, g, _, i, _) =>
      && GroupIs(w, source, g) && i < |DERIVE_TIERS| && HasSiblingsBelow(cfg, w, source, i)
      && SiblingPlace(cfg, source.head, DERIVE_TIERS[i].0) in w.db.objects
    case Completed(source, g) => GroupIs(w, source, g) && HasSiblingsBelow(cfg, w, source, |DERIVE_TIERS|)
    case _ => true
  }

  ghost predicate RunsOk(cfg: Config, w: World) {
    forall r :: r in w.runs ==> RunOk(cfg, w, w.runs[r])
  }

  /** An upload is confirmed exactly when the log has its one confirmation, and it carries what
      storage reported then. */
  ghost predicate ConfirmationsOk(w: World) {
    var cs := w.log.confirmations;
    && (forall k :: 0 <= k < |cs| ==> ConfirmationOk(w, cs[k]))
    && (forall j, k :: 0 <= j < k < |cs| ==> cs[j].id != cs[k].id)
    && (forall id :: id in w.db.rows && id !in w.log.parents && w.db.rows[id].state == Confirmed ==>
          exists k :: 0 <= k < |cs| && cs[k].id == id)
  }

  ghost predicate ConfirmationOk(w: World, c: Confirmation) {
    && c.id in w.db.rows && c.id !in w.log.parents
    && w.db.rows[c.id].state == Confirmed && w.db.rows[c.id].verifiedAt == Some(c.at)
    && w.db.rows[c.id].content.etag == Some(c.etag) && w.db.rows[c.id].content.byteSize == Some(c.size)
    && c.enqueued
  }

  /** The reaper's passes flag disjoint sets of rows, and exactly those rows bear the mark. */
  ghost predicate FlagsOk(w: World) {
    var fs := w.log.flagged;
    && (forall k, id :: 0 <= k < |fs| && id in fs[k] ==> id in w.db.rows && w.db.rows[id].reapedAt.Some?)
    && (forall j, k :: 0 <= j < k < |fs| ==> fs[j] !! fs[k])
    && (forall id :: id in w.db.rows && w.db.rows[id].reapedAt.Some? ==> exists k :: 0 <= k < |fs| && id in fs[k])
  }

  ghost predicate Inv(cfg: Config, w: World) {
    DbOk(w.db) && RowsOk(cfg, w) && RunsOk(cfg, w) && ConfirmationsOk(w) && FlagsOk(w)
  }

  const EMPTY: World := World(Db(map[], map[], map[], map[], 0), map[], Log(map[], [], []))

  lemma EmptyOk(cfg: Config)
    ensures Inv(cfg, EMPTY)
  {
  }
}
