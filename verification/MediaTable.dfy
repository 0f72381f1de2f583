/** The media_assets table as the media package writes it, the object store beside it, and each SQL
    statement and storage call as one function of that state. */
module MediaTable {
  import opened Wrappers
  import opened SyncModel
  import opened MediaKeys

  type Bytes = seq<bv8>

  datatype Place = Place(bucket: string, key: string)

  /** The columns no statement of this package updates. */
  datatype Head = Head(
    uuid: Uuid, ownerType: OwnerType, owner: int, tier: Tier, place: Place, region: string,
    contentType: string, createdBy: int)

  datatype Content = Content(byteSize: Option<int>, width: Option<int>, height: Option<int>, etag: Option<string>)

  datatype Row = Row(
    head: Head, content: Content, state: CaptureState, verifiedAt: Option<Time>, group: Option<Uuid>,
    createdAt: Time, reapedAt: Option<Time>, deleted: bool)

  datatype Blob = Blob(bytes: Bytes, etag: string)

  /** `byUuid` and `byPlace` are the two unique indexes. */
  datatype Db = Db(
    rows: map<Id, Row>, byUuid: map<Uuid, Id>, byPlace: map<Place, Id>, objects: map<Place, Blob>, next: Id)

  /** `resize` stands for the JPEG resize with its fall-back to a copy, `etagOf` for the tag the
      store gives to a simple upload. */
  datatype Config = Config(
    original: string, web: string, thumb: string, region: string,
    resize: (Bytes, nat, string) -> (Bytes, string), etagOf: Bytes -> string)

  function BucketFor(cfg: Config, tier: Tier): string {
    match tier
    case Web => cfg.web
    case Thumb => cfg.thumb
    case _ => cfg.original
  }

  // --- Capture states ---------------------------------------------------------------------------

  function Rank(s: CaptureState): int {
    match s
    case CapturedRaw => 0
    case Stitched => 1
    case Queued => 2
    case Uploading => 3
    case Uploaded => 4
    case Confirmed => 5
    case UnknownState(_) => -1
  }

  predicate CanTransition(from: CaptureState, to: CaptureState) {
    Rank(from) >= 0 && Rank(to) >= 0 && Rank(to) >= Rank(from)
  }

  // --- Constraints ------------------------------------------------------------------------------

  ghost predicate UuidIndexOk(db: Db) {
    && (forall u :: u in db.byUuid ==> db.byUuid[u] in db.rows && db.rows[db.byUuid[u]].head.uuid == u)
    && (forall id :: id in db.rows ==>
          db.rows[id].head.uuid in db.byUuid && db.byUuid[db.rows[id].head.uuid] == id)
  }

  ghost predicate PlaceIndexOk(db: Db) {
    && (forall p :: p in db.byPlace ==> db.byPlace[p] in db.rows && db.rows[db.byPlace[p]].head.place == p)
    && (forall id :: id in db.rows ==>
          db.rows[id].head.place in db.byPlace && db.byPlace[db.rows[id].head.place] == id)
  }

  ghost predicate DbOk(db: Db) {
    UuidIndexOk(db) && PlaceIndexOk(db) && db.next !in db.rows && forall id :: id in db.rows ==> id < db.next
  }

  function Insert(db: Db, row: Row): Db {
    db.(rows := db.rows[db.next := row], byUuid := db.byUuid[row.head.uuid := db.next],
        byPlace := db.byPlace[row.head.place := db.next], next := db.next + 1)
  }

  lemma InsertOk(db: Db, row: Row)
    requires DbOk(db) && row.head.uuid !in db.byUuid && row.head.place !in db.byPlace
    ensures DbOk(Insert(db, row))
  {
    hide UuidIndexOk, PlaceIndexOk;
    InsertUuidOk(db, row);
    InsertPlaceOk(db, row);
  }

  lemma InsertUuidOk(db: Db, row: Row)
    requires UuidIndexOk(db) && db.next !in db.rows && row.head.uuid !in db.byUuid
    ensures UuidIndexOk(Insert(db, row))
  {
  }

  lemma InsertPlaceOk(db: Db, row: Row)
    requires PlaceIndexOk(db) && db.next !in db.rows && row.head.place !in db.byPlace
    ensures PlaceIndexOk(Insert(db, row))
  {
  }

  function Update(db: Db, id: Id, row: Row): Db {
    db.(rows := db.rows[id := row])
  }

  lemma UpdateOk(db: Db, id: Id, row: Row)
    requires DbOk(db) && id in db.rows && row.head == db.rows[id].head
    ensures DbOk(Update(db, id, row))
  {
    UuidIndexUpdated(db, id, row);
    PlaceIndexUpdated(db, id, row);
    hide UuidIndexOk, PlaceIndexOk;
  }

  lemma UuidIndexUpdated(db: Db, id: Id, row: Row)
    requires UuidIndexOk(db) && id in db.rows && row.head == db.rows[id].head
    ensures UuidIndexOk(Update(db, id, row))
  {
  }

  lemma PlaceIndexUpdated(db: Db, id: Id, row: Row)
    requires PlaceIndexOk(db) && id in db.rows && row.head == db.rows[id].head
    ensures PlaceIndexOk(Update(db, id, row))
  {
  }

  // --- Credential requests ----------------------------------------------------------------------

  datatype CredentialsInput = CredentialsInput(
    uuid: Uuid, ownerType: OwnerType, owner: int, tier: Tier, contentType: string, byteSize: int)

  predicate ValidOwnerType(t: OwnerType) {
    !t.UnknownOwner?
  }

  function NullableSize(n: int): Option<int> {
    if n <= 0 then None else Some(n)
  }

  function UploadHead(cfg: Config, x: CredentialsInput, actor: int): Head {
    Head(x.uuid, x.ownerType, x.owner, Original, Place(cfg.original, OriginalKey(x.ownerType, x.owner, x.uuid)),
         cfg.region, if x.contentType == "" then "image/jpeg" else x.contentType, actor)
  }

  function UploadRow(cfg: Config, x: CredentialsInput, actor: int, now: Time): Row {
    Row(UploadHead(cfg, x, actor), Content(NullableSize(x.byteSize), None, None, None), Uploading, None, None,
        now, None, false)
  }

  /** The whole request is refused, or its uuid is taken, or (bucket, key) is, or a row is added. */
  datatype RequestOutcome = Refused | UuidTaken | PlaceTaken | Fresh

  function RequestOutcomeOf(cfg: Config, db: Db, x: CredentialsInput, actor: int): RequestOutcome {
    if x.tier != Original || !ValidOwnerType(x.ownerType) then Refused
    else if x.uuid in db.byUuid then UuidTaken
    else if UploadHead(cfg, x, actor).place in db.byPlace then PlaceTaken
    else Fresh
  }

  // --- Confirmation -----------------------------------------------------------------------------

  datatype ConfirmInput = ConfirmInput(
    uuid: Uuid, key: string, etag: string, byteSize: int, width: Option<int>, height: Option<int>)

  function Lower(s: string): string {
    seq(|s|, i requires 0 <= i < |s| => if 'A' <= s[i] <= 'Z' then s[i] - 'A' + 'a' else s[i])
  }

  function TrimLeft(s: string): string {
    if s != [] && s[0] == '"' then TrimLeft(s[1..]) else s
  }

  function TrimRight(s: string): string {
    if s != [] && s[|s| - 1] == '"' then TrimRight(s[..|s| - 1]) else s
  }

  /** Tags are compared without surrounding quotes and without letter case. */
  function NormalTag(s: string): string {
    Lower(TrimRight(TrimLeft(s)))
  }

  ghost predicate OnlyQuotes(s: string) {
    forall i :: 0 <= i < |s| ==> s[i] == '"'
  }

  /** Whatever quotes stand around it, a tag that has none at its ends is left as it is but for its capital
      letters, which become small. */
  lemma NormalTagIs(left: string, core: string, right: string)
    requires OnlyQuotes(left) && OnlyQuotes(right)
    requires core != [] ==> core[0] != '"' && core[|core| - 1] != '"'
    ensures |NormalTag(left + core + right)| == |core|
    ensures forall i :: 0 <= i < |core| ==>
              NormalTag(left + core + right)[i] == if 'A' <= core[i] <= 'Z' then core[i] - 'A' + 'a' else core[i]
  {
    assert left + core + right == left + (core + right);
    TrimsLeft(left, core, right);
    TrimsRight(core, right);
  }

  lemma {:induction false} TrimsLeft(left: string, core: string, right: string)
    requires OnlyQuotes(left) && OnlyQuotes(right) && (core != [] ==> core[0] != '"')
    ensures TrimLeft(left + (core + right)) == if core == [] then [] else core + right
    decreases |left| + |right|
  {
    var s := left + (core + right);
    if left != [] {
      assert s[1..] == left[1..] + (core + right);
      TrimsLeft(left[1..], core, right);
    } else {
      assert s == core + right;
      if core == [] && right != [] {
        assert s == right && right[1..] == right[1..] + ([] + []);
        TrimsLeft(right[1..], [], []);
      }
    }
  }

  lemma {:induction false} TrimsRight(core: string, right: string)
    requires OnlyQuotes(right) && (core != [] ==> core[|core| - 1] != '"')
    ensures TrimRight(core + right) == core
    ensures TrimRight([]) == []
  {
    var s := core + right;
    if right != [] {
      assert s[..|s| - 1] == core + right[..|right| - 1];
      TrimsRight(core, right[..|right| - 1]);
    } else {
      assert s == core;
    }
  }

  datatype ConfirmOutcome = Unknown | AlreadyConfirmed | VerifyFailed | Verified

  function ConfirmOutcomeOf(db: Db, x: ConfirmInput): ConfirmOutcome
    requires DbOk(db)
  {
    if x.uuid !in db.byUuid || db.rows[db.byUuid[x.uuid]].deleted then Unknown
    else
      var row := db.rows[db.byUuid[x.uuid]];
      if row.state == Confirmed then AlreadyConfirmed
      else if x.key != "" && x.key != row.head.place.key then VerifyFailed
      else if row.head.place !in db.objects then VerifyFailed
      else if NormalTag(db.objects[row.head.place].etag) != NormalTag(x.etag) then VerifyFailed
      else if |db.objects[row.head.place].bytes| != x.byteSize then VerifyFailed
      else if !CanTransition(row.state, Confirmed) then VerifyFailed
      else Verified
  }

  /** The row after a verified confirmation: tag and size as storage reported them. */
  function ConfirmedRow(row: Row, blob: Blob, x: ConfirmInput, now: Time): Row {
    row.(state := Confirmed, verifiedAt := Some(now),
         content := Content(
           Some(x.byteSize), if x.width.Some? then x.width else row.content.width,
           if x.height.Some? then x.height else row.content.height, Some(blob.etag)))
  }

  // --- The reaper -------------------------------------------------------------------------------

  predicate Stale(row: Row, cutoff: Time) {
    row.state == Uploading && !row.deleted && row.createdAt < cutoff && row.reapedAt.None?
  }

  function Reaped(db: Db, cutoff: Time, now: Time): Db {
    db.(rows := map id | id in db.rows ::
      if Stale(db.rows[id], cutoff) then db.rows[id].(reapedAt := Some(now)) else db.rows[id])
  }

  function StaleIds(db: Db, cutoff: Time): set<Id> {
    set id | id in db.rows && Stale(db.rows[id], cutoff)
  }

  // --- Statements of the derive worker ----------------------------------------------------------

  /** loadOriginal's columns, but for the group. */
  datatype Source = Source(id: Id, head: Head)

  predicate Derivable(db: Db, id: Id) {
    && id in db.rows && !db.rows[id].deleted
    && db.rows[id].head.tier == Original && db.rows[id].state == Confirmed
  }

  /** UPDATE ... SET media_group = COALESCE(media_group, proposed) RETURNING media_group. */
  function EffectiveGroup(db: Db, id: Id, proposed: Uuid): Uuid
    requires id in db.rows
  {
    db.rows[id].group.GetOr(proposed)
  }

  function WithGroup(db: Db, id: Id, group: Uuid): Db
    requires id in db.rows
  {
    Update(db, id, db.rows[id].(group := Some(group)))
  }

  function SiblingPlace(cfg: Config, source: Head, tier: Tier): Place {
    Place(BucketFor(cfg, tier), DeriveKey(source.place.key, tier))
  }

  function SiblingHead(cfg: Config, source: Head, tier: Tier, uuid: Uuid, contentType: string): Head {
    Head(uuid, source.ownerType, source.owner, tier, SiblingPlace(cfg, source, tier), source.region, contentType,
         source.createdBy)
  }

  function SiblingRow(head: Head, group: Uuid, size: int, now: Time): Row {
    Row(head, Content(Some(size), None, None, None), Confirmed, Some(now), Some(group), now, None, false)
  }

  function Put(db: Db, place: Place, blob: Blob): Db {
    db.(objects := db.objects[place := blob])
  }
}
