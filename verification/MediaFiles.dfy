/** Which bytes the derived files hold: the web file is the original's bytes at an edge of 1920, the
    thumb at 320, each in its own bucket, and the rows say the length and type of their own file. */
module MediaFiles {
  import opened Wrappers
  import opened SyncModel
  import opened MediaKeys
  import opened MediaTable
  import opened MediaMachine
  import opened MediaProofs
  import opened MediaRuns

  ghost function WebPlace(cfg: Config, o: Head): Place {
    Place(cfg.web, DeriveKey(o.place.key, Web))
  }

  ghost function ThumbPlace(cfg: Config, o: Head): Place {
    Place(cfg.thumb, DeriveKey(o.place.key, Thumb))
  }

  ghost function WebFile(cfg: Config, o: Head, b: Bytes): (Bytes, string) {
    cfg.resize(b, 1920, o.contentType)
  }

  ghost function ThumbFile(cfg: Config, o: Head, b: Bytes): (Bytes, string) {
    cfg.resize(b, 320, o.contentType)
  }

  /** An upload to the original's place brings the bytes `b`; none goes to a derived place. */
  ghost predicate Harmless(cfg: Config, o: Head, b: Bytes, a: Action) {
    a.Upload? ==>
      && (a.place == o.place ==> a.blob.bytes == b)
      && a.place != WebPlace(cfg, o) && a.place != ThumbPlace(cfg, o)
  }

  // --- What is kept -----------------------------------------------------------------------------

  ghost predicate OriginalIs(w: World, o: Head, b: Bytes) {
    o.place in w.db.objects ==> w.db.objects[o.place].bytes == b
  }

  ghost predicate Holds(cfg: Config, w: World, place: Place, bytes: Bytes) {
    place in w.db.objects && w.db.objects[place] == Blob(bytes, cfg.etagOf(bytes))
  }

  /** A run past its download of this original carries `b` and the file of its tier. */
  ghost predicate RunFrom(cfg: Config, o: Head, b: Bytes, p: Run) {
    && (p.Putting? && p.source.head == o ==> p.bytes == b && p.tier < 2)
    && (p.Inserting? && p.source.head == o ==>
          p.bytes == b && p.tier < 2 && p.file == if p.tier == 0 then WebFile(cfg, o, b) else ThumbFile(cfg, o, b))
  }

  ghost predicate RunsFrom(cfg: Config, w: World, o: Head, b: Bytes) {
    forall q :: q in w.runs ==> RunFrom(cfg, o, b, w.runs[q])
  }

  /** How many of the two files a run on this original has put. */
  ghost function TiersPut(o: Head, p: Run): nat {
    match p
    case Putting(source, _, _, i) => if source.head == o then i else 0
    case Inserting(source, _, _, i, _) => if source.head == o then i + 1 else 0
    case Completed(source, _) => if source.head == o then 2 else 0
    case _ => 0
  }

  ghost predicate Written(cfg: Config, w: World, o: Head, b: Bytes, p: Run) {
    && (TiersPut(o, p) >= 1 ==> Holds(cfg, w, WebPlace(cfg, o), WebFile(cfg, o, b).0))
    && (TiersPut(o, p) >= 2 ==> Holds(cfg, w, ThumbPlace(cfg, o), ThumbFile(cfg, o, b).0))
  }

  ghost predicate RowIs(row: Row, tier: Tier, place: Place, file: (Bytes, string)) {
    row.head.tier == tier && row.head.place == place && row.head.contentType == file.1
    && row.content.byteSize == Some(|file.0|)
  }

  ghost predicate SiblingIs(cfg: Config, o: Head, b: Bytes, row: Row) {
    || RowIs(row, Web, WebPlace(cfg, o), WebFile(cfg, o, b))
    || RowIs(row, Thumb, ThumbPlace(cfg, o), ThumbFile(cfg, o, b))
  }

  ghost predicate IsChild(w: World, o: Head, id: Id) {
    && id in w.log.parents && id in w.db.rows
    && w.log.parents[id] in w.db.rows && w.db.rows[w.log.parents[id]].head == o
  }

  /** Rows derived from this original since `before` agree with their file. */
  ghost predicate NewSiblingsAre(cfg: Config, w: World, o: Head, b: Bytes, before: set<Id>) {
    forall id :: IsChild(w, o, id) && id !in before ==> SiblingIs(cfg, o, b, w.db.rows[id])
  }

  /** No other row has this original's uuid. */
  ghost predicate Sole(w: World, o: Head) {
    IsSoleHead(w.db.rows, o)
  }

  ghost predicate IsSoleHead(rows: map<Id, Row>, o: Head) {
    forall id :: id in rows && rows[id].head.uuid == o.uuid ==> rows[id].head == o
  }

  lemma SoleBefore(w: World, w': World, o: Head)
    requires Grows(w, w') && Sole(w', o)
    ensures Sole(w, o)
  {
    forall id | id in w.db.rows && w.db.rows[id].head.uuid == o.uuid
      ensures w.db.rows[id].head == o
    {
      assert RowGrows(w.db.rows[id], w'.db.rows[id]);
    }
  }

  // --- Places -----------------------------------------------------------------------------------

  lemma PlacesApart(cfg: Config, o: Head)
    requires IsUpload(cfg, o)
    ensures o.place != WebPlace(cfg, o) && o.place != ThumbPlace(cfg, o) && WebPlace(cfg, o) != ThumbPlace(cfg, o)
  {
    hide OriginalKey, DeriveKey;
    DeriveKeyOfOriginal(o.ownerType, o.owner, o.uuid, Original);
    if o.place == WebPlace(cfg, o) {
      KeysDisjoint(o.ownerType, o.owner, o.uuid, Original, o.ownerType, o.owner, o.uuid, Web);
    }
    if o.place == ThumbPlace(cfg, o) {
      KeysDisjoint(o.ownerType, o.owner, o.uuid, Original, o.ownerType, o.owner, o.uuid, Thumb);
    }
    if WebPlace(cfg, o) == ThumbPlace(cfg, o) {
      KeysDisjoint(o.ownerType, o.owner, o.uuid, Web, o.ownerType, o.owner, o.uuid, Thumb);
    }
  }

  /** A derived place of another original is none of the three. */
  lemma OtherPlaces(cfg: Config, o: Head, s: Head, tier: Tier)
    requires IsUpload(cfg, o) && IsUpload(cfg, s) && s.uuid != o.uuid && Derived(tier)
    ensures var place := SiblingPlace(cfg, s, tier);
            place != o.place && place != WebPlace(cfg, o) && place != ThumbPlace(cfg, o)
  {
    hide OriginalKey, DeriveKey;
    DeriveKeyOfOriginal(o.ownerType, o.owner, o.uuid, Original);
    var key := SiblingPlace(cfg, s, tier).key;
    if key == o.place.key {
      KeysDisjoint(s.ownerType, s.owner, s.uuid, tier, o.ownerType, o.owner, o.uuid, Original);
    }
    if key == WebPlace(cfg, o).key {
      KeysDisjoint(s.ownerType, s.owner, s.uuid, tier, o.ownerType, o.owner, o.uuid, Web);
    }
    if key == ThumbPlace(cfg, o).key {
      KeysDisjoint(s.ownerType, s.owner, s.uuid, tier, o.ownerType, o.owner, o.uuid, Thumb);
    }
  }

  lemma SourceIsUpload(cfg: Config, w: World, source: Source)
    requires RowsOk(cfg, w) && SourceOk(w, source)
    ensures IsUpload(cfg, source.head)
  {
    assert RowOk(cfg, w, source.id);
  }

  // --- One put ----------------------------------------------------------------------------------

  /** What a put by any run does to the three places. */
  lemma PutFiles(cfg: Config, w: World, w': World, o: Head, b: Bytes, source: Source, bytes: Bytes, i: nat)
    requires i < |DERIVE_TIERS| && IsUpload(cfg, o) && IsUpload(cfg, source.head)
    requires source.head == o ==> bytes == b
    requires source.head.uuid == o.uuid ==> source.head == o
    requires var file := FileAt(cfg, source, bytes, i);
             w'.db == Put(w.db, SiblingPlace(cfg, source.head, DERIVE_TIERS[i].0), Blob(file.0, cfg.etagOf(file.0)))
    ensures FilesKept(cfg, w, w', o, b)
    ensures source.head == o && i == 0 ==> Holds(cfg, w', WebPlace(cfg, o), WebFile(cfg, o, b).0)
    ensures source.head == o && i == 1 ==> Holds(cfg, w', ThumbPlace(cfg, o), ThumbFile(cfg, o, b).0)
    ensures source.head == o ==>
              FileAt(cfg, source, bytes, i) == if i == 0 then WebFile(cfg, o, b) else ThumbFile(cfg, o, b)
  {
    hide OriginalKey, DeriveKey, IsUpload;
    PlacesApart(cfg, o);
    if source.head != o {
      OtherPlaces(cfg, o, source.head, DERIVE_TIERS[i].0);
    }
  }

  ghost function FileAt(cfg: Config, source: Source, bytes: Bytes, i: nat): (Bytes, string)
    requires i < |DERIVE_TIERS|
  {
    cfg.resize(bytes, DERIVE_TIERS[i].1, source.head.contentType)
  }

  /** The original's bytes are still `b`, and a derived file that was right still is. */
  ghost predicate FilesKept(cfg: Config, w: World, w': World, o: Head, b: Bytes) {
    && (OriginalIs(w, o, b) ==> OriginalIs(w', o, b))
    && (Holds(cfg, w, WebPlace(cfg, o), WebFile(cfg, o, b).0) ==> Holds(cfg, w', WebPlace(cfg, o), WebFile(cfg, o, b).0))
    && (Holds(cfg, w, ThumbPlace(cfg, o), ThumbFile(cfg, o, b).0) ==>
          Holds(cfg, w', ThumbPlace(cfg, o), ThumbFile(cfg, o, b).0))
  }

  lemma SameFilesKept(cfg: Config, w: World, w': World, o: Head, b: Bytes)
    requires w'.db.objects == w.db.objects
    ensures FilesKept(cfg, w, w', o, b)
  {
  }

  // --- One step of a run ------------------------------------------------------------------------

  /** Where the step leaves the run itself. */
  ghost predicate Moved(cfg: Config, w: World, w': World, r: RunId, p: Run, o: Head, b: Bytes) {
    && FilesKept(cfg, w, w', o, b) && r in w'.runs && RunFrom(cfg, o, b, w'.runs[r])
    && (Written(cfg, w, o, b, p) ==> Written(cfg, w', o, b, w'.runs[r]))
  }

  lemma StepFiles(cfg: Config, w: World, r: RunId, draw: Draw, o: Head, b: Bytes)
    requires Inv(cfg, w) && r in w.runs && IsUpload(cfg, o) && Sole(w, o)
    requires OriginalIs(w, o, b) && RunFrom(cfg, o, b, w.runs[r])
    ensures Moved(cfg, w, AdvanceStep(cfg, w, r, w.runs[r], draw), r, w.runs[r], o, b)
  {
    var p := w.runs[r];
    RunOfRuns(cfg, w, r);
    InvParts(cfg, w);
    hide Inv, Sole, IsUpload, RunFrom, OriginalIs, Moved, AdvanceStep, RowsOk, DbOk;
    if p.Putting? {
      PutFrom(cfg, w, r, p.source, p.group, p.bytes, p.tier, draw, o, b);
    } else {
      OtherStep(cfg, w, r, p, draw, o, b);
    }
  }

  lemma InvParts(cfg: Config, w: World)
    requires Inv(cfg, w)
    ensures DbOk(w.db) && RowsOk(cfg, w)
  {
  }

  lemma PutFrom(
      cfg: Config, w: World, r: RunId, source: Source, g: Uuid, bytes: Bytes, i: nat, draw: Draw, o: Head, b: Bytes)
    requires DbOk(w.db) && RowsOk(cfg, w) && RunOk(cfg, w, Putting(source, g, bytes, i)) && IsUpload(cfg, o) && Sole(w, o)
    requires RunFrom(cfg, o, b, Putting(source, g, bytes, i))
    ensures var p := Putting(source, g, bytes, i); Moved(cfg, w, AdvanceStep(cfg, w, r, p, draw), r, p, o, b)
  {
    hide DbOk, RowsOk, RunOk, Sole, IsUpload, RunFrom, Written, FilesKept, Holds, SourceOk, HasSiblingsBelow, FileAt, WebPlace,
      ThumbPlace, WebFile, ThumbFile, SiblingPlace, PutStep;
    PutSource(cfg, w, source, g, bytes, i, o, b);
    PutStepIs(cfg, w, r, source, g, bytes, i);
    var p, w' := Putting(source, g, bytes, i), PutStep(cfg, w, r, source, g, bytes, i);
    PutFiles(cfg, w, w', o, b, source, bytes, i);
    WrittenAfterPut(cfg, w, w', o, b, source, g, bytes, i);
  }

  lemma PutStepIs(cfg: Config, w: World, r: RunId, source: Source, g: Uuid, bytes: Bytes, i: nat)
    requires i < |DERIVE_TIERS|
    ensures var file := FileAt(cfg, source, bytes, i);
            var w' := PutStep(cfg, w, r, source, g, bytes, i);
            && w'.db == Put(w.db, SiblingPlace(cfg, source.head, DERIVE_TIERS[i].0), Blob(file.0, cfg.etagOf(file.0)))
            && w'.runs == w.runs[r := Inserting(source, g, bytes, i, file)]
  {
    hide SiblingPlace;
  }

  lemma PutSource(cfg: Config, w: World, source: Source, g: Uuid, bytes: Bytes, i: nat, o: Head, b: Bytes)
    requires RowsOk(cfg, w) && RunOk(cfg, w, Putting(source, g, bytes, i)) && Sole(w, o)
    requires RunFrom(cfg, o, b, Putting(source, g, bytes, i))
    ensures i < |DERIVE_TIERS| && IsUpload(cfg, source.head)
    ensures source.head == o ==> bytes == b
    ensures source.head.uuid == o.uuid ==> source.head == o
  {
    hide HasSiblingsBelow, IsUpload;
    SourceIsUpload(cfg, w, source);
  }

  lemma WrittenAfterPut(
      cfg: Config, w: World, w': World, o: Head, b: Bytes, source: Source, g: Uuid, bytes: Bytes, i: nat)
    requires i < |DERIVE_TIERS| && (source.head == o ==> bytes == b) && FilesKept(cfg, w, w', o, b)
    requires source.head == o && i == 0 ==> Holds(cfg, w', WebPlace(cfg, o), WebFile(cfg, o, b).0)
    requires source.head == o && i == 1 ==> Holds(cfg, w', ThumbPlace(cfg, o), ThumbFile(cfg, o, b).0)
    requires source.head == o ==>
               FileAt(cfg, source, bytes, i) == if i == 0 then WebFile(cfg, o, b) else ThumbFile(cfg, o, b)
    ensures var p := Inserting(source, g, bytes, i, FileAt(cfg, source, bytes, i));
            && RunFrom(cfg, o, b, p)
            && (Written(cfg, w, o, b, Putting(source, g, bytes, i)) ==> Written(cfg, w', o, b, p))
  {
    hide WebPlace, ThumbPlace, WebFile, ThumbFile, Holds, FileAt;
  }

  lemma WrittenKept(cfg: Config, w: World, w': World, o: Head, b: Bytes, p: Run)
    requires FilesKept(cfg, w, w', o, b) && Written(cfg, w, o, b, p)
    ensures Written(cfg, w', o, b, p)
  {
    hide WebPlace, ThumbPlace, WebFile, ThumbFile, Holds, TiersPut;
  }

  lemma OtherStep(cfg: Config, w: World, r: RunId, p: Run, draw: Draw, o: Head, b: Bytes)
    requires DbOk(w.db) && r in w.runs && RunOk(cfg, w, p) && !p.Putting? && w.runs[r] == p
    requires OriginalIs(w, o, b) && RunFrom(cfg, o, b, p)
    ensures Moved(cfg, w, AdvanceStep(cfg, w, r, p, draw), r, p, o, b)
  {
    SameObjects(cfg, w, r, p, draw);
    OtherRun(cfg, w, r, p, draw, o, b);
    hide DbOk, RunOk, OriginalIs, RunFrom, AdvanceStep, TiersPut;
    SameFilesKept(cfg, w, AdvanceStep(cfg, w, r, p, draw), o, b);
    hide FilesKept;
    if Written(cfg, w, o, b, p) {
      WrittenKept(cfg, w, AdvanceStep(cfg, w, r, p, draw), o, b, p);
    }
  }

  lemma SameObjects(cfg: Config, w: World, r: RunId, p: Run, draw: Draw)
    requires DbOk(w.db) && !p.Putting?
    ensures AdvanceStep(cfg, w, r, p, draw).db.objects == w.db.objects
  {
    hide DbOk, SiblingPlace, SiblingHead, Loaded;
  }

  lemma OtherRun(cfg: Config, w: World, r: RunId, p: Run, draw: Draw, o: Head, b: Bytes)
    requires DbOk(w.db) && r in w.runs && RunOk(cfg, w, p) && !p.Putting? && w.runs[r] == p
    requires OriginalIs(w, o, b) && RunFrom(cfg, o, b, p)
    ensures var w' := AdvanceStep(cfg, w, r, p, draw);
            r in w'.runs && RunFrom(cfg, o, b, w'.runs[r]) && TiersPut(o, w'.runs[r]) <= TiersPut(o, p)
  {
    hide DbOk, SourceOk, GroupIs, HasSiblingsBelow, SiblingPlace, SiblingHead, WebFile, ThumbFile;
  }

  // --- One step of anyone -----------------------------------------------------------------------

  ghost predicate FilesInv(cfg: Config, w: World, o: Head, b: Bytes, r: RunId) {
    OriginalIs(w, o, b) && RunsFrom(cfg, w, o, b) && (r in w.runs ==> Written(cfg, w, o, b, w.runs[r]))
  }

  lemma NextFiles(cfg: Config, w: World, a: Action, o: Head, b: Bytes, r: RunId)
    requires Inv(cfg, w) && IsUpload(cfg, o) && Sole(w, o) && Harmless(cfg, o, b, a) && FilesInv(cfg, w, o, b, r)
    ensures FilesInv(cfg, Next(cfg, w, a), o, b, r)
  {
    InvParts(cfg, w);
    hide Inv, DbOk, RowsOk, IsUpload, Sole, Harmless, FilesInv, Next, AdvanceStep;
    if a.Advance? {
      if a.run in w.runs {
        AdvanceFiles(cfg, w, a.run, a.draw, o, b, r);
        AdvanceIs(cfg, w, a.run, a.draw);
      } else {
        AdvanceIs(cfg, w, a.run, a.draw);
      }
    } else {
      OthersKeepFiles(cfg, w, a, o, b);
      OthersKeepRuns(cfg, w, a, o, b, r);
      FilesInvCarries(cfg, w, Next(cfg, w, a), o, b, r);
    }
  }

  lemma AdvanceIs(cfg: Config, w: World, r: RunId, draw: Draw)
    requires DbOk(w.db)
    ensures Next(cfg, w, Advance(r, draw)) == if r in w.runs then AdvanceStep(cfg, w, r, w.runs[r], draw) else w
  {
    hide DbOk, AdvanceStep;
  }

  lemma AdvanceFiles(cfg: Config, w: World, q: RunId, draw: Draw, o: Head, b: Bytes, r: RunId)
    requires Inv(cfg, w) && q in w.runs && IsUpload(cfg, o) && Sole(w, o) && FilesInv(cfg, w, o, b, r)
    ensures FilesInv(cfg, AdvanceStep(cfg, w, q, w.runs[q], draw), o, b, r)
  {
    InvParts(cfg, w);
    hide Inv, DbOk, RowsOk, IsUpload, Sole, RunFrom, OriginalIs, Written, AdvanceStep, FilesKept;
    StepFiles(cfg, w, q, draw, o, b);
    OnlyRunMoves(cfg, w, q, draw);
    var w' := AdvanceStep(cfg, w, q, w.runs[q], draw);
    OriginalCarries(cfg, w, w', o, b);
    if r in w.runs && r != q {
      WrittenKept(cfg, w, w', o, b, w.runs[r]);
    }
  }

  lemma OriginalCarries(cfg: Config, w: World, w': World, o: Head, b: Bytes)
    requires FilesKept(cfg, w, w', o, b) && OriginalIs(w, o, b)
    ensures OriginalIs(w', o, b)
  {
  }

  lemma OnlyRunMoves(cfg: Config, w: World, r: RunId, draw: Draw)
    requires DbOk(w.db) && r in w.runs
    ensures forall q :: q != r ==>
              (q in AdvanceStep(cfg, w, r, w.runs[r], draw).runs <==> q in w.runs)
              && (q in w.runs ==> AdvanceStep(cfg, w, r, w.runs[r], draw).runs[q] == w.runs[q])
  {
    hide DbOk, SiblingPlace, SiblingHead, Loaded;
  }

  lemma OthersKeepFiles(cfg: Config, w: World, a: Action, o: Head, b: Bytes)
    requires DbOk(w.db) && !a.Advance? && Harmless(cfg, o, b, a)
    ensures FilesKept(cfg, w, Next(cfg, w, a), o, b)
  {
    hide DbOk, WebPlace, ThumbPlace, WebFile, ThumbFile, UploadRow, RequestOutcomeOf, ConfirmOutcomeOf, ConfirmedRow, AdvanceStep;
  }

  lemma OthersKeepRuns(cfg: Config, w: World, a: Action, o: Head, b: Bytes, r: RunId)
    requires DbOk(w.db) && !a.Advance? && RunsFrom(cfg, w, o, b)
    ensures RunsFrom(cfg, Next(cfg, w, a), o, b)
    ensures r in Next(cfg, w, a).runs ==>
              || TiersPut(o, Next(cfg, w, a).runs[r]) == 0
              || (r in w.runs && Next(cfg, w, a).runs[r] == w.runs[r])
  {
    hide DbOk, WebFile, ThumbFile, UploadRow, RequestOutcomeOf, ConfirmOutcomeOf, ConfirmedRow, AdvanceStep;
  }

  lemma FilesInvCarries(cfg: Config, w: World, w': World, o: Head, b: Bytes, r: RunId)
    requires FilesInv(cfg, w, o, b, r) && FilesKept(cfg, w, w', o, b) && RunsFrom(cfg, w', o, b)
    requires r in w'.runs ==> TiersPut(o, w'.runs[r]) == 0 || (r in w.runs && w'.runs[r] == w.runs[r])
    ensures FilesInv(cfg, w', o, b, r)
  {
    hide Holds, WebPlace, ThumbPlace, WebFile, ThumbFile, RunsFrom, TiersPut;
    OriginalCarries(cfg, w, w', o, b);
  }

  // --- The rows ---------------------------------------------------------------------------------

  lemma NextRows(cfg: Config, w: World, a: Action, o: Head, b: Bytes, before: set<Id>)
    requires Inv(cfg, w) && RunsFrom(cfg, w, o, b) && NewSiblingsAre(cfg, w, o, b, before)
    ensures NewSiblingsAre(cfg, Next(cfg, w, a), o, b, before)
  {
    InvParts(cfg, w);
    NextKeeps(cfg, w, a);
    hide Inv, DbOk, RowsOk, Next, Grows, SiblingIs, IsChild, RunsFrom, NewSiblingsAre;
    var w' := Next(cfg, w, a);
    forall id | IsChild(w', o, id) && id !in before
      ensures SiblingIs(cfg, o, b, w'.db.rows[id])
    {
      if id in w.db.rows {
        OldChild(cfg, w, w', o, b, id, before);
      } else {
        NewChild(cfg, w, a, o, b, id);
      }
    }
    NewSiblings(cfg, w', o, b, before);
  }

  lemma NewSiblings(cfg: Config, w: World, o: Head, b: Bytes, before: set<Id>)
    ensures (forall id :: IsChild(w, o, id) && id !in before ==> SiblingIs(cfg, o, b, w.db.rows[id])) ==>
              NewSiblingsAre(cfg, w, o, b, before)
  {
  }

  lemma OldChild(cfg: Config, w: World, w': World, o: Head, b: Bytes, id: Id, before: set<Id>)
    requires Grows(w, w') && RowsOk(cfg, w) && NewSiblingsAre(cfg, w, o, b, before)
    requires IsChild(w', o, id) && id !in before && id in w.db.rows
    ensures SiblingIs(cfg, o, b, w'.db.rows[id])
  {
    hide WebPlace, ThumbPlace, WebFile, ThumbFile, SiblingPlace;
    assert RowOk(cfg, w, id);
    var parent := w.log.parents[id];
    assert RowGrows(w.db.rows[id], w'.db.rows[id]) && RowGrows(w.db.rows[parent], w'.db.rows[parent]);
    assert IsChild(w, o, id);
  }

  /** The row an insert adds says the length and the type of the file its run has put. */
  lemma NewChild(cfg: Config, w: World, a: Action, o: Head, b: Bytes, id: Id)
    requires Inv(cfg, w) && RunsFrom(cfg, w, o, b)
    requires IsChild(Next(cfg, w, a), o, id) && id !in w.db.rows
    ensures SiblingIs(cfg, o, b, Next(cfg, w, a).db.rows[id])
  {
    InvParts(cfg, w);
    ParentsAreRows(cfg, w);
    NewParent(cfg, w, a, id);
    hide Inv, DbOk, RowsOk, RunOk, SiblingIs, RunFrom;
    var p := w.runs[a.run];
    RunOfRuns(cfg, w, a.run);
    AdvanceIs(cfg, w, a.run, a.draw);
    hide Next, AdvanceStep, IsChild;
    InsertedRow(cfg, w, a.run, p.source, p.group, p.bytes, p.tier, p.file, a.draw, o, b, id);
  }

  lemma NewParent(cfg: Config, w: World, a: Action, id: Id)
    requires DbOk(w.db) && id !in w.log.parents && id in Next(cfg, w, a).log.parents
    ensures a.Advance? && a.run in w.runs && w.runs[a.run].Inserting?
  {
    hide DbOk, SiblingPlace, SiblingHead, Loaded, UploadRow, RequestOutcomeOf, ConfirmOutcomeOf, ConfirmedRow;
  }

  lemma InsertedRow(
      cfg: Config, w: World, r: RunId, source: Source, g: Uuid, bytes: Bytes, i: nat, file: (Bytes, string), draw: Draw,
      o: Head, b: Bytes, id: Id)
    requires DbOk(w.db) && RunOk(cfg, w, Inserting(source, g, bytes, i, file))
    requires RunFrom(cfg, o, b, Inserting(source, g, bytes, i, file))
    requires var w' := AdvanceStep(cfg, w, r, Inserting(source, g, bytes, i, file), draw);
             IsChild(w', o, id) && id !in w.db.rows
    ensures SiblingIs(cfg, o, b, AdvanceStep(cfg, w, r, Inserting(source, g, bytes, i, file), draw).db.rows[id])
  {
    hide DbOk, HasSiblingsBelow, WebFile, ThumbFile, DeriveKey;
    NotNext(w.db, source.id);
  }

  // --- Whole runs -------------------------------------------------------------------------------

  lemma {:induction false} ExecFiles(
      cfg: Config, w: World, trace: seq<Action>, o: Head, b: Bytes, r: RunId, before: set<Id>)
    requires Inv(cfg, w) && IsUpload(cfg, o) && Sole(Exec(cfg, w, trace), o)
    requires forall a :: a in trace ==> Harmless(cfg, o, b, a)
    requires FilesInv(cfg, w, o, b, r) && NewSiblingsAre(cfg, w, o, b, before)
    ensures FilesInv(cfg, Exec(cfg, w, trace), o, b, r) && NewSiblingsAre(cfg, Exec(cfg, w, trace), o, b, before)
  {
    hide Inv, IsUpload, Sole, Harmless, FilesInv, NewSiblingsAre, Grows, Next, Exec;
    if trace == [] {
      ExecNothing(cfg, w);
    } else {
      var front, a := trace[..|trace| - 1], trace[|trace| - 1];
      assert front + [a] == trace;
      ExecSnoc(cfg, w, front, a);
      var v := Exec(cfg, w, front);
      NextKeeps(cfg, v, a);
      InvParts(cfg, v);
      SoleBefore(v, Next(cfg, v, a), o);
      ExecFiles(cfg, w, front, o, b, r, before);
      assert Harmless(cfg, o, b, a);
      NextFiles(cfg, v, a, o, b, r);
      RunsOf(cfg, v, o, b, r);
      NextRows(cfg, v, a, o, b, before);
    }
  }

  lemma ExecNothing(cfg: Config, w: World)
    requires Inv(cfg, w)
    ensures Exec(cfg, w, []) == w
  {
    hide Inv, Grows, Next;
  }

  lemma RunsOf(cfg: Config, w: World, o: Head, b: Bytes, r: RunId)
    requires FilesInv(cfg, w, o, b, r)
    ensures RunsFrom(cfg, w, o, b)
  {
  }

  /** The original at `dir` holds `b` whenever it is read: what lies there at first, and what anyone uploads
      there, is `b`, runs past their download have `b`, and nobody else writes the derived files. */
  ghost predicate Undisturbed(cfg: Config, w: World, trace: seq<Action>, o: Head, dir: string, b: Bytes) {
    && o.place.key == dir + "/original.jpg"
    && (o.place in w.db.objects ==> w.db.objects[o.place].bytes == b)
    && RunsFrom(cfg, w, o, b)
    && forall a :: a in trace && a.Upload? ==>
         && (a.place == o.place ==> a.blob.bytes == b)
         && a.place != Place(cfg.web, dir + "/web.jpg") && a.place != Place(cfg.thumb, dir + "/thumb.jpg")
  }

  lemma DerivedPlaces(cfg: Config, o: Head, dir: string)
    requires o.place.key == dir + "/original.jpg"
    ensures WebPlace(cfg, o) == Place(cfg.web, dir + "/web.jpg")
    ensures ThumbPlace(cfg, o) == Place(cfg.thumb, dir + "/thumb.jpg")
  {
    hide DeriveKey;
    DeriveKeyIn(dir, Web);
    DeriveKeyIn(dir, Thumb);
  }

  lemma StartsClean(cfg: Config, w: World, trace: seq<Action>, o: Head, dir: string, b: Bytes, r: RunId)
    requires Undisturbed(cfg, w, trace, o, dir, b) && RowsOk(cfg, w) && r !in w.runs
    ensures FilesInv(cfg, w, o, b, r) && NewSiblingsAre(cfg, w, o, b, w.db.rows.Keys)
    ensures forall a :: a in trace ==> Harmless(cfg, o, b, a)
  {
    hide RunFrom, Written, RowsOk;
    DerivedPlaces(cfg, o, dir);
    hide WebPlace, ThumbPlace;
  }

  lemma CompletedSource(cfg: Config, w: World, r: RunId)
    requires Inv(cfg, w) && r in w.runs && w.runs[r].Completed?
    ensures var source := w.runs[r].source;
            && source.id in w.db.rows && w.db.rows[source.id].head == source.head
            && IsUpload(cfg, source.head) && Sole(w, source.head)
            && HasSibling(cfg, w, source, Web) && HasSibling(cfg, w, source, Thumb)
  {
    hide ConfirmationsOk, FlagsOk, SiblingPlace, IsUpload, HasSibling, IsSibling;
    RunOfRuns(cfg, w, r);
    SourceIsUpload(cfg, w, w.runs[r].source);
    assert HasSibling(cfg, w, w.runs[r].source, DERIVE_TIERS[0].0);
    assert HasSibling(cfg, w, w.runs[r].source, DERIVE_TIERS[1].0);
  }

  /** After a run that completes, the web file is what resizing the original's bytes to 1920 gave and the
      thumb what resizing them to 320 gave, whatever other runs on it did in between; and a row derived
      from it since the run began is of the tier whose file it describes. */
  lemma DerivedFiles(cfg: Config, w: World, trace: seq<Action>, r: RunId, dir: string, b: Bytes)
    requires Inv(cfg, w) && r !in w.runs
    requires var w' := Exec(cfg, w, trace); r in w'.runs && w'.runs[r].Completed?
    requires Undisturbed(cfg, w, trace, Exec(cfg, w, trace).runs[r].source.head, dir, b)
    ensures var w' := Exec(cfg, w, trace);
            var source := w'.runs[r].source;
            var web, thumb := Place(cfg.web, dir + "/web.jpg"), Place(cfg.thumb, dir + "/thumb.jpg");
            var webFile := cfg.resize(b, 1920, source.head.contentType);
            var thumbFile := cfg.resize(b, 320, source.head.contentType);
            && web in w'.db.objects && w'.db.objects[web] == Blob(webFile.0, cfg.etagOf(webFile.0))
            && thumb in w'.db.objects && w'.db.objects[thumb] == Blob(thumbFile.0, cfg.etagOf(thumbFile.0))
            && forall id :: id in w'.log.parents && w'.log.parents[id] == source.id && id !in w.db.rows ==>
                 && id in w'.db.rows
                 && var row := w'.db.rows[id];
                    || (row.head.tier == Web && row.head.place == web
                        && row.content.byteSize == Some(|webFile.0|) && row.head.contentType == webFile.1)
                    || (row.head.tier == Thumb && row.head.place == thumb
                        && row.content.byteSize == Some(|thumbFile.0|) && row.head.contentType == thumbFile.1)
  {
    hide Inv, DbOk, RowsOk, Exec, Grows, Undisturbed, Harmless, FilesInv, NewSiblingsAre, IsUpload, Sole, HasSibling;
    var w' := Exec(cfg, w, trace);
    var o := w'.runs[r].source.head;
    InvParts(cfg, w);
    InvParts(cfg, w');
    ParentsAreRows(cfg, w');
    KeyOf(cfg, w, trace, o, dir, b);
    CompletedSource(cfg, w', r);
    StartsClean(cfg, w, trace, o, dir, b, r);
    ExecFiles(cfg, w, trace, o, b, r, w.db.rows.Keys);
    BothWritten(cfg, w', o, dir, b, r);
    var parent, webFile, thumbFile := w'.runs[r].source.id, cfg.resize(b, 1920, o.contentType), cfg.resize(b, 320, o.contentType);
    forall id | id in w'.log.parents && w'.log.parents[id] == parent && id !in w.db.rows
      ensures id in w'.db.rows
      ensures var row := w'.db.rows[id];
              || (row.head.tier == Web && row.head.place == Place(cfg.web, dir + "/web.jpg")
                  && row.content.byteSize == Some(|webFile.0|) && row.head.contentType == webFile.1)
              || (row.head.tier == Thumb && row.head.place == Place(cfg.thumb, dir + "/thumb.jpg")
                  && row.content.byteSize == Some(|thumbFile.0|) && row.head.contentType == thumbFile.1)
    {
      ChildAgrees(cfg, w', o, dir, b, w.db.rows.Keys, parent, id);
    }
  }

  lemma KeyOf(cfg: Config, w: World, trace: seq<Action>, o: Head, dir: string, b: Bytes)
    requires Undisturbed(cfg, w, trace, o, dir, b)
    ensures o.place.key == dir + "/original.jpg"
  {
  }

  lemma BothWritten(cfg: Config, w: World, o: Head, dir: string, b: Bytes, r: RunId)
    requires FilesInv(cfg, w, o, b, r) && r in w.runs && w.runs[r].Completed? && w.runs[r].source.head == o
    requires o.place.key == dir + "/original.jpg"
    ensures var web, thumb := Place(cfg.web, dir + "/web.jpg"), Place(cfg.thumb, dir + "/thumb.jpg");
            var webFile, thumbFile := cfg.resize(b, 1920, o.contentType), cfg.resize(b, 320, o.contentType);
            && web in w.db.objects && w.db.objects[web] == Blob(webFile.0, cfg.etagOf(webFile.0))
            && thumb in w.db.objects && w.db.objects[thumb] == Blob(thumbFile.0, cfg.etagOf(thumbFile.0))
  {
    hide WebPlace, ThumbPlace, RunsFrom, OriginalIs;
    DerivedPlaces(cfg, o, dir);
  }

  /** A row derived from the original `parent` since `before`. */
  lemma ChildAgrees(cfg: Config, w: World, o: Head, dir: string, b: Bytes, before: set<Id>, parent: Id, id: Id)
    requires NewSiblingsAre(cfg, w, o, b, before) && parent in w.db.rows && w.db.rows[parent].head == o
    requires id in w.log.parents && id in w.db.rows && w.log.parents[id] == parent && id !in before
    requires o.place.key == dir + "/original.jpg"
    ensures var row := w.db.rows[id];
            var webFile, thumbFile := cfg.resize(b, 1920, o.contentType), cfg.resize(b, 320, o.contentType);
            || (row.head.tier == Web && row.head.place == Place(cfg.web, dir + "/web.jpg")
                && row.content.byteSize == Some(|webFile.0|) && row.head.contentType == webFile.1)
            || (row.head.tier == Thumb && row.head.place == Place(cfg.thumb, dir + "/thumb.jpg")
                && row.content.byteSize == Some(|thumbFile.0|) && row.head.contentType == thumbFile.1)
  {
    hide WebPlace, ThumbPlace;
    DerivedPlaces(cfg, o, dir);
    assert IsChild(w, o, id);
  }

  /** The two files of the original at `dir`. */
  ghost predicate FilesAt(cfg: Config, w: World, contentType: string, dir: string, b: Bytes) {
    var web, thumb := Place(cfg.web, dir + "/web.jpg"), Place(cfg.thumb, dir + "/thumb.jpg");
    && web in w.db.objects && w.db.objects[web].bytes == cfg.resize(b, 1920, contentType).0
    && thumb in w.db.objects && w.db.objects[thumb].bytes == cfg.resize(b, 320, contentType).0
  }

  lemma FilesAfterRun(cfg: Config, w: World, trace: seq<Action>, r: RunId, id: Id)
    requires Inv(cfg, w) && r !in w.runs
    requires var w' := Exec(cfg, w, trace); r in w'.runs && w'.runs[r].Completed? && w'.runs[r].source.id == id
    ensures var w' := Exec(cfg, w, trace);
            && id in w'.db.rows
            && forall dir, b :: Undisturbed(cfg, w, trace, w'.db.rows[id].head, dir, b) ==>
                 FilesAt(cfg, w', w'.db.rows[id].head.contentType, dir, b)
  {
    hide Inv, Exec, Grows, Undisturbed, HasSibling, IsUpload, Sole, FilesAt;
    var w' := Exec(cfg, w, trace);
    CompletedSource(cfg, w', r);
    var o := w'.db.rows[id].head;
    forall dir, b | Undisturbed(cfg, w, trace, o, dir, b)
      ensures FilesAt(cfg, w', o.contentType, dir, b)
    {
      FilesOfRun(cfg, w, trace, r, dir, b);
    }
  }

  lemma FilesOfRun(cfg: Config, w: World, trace: seq<Action>, r: RunId, dir: string, b: Bytes)
    requires Inv(cfg, w) && r !in w.runs
    requires var w' := Exec(cfg, w, trace); r in w'.runs && w'.runs[r].Completed?
    requires Undisturbed(cfg, w, trace, Exec(cfg, w, trace).runs[r].source.head, dir, b)
    ensures var w' := Exec(cfg, w, trace); FilesAt(cfg, w', w'.runs[r].source.head.contentType, dir, b)
  {
    hide Inv, Exec, Grows, Undisturbed;
    DerivedFiles(cfg, w, trace, r, dir, b);
  }

  /** From the empty table: if every upload to the original's place brought `b` and none went to the derived
      ones, the row of each tier of a completed run is there, verified, in the run's group, and says the
      length and the type of its own file. */
  lemma DerivedRows(cfg: Config, trace: seq<Action>, r: RunId, dir: string, b: Bytes)
    requires var w := Reached(cfg, trace); r in w.runs && w.runs[r].Completed?
    requires var o := Reached(cfg, trace).runs[r].source.head;
             && o.place.key == dir + "/original.jpg"
             && forall a :: a in trace && a.Upload? ==>
                  && (a.place == o.place ==> a.blob.bytes == b)
                  && a.place != Place(cfg.web, dir + "/web.jpg") && a.place != Place(cfg.thumb, dir + "/thumb.jpg")
    ensures var w := Reached(cfg, trace);
            var contentType := w.runs[r].source.head.contentType;
            && RowAt(w, Place(cfg.web, dir + "/web.jpg"), Web, w.runs[r].group, cfg.resize(b, 1920, contentType))
            && RowAt(w, Place(cfg.thumb, dir + "/thumb.jpg"), Thumb, w.runs[r].group, cfg.resize(b, 320, contentType))
  {
    hide Inv, Exec, Grows, Undisturbed, HasSibling, IsUpload, Sole, RowAt, TiersPresent, RowsSay;
    var w := Reached(cfg, trace);
    EmptyOk(cfg);
    StartsAtEmpty(cfg, trace, w.runs[r].source.head, dir, b);
    RowsOfRun(cfg, trace, r, dir, b);
    CompletedHasTiers(cfg, w, r);
    CompletedSource(cfg, w, r);
    RowIsAt(cfg, w, w.runs[r].source, w.runs[r].group, dir, b);
  }

  /** Rows derived from `parent` describe the two files. */
  ghost predicate RowsSay(cfg: Config, w: World, parent: Id, contentType: string, dir: string, b: Bytes) {
    var webFile, thumbFile := cfg.resize(b, 1920, contentType), cfg.resize(b, 320, contentType);
    forall id :: id in w.log.parents && w.log.parents[id] == parent ==>
      && id in w.db.rows
      && var row := w.db.rows[id];
         || (row.head.tier == Web && row.head.place == Place(cfg.web, dir + "/web.jpg")
             && row.content.byteSize == Some(|webFile.0|) && row.head.contentType == webFile.1)
         || (row.head.tier == Thumb && row.head.place == Place(cfg.thumb, dir + "/thumb.jpg")
             && row.content.byteSize == Some(|thumbFile.0|) && row.head.contentType == thumbFile.1)
  }

  lemma RowsOfRun(cfg: Config, trace: seq<Action>, r: RunId, dir: string, b: Bytes)
    requires var w := Reached(cfg, trace); r in w.runs && w.runs[r].Completed?
    requires Undisturbed(cfg, EMPTY, trace, Reached(cfg, trace).runs[r].source.head, dir, b)
    ensures var w := Reached(cfg, trace);
            RowsSay(cfg, w, w.runs[r].source.id, w.runs[r].source.head.contentType, dir, b)
  {
    hide Inv, Exec, Grows, Undisturbed;
    EmptyOk(cfg);
    DerivedFiles(cfg, EMPTY, trace, r, dir, b);
  }

  ghost predicate RowAt(w: World, place: Place, tier: Tier, g: Uuid, file: (Bytes, string)) {
    && place in w.db.byPlace && w.db.byPlace[place] in w.db.rows
    && var row := w.db.rows[w.db.byPlace[place]];
    && row.head.place == place && row.head.tier == tier && row.group == Some(g)
    && row.state == Confirmed && row.verifiedAt.Some?
    && row.content.byteSize == Some(|file.0|) && row.head.contentType == file.1
  }

  lemma StartsAtEmpty(cfg: Config, trace: seq<Action>, o: Head, dir: string, b: Bytes)
    requires o.place.key == dir + "/original.jpg"
    requires forall a :: a in trace && a.Upload? ==>
               && (a.place == o.place ==> a.blob.bytes == b)
               && a.place != Place(cfg.web, dir + "/web.jpg") && a.place != Place(cfg.thumb, dir + "/thumb.jpg")
    ensures Undisturbed(cfg, EMPTY, trace, o, dir, b)
  {
  }

  lemma RowIsAt(cfg: Config, w: World, source: Source, g: Uuid, dir: string, b: Bytes)
    requires TiersPresent(cfg, w, source.id) && w.db.rows[source.id].head == source.head
    requires w.db.rows[source.id].group == Some(g)
    requires HasSibling(cfg, w, source, Web) && HasSibling(cfg, w, source, Thumb)
    requires RowsSay(cfg, w, source.id, source.head.contentType, dir, b) && source.head.place.key == dir + "/original.jpg"
    ensures RowAt(w, Place(cfg.web, dir + "/web.jpg"), Web, g, cfg.resize(b, 1920, source.head.contentType))
    ensures RowAt(w, Place(cfg.thumb, dir + "/thumb.jpg"), Thumb, g, cfg.resize(b, 320, source.head.contentType))
  {
    DerivedPlaces(cfg, source.head, dir);
    hide DeriveKey;
  }
}
