# A verified model of the c5 backend

The backend takes in what inspectors record offline, keeps media, dictionaries and configuration, and
exports and aggregates the result. This project models its transactional protocols in Dafny 4.11 and
proves what they promise over whole runs. `dafny verify dfyconfig.toml` checks all of it.

Tables are maps of rows with their unique indexes, foreign keys and id sequences, taken from
`backend/db/migrations/000001_init.up.sql`. A statement is one atomic function of that state; a
transaction or savepoint that fails puts the rows back, but not the id sequences.

- **Offline batch sync.** `SyncModel`, `SyncTables` and `SyncStore` hold the rows, indexes and constraints;
  `SyncSpec` is a specification keyed by client_uuid alone, without server ids, savepoints or id maps;
  `SyncApply` and `SyncService` are the code's steps as functions on ids and as methods on a transaction;
  `SyncRefine` and `SyncBatch` prove that the one refines the other, answer by answer. On the
  specification, `SyncReplay` proves idempotence and `SyncConfluence` confluence; `SyncRuns` carries both
  back to chains of calls on the tables. `SyncMeaning` says what is stored and answered in the fields of the
  request and the rows alone. `InspectionFinish` closes an inspection over the result.
- **Media lifecycle and derive worker.** `MediaTable` has the statements, `MediaMachine` the state machine of
  small steps, `MediaProofs` its invariant, `MediaRuns` the theorems over runs, `MediaFiles` which bytes the
  derived files hold, and `MediaService` the methods, each proved to be steps of that machine with anyone's
  steps in between. `MediaKeys` and `Decimals` prove at the level of characters that keys of distinct uploads
  never meet.
- **Dictionary and configuration.** `DictHash` is the hashed text and exactly when it determines the rows,
  `DictCatalog` the stored hash as a cache, `DictCache` the clients that revalidate it (section 13.1.2 of
  RFC 9110), `DictService` the methods, `DictRace` item transactions that interleave, `ConfigSwap` the
  versioned write under races.
- **The rest.** `RateLimit`, `BoxScale`, `ProblemAudit`, `ExportFilter`, `ExportPaging`, `ExportStream` and
  `StatsConservation`. `Ordering` and `Wrappers` are shared helpers.

How to read a main result: the methods follow the code statement by statement and tie the state after to a
function of the state before; that function's properties are the lemmas. What is stored is also said column by
column, in postconditions and lemmas that do not name that function. For the derive worker the interleaving is
an input: `HandleDeriveTiers` takes, for each of its statements, the steps others take before it and whether it
fails, so its contract holds for every schedule.

Where the code falls short of its own comments or of what one might expect, a lemma names an input, and
another says exactly when the property holds:

- `hashItems` is said to change iff any item field changes (`backend/internal/dict/model.go:82-85`). A `|` in a
  text is not escaped: `UniqueIffPipeFree` and `UniqueAmongAllIff` say which lists their text determines,
  newlines do no harm, and `BarChangesUnseen` is an input. `extra` is not hashed (`ExtraChangesUnseen`). Seeded
  types carry an md5 of another text until their first change (`backend/db/migrations/000002_seed.up.sql:195-205`).
  `NotModifiedIff` says exactly when 304 is answered, `ChangeUnseenIff` which changes a client does not notice.
- The payloads with and without retired items share one tag (`OtherFlagUnseen`): `PayloadCurrentIff` says when a
  client that is told 304 holds the payload it asked for. A pull reads the type and its items in two statements
  (`TornPullUnseen`); `NotModifiedMeansCurrent` says what that does to a 304.
- The rehash in the same transaction is said to keep hash and items together (`backend/internal/dict/repo.go:447-450`).
  Under READ COMMITTED two transactions can each miss the other's item (`LostRow`); `StoredHashIff` and
  `CreatesIff` say exactly when the stored hash is that of the items.
- The pages of an export are separate statements (`ArrivalRepeatsRow`); `SheetIsListIff` says when the sheet is
  the list.
- The reaper is said to keep originals out of the derive path (`backend/internal/media/reaper.go:20-25`).
  Confirmation does not look at its mark: `DerivableIffReportFits` is its whole condition, and
  `ReapedUploadStillDerives` an input.
- `ListLogs` orders by the start time of the writing transaction, which need not be the order of the row lock
  (`OverlapBreaksListing`). `ListingOrderIff` says when the two orders are the same; in id order the chain
  always holds (`StatusChain`).
- A batch resolves a soft-deleted inspection that it carries itself, a later batch does not
  (`DeletedInspectionCounterexample`); no statement of the backend soft-deletes an inspection, so such a row
  comes from elsewhere. `FreshBatchIff` and `CutIff` say when a boundary between batches shows; a
  conflict-free outbox meets no soft-deleted row.
- A window of the limiter is closed at both ends in milliseconds, so the bound of any half-open interval is
  2 * max - 1, one less than two full windows; it is a bound on the requests counted, and `LetThroughBound`
  adds those that met an error, which are let through.
- A change of `total_rows` alone is never sent to the client of an event stream (`TotalCanBeStale`);
  `TotalIsCurrentIff` says when the total shown is current.

## Model

| member | source | states |
|---|---|---|
| `SyncTables.UpsertReturningId` | backend/internal/sync/result.go:24-38 | insert, or on a client_uuid conflict the re-select: exact new table, sequence and answer in each case; a violated CHECK has drawn an id, a parameter that does not encode has not |
| `SyncTables.SameKeysSameTable` | backend/internal/sync/result.go:24-38 | two well-formed tables over the same uuids, one keeping the other's rows, are one table |
| `SyncStore.WithInspectionOk` | backend/internal/sync/service.go:109-156 | inserting an inspection keeps every constraint and adds exactly that row to the uuid-level view |
| `SyncStore.WithPointOk` | backend/internal/sync/service.go:163-219 | the same for a point, with (inspection, seq) staying unique and the parent existing |
| `SyncStore.WithProblemOk` | backend/internal/sync/service.go:226-300 | the same for a problem with its optional inspection |
| `SyncStore.WithMediaOk` | backend/internal/sync/service.go:307-358 | the same for a media row, with (bucket, key) staying unique |
| `SyncStore.SameViewSameTables` | backend/internal/sync/service.go:64-104 | tables that only grew and show the same view are the same tables, server ids included |
| `SyncSpec.RunConcat` | backend/internal/sync/service.go:64-104 | a run of events splits anywhere |
| `SyncRefine.ResolveInspectionMeans` | backend/internal/sync/service.go:163-184 | the batch map, then the table, resolve an inspection exactly when the specification does |
| `SyncRefine.ResolveOwnerMeans` | backend/internal/sync/service.go:364-398 | a media owner resolves exactly when the specification's does, and to the id of that uuid: for problems the map adds nothing to the table lookup |
| `SyncRefine.InspectionRefines` | backend/internal/sync/service.go:109-156 | one inspection item: view, map, status and reason are the specification's, and the tables stay well formed |
| `SyncRefine.PointRefines` | backend/internal/sync/service.go:163-219 | one trajectory point, with INSPECTION_NOT_FOUND, SEQ_CONFLICT and INVALID_GEOM told apart |
| `SyncRefine.ProblemRefines` | backend/internal/sync/service.go:226-300 | one problem, soft-deleted rows and foreign keys included |
| `SyncRefine.MediaRefines` | backend/internal/sync/service.go:307-358 | one media item |
| `SyncRefine.ApplyRefines` | backend/internal/sync/service.go:109-358 | any item on any well-formed tables: the step on ids, indexes and maps is the step of the uuid-keyed specification |
| `SyncBatch.BatchGrows` | backend/internal/sync/service.go:64-104 | every prefix of a batch answers and changes the tables as the specification says |
| `SyncService.Tx.RollbackTo` | backend/internal/platform/db/tx.go:38-51 | a rolled back savepoint restores every row; only id sequences stay advanced |
| `SyncService.UpsertInspection` | backend/internal/sync/service.go:109-156 | the method is the step of ApplyRefines; a rejected item leaves tables and map as before. `SyncMeaning` says what that step stores and answers column by column |
| `SyncService.UpsertTrajectoryPoint` | backend/internal/sync/service.go:163-219 | the same for a point |
| `SyncService.UpsertProblem` | backend/internal/sync/service.go:226-300 | the same for a problem |
| `SyncService.UpsertMedia` | backend/internal/sync/service.go:307-358 | the same for a media item |
| `SyncService.ResolveDictVersion` | backend/internal/sync/service.go:404-417 | the supplied version, else the current one, else 1 |
| `SyncService.ResolveMediaOwner` | backend/internal/sync/service.go:364-398 | the map, then the live rows of the owner's table |
| `SyncService.InspectionPass` | backend/internal/sync/service.go:72-77 | the first pass carries the batch's refinement through its items |
| `SyncService.TrajectoryPass` | backend/internal/sync/service.go:78-84 | the second pass |
| `SyncService.ProblemPass` | backend/internal/sync/service.go:85-90 | the third pass |
| `SyncService.MediaPass` | backend/internal/sync/service.go:91-96 | the fourth pass |
| `SyncService.Bucketize` | backend/internal/sync/result.go:122-145 | results in order, and the sublist of each status, absent when empty |
| `SyncService.Process` | backend/internal/sync/service.go:64-104 | a committed batch is exactly the specification's run on the uuid-level view with exactly its answers, touching no stored row, and every item it accepts is there as it was sent; a batch that does not commit changes no row |
| `SyncMeaning.ViewIsTheTables` | backend/db/migrations/000001_init.up.sql:322-487 | the uuid-level view has one entry per stored row with every column of it, and ids turned into the uuids of the rows they name |
| `SyncMeaning.AcceptedIsStored` | backend/internal/sync/service.go:109-358 | after a committed batch each accepted item's row has exactly what was sent; the acting user, IN_PROGRESS, {}, the current dictionary version or 1, ap-guangzhou and image/jpeg stand for what was not |
| `SyncMeaning.ResultSays` | backend/internal/sync/result.go:40-145 | results are in item order under the items' uuids; one that is not rejected has the id of the item's row in its own table, a rejected one a reason and no id |
| `SyncMeaning.StepAddsOne` | backend/internal/sync/service.go:109-358 | an accepted item adds its own row and changes no other, any other answer changes nothing; the batch remembers the inspections it stored or found |
| `SyncMeaning.InspectionAnswer` | backend/internal/sync/service.go:109-156 | exactly when an inspection is rejected for its status or times, a duplicate, rejected for a missing reference, accepted |
| `SyncMeaning.PointAnswer` | backend/internal/sync/service.go:163-219 | the same for a point: geometry, unknown inspection, sequence number out of range or taken |
| `SyncMeaning.ProblemAnswer` | backend/internal/sync/service.go:226-300 | the same for a problem: geometry, unknown inspection, dictionary version, deleted row, missing reference |
| `SyncMeaning.MediaAnswer` | backend/internal/sync/service.go:307-358 | the same for a media item: owner, literals and sizes, deleted row, taken place |
| `SyncMeaning.BucketsHoldAll` | backend/internal/sync/result.go:122-145 | each sublist has exactly the results with its status and the three have as many as there are results |
| `SyncReplay.ReplaySpec` | backend/internal/sync/service.go:64-358 | for every view and batch, uuids repeating inside it or not: run again it adds nothing, accepts nothing, and answers duplicate wherever it was not rejected |
| `SyncReplay.ReplayChangesNothing` | backend/internal/sync/service.go:64-358 | on the tables: the second run changes no row and returns the same server ids |
| `SyncConfluence.AnsweredIffParentLive` | backend/internal/sync/service.go:109-398 | in a conflict-free outbox an item is not rejected exactly when its parent is live |
| `SyncConfluence.MergedIsUnique` | backend/internal/sync/service.go:64-219 | there is one database that holds what was there plus the outbox |
| `SyncConfluence.TimelyRunMerges` | backend/internal/sync/service.go:64-219 | a run in which every item comes at least once after its parent reaches it |
| `SyncConfluence.Confluence` | backend/internal/sync/service.go:64-219 | any two such runs, whatever their batches, orders, repetitions and retries, end in one uuid-level database |
| `SyncRuns.ChainIsRun` | backend/internal/sync/service.go:64-104 | a chain of calls on the tables, failed commits among them, is one run of the specification |
| `SyncRuns.ChainsConverge` | backend/internal/sync/service.go:64-219 | two chains from one store that are timely for one outbox end in the same view |
| `SyncRuns.SameViewSameClosing` | backend/internal/inspection/service.go:265-336 | equal views close an inspection to the same route, point count, mileage and every other column, whatever its server id |
| `SyncRuns.SameClosingAfterChains` | backend/internal/inspection/service.go:265-336 | two timely chains of one outbox, then closing: the same row for an inspection, whatever its server id |
| `SyncRuns.WholeOutboxIsTimely` | backend/internal/sync/service.go:64-104 | after anything at all, one batch with the whole outbox is enough: the pass order puts parents first |
| `SyncRuns.SameAnswerIff` | backend/internal/sync/service.go:109-398 | two batches on one database answer an item alike if and only if they do not differ over having synced its parent inspection while that is not live |
| `SyncRuns.FreshBatchIff` | backend/internal/sync/service.go:109-398 | the answer in the running batch is the one in a fresh batch if and only if the parent inspection is not both synced by this batch and not live |
| `SyncRuns.CutIff` | backend/internal/sync/service.go:64-104 | cutting a batch in two changes no later answer if and only if no later item meets such a parent, and then the database ends the same |
| `SyncRuns.DeletedInspectionCounterexample` | backend/internal/sync/service.go:143-153 | the input: over a soft-deleted inspection a point is stored in the inspection's batch and rejected in the next |
| `InspectionFinish.SamplesAreTheView` | backend/internal/inspection/service.go:290-336 | what closing reads depends on the uuid-level view only |
| `InspectionFinish.SameViewSameRoute` | backend/internal/inspection/service.go:290-336 | two databases with one view give one route |
| `InspectionFinish.ClosedRowMeans` | backend/internal/inspection/service.go:265-336 | the closed row: no route below two points, else a line through every point once in increasing seq order with the mileage its length, for two points the metric from the lower to the higher seq; the point count and the end are exact, the duration is the elapsed time to the nearest second, the note is the one supplied or else the old one, and the row meets the table's CHECK |
| `InspectionFinish.Finish` | backend/internal/inspection/service.go:265-336 | closes exactly a live session in progress that does not end before it began, with each of the three errors on its own condition; otherwise nothing changes |
| `InspectionFinish.OneSegment` | backend/internal/inspection/service.go:304-315 | a line of one segment is as long as the metric between its ends, a single point has no length |
| `InspectionFinish.LengthSplits` | backend/internal/inspection/service.go:304-315 | a line is as long as its parts on both sides of any of its points |
| `InspectionFinish.AcceptedIsFinishable` | backend/internal/sync/service.go:109-156 | an inspection that a batch accepted without a status is stored as sent and can be closed at exactly the times not before its start |
| `MediaKeys.LastSlashOf` | backend/internal/media/keys.go:33-38 | the last slash of dir/file is the one between them |
| `MediaKeys.UuidTextInjective` | backend/internal/media/keys.go:21-23 | distinct uuids have distinct canonical texts |
| `MediaKeys.DeriveKeyOfOriginal` | backend/internal/media/keys.go:21-38 | a derived key is the tier's file in the upload's own directory |
| `MediaKeys.KeysDisjoint` | backend/internal/media/keys.go:21-38 | keys of two uploads, of any of the three tiers, are equal only for one uuid and one tier |
| `MediaProofs.UploadPlaceIsFree` | backend/internal/media/service.go:194-228 | a credential request with a new uuid never meets a taken (bucket, key) |
| `MediaProofs.RequestKeeps` | backend/internal/media/service.go:194-228 | a credential request keeps the invariant |
| `MediaProofs.ConfirmKeeps` | backend/internal/media/service.go:248-327 | a confirmation keeps it: one log entry per confirmed upload, with the stored tag and size |
| `MediaProofs.ReapKeeps` | backend/internal/media/reaper.go:52-66 | a reaper pass keeps it: the sets flagged by passes are disjoint |
| `MediaProofs.GroupKeeps` | backend/internal/media/worker.go:184-195 | fixing the group keeps it: the first run decides, all others adopt |
| `MediaProofs.RowAtDerivedPlace` | backend/internal/media/worker.go:199-210 | a row already at the derived place is this original's sibling of that tier |
| `MediaProofs.InsertKeeps` | backend/internal/media/worker.go:199-210 | the insert leaves the tier's sibling there, whoever made it |
| `MediaProofs.AdvanceKeeps` | backend/internal/media/worker.go:72-129 | every statement of a derive run, from any point, keeps the invariant |
| `MediaProofs.NextKeeps` | backend/internal/media/worker.go:72-210 | every step of anyone keeps the invariant, and only grows the tables: groups stay, ranks never fall, confirmed rows keep tag, size and verification |
| `MediaRuns.Exec` | backend/internal/media/state.go:26-37 | over any run rows, groups, ranks, confirmations and marks only grow |
| `MediaRuns.SiblingsAgree` | backend/internal/media/worker.go:72-210 | after any interleaving of runs, crashes and retries: every derived row has its original's group, and there is at most one per tier |
| `MediaRuns.CompletedHasTiers` | backend/internal/media/worker.go:110-129 | a completed run left a row for both tiers, verified, stored, in the original's group and with its owner; a soft-deleted row counts, see TiersStayLive |
| `MediaRuns.TiersStayPresent` | backend/internal/media/worker.go:72-210 | nothing that happens later takes those rows away; a soft-deleted row counts, see TiersStayLive |
| `MediaRuns.TiersStayLive` | backend/internal/media/worker.go:72-210 | after any run the rows of both tiers of a completed job are live, unless the run soft-deletes that very row |
| `MediaRuns.DeletedOnlyOnRequest` | backend/internal/media/worker.go:199-210 | after any run a row is soft-deleted only if a step of the run deleted it |
| `MediaRuns.ConfirmedMeansVerified` | backend/internal/media/service.go:248-327 | a confirmed row has verified_at; an upload has exactly one confirmation, with the tag and size in the row, and that one asked for a derive run |
| `MediaRuns.ReapFlagsOnce` | backend/internal/media/reaper.go:52-66 | a pass flags no row that an earlier pass flagged |
| `MediaRuns.MarkedByOnePass` | backend/internal/media/reaper.go:52-66 | after any run a row bears the mark if and only if some pass flagged it, and then exactly one did |
| `MediaRuns.OnlyReapMarks` | backend/internal/media/reaper.go:52-66 | whatever the step, a row gains the mark if and only if a pass finds it live, UPLOADING and stale; nothing else of the row changes |
| `MediaRuns.DerivableIffReportFits` | backend/internal/media/service.go:248-327 | in any reachable state a confirmation puts an unconfirmed row into the derive path if and only if uuid, key, tag and size fit the row and its stored object, it is a live original and its state may become CONFIRMED: the mark plays no part |
| `MediaRuns.ReapedUploadStillDerives` | backend/internal/media/reaper.go:20-25 | the input: a reaped upload that is confirmed afterwards and then derives |
| `MediaTable.NormalTagIs` | backend/internal/media/keys.go:40-45 | whatever quotes stand around a tag, what is compared is the text between them with capital letters made small |
| `MediaFiles.ExecFiles` | backend/internal/media/worker.go:72-210 | over any interleaving: runs that loaded one original carry its bytes and their own tier's file, and no other upload's run writes its three places |
| `MediaFiles.DerivedFiles` | backend/internal/media/worker.go:47-129 | after a run that completes with no foreign upload to the three places: web.jpg in the web bucket is the original's bytes resized to 1920, thumb.jpg in the thumb bucket those resized to 320, and each row derived since the run began has the length and type of its own tier's file |
| `MediaFiles.DerivedRows` | backend/internal/media/worker.go:110-129 | from the empty table: the rows of both tiers are there, verified, in the run's group, each with the length and type of its own file |
| `MediaService.MediaPool.IssueUploadCredentials` | backend/internal/media/service.go:152-228 | the request is one step of the machine; which error when; a new upload's row and key column by column; a replay gets the key of the first request and changes nothing |
| `MediaService.MediaPool.ConfirmUpload` | backend/internal/media/service.go:248-327 | the confirmation is one step; the derive flag is set exactly when the report fits a live unconfirmed row and its stored object, then that row is confirmed column by column, otherwise nothing changes |
| `MediaService.MediaPool.ReapStale` | backend/internal/media/reaper.go:52-66 | the pass is one step, marks exactly the live UPLOADING rows older than the cutoff and not marked before, and counts them |
| `MediaService.MediaPool.LoadOriginal` | backend/internal/media/worker.go:146-176 | live, original tier and CONFIRMED, or dropped |
| `MediaService.MediaPool.EnsureGroup` | backend/internal/media/worker.go:184-195 | sets the group to the drawn one unless the row has one, and returns the group the row then has |
| `MediaService.MediaPool.InsertSibling` | backend/internal/media/worker.go:199-210 | inserts a verified row with the original's owner, region and creator, or does nothing when the place is taken |
| `MediaService.MediaPool.HandleDeriveTiers` | backend/internal/media/worker.go:72-129 | the derive job, with any steps of others between its statements and failures anywhere, is a run of the machine made of its own steps and exactly those of the schedule, in order; when it is done both tiers are present, and if nobody else wrote the three places web.jpg is the original at 1920 and thumb.jpg at 320; it is dropped if and only if the original is not fit to derive when it is read |
| `DictHash.BuildPreimage` | backend/internal/dict/model.go:88-106 | the builder loop writes the serialization |
| `DictHash.TextIs` | backend/internal/dict/model.go:88-106 | the text written out: one line per row with its six columns between bars |
| `DictHash.RoundTrip` | backend/internal/dict/model.go:88-106 | a parser recovers every row list without a bar in its texts, newlines allowed |
| `DictHash.SerializeInjective` | backend/internal/dict/model.go:88-106 | two such lists with one text are one list |
| `DictHash.UniqueIffPipeFree` | backend/internal/dict/model.go:88-106 | among lists of one length a list is the only one with its text if and only if it has no bar |
| `DictHash.UniqueAmongAllIff` | backend/internal/dict/model.go:88-106 | among all lists a list is the only one with its text if and only if it has no bar and at most one row |
| `DictHash.TextChangesWithLine` | backend/internal/dict/model.go:88-106 | changing one row changes the text if and only if it changes that row's line |
| `DictHash.TwoRowsCollide` | backend/internal/dict/model.go:88-106 | any two rows share their text with one row |
| `DictCatalog.LiveRowsSame` | backend/internal/dict/repo.go:451-475 | the hashed rows depend on the type's live items only |
| `DictCatalog.WriteKeeps` | backend/internal/dict/repo.go:451-492 | writing one item, whatever its texts, and rehashing its type keeps every type's hash right |
| `DictCatalog.ApplyKeeps` | backend/internal/dict/service.go:120-249 | every transaction, whatever the texts, keeps each stored hash equal to the hash of the id-ordered live items, or still the seed's over the seed's items |
| `DictCache.UnquoteOfQuote` | backend/internal/dict/service.go:322-336 | the tag sent, quoted or weakened, matches exactly its own hash |
| `DictCache.NotModifiedIff` | backend/internal/dict/service.go:90-249 | after any run of changes and pulls, whatever the texts, 304 is answered if and only if the live items serialize to the text of those that stood when the type's row was read for the client's last full answer and the type has not left its seed in between |
| `DictCache.NotModifiedMeansCurrent` | backend/internal/dict/service.go:90-249 | with no bar in those two lists a 304 means that the live items are those of that read, on the hashed fields; the client has them if and only if its second read saw the same |
| `DictCache.PayloadCurrentIff` | backend/internal/dict/service.go:90-113 | a client current on the hashed fields holds the payload it asks for if and only if it asks with the flag it pulled with or no item is retired: both payloads share one tag |
| `DictCache.NotModifiedPayloadIff` | backend/internal/dict/service.go:90-249 | the same for every 304 after any run, to a client whose two reads saw the same |
| `DictCache.OtherFlagUnseen` | backend/internal/dict/service.go:90-113 | the input: with a retired item, a client that pulled with either flag and asks with the other gets 304 and does not hold the payload it asks for |
| `DictCache.TornPullUnseen` | backend/internal/dict/service.go:90-113 | the input: a caption changed between the two reads of a pull and changed back later gets 304 while the client holds the caption of the moment in between |
| `DictCache.ChangeUnseenIff` | backend/internal/dict/service.go:115-249 | whatever the change: after a pull it is answered 304 if and only if the text is as before and the type had left its seed |
| `DictCache.UpdateUnseenIff` | backend/internal/dict/service.go:167-211 | a successful update after a pull is answered 304 if and only if the item's line in the hashed text is as before and the type had left its seed |
| `DictCache.UpdateUnseenIffUnhashed` | backend/internal/dict/service.go:167-211 | without a bar in the item, that is if and only if no hashed field changed |
| `DictCache.CreateIsSeen` | backend/internal/dict/service.go:120-162 | a successful create after a pull is never answered 304 |
| `DictCache.DeleteUnseenIff` | backend/internal/dict/service.go:218-249 | a deletion after a pull is answered 304 if and only if it only retires an item that was retired already and the type had left its seed |
| `DictCache.PayloadIsSorted` | backend/internal/dict/repo.go:283-314 | a payload is strictly by (sort_order, id) and has exactly the live items, retired ones on request, each with its own fields |
| `DictCache.ExtraChangesUnseen` | backend/internal/dict/service.go:167-211 | the input: a real change of extra alone gets 304, and the client's payload has the old value and not the new one |
| `DictCache.BarChangesUnseen` | backend/internal/dict/model.go:88-106 | the input: a bar moved from color to label gets 304 though the rows differ |
| `DictService.DictDb.RecomputeTypeHash` | backend/internal/dict/repo.go:451-492 | stores the hash of the live rows with the next version and changes no other type, or fails on a deleted type |
| `DictService.DictDb.InsertItem` | backend/internal/dict/repo.go:344-364 | code uniqueness among live items, then the foreign key; the new row column by column, active and not deleted; a failed insert draws an id |
| `DictService.DictDb.UpdateRow` | backend/internal/dict/repo.go:381-410 | absent fields stay, color is set on its flag |
| `DictService.DictDb.CreateDictType` | backend/internal/dict/repo.go:93-112 | a new type has version 1 and the hash of no items; a code is never reused |
| `DictService.DictDb.DeleteDictType` | backend/internal/dict/repo.go:206-218 | a soft delete, once; nothing else changes |
| `DictService.DictDb.CreateItem` | backend/internal/dict/service.go:120-162 | exactly when it succeeds; then the new item is in every payload of its type on the columns sent, every other item is as before, and only that type has its next version; otherwise items and types are as before |
| `DictService.DictDb.UpdateItem` | backend/internal/dict/service.go:167-211 | exactly when it succeeds; then each column sent is stored and listed, one not sent stays, the color is the request's, with or without a value, a sort order is taken modulo 2^32, and every other item is as before; otherwise nothing changes |
| `DictService.DictDb.DeleteItem` | backend/internal/dict/service.go:218-249 | a referenced item is retired and stays in the payload with retired items, another is in no payload any more; every other item is as before and the type is rehashed; otherwise nothing changes |
| `DictService.DictDb.GetItemsByTypeCode` | backend/internal/dict/service.go:90-113 | the stored hash decides: no header gives the payload under the stored hash, the tag as sent or weakened gives 304, a code without a live type nothing; the payload is read by a second statement after any transactions of others |
| `DictService.DictDb.ListItems` | backend/internal/dict/repo.go:283-314 | exactly the live items, retired ones on request, strictly by (sort_order, id) |
| `DictService.ListedIffLive` | backend/internal/dict/repo.go:283-314 | an item is in its type's payload, on its own columns, if and only if it is not deleted and is active or retired ones were asked for |
| `DictRace.StoredHashIff` | backend/internal/dict/repo.go:446-492 | after any interleaving of item transactions: the stored hash is that of the committed items if no one committed between the last committer's read and commit; with no bar in the texts, if and only if the last committer saw each item committed in between as it now is |
| `DictRace.CreatesIff` | backend/internal/dict/repo.go:446-492 | for transactions that create items, whatever the texts: if and only if the last committer read after every other had committed |
| `DictRace.LostRow` | backend/internal/dict/service.go:130-157 | the input: of two interleaved creates the stored hash misses one, and once that item is deleted one tag has stood for two item sets |
| `ConfigSwap.VersionsAreContiguous` | backend/internal/dict/repo.go:613-657 | after any interleaving of writers the committed versions are 1..n, only n is active, and n is the number of commits |
| `ConfigSwap.OnlyCommitsWrite` | backend/internal/dict/repo.go:613-657 | only a commit changes the history: it adds version n + 1, active, and ends version n at the writer's time with its value kept |
| `ConfigSwap.ClashIffMissed` | backend/internal/dict/repo.go:619-644 | the insert violates a unique index exactly when the retire missed a history that is not empty |
| `ConfigSwap.LoserNeverCommits` | backend/internal/dict/repo.go:613-657 | a writer whose retire missed never commits, whatever follows |
| `ConfigSwap.MissedWriterConflicts` | backend/internal/dict/repo.go:636-645 | its insert ends in a conflict and changes no row |
| `ConfigSwap.SecondOfTwoConflicts` | backend/internal/dict/repo.go:613-657 | of two writers waiting for one row the first commits and the second conflicts |
| `ConfigSwap.ConfigDb.SwapConfigVersion` | backend/internal/dict/repo.go:613-657 | with any steps of other writers between and during its statements the call is a run of the machine: a success is the newest and only active version, a conflict means that another writer committed meanwhile, a call cancelled while it waits is rolled back, and a lone call yields version n + 1 |
| `RateLimit.Redis.RunScript` | backend/internal/server/middleware/ratelimit.go:62-68 | counts and arms the time to live on the first hit only; a key past its expiry starts over at 1 |
| `RateLimit.Redis.CheckOver` | backend/internal/server/middleware/ratelimit.go:73-82 | disabled by a limit of 0 or less, open on errors; otherwise over exactly when the count passes the limit |
| `RateLimit.Redis.AuthRateLimit` | backend/internal/server/middleware/ratelimit.go:34-54 | both limits in order: a request stopped by the first does not use up the second |
| `RateLimit.IntervalBound` | backend/internal/server/middleware/ratelimit.go:62-82 | at most 2 * max - 1 hits of a key admitted in any half-open interval of the window's length |
| `RateLimit.LetThroughBound` | backend/internal/server/middleware/ratelimit.go:34-82 | of the requests really let through in such an interval there are at most 2 * max - 1 plus those that met an error |
| `RateLimit.IntervalBoundIsTight` | backend/internal/server/middleware/ratelimit.go:62-82 | the bound is reached for every max and every window of two ticks or more |
| `RateLimit.WindowAdmitsFirstMax` | backend/internal/server/middleware/ratelimit.go:62-82 | a window admits exactly its first max hits |
| `RateLimit.AdmittedAfterWindow` | backend/internal/server/middleware/ratelimit.go:55-68 | no counter outlives its window, so no key stays blocked |
| `BoxScale.EdgesTile` | backend/internal/media/image.go:79-101 | with no more cells than pixels every cell is nonempty and inside, and the cells start at 0 and end at the size |
| `BoxScale.ExactlyOneCell` | backend/internal/media/image.go:79-101 | every source pixel lies in one cell and no other |
| `BoxScale.AreasSum` | backend/internal/media/image.go:79-101 | the cell areas sum to w * h |
| `BoxScale.MeanRange` | backend/internal/media/image.go:105-127 | a narrowed mean lies between the narrowed bounds of its region |
| `BoxScale.AverageRegion` | backend/internal/media/image.go:105-127 | the nested loops compute, of each channel, its sum over the region divided by the number of pixels and by 256 |
| `BoxScale.SumsSplit` | backend/internal/media/image.go:105-127 | the sum over one pixel is its channel, the sum over a rectangle that of its parts cut either way |
| `BoxScale.CellBounds` | backend/internal/media/image.go:79-127 | with the cell written out: each channel of its average is the mean of that channel over the cell, between whatever bounds hold for the cell's pixels |
| `BoxScale.BoxDownscale` | backend/internal/media/image.go:79-101 | every destination pixel is the average of its own cell, each of its red, green, blue and alpha between whatever bounds hold for that field of the cell's pixels; the widening guards never act |
| `BoxScale.ScaledDims` | backend/internal/media/image.go:56-74 | never upscales and never 0; each edge is the scaled edge rounded down, or with float rounding one less and only where that edge is a whole number, so the longest edge is maxEdge or maxEdge - 1 |
| `ProblemAudit.StatusChain` | backend/internal/problem/service.go:214-445 | over every run the status changes of a problem lead from its creation status to the current one, each starting where the last ended and changing something |
| `ProblemAudit.ChainByIndex` | backend/internal/problem/service.go:327-337 | the same read off the k-th row |
| `ProblemAudit.ListingOrderIff` | backend/internal/problem/service.go:378-404 | the listing has a problem's status changes in the order written if and only if the transactions that wrote them began in that order; comments and reassignments play no part |
| `ProblemAudit.ListingShowsChain` | backend/internal/problem/service.go:378-404 | in that case the listing shows the chain from the creation status to the current one, for every problem of every run |
| `ProblemAudit.OverlapBreaksListing` | backend/internal/problem/service.go:378-404 | the input: two overlapping updates are listed in the wrong order |
| `ProblemAudit.ProblemDb.CreateProblem` | backend/internal/problem/service.go:214-253 | idempotent on the client uuid; a new problem has the uuid, status and columns sent, and nothing else changes |
| `ProblemAudit.ProblemDb.UpdateProblem` | backend/internal/problem/service.go:290-360 | every column the client may set keeps or takes its value, the update and its log row commit together, and a row from the old status to the new one is written exactly on a real change; nothing else changes |
| `ProblemAudit.ProblemDb.AppendLog` | backend/internal/problem/service.go:418-445 | clients write comments and reassignments on live problems only, under the operator sent or else the acting user |
| `ProblemAudit.ProblemDb.DeleteProblem` | backend/internal/problem/service.go:363-374 | a live problem is marked deleted and nothing else changes; on any other nothing changes |
| `ProblemAudit.DeletedIsFrozen` | backend/internal/problem/service.go:290-445 | whatever is asked of a deleted problem afterwards, it stays as it was deleted and gets no log row |
| `ProblemAudit.ByTimeKeepsRows` | backend/internal/problem/service.go:378-404 | the listing has each of the problem's rows as often as it was written |
| `ExportFilter.AddIfPresent` | backend/internal/export/build_problem.go:113-116 | one more numbered condition: the clause then means the filter with that part set |
| `ExportFilter.ProblemExportWhere` | backend/internal/export/build_problem.go:109-146 | the clause selects exactly the live rows that meet every filter set, the end of the window excluded; every placeholder has its own argument, LIMIT and OFFSET the two after |
| `ExportFilter.InspectionExportWhere` | backend/internal/export/build_inspection.go:107-132 | the same for inspections, which have five of the filters |
| `ExportFilter.ListsAgreeWithExports` | backend/internal/problem/service.go:113-125 | the fixed NULL-tolerant list clauses select the same rows |
| `ExportPaging.Sorted` | backend/internal/export/build_problem.go:62-63 | every matching row once, newest first by (time, id) |
| `ExportPaging.NewestFirst` | backend/internal/export/build_problem.go:62-63 | the list has the cells of each selected row once, newest first and of equal times the higher id |
| `ExportPaging.PageHas` | backend/internal/export/build_problem.go:42-66 | row i of page k is row 500 * k + i of the list, and a page has 500 rows as long as the list has them |
| `ExportPaging.PercentGrows` | backend/internal/export/worker.go:151-156 | progress is within 0..100 and grows with the rows processed |
| `ExportPaging.PercentIs` | backend/internal/export/worker.go:149-156 | the share of the rows counted in whole percent, rounded down; 100 when there are none or all are done |
| `ExportPaging.PageOfSorted` | backend/internal/export/build_problem.go:46-66 | row k of a page is row offset + k of the list of the table it reads |
| `ExportPaging.SheetIsListIff` | backend/internal/export/build_problem.go:42-104 | the sheet is a table's list if and only if every page read is that page of the table |
| `ExportPaging.ArrivalRepeatsRow` | backend/internal/export/build_problem.go:42-104 | the input: a new newest row between the first two pages makes the sheet hold one row twice |
| `ExportPaging.BuildList` | backend/internal/export/build_problem.go:42-104 | each page is its own statement over tables that may change: the loop ends, fails exactly if a call before the end of its first short page does, and otherwise wrote those pages; progress is monotone |
| `ExportPaging.HandleRun` | backend/internal/export/worker.go:55-80 | one attempt from any state, FAILED included, with any set of failures from the job's load to its last update: exactly when it succeeds, the status it leaves in each case, that only a file of all the pages is uploaded, and that progress is monotone |
| `ExportStream.StreamJobEvents` | backend/internal/export/sse.go:39-108 | the loop emits the frames of the tick-by-tick specification: one per read and no done while the job goes on, and last the done of the first read that finds it SUCCEEDED, FAILED, CANCELLED or gone |
| `ExportStream.EndOfStream` | backend/internal/export/sse.go:49-108 | the first read that does not find the job in progress closes the stream with a done: the job's status and error, or FAILED with "job not found" |
| `ExportStream.EachRead` | backend/internal/export/sse.go:58-118 | an open stream shows the job's own numbers if progress, rows or status differ from those shown last, and a heartbeat otherwise |
| `ExportStream.StreamShape` | backend/internal/export/sse.go:39-108 | progress first, at most one done and it is last; a done on a terminal status follows a progress frame with that status |
| `ExportStream.LastProgressIsCurrent` | backend/internal/export/sse.go:39-118 | after every read served the last progress frame agrees on progress, rows and status |
| `ExportStream.TotalIsCurrentIff` | backend/internal/export/sse.go:39-118 | after every read served the total shown is current if and only if the read was shown or the total is the one shown last |
| `ExportStream.TotalCanBeStale` | backend/internal/export/sse.go:111-118 | the input: a change of the total alone is not sent |
| `StatsConservation.GroupedSum` | backend/internal/stats/service.go:102-200 | buckets, one per key and in any order, add up to the rows grouped |
| `StatsConservation.CountBuckets` | backend/internal/stats/service.go:137-168 | a pass over the keys gives one bucket per key with its count |
| `StatsConservation.ComputeOverview` | backend/internal/stats/service.go:43-69 | the overview groups, counts and totals the matching rows |
| `StatsConservation.OneMoreProblem` | backend/internal/stats/service.go:102-200 | one more problem counts exactly if it is not deleted and passes the filters set, the end of the window excluded: one more problem, and one more in each bucket it has a key for; nothing else changes |
| `StatsConservation.OneMoreInspection` | backend/internal/stats/service.go:43-69 | the same for an inspection, which adds its mileage and duration and is in no bucket |
| `StatsConservation.NothingToCount` | backend/internal/stats/service.go:43-69 | no rows give zeros and no buckets |
| `StatsConservation.BucketsConserve` | backend/internal/stats/service.go:102-200 | inspector and project buckets sum to the problem count, type and status buckets to it less the problems without one |
| `StatsConservation.ProjectsInWindow` | backend/internal/stats/service.go:277-317 | the live projects with a matching row, each once, by name and id |
| `StatsConservation.ProjectsForExport` | backend/internal/stats/service.go:255-272 | one row per such project with the overview restricted to it, by name and id |
| `StatsConservation.ExportConserves` | backend/internal/stats/service.go:255-317 | the rows' problems, inspections, mileage and durations sum to the totals restricted to live projects |
| `StatsConservation.ExportSumsToOverview` | backend/internal/stats/service.go:206-317 | with every project live they sum to the overview |

## Left out

- The HTTP layer, envelopes, authentication and authorization, health, tracing, metrics and configuration loading: plumbing.
- Project, user, role and task management, refresh tokens, and the listing and reading of rows that only copy columns: easy members.
- The web-admin files: user interface.
- Concurrent batches: a batch is one atomic transaction here. Two that race on one client_uuid serialize on the unique index, which the model does not show.
- Batches that fail as a whole (lost connection, failed commit) are one outcome without results; which statement failed is not modelled.
- Sync items rejected for a statement error other than the modelled ones (encoding, enum literals, CHECK, unique, foreign key, no row) are not distinguished.
- A stored media owner (a soft reference) may dangle but never names an inspection or problem id that was not drawn yet: assumed of the tables before a batch, kept by it.
- Geometry encoding, ST_IsValid, ST_Length and JSON columns are opaque: a point has a verdict, a line a length under any metric.
- Confluence is for one acting user and fixed reference tables, since the answers and the stored created_by depend on both.
- Order of insertion into a batch's id maps: maps are values keyed by uuid, a repeated key keeps its one id.
- InspectionFinish.Finish: does not model the second update of a row that another transaction holds, because the row lock makes the whole call one step.
- Starting an inspection and reading a trajectory: the insert is the one sync makes, the read copies rows.
- Media rows that sync inserts are not part of the media machine: sync stores client-chosen keys, and a row it put at a derived key first would take that tier's place.
- Temporary credentials (STS), signed URLs, and deletions in the object store: no code here deletes objects.
- Drawn uuids are inputs of a step; one that is taken fails the insert, as in the code. That two originals never draw one group rests on randomness and is not claimed.
- JPEG decoding and encoding are one function of the bytes; letter case of entity tags is folded for ASCII only.
- SHA-256 is an injective function whose values never equal a seed's md5; both are hypotheses of the lemmas that need them.
- Item transactions are serial in `DictCatalog`, `DictCache` and `DictService`; `DictRace` has them interleaved, for one type that is not deleted meanwhile and without the clients.
- Type names and descriptions of the dictionary, and a version number past 32 bits.
- Several configuration keys: both unique indexes lead with the key, so writers of different keys never meet, and one key is modelled.
- A config write whose insert has to wait may see the conflict at once in the model; the outcome is the same.
- The body peek for the username and the 64-bit range of a Redis counter.
- The 64-bit floats of the scaled dimensions are any rounding within half a unit in the last place; that covers every product of edges below 2^51.
- The 64-bit sums of the box filter: they hold 2^48 pixels of any value, more than an image that decodes.
- Log rows of a problem deleted between the existence check and the insert: the check and the insert are one step here.
- Across attempts of an export progress starts over, so it is monotone within an attempt only. Workbook layout and time zones are opaque cells.
- The joins of the export queries: foreign keys make them keep every row.
- StatsConservation.ComputeOverview: its groups, counts and totals are read from one state, where the code runs six separate statements.
- Averages, labels and bucket order of the statistics, the collation behind ORDER BY name, and floating-point rounding of mileage sums.
- Soft deletions of media are a step anyone may take; no code of the package takes it.
