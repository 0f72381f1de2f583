/** Rows, request items and answers of the offline batch sync.
    A row type is generic in how it names its parent: tables name parents by server id,
    the specification names them by client_uuid. */
module SyncModel {
  import opened Wrappers

  /** client_uuid: 128 bits, only ever compared for equality. */
  newtype Uuid = x: int | 0 <= x < 0x1_0000_0000_0000_0000_0000_0000_0000_0000

  type Id = nat

  /** A timestamp in microseconds. */
  type Time = int

  /** A GeoJSON point as received. `encodes` is the EWKB encoder's verdict and `valid` that of
      ST_IsValid and the SRID check; both are opaque here. */
  datatype Point = Point(coordinates: seq<real>, encodes: bool, valid: bool)

  type Geometry = (real, real)

  /** Longitude and latitude of the stored geometry: fewer than two coordinates give (0, 0). */
  function Ewkb(p: Point): Geometry {
    if |p.coordinates| >= 2 then (p.coordinates[0], p.coordinates[1]) else (0.0, 0.0)
  }

  /** Each enumeration carries a last case for a literal the database enum does not have. */
  datatype InspectionStatus = InProgress | Finished | Abandoned | UnknownStatus(text: string)
  datatype OwnerType = InspectionOwner | ProblemOwner | ProjectOwner | UserOwner | UnknownOwner(text: string)
  datatype Tier = Original | Web | Thumb | UnknownTier(text: string)
  datatype CaptureState =
    CapturedRaw | Stitched | Queued | Uploading | Uploaded | Confirmed | UnknownState(text: string)

  predicate FitsInt4(x: int) {
    -0x8000_0000 <= x < 0x8000_0000
  }

  predicate OptionFitsInt4(x: Option<int>) {
    x.Some? ==> FitsInt4(x.value)
  }

  // --- Request items ----------------------------------------------------------------------------

  datatype SyncInspection = SyncInspection(
    uuid: Uuid, projectId: int, taskId: Option<int>, inspectorId: Option<int>,
    status: Option<InspectionStatus>, startedAt: Time, endedAt: Option<Time>,
    deviceInfo: Option<string>, note: Option<string>)

  datatype SyncPoint = SyncPoint(
    uuid: Uuid, inspection: Uuid, seqNo: int, geom: Point, recordedAt: Time,
    speed: Option<real>, bearing: Option<real>, altitude: Option<real>, accuracy: Option<real>)

  datatype SyncProblem = SyncProblem(
    uuid: Uuid, projectId: int, inspection: Option<Uuid>, inspectorId: Option<int>, geom: Point,
    typeItem: Option<int>, statusItem: Option<int>, categoryItem: Option<int>,
    dictVersion: Option<int>, title: Option<string>, description: Option<string>,
    note: Option<string>, capturedAt: Time)

  datatype SyncMedia = SyncMedia(
    uuid: Uuid, ownerType: OwnerType, owner: Option<Uuid>, tier: Tier, bucket: string, key: string,
    region: Option<string>, contentType: Option<string>, byteSize: Option<int>, width: Option<int>,
    height: Option<int>, etag: Option<string>, captureState: CaptureState, group: Option<Uuid>)

  datatype Batch = Batch(
    inspections: Option<seq<SyncInspection>>, points: Option<seq<SyncPoint>>,
    problems: Option<seq<SyncProblem>>, media: Option<seq<SyncMedia>>)

  // --- Rows -------------------------------------------------------------------------------------

  datatype InspectionData = InspectionData(
    projectId: int, taskId: Option<int>, inspectorId: int, status: InspectionStatus,
    startedAt: Time, endedAt: Option<Time>, device: string, note: string, createdBy: int,
    route: Option<seq<Geometry>>, pointCount: nat, mileage: real, duration: int, deleted: bool)

  datatype Sample = Sample(
    geom: Geometry, recordedAt: Time, speed: Option<real>, bearing: Option<real>,
    altitude: Option<real>, accuracy: Option<real>)

  datatype PointData<R> = PointData(parent: R, seqNo: int, sample: Sample)

  datatype ProblemColumns = ProblemColumns(
    projectId: int, inspectorId: int, geom: Geometry, typeItem: Option<int>, statusItem: Option<int>,
    categoryItem: Option<int>, dictVersion: int, title: string, description: string, note: string,
    capturedAt: Time, createdBy: int)

  datatype ProblemData<R> = ProblemData(inspection: Option<R>, columns: ProblemColumns, deleted: bool)

  datatype MediaColumns = MediaColumns(
    tier: Tier, region: string, contentType: string, byteSize: Option<int>, width: Option<int>,
    height: Option<int>, etag: Option<string>, captureState: CaptureState, group: Option<Uuid>,
    createdBy: int)

  datatype MediaData<O> = MediaData(
    owner: O, bucket: string, key: string, columns: MediaColumns, deleted: bool)

  /** The polymorphic soft reference (owner_type, owner_id) of a stored media row. */
  datatype OwnerKey = OwnerKey(kind: OwnerType, id: int)

  /** The same reference in the specification: by uuid where the owner row exists, else raw. */
  datatype OwnerRef = ByUuid(kind: OwnerType, uuid: Uuid) | ById(kind: OwnerType, id: int)

  /** Tables that sync reads but never writes: ids that foreign keys may name, and the current
      version of the dictionary type problem_type. */
  datatype Refs = Refs(
    projects: set<int>, tasks: set<int>, users: set<int>, dictItems: set<int>,
    problemTypeVersion: Option<int>)

  // --- Answers ----------------------------------------------------------------------------------

  datatype Reason = InspectionNotFound | SeqConflict | OwnerNotFound | InvalidGeom | FkViolation | Internal

  datatype ItemStatus = Accepted | Rejected | Duplicate

  datatype ItemResult = ItemResult(
    uuid: Uuid, status: ItemStatus, serverId: Option<Id>, error: Option<Reason>)

  datatype BatchResult = BatchResult(
    results: seq<ItemResult>, accepted: Option<seq<ItemResult>>,
    rejected: Option<seq<ItemResult>>, duplicate: Option<seq<ItemResult>>)
}
