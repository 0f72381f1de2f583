/** Dictionary types and items, the transactions that change them, and the stored content hash as a
    cache of a type's live items. Transactions are serial here; `DictRace` has them interleaved. */
module DictCatalog {
  import opened Wrappers
  import opened Ordering
  import opened DictHash

  /** The hash of a text: SHA-256 in hexadecimal, taken to be injective. */
  type Hasher = string -> string

  datatype DictType = DictType(code: string, version: int, hash: string, deleted: bool)

  /** `caption` is the item's UI label. */
  datatype DictItem = DictItem(
    typeId: int, code: string, caption: string, color: Option<string>, extra: string, sortOrder: int,
    isActive: bool, deleted: bool)

  /** `byCode` is the unique index on dict_type.code; deleted types stay in it. */
  datatype Catalog = Catalog(
    types: map<int, DictType>, byCode: map<string, int>, items: map<int, DictItem>, nextType: int, nextItem: int)

  /** A type installed by the seed migration: its hash is md5 of another text, over those rows. */
  datatype Seed = Seed(hash: string, rows: seq<HashRow>)

  datatype DictError = ValidationFailed | NotFound | CodeTaken | Internal

  datatype NewItem = NewItem(
    typeId: int, code: string, caption: string, color: Option<string>, extra: string, sortOrder: Option<int>)

  datatype ItemUpdate = ItemUpdate(
    caption: Option<string>, setColor: bool, color: Option<string>, extra: Option<string>, sortOrder: Option<int>,
    isActive: Option<bool>)

  // --- The item set of a type -------------------------------------------------------------------

  predicate LiveIn(cat: Catalog, typeId: int, id: int) {
    id in cat.items && cat.items[id].typeId == typeId && !cat.items[id].deleted
  }

  function LiveIds(cat: Catalog, typeId: int): set<int> {
    set id | id in cat.items && cat.items[id].typeId == typeId && !cat.items[id].deleted
  }

  function HashRowOf(id: int, item: DictItem): HashRow {
    HashRow(id, item.code, item.caption, item.color.GetOr(""), item.sortOrder, item.isActive)
  }

  function RowsOf(cat: Catalog, ids: seq<int>): seq<HashRow>
    requires forall k :: 0 <= k < |ids| ==> ids[k] in cat.items
  {
    seq(|ids|, k requires 0 <= k < |ids| => HashRowOf(ids[k], cat.items[ids[k]]))
  }

  /** ORDER BY id. */
  function LiveOrder(cat: Catalog, typeId: int): (ids: seq<int>)
    ensures forall k :: 0 <= k < |ids| ==> LiveIn(cat, typeId, ids[k])
  {
    var ids := InOrder(LiveIds(cat, typeId));
    assert forall k :: 0 <= k < |ids| ==> ids[k] in ids;
    ids
  }

  /** The live items in id order, on the hashed fields. */
  function LiveRows(cat: Catalog, typeId: int): seq<HashRow> {
    RowsOf(cat, LiveOrder(cat, typeId))
  }

  function LiveHash(h: Hasher, cat: Catalog, typeId: int): string {
    h(Serialize(LiveRows(cat, typeId)))
  }

  function Rehashed(h: Hasher, cat: Catalog, typeId: int): Catalog
    requires typeId in cat.types
  {
    var t := cat.types[typeId];
    cat.(types := cat.types[typeId := t.(version := t.version + 1, hash := LiveHash(h, cat, typeId))])
  }

  predicate LiveType(cat: Catalog, typeId: int) {
    typeId in cat.types && !cat.types[typeId].deleted
  }

  // --- Transactions -----------------------------------------------------------------------------

  /** The Go int is narrowed to 32 bits by a conversion that wraps. */
  function Int32(x: int): int {
    (x + 0x8000_0000) % 0x1_0000_0000 - 0x8000_0000
  }

  predicate FitsInt32(x: int) {
    -0x8000_0000 <= x < 0x8000_0000
  }

  predicate ItemCodeTaken(cat: Catalog, typeId: int, code: string) {
    exists id :: id in cat.items && cat.items[id].typeId == typeId && cat.items[id].code == code && !cat.items[id].deleted
  }

  function ItemOf(x: NewItem): DictItem {
    DictItem(x.typeId, x.code, x.caption, x.color, x.extra, x.sortOrder.GetOr(0), true, false)
  }

  function CreateOutcome(cat: Catalog, x: NewItem): Option<DictError> {
    if x.code == "" || x.caption == "" || x.typeId <= 0 then Some(ValidationFailed)
    else if !FitsInt32(x.sortOrder.GetOr(0)) then Some(Internal)
    else if ItemCodeTaken(cat, x.typeId, x.code) then Some(CodeTaken)
    else if !LiveType(cat, x.typeId) then Some(NotFound)
    else None
  }

  /** A failed insert rolls back but has drawn an id. */
  function AfterCreate(h: Hasher, cat: Catalog, x: NewItem): Catalog {
    var drawn := cat.(nextItem := cat.nextItem + 1);
    match CreateOutcome(cat, x)
    case None => Rehashed(h, drawn.(items := cat.items[cat.nextItem := ItemOf(x)]), x.typeId)
    case Some(e) => if e == ValidationFailed || e == Internal then cat else drawn
  }

  /** UPDATE dict_item: absent fields stay, color is set when the flag says so. */
  function Updated(item: DictItem, x: ItemUpdate): DictItem {
    item.(
      caption := x.caption.GetOr(item.caption),
      color := if x.setColor then x.color else item.color,
      extra := x.extra.GetOr(item.extra),
      sortOrder := if x.sortOrder.Some? then Int32(x.sortOrder.value) else item.sortOrder,
      isActive := x.isActive.GetOr(item.isActive))
  }

  predicate LiveItem(cat: Catalog, id: int) {
    id in cat.items && !cat.items[id].deleted
  }

  function UpdateOutcome(cat: Catalog, id: int, x: ItemUpdate): Option<DictError> {
    if x.caption == Some("") then Some(ValidationFailed)
    else if !LiveItem(cat, id) || !LiveType(cat, cat.items[id].typeId) then Some(NotFound)
    else None
  }

  function AfterUpdate(h: Hasher, cat: Catalog, id: int, x: ItemUpdate): Catalog {
    if UpdateOutcome(cat, id, x).Some? then cat
    else Rehashed(h, cat.(items := cat.items[id := Updated(cat.items[id], x)]), cat.items[id].typeId)
  }

  const RETIRE: ItemUpdate := ItemUpdate(None, false, None, None, None, Some(false))

  /** A referenced item is retired, any other soft-deleted. */
  function Removed(item: DictItem, referenced: bool): DictItem {
    if referenced then Updated(item, RETIRE) else item.(deleted := true, isActive := false)
  }

  function AfterDelete(h: Hasher, cat: Catalog, id: int, referenced: bool): Catalog {
    if !LiveItem(cat, id) || !LiveType(cat, cat.items[id].typeId) then cat
    else Rehashed(h, cat.(items := cat.items[id := Removed(cat.items[id], referenced)]), cat.items[id].typeId)
  }

  function AfterCreateType(h: Hasher, cat: Catalog, code: string): Catalog {
    if code == "" then cat
    else if code in cat.byCode then cat.(nextType := cat.nextType + 1)
    else
      cat.(types := cat.types[cat.nextType := DictType(code, 1, h(Serialize([])), false)],
           byCode := cat.byCode[code := cat.nextType], nextType := cat.nextType + 1)
  }

  function AfterDeleteType(cat: Catalog, id: int): Catalog {
    if !LiveType(cat, id) then cat else cat.(types := cat.types[id := cat.types[id].(deleted := true)])
  }

  datatype Op =
    | CreateType(code: string)
    | DeleteType(id: int)
    | CreateItem(item: NewItem)
    | UpdateItem(id: int, update: ItemUpdate)
    | DeleteItem(id: int, referenced: bool)

  function Apply(h: Hasher, cat: Catalog, op: Op): Catalog {
    match op
    case CreateType(code) => AfterCreateType(h, cat, code)
    case DeleteType(id) => AfterDeleteType(cat, id)
    case CreateItem(x) => AfterCreate(h, cat, x)
    case UpdateItem(id, x) => AfterUpdate(h, cat, id, x.(setColor := true))
    case DeleteItem(id, referenced) => AfterDelete(h, cat, id, referenced)
  }

  function ApplyAll(h: Hasher, cat: Catalog, ops: seq<Op>): Catalog {
    if ops == [] then cat else Apply(h, ApplyAll(h, cat, ops[..|ops| - 1]), ops[|ops| - 1])
  }

  // --- The invariant ----------------------------------------------------------------------------

  ghost predicate CatalogOk(cat: Catalog) {
    && (forall id :: id in cat.items ==> id < cat.nextItem && cat.items[id].typeId in cat.types)
    && (forall t :: t in cat.types ==> t < cat.nextType)
    && (forall c :: c in cat.byCode ==> cat.byCode[c] in cat.types && cat.types[cat.byCode[c]].code == c)
    && (forall t :: t in cat.types ==> cat.types[t].code in cat.byCode && cat.byCode[cat.types[t].code] == t)
  }

  /** The stored hash is that of the live items, or still the seed's over the seed's own items. */
  ghost predicate HashOk(h: Hasher, seeds: map<int, Seed>, cat: Catalog, t: int)
    requires t in cat.types
  {
    || cat.types[t].hash == LiveHash(h, cat, t)
    || (t in seeds && cat.types[t].hash == seeds[t].hash && LiveRows(cat, t) == seeds[t].rows)
  }

  ghost predicate Inv(h: Hasher, seeds: map<int, Seed>, cat: Catalog) {
    CatalogOk(cat) && forall t :: t in cat.types ==> HashOk(h, seeds, cat, t)
  }

  // --- Preservation -----------------------------------------------------------------------------

  /** The rows of a type depend on its live items only. */
  lemma LiveRowsSame(cat: Catalog, cat': Catalog, t: int)
    requires forall id :: LiveIn(cat, t, id) <==> LiveIn(cat', t, id)
    requires forall id | LiveIn(cat, t, id) ::
      LiveIn(cat', t, id) && HashRowOf(id, cat'.items[id]) == HashRowOf(id, cat.items[id])
    ensures LiveRows(cat', t) == LiveRows(cat, t)
  {
    hide LiveIds, LiveOrder, HashRowOf;
    LiveOrderSame(cat, cat', t);
    var ids := LiveOrder(cat, t);
    assert forall k :: 0 <= k < |ids| ==> LiveIn(cat, t, ids[k]);
    hide LiveIn;
    assert LiveRows(cat', t) == RowsOf(cat', ids);
    assert RowsOf(cat', ids) == RowsOf(cat, ids);
  }

  lemma LiveOrderSame(cat: Catalog, cat': Catalog, t: int)
    requires forall id :: LiveIn(cat, t, id) <==> LiveIn(cat', t, id)
    ensures LiveOrder(cat', t) == LiveOrder(cat, t)
  {
    hide InOrder;
    forall id
      ensures id in LiveIds(cat, t) <==> id in LiveIds(cat', t)
    {
      assert LiveIn(cat, t, id) <==> LiveIn(cat', t, id);
    }
    assert LiveIds(cat, t) == LiveIds(cat', t);
  }

  lemma NoItemsNoRows(cat: Catalog, t: int)
    requires forall id :: id in cat.items ==> cat.items[id].typeId != t
    ensures LiveRows(cat, t) == []
  {
    RowsMeanItems(cat, t);
  }

  lemma RowsMeanItems(cat: Catalog, t: int)
    ensures LiveRows(cat, t) != [] ==> exists id :: LiveIn(cat, t, id)
  {
    var ids := LiveOrder(cat, t);
    if ids != [] {
      assert LiveIn(cat, t, ids[0]);
    }
  }

  lemma WriteOk(h: Hasher, cat: Catalog, id: int, item: DictItem, next: int)
    requires CatalogOk(cat) && item.typeId in cat.types
    requires id < next && cat.nextItem <= next
    ensures var cat' := Rehashed(h, cat.(items := cat.items[id := item], nextItem := next), item.typeId);
            CatalogOk(cat')
  {
  }

  /** Writing one item of a live type and rehashing that type. */
  lemma WriteKeeps(h: Hasher, seeds: map<int, Seed>, cat: Catalog, id: int, item: DictItem, next: int)
    requires item.typeId in cat.types && Inv(h, seeds, cat)
    requires id < next && cat.nextItem <= next && (id in cat.items ==> cat.items[id].typeId == item.typeId)
    ensures Inv(h, seeds, Rehashed(h, cat.(items := cat.items[id := item], nextItem := next), item.typeId))
  {
    hide CatalogOk, LiveRows, LiveHash;
    var mid := cat.(items := cat.items[id := item], nextItem := next);
    var cat' := Rehashed(h, mid, item.typeId);
    WriteOk(h, cat, id, item, next);
    forall t | t in cat'.types
      ensures HashOk(h, seeds, cat', t)
    {
      LiveRowsSame(mid, cat', t);
      if t == item.typeId {
        HashIsLive(h, seeds, mid, cat', t);
      } else {
        LiveRowsSame(cat, mid, t);
        HashCarries(h, seeds, cat, cat', t);
      }
    }
  }

  lemma HashIsLive(h: Hasher, seeds: map<int, Seed>, mid: Catalog, cat': Catalog, t: int)
    requires t in mid.types && cat' == Rehashed(h, mid, t) && LiveRows(cat', t) == LiveRows(mid, t)
    ensures HashOk(h, seeds, cat', t)
  {
  }

  lemma HashCarries(h: Hasher, seeds: map<int, Seed>, cat: Catalog, cat': Catalog, t: int)
    requires t in cat.types && t in cat'.types && cat'.types[t].hash == cat.types[t].hash
    requires HashOk(h, seeds, cat, t) && LiveRows(cat', t) == LiveRows(cat, t)
    ensures HashOk(h, seeds, cat', t)
  {
  }

  /** Changing nothing about items. */
  lemma TypesKeep(h: Hasher, seeds: map<int, Seed>, cat: Catalog, cat': Catalog, t: int)
    requires Inv(h, seeds, cat) && t in cat.types && t in cat'.types && cat'.items == cat.items
    requires cat'.types[t].hash == cat.types[t].hash
    ensures HashOk(h, seeds, cat', t)
  {
    LiveRowsSame(cat, cat', t);
    assert HashOk(h, seeds, cat, t);
  }

  lemma CreateTypeKeeps(h: Hasher, seeds: map<int, Seed>, cat: Catalog, code: string)
    requires Inv(h, seeds, cat)
    ensures Inv(h, seeds, AfterCreateType(h, cat, code))
  {
    var cat' := AfterCreateType(h, cat, code);
    assert CatalogOk(cat');
    forall t | t in cat'.types
      ensures HashOk(h, seeds, cat', t)
    {
      if t in cat.types {
        TypesKeep(h, seeds, cat, cat', t);
      } else {
        NoItemsNoRows(cat', t);
      }
    }
  }

  lemma DeleteTypeKeeps(h: Hasher, seeds: map<int, Seed>, cat: Catalog, id: int)
    requires Inv(h, seeds, cat)
    ensures Inv(h, seeds, AfterDeleteType(cat, id))
  {
    var cat' := AfterDeleteType(cat, id);
    assert CatalogOk(cat');
    forall t | t in cat'.types
      ensures HashOk(h, seeds, cat', t)
    {
      TypesKeep(h, seeds, cat, cat', t);
    }
  }

  lemma DrawnKeeps(h: Hasher, seeds: map<int, Seed>, cat: Catalog, next: int)
    requires Inv(h, seeds, cat) && cat.nextItem <= next
    ensures Inv(h, seeds, cat.(nextItem := next))
  {
    var cat' := cat.(nextItem := next);
    forall t | t in cat'.types
      ensures HashOk(h, seeds, cat', t)
    {
      TypesKeep(h, seeds, cat, cat', t);
    }
  }

  lemma LiveItemOk(h: Hasher, seeds: map<int, Seed>, cat: Catalog, id: int)
    requires Inv(h, seeds, cat) && id in cat.items
    ensures cat.items[id].typeId in cat.types && id < cat.nextItem
  {
  }

  lemma NextItemIsFresh(h: Hasher, seeds: map<int, Seed>, cat: Catalog)
    requires Inv(h, seeds, cat)
    ensures cat.nextItem !in cat.items
  {
  }

  /** Every transaction keeps every type's stored hash equal to the hash of its live items, whatever
      their texts contain. */
  lemma ApplyKeeps(h: Hasher, seeds: map<int, Seed>, cat: Catalog, op: Op)
    requires Inv(h, seeds, cat)
    ensures Inv(h, seeds, Apply(h, cat, op))
  {
    hide Inv, LiveHash;
    match op
    case CreateType(code) => CreateTypeKeeps(h, seeds, cat, code);
    case DeleteType(id) => DeleteTypeKeeps(h, seeds, cat, id);
    case CreateItem(x) =>
      if CreateOutcome(cat, x).None? {
        NextItemIsFresh(h, seeds, cat);
        WriteKeeps(h, seeds, cat, cat.nextItem, ItemOf(x), cat.nextItem + 1);
      } else {
        DrawnKeeps(h, seeds, cat, cat.nextItem + 1);
      }
    case UpdateItem(id, x) =>
      if UpdateOutcome(cat, id, x).None? {
        LiveItemOk(h, seeds, cat, id);
        WriteKeeps(h, seeds, cat, id, Updated(cat.items[id], x.(setColor := true)), cat.nextItem);
      }
    case DeleteItem(id, referenced) =>
      if LiveItem(cat, id) && LiveType(cat, cat.items[id].typeId) {
        LiveItemOk(h, seeds, cat, id);
        WriteKeeps(h, seeds, cat, id, Removed(cat.items[id], referenced), cat.nextItem);
      }
  }
}
