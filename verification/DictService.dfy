/** The dictionary service on its tables: each mutation and the rehash that follows it are one
    transaction, rolled back whole when any statement fails. */
module DictService {
  import opened Wrappers
  import opened Ordering
  import opened DictHash
  import opened DictCatalog
  import opened DictCache

  // --- What a write leaves behind ---------------------------------------------------------------

  /** Every item but this one is as before. */
  ghost predicate RestOfItems(cat: Catalog, cat': Catalog, id: int) {
    && id in cat'.items && cat'.items.Keys == cat.items.Keys + {id}
    && forall k :: k in cat.items && k != id ==> cat'.items[k] == cat.items[k]
  }

  /** One type got its next version; the others are as before. */
  ghost predicate RestOfTypes(cat: Catalog, cat': Catalog, typeId: int) {
    && typeId in cat.types && cat'.types.Keys == cat.types.Keys
    && (forall t :: t in cat.types && t != typeId ==> cat'.types[t] == cat.types[t])
    && cat'.types[typeId].version == cat.types[typeId].version + 1
    && cat'.types[typeId].code == cat.types[typeId].code && cat'.types[typeId].deleted == cat.types[typeId].deleted
  }

  /** An item is in its type's payload on its own columns, unless it is deleted or is retired and retired
      items were not asked for. */
  lemma ListedIffLive(cat: Catalog, typeId: int, id: int, flag: bool)
    requires id in cat.items
    ensures var item := cat.items[id];
            var row := HashRow(id, item.code, item.caption, item.color.GetOr(""), item.sortOrder, item.isActive);
            View(row, item.extra) in Listed(Views(cat, typeId), flag) <==>
              item.typeId == typeId && !item.deleted && (flag || item.isActive)
    ensures cat.items[id].typeId != typeId || cat.items[id].deleted || !(flag || cat.items[id].isActive) ==>
              forall v :: v in Listed(Views(cat, typeId), flag) ==> v.row.id != id
  {
    hide Listed, Views, InSortOrder;
    ListingIs(cat, typeId, flag);
  }

  /** The new item is in every payload of its type, on the columns sent. */
  ghost predicate Created(cat: Catalog, cat': Catalog, x: NewItem, id: int) {
    && (CatalogOk(cat) ==> id !in cat.items)
    && RestOfItems(cat, cat', id) && RestOfTypes(cat, cat', x.typeId)
    && cat'.items[id].color == x.color
    && forall flag ::
         View(HashRow(id, x.code, x.caption, x.color.GetOr(""), x.sortOrder.GetOr(0), true), x.extra)
         in Listed(Views(cat', x.typeId), flag)
  }

  /** Each column sent is stored, the color with or without a value; a column not sent stays. */
  ghost predicate Changed(cat: Catalog, cat': Catalog, id: int, x: ItemUpdate) {
    && id in cat.items && RestOfItems(cat, cat', id) && RestOfTypes(cat, cat', cat.items[id].typeId)
    && var was, item := cat.items[id], cat'.items[id];
    && item.typeId == was.typeId && item.code == was.code && item.deleted == was.deleted == false
    && item.caption == (if x.caption.Some? then x.caption.value else was.caption)
    && item.color == x.color
    && item.extra == (if x.extra.Some? then x.extra.value else was.extra)
    && item.isActive == (if x.isActive.Some? then x.isActive.value else was.isActive)
    && (x.sortOrder.None? ==> item.sortOrder == was.sortOrder)
    && (x.sortOrder.Some? ==>
          -0x8000_0000 <= item.sortOrder < 0x8000_0000 && (item.sortOrder - x.sortOrder.value) % 0x1_0000_0000 == 0)
    && (x.sortOrder.Some? && -0x8000_0000 <= x.sortOrder.value < 0x8000_0000 ==> item.sortOrder == x.sortOrder.value)
    && var view := View(HashRow(id, item.code, item.caption, item.color.GetOr(""), item.sortOrder, item.isActive), item.extra);
    && forall flag :: view in Listed(Views(cat', was.typeId), flag) <==> flag || item.isActive
  }

  /** A referenced item stays in the payload with retired items, as it was but retired; any other is in
      no payload any more. */
  ghost predicate Gone(cat: Catalog, cat': Catalog, id: int, referenced: bool) {
    && id in cat.items && RestOfItems(cat, cat', id) && RestOfTypes(cat, cat', cat.items[id].typeId)
    && var was := cat.items[id];
    && (referenced ==>
          View(HashRow(id, was.code, was.caption, was.color.GetOr(""), was.sortOrder, false), was.extra)
          in Listed(Views(cat', was.typeId), true))
    && forall v, flag :: v in Listed(Views(cat', was.typeId), flag) && v.row.id == id ==> referenced && flag
  }

  lemma CreateTells(h: Hasher, cat: Catalog, x: NewItem)
    ensures CreateOutcome(cat, x).None? ==> Created(cat, AfterCreate(h, cat, x), x, cat.nextItem)
    ensures CreateOutcome(cat, x).Some? ==>
              AfterCreate(h, cat, x).items == cat.items && AfterCreate(h, cat, x).types == cat.types
  {
    hide Listed, Views, LiveHash, CatalogOk, ItemCodeTaken;
    if CreateOutcome(cat, x).None? {
      var cat' := AfterCreate(h, cat, x);
      NextIsNew(cat);
      ListedIffLive(cat', x.typeId, cat.nextItem, true);
      ListedIffLive(cat', x.typeId, cat.nextItem, false);
    }
  }

  lemma NextIsNew(cat: Catalog)
    ensures CatalogOk(cat) ==> cat.nextItem !in cat.items
  {
  }

  lemma UpdateTells(h: Hasher, cat: Catalog, id: int, x: ItemUpdate)
    ensures UpdateOutcome(cat, id, x).None? ==> Changed(cat, AfterUpdate(h, cat, id, x.(setColor := true)), id, x)
  {
    hide Listed, Views, LiveHash;
    if UpdateOutcome(cat, id, x).None? {
      var cat' := AfterUpdate(h, cat, id, x.(setColor := true));
      ListedIffLive(cat', cat.items[id].typeId, id, true);
      ListedIffLive(cat', cat.items[id].typeId, id, false);
    }
  }

  lemma DeleteTells(h: Hasher, cat: Catalog, id: int, referenced: bool)
    ensures LiveItem(cat, id) && LiveType(cat, cat.items[id].typeId) ==>
              Gone(cat, AfterDelete(h, cat, id, referenced), id, referenced)
  {
    hide Listed, Views, LiveHash;
    if LiveItem(cat, id) && LiveType(cat, cat.items[id].typeId) {
      var cat' := AfterDelete(h, cat, id, referenced);
      ListedIffLive(cat', cat.items[id].typeId, id, true);
      ListedIffLive(cat', cat.items[id].typeId, id, false);
    }
  }

  class DictDb {
    const h: Hasher
    var cat: Catalog

    constructor (h: Hasher, cat: Catalog)
      ensures this.h == h && this.cat == cat
    {
      this.h := h;
      this.cat := cat;
    }

    /** SELECT ... ORDER BY id, an absent color read as the empty text. */
    method LoadHashRows(typeId: int) returns (rows: seq<HashRow>)
      ensures rows == LiveRows(cat, typeId)
    {
      hide LiveIds, InOrder;
      var ids := LiveOrder(cat, typeId);
      rows := [];
      for k := 0 to |ids|
        invariant rows == RowsOf(cat, ids)[..k]
      {
        var item := cat.items[ids[k]];
        var color := "";
        if item.color.Some? {
          color := item.color.value;
        }
        rows := rows + [HashRow(ids[k], item.code, item.caption, color, item.sortOrder, item.isActive)];
      }
    }

    /** Reads the live items in id order, hashes them, and stores the hash with the next version
        number. A type that is gone or deleted makes it fail. */
    method RecomputeTypeHash(typeId: int) returns (error: Option<DictError>)
      modifies this`cat
      ensures error == if LiveType(old(cat), typeId) then None else Some(NotFound)
      ensures cat == if error.None? then Rehashed(h, old(cat), typeId) else old(cat)
      ensures error.None? ==>
                && RestOfTypes(old(cat), cat, typeId) && cat.types[typeId].hash == h(Serialize(LiveRows(old(cat), typeId)))
                && cat.items == old(cat.items) && cat.byCode == old(cat.byCode)
    {
      hide LiveRows, Serialize;
      var rows := LoadHashRows(typeId);
      var preimage := BuildPreimage(rows);
      if typeId !in cat.types || cat.types[typeId].deleted {
        return Some(NotFound);
      }
      var t := cat.types[typeId];
      cat := cat.(types := cat.types[typeId := t.(version := t.version + 1, hash := h(preimage))]);
      error := None;
    }

    /** INSERT INTO dict_item: uniqueness of the code among live items, then the foreign key. */
    method InsertItem(x: NewItem, sortOrder: int) returns (r: Result<int, DictError>)
      modifies this`cat
      ensures !FitsInt32(sortOrder) ==> r == Failure(Internal) && cat == old(cat)
      ensures FitsInt32(sortOrder) && ItemCodeTaken(old(cat), x.typeId, x.code) ==> r == Failure(CodeTaken)
      ensures FitsInt32(sortOrder) && !ItemCodeTaken(old(cat), x.typeId, x.code) && x.typeId !in old(cat.types) ==>
                r == Failure(NotFound)
      ensures FitsInt32(sortOrder) && r.Failure? ==> cat == old(cat).(nextItem := old(cat.nextItem) + 1)
      ensures FitsInt32(sortOrder) && !ItemCodeTaken(old(cat), x.typeId, x.code) && x.typeId in old(cat.types) ==>
                && r == Success(old(cat.nextItem))
                && cat == old(cat).(
                     items := old(cat.items)[old(cat.nextItem) := DictItem(
                       typeId := x.typeId, code := x.code, caption := x.caption, color := x.color, extra := x.extra,
                       sortOrder := sortOrder, isActive := true, deleted := false)],
                     nextItem := old(cat.nextItem) + 1)
    {
      if !FitsInt32(sortOrder) {
        return Failure(Internal);
      }
      var id := cat.nextItem;
      cat := cat.(nextItem := id + 1);
      if ItemCodeTaken(cat, x.typeId, x.code) {
        return Failure(CodeTaken);
      }
      if x.typeId !in cat.types {
        return Failure(NotFound);
      }
      cat := cat.(items := cat.items[id := DictItem(x.typeId, x.code, x.caption, x.color, x.extra, sortOrder, true, false)]);
      r := Success(id);
    }

    /** UPDATE dict_item with COALESCE for the absent fields. */
    method UpdateRow(id: int, x: ItemUpdate) returns (error: Option<DictError>)
      modifies this`cat
      ensures error == if LiveItem(old(cat), id) then None else Some(NotFound)
      ensures cat == if error.Some? then old(cat)
                     else old(cat).(items := old(cat.items)[id := Updated(old(cat.items[id]), x)])
    {
      if id !in cat.items || cat.items[id].deleted {
        return Some(NotFound);
      }
      var item := cat.items[id];
      if x.caption.Some? { item := item.(caption := x.caption.value); }
      if x.setColor { item := item.(color := x.color); }
      if x.extra.Some? { item := item.(extra := x.extra.value); }
      if x.sortOrder.Some? { item := item.(sortOrder := Int32(x.sortOrder.value)); }
      if x.isActive.Some? { item := item.(isActive := x.isActive.value); }
      cat := cat.(items := cat.items[id := item]);
      error := None;
    }

    /** A new type has the hash of no items; the code of a deleted type stays taken. */
    method CreateDictType(code: string) returns (r: Result<int, DictError>)
      modifies this`cat
      ensures cat == AfterCreateType(h, old(cat), code)
      ensures r == if code == "" then Failure(ValidationFailed)
                   else if code in old(cat.byCode) then Failure(CodeTaken) else Success(old(cat.nextType))
      ensures r.Success? ==>
                && cat.types == old(cat.types)[r.value := DictType(code := code, version := 1, hash := h(""), deleted := false)]
                && cat.byCode == old(cat.byCode)[code := r.value] && cat.items == old(cat.items)
    {
      if code == "" {
        return Failure(ValidationFailed);
      }
      var id := cat.nextType;
      cat := cat.(nextType := id + 1);
      if code in cat.byCode {
        return Failure(CodeTaken);
      }
      var preimage := BuildPreimage([]);
      cat := cat.(types := cat.types[id := DictType(code, 1, h(preimage), false)], byCode := cat.byCode[code := id]);
      r := Success(id);
    }

    /** The items of a deleted type stay, but none of them can change any more. */
    method DeleteDictType(id: int) returns (error: Option<DictError>)
      modifies this`cat
      ensures cat == AfterDeleteType(old(cat), id)
      ensures error == if LiveType(old(cat), id) then None else Some(NotFound)
      ensures error.None? ==>
                && id in cat.types && cat.types == old(cat.types)[id := cat.types[id]] && cat.types[id].deleted
                && cat.types[id].(deleted := false) == old(cat.types)[id] && cat.items == old(cat.items)
    {
      if id !in cat.types || cat.types[id].deleted {
        return Some(NotFound);
      }
      cat := cat.(types := cat.types[id := cat.types[id].(deleted := true)]);
      error := None;
    }

    method CreateItem(x: NewItem) returns (r: Result<int, DictError>)
      modifies this`cat
      ensures cat == AfterCreate(h, old(cat), x)
      ensures r == match CreateOutcome(old(cat), x)
                   case None => Success(old(cat.nextItem))
                   case Some(e) => Failure(e)
      ensures r.Failure? ==> cat.items == old(cat.items) && cat.types == old(cat.types)
      ensures r.Success? ==> Created(old(cat), cat, x, r.value)
      ensures r == Failure(ValidationFailed) <==> x.code == "" || x.caption == "" || x.typeId <= 0
      ensures r.Success? <==>
                && x.code != "" && x.caption != "" && x.typeId > 0
                && -0x8000_0000 <= x.sortOrder.GetOr(0) < 0x8000_0000
                && x.typeId in old(cat.types) && !old(cat.types)[x.typeId].deleted
                && forall k :: k in old(cat.items) && old(cat.items)[k].typeId == x.typeId && old(cat.items)[k].code == x.code ==>
                     old(cat.items)[k].deleted
    {
      hide Created, LiveHash;
      CreateTells(h, cat, x);
      if x.code == "" || x.caption == "" || x.typeId <= 0 {
        return Failure(ValidationFailed);
      }
      var sortOrder := 0;
      if x.sortOrder.Some? {
        sortOrder := x.sortOrder.value;
      }
      var saved := cat;
      var inserted := InsertItem(x, sortOrder);
      if inserted.Failure? {
        return inserted;
      }
      var error := RecomputeTypeHash(x.typeId);
      if error.Some? {
        cat := saved.(nextItem := cat.nextItem);
        return Failure(error.value);
      }
      r := inserted;
    }

    /** The color is always taken from the request: leaving it out clears it. */
    method UpdateItem(id: int, x: ItemUpdate) returns (error: Option<DictError>)
      modifies this`cat
      ensures cat == AfterUpdate(h, old(cat), id, x.(setColor := true))
      ensures error == UpdateOutcome(old(cat), id, x)
      ensures error.Some? ==> cat == old(cat)
      ensures error.None? ==> Changed(old(cat), cat, id, x)
      ensures error == Some(ValidationFailed) <==> x.caption == Some("")
      ensures error.None? <==>
                && x.caption != Some("") && id in old(cat.items) && !old(cat.items)[id].deleted
                && old(cat.items)[id].typeId in old(cat.types) && !old(cat.types)[old(cat.items)[id].typeId].deleted
    {
      hide Changed, LiveHash;
      UpdateTells(h, cat, id, x);
      if x.caption == Some("") {
        return Some(ValidationFailed);
      }
      var saved := cat;
      if id !in cat.items || cat.items[id].deleted {
        return Some(NotFound);
      }
      var typeId := cat.items[id].typeId;
      error := UpdateRow(id, x.(setColor := true));
      if error.Some? {
        return;
      }
      error := RecomputeTypeHash(typeId);
      if error.Some? {
        cat := saved;
      }
    }

    /** Retires an item some problem refers to, soft-deletes any other; true means retired. */
    method DeleteItem(id: int, referenced: bool) returns (r: Result<bool, DictError>)
      modifies this`cat
      ensures cat == AfterDelete(h, old(cat), id, referenced)
      ensures r == if LiveItem(old(cat), id) && LiveType(old(cat), old(cat.items[id].typeId)) then Success(referenced)
                   else Failure(NotFound)
      ensures r.Failure? ==> cat == old(cat)
      ensures r.Success? ==> Gone(old(cat), cat, id, referenced)
      ensures r.Success? <==>
                && id in old(cat.items) && !old(cat.items)[id].deleted
                && old(cat.items)[id].typeId in old(cat.types) && !old(cat.types)[old(cat.items)[id].typeId].deleted
    {
      hide Gone, LiveHash;
      DeleteTells(h, cat, id, referenced);
      var saved := cat;
      if id !in cat.items || cat.items[id].deleted {
        return Failure(NotFound);
      }
      var typeId := cat.items[id].typeId;
      if referenced {
        var failed := UpdateRow(id, ItemUpdate(None, false, None, None, None, Some(false)));
        assert failed.None?;
      } else {
        cat := cat.(items := cat.items[id := cat.items[id].(deleted := true, isActive := false)]);
      }
      var error := RecomputeTypeHash(typeId);
      if error.Some? {
        cat := saved;
        return Failure(error.value);
      }
      r := Success(referenced);
    }

    /** The stored hash is the tag; items are read only when it does not match, in a second statement.
        `between` is what other transactions commit before it. */
    method GetItemsByTypeCode(code: string, includeInactive: bool, ifNoneMatch: string, between: seq<Op>)
      returns (r: Answer)
      requires CatalogOk(cat)
      modifies this`cat
      ensures r.check == CheckFor(old(cat), code, ifNoneMatch)
      ensures r.check.NoSuchType? <==> code !in old(cat.byCode) || old(cat.types[cat.byCode[code]]).deleted
      ensures code in old(cat.byCode) && !old(cat.types[cat.byCode[code]]).deleted ==>
                var stored := old(cat.types[cat.byCode[code]]).hash;
                && (ifNoneMatch == "" ==> r.check == Modified(stored))
                && (ifNoneMatch == "\"" + stored + "\"" || ifNoneMatch == "W/\"" + stored + "\"" ==> r.check == NotModified)
                && (r.check.Modified? ==> r.check.hash == stored)
      ensures !r.check.Modified? ==> cat == old(cat) && r.payload == []
      ensures r.check.Modified? ==>
                cat == ApplyAll(h, old(cat), between) && r.payload == Listed(Views(cat, old(cat).byCode[code]), includeInactive)
    {
      hide Listed, Views, Unquote;
      if code !in cat.byCode || cat.types[cat.byCode[code]].deleted {
        return Answer(NoSuchType, []);
      }
      var t := cat.byCode[code];
      var hash := cat.types[t].hash;
      SentTagMatches(hash);
      if ifNoneMatch != "" && EtagMatches(ifNoneMatch, hash) {
        return Answer(NotModified, []);
      }
      cat := ApplyAll(h, cat, between);
      var payload := ListItems(t, includeInactive);
      r := Answer(Modified(hash), payload);
    }

    /** Retired items on request only, ordered by sort order and id. */
    method ListItems(typeId: int, includeInactive: bool) returns (payload: seq<View>)
      ensures payload == Listed(Views(cat, typeId), includeInactive)
      ensures InSortOrder(payload)
      ensures forall i, j :: 0 <= i < j < |payload| ==>
                || payload[i].row.sortOrder < payload[j].row.sortOrder
                || (payload[i].row.sortOrder == payload[j].row.sortOrder && payload[i].row.id < payload[j].row.id)
      ensures forall x :: x in payload <==>
                LiveIn(cat, typeId, x.row.id) && x == ViewOf(x.row.id, cat.items[x.row.id]) && (includeInactive || x.row.isActive)
    {
      hide Views, InsertBySort, InSortOrder;
      var items := Views(cat, typeId);
      payload := [];
      assert items[..0] == [];
      for k := 0 to |items|
        invariant payload == Listed(items[..k], includeInactive)
      {
        assert items[..k + 1][..k] == items[..k];
        if includeInactive || items[k].row.isActive {
          payload := InsertBySort(payload, items[k]);
        }
      }
      assert items[..|items|] == items;
      ViewsInIdOrder(cat, typeId);
      ListedSorts(items, includeInactive);
      ListingIs(cat, typeId, includeInactive);
      SortedMeans(payload);
    }
  }

  lemma SortedMeans(vs: seq<View>)
    ensures InSortOrder(vs) ==>
              forall i, j :: 0 <= i < j < |vs| ==>
                || vs[i].row.sortOrder < vs[j].row.sortOrder
                || (vs[i].row.sortOrder == vs[j].row.sortOrder && vs[i].row.id < vs[j].row.id)
  {
  }

  lemma SentTagMatches(hash: string)
    ensures EtagMatches("\"" + hash + "\"", hash) && EtagMatches("W/\"" + hash + "\"", hash)
  {
    UnquoteOfQuote(hash, hash);
    assert "W/" + Quote(hash) == "W/\"" + hash + "\"";
  }

  lemma ListingIs(cat: Catalog, typeId: int, includeInactive: bool)
    ensures forall x :: x in Listed(Views(cat, typeId), includeInactive) <==>
              LiveIn(cat, typeId, x.row.id) && x == ViewOf(x.row.id, cat.items[x.row.id]) && (includeInactive || x.row.isActive)
  {
    hide Views, Listed;
    forall x: View
      ensures x in Listed(Views(cat, typeId), includeInactive) <==>
                LiveIn(cat, typeId, x.row.id) && x == ViewOf(x.row.id, cat.items[x.row.id]) && (includeInactive || x.row.isActive)
    {
      PayloadIsSorted(cat, typeId, includeInactive, x);
    }
  }
}
