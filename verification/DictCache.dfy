/** Clients that pull a type's items with If-None-Match: what a 304 tells them. */
module DictCache {
  import opened Wrappers
  import opened Ordering
  import opened DictHash
  import opened DictCatalog

  // --- Entity tags ------------------------------------------------------------------------------

  /** The ETag header of a hash (section 8.8.3 of RFC 9110). */
  function Quote(hash: string): string {
    "\"" + hash + "\""
  }

  function Unquote(v: string): string {
    var s := if |v| >= 2 && v[0] == 'W' && v[1] == '/' then v[2..] else v;
    if |s| >= 2 && s[0] == '"' && s[|s| - 1] == '"' then s[1..|s| - 1] else s
  }

  predicate EtagMatches(ifNoneMatch: string, stored: string) {
    Unquote(ifNoneMatch) == stored
  }

  /** The header as sent, or weakened by a proxy, gives the hash back: it matches that hash only. */
  lemma UnquoteOfQuote(hash: string, stored: string)
    ensures EtagMatches(Quote(hash), stored) <==> hash == stored
    ensures EtagMatches("W/" + Quote(hash), stored) <==> hash == stored
    ensures EtagMatches(hash, hash) || (|hash| >= 2 && (hash[0] == 'W' || hash[0] == '"'))
  {
    var q := Quote(hash);
    assert q[0] == '"' && q[|q| - 1] == '"' && q[1..|q| - 1] == hash;
    assert ("W/" + q)[2..] == q;
  }

  // --- Payloads ---------------------------------------------------------------------------------

  /** An item as a client gets it: the hashed fields, and `extra`, which is not hashed. */
  datatype View = View(row: HashRow, extra: string)

  function ViewOf(id: int, item: DictItem): View {
    View(HashRowOf(id, item), item.extra)
  }

  /** The live items of a type in id order. */
  function Views(cat: Catalog, t: int): seq<View> {
    var ids := LiveOrder(cat, t);
    seq(|ids|, k requires 0 <= k < |ids| => ViewOf(ids[k], cat.items[ids[k]]))
  }

  /** The hashed fields of a list of items. */
  function Hashed(vs: seq<View>): seq<HashRow> {
    seq(|vs|, k requires 0 <= k < |vs| => vs[k].row)
  }

  lemma HashedViews(cat: Catalog, t: int)
    ensures Hashed(Views(cat, t)) == LiveRows(cat, t)
  {
  }

  /** Insertion behind every item that does not sort after it. */
  function InsertBySort(vs: seq<View>, v: View): seq<View> {
    if vs == [] || vs[|vs| - 1].row.sortOrder <= v.row.sortOrder then vs + [v]
    else InsertBySort(vs[..|vs| - 1], v) + [vs[|vs| - 1]]
  }

  /** ORDER BY sort_order, id over items given in id order, without retired ones unless asked for. */
  function Listed(vs: seq<View>, includeInactive: bool): seq<View> {
    if vs == [] then []
    else
      var front, v := Listed(vs[..|vs| - 1], includeInactive), vs[|vs| - 1];
      if includeInactive || v.row.isActive then InsertBySort(front, v) else front
  }

  // --- Pulls ------------------------------------------------------------------------------------

  /** What a client keeps from its last full answer for a code. History: `tagged` and `items` are the
      type's live items when its row was read for the tag, and when the items themselves were read. */
  datatype Cached = Cached(etag: string, includeInactive: bool, payload: seq<View>, tagged: seq<View>, items: seq<View>)

  /** A pull between its two reads. */
  datatype Pulling = Pulling(etag: string, includeInactive: bool, typeId: int, tagged: seq<View>)

  type Slot = (nat, string)

  datatype World = World(cat: Catalog, caches: map<Slot, Cached>, pulls: map<Slot, Pulling>)

  /** What the type's row alone decides. */
  datatype Check = NoSuchType | NotModified | Modified(hash: string)

  datatype Answer = Answer(check: Check, payload: seq<View>)

  function IfNoneMatch(w: World, slot: Slot): string {
    if slot in w.caches then w.caches[slot].etag else ""
  }

  /** The stored hash decides; the items are read only when it does not match. */
  function CheckFor(cat: Catalog, code: string, ifNoneMatch: string): Check {
    if code !in cat.byCode || !LiveType(cat, cat.byCode[code]) then NoSuchType
    else
      var hash := cat.types[cat.byCode[code]].hash;
      if ifNoneMatch != "" && EtagMatches(ifNoneMatch, hash) then NotModified else Modified(hash)
  }

  function CheckTo(w: World, slot: Slot): Check {
    CheckFor(w.cat, slot.1, IfNoneMatch(w, slot))
  }

  /** A pull reads the type's row, and in a second statement the items. */
  datatype Step = Change(op: Op) | ReadType(slot: Slot, includeInactive: bool) | ReadItems(slot: Slot)

  function Next(h: Hasher, w: World, s: Step): World {
    match s
    case Change(op) => w.(cat := Apply(h, w.cat, op))
    case ReadType(slot, flag) =>
      (match CheckTo(w, slot)
       case Modified(hash) =>
         var t := w.cat.byCode[slot.1];
         w.(pulls := w.pulls[slot := Pulling(Quote(hash), flag, t, Views(w.cat, t))])
       case _ => w)
    case ReadItems(slot) =>
      if slot !in w.pulls then w
      else
        var p := w.pulls[slot];
        var items := Views(w.cat, p.typeId);
        w.(caches := w.caches[slot := Cached(p.etag, p.includeInactive, Listed(items, p.includeInactive), p.tagged, items)],
           pulls := w.pulls - {slot})
  }

  function Exec(h: Hasher, w: World, steps: seq<Step>): World {
    if steps == [] then w else Next(h, Exec(h, w, steps[..|steps| - 1]), steps[|steps| - 1])
  }

  /** A pull with nothing between its reads. */
  function Pulled(h: Hasher, w: World, slot: Slot, includeInactive: bool): World {
    Next(h, Next(h, w, ReadType(slot, includeInactive)), ReadItems(slot))
  }

  // --- The invariant ----------------------------------------------------------------------------

  /** SHA-256 taken as injective, and never equal to a seed's md5, which is half as long. */
  ghost predicate GoodHasher(h: Hasher, seeds: map<int, Seed>) {
    && (forall x, y :: h(x) == h(y) ==> x == y)
    && (forall t, x :: t in seeds ==> h(x) != seeds[t].hash)
  }

  /** A tag is the hash of the items it was read with, or the seed's over the seed's rows. */
  ghost predicate TagOk(h: Hasher, seeds: map<int, Seed>, cat: Catalog, code: string, etag: string, tagged: seq<View>) {
    && code in cat.byCode
    && var t := cat.byCode[code];
    && (etag == Quote(h(Serialize(Hashed(tagged))))
        || (t in seeds && etag == Quote(seeds[t].hash) && Hashed(tagged) == seeds[t].rows))
  }

  ghost predicate CachedOk(h: Hasher, seeds: map<int, Seed>, cat: Catalog, code: string, c: Cached) {
    TagOk(h, seeds, cat, code, c.etag, c.tagged) && c.payload == Listed(c.items, c.includeInactive)
  }

  ghost predicate PullOk(h: Hasher, seeds: map<int, Seed>, cat: Catalog, code: string, p: Pulling) {
    TagOk(h, seeds, cat, code, p.etag, p.tagged) && p.typeId == cat.byCode[code]
  }

  ghost predicate CachesOk(h: Hasher, seeds: map<int, Seed>, w: World) {
    && Inv(h, seeds, w.cat)
    && (forall slot :: slot in w.caches ==> CachedOk(h, seeds, w.cat, slot.1, w.caches[slot]))
    && (forall slot :: slot in w.pulls ==> PullOk(h, seeds, w.cat, slot.1, w.pulls[slot]))
  }

  lemma ByCodeKept(h: Hasher, cat: Catalog, op: Op)
    requires CatalogOk(cat)
    ensures forall c :: c in cat.byCode ==> c in Apply(h, cat, op).byCode && Apply(h, cat, op).byCode[c] == cat.byCode[c]
  {
  }

  lemma CatalogIsOk(h: Hasher, seeds: map<int, Seed>, cat: Catalog)
    requires Inv(h, seeds, cat)
    ensures CatalogOk(cat)
  {
  }

  lemma NextKeeps(h: Hasher, seeds: map<int, Seed>, w: World, s: Step)
    requires CachesOk(h, seeds, w)
    ensures CachesOk(h, seeds, Next(h, w, s))
  {
    hide Inv, Serialize, Listed, Views, Hashed;
    match s
    case Change(op) =>
      ApplyKeeps(h, seeds, w.cat, op);
      ByCodeKept(h, w.cat, op) by {
        CatalogIsOk(h, seeds, w.cat);
      }
      hide Apply;
      forall slot | slot in w.caches
        ensures CachedOk(h, seeds, Next(h, w, s).cat, slot.1, w.caches[slot])
      {
        assert CachedOk(h, seeds, w.cat, slot.1, w.caches[slot]);
      }
      forall slot | slot in w.pulls
        ensures PullOk(h, seeds, Next(h, w, s).cat, slot.1, w.pulls[slot])
      {
        assert PullOk(h, seeds, w.cat, slot.1, w.pulls[slot]);
      }
    case ReadType(slot, flag) =>
      if CheckTo(w, slot).Modified? {
        TagReadOk(h, seeds, w, slot);
      }
    case ReadItems(slot) =>
  }

  lemma TagReadOk(h: Hasher, seeds: map<int, Seed>, w: World, slot: Slot)
    requires Inv(h, seeds, w.cat) && CheckTo(w, slot).Modified?
    ensures slot.1 in w.cat.byCode
    ensures TagOk(h, seeds, w.cat, slot.1, Quote(CheckTo(w, slot).hash), Views(w.cat, w.cat.byCode[slot.1]))
  {
    hide Serialize, Listed, LiveRows, Views;
    var t := w.cat.byCode[slot.1];
    assert HashOk(h, seeds, w.cat, t);
    HashedViews(w.cat, t);
  }

  lemma {:induction false} ExecKeeps(h: Hasher, seeds: map<int, Seed>, w: World, steps: seq<Step>)
    requires CachesOk(h, seeds, w)
    ensures CachesOk(h, seeds, Exec(h, w, steps))
  {
    if steps == [] {
    } else {
      ExecKeeps(h, seeds, w, steps[..|steps| - 1]);
      NextKeeps(h, seeds, Exec(h, w, steps[..|steps| - 1]), steps[|steps| - 1]);
    }
  }

  lemma NoCachesOk(h: Hasher, seeds: map<int, Seed>, cat: Catalog)
    requires Inv(h, seeds, cat)
    ensures CachesOk(h, seeds, World(cat, map[], map[]))
  {
  }

  // --- What a payload shows ---------------------------------------------------------------------

  lemma {:induction false} InsertMembers(vs: seq<View>, v: View, x: View)
    ensures x in InsertBySort(vs, v) <==> x in vs || x == v
    ensures |InsertBySort(vs, v)| == |vs| + 1
  {
    if vs == [] {
    } else {
      var front, last := vs[..|vs| - 1], vs[|vs| - 1];
      assert vs == front + [last];
      InsertMembers(front, v, x);
    }
  }

  lemma {:induction false} ListedMembers(vs: seq<View>, flag: bool, x: View)
    ensures x in Listed(vs, flag) <==> x in vs && (flag || x.row.isActive)
  {
    if vs == [] {
    } else {
      var front, last := vs[..|vs| - 1], vs[|vs| - 1];
      assert vs == front + [last];
      ListedMembers(front, flag, x);
      InsertMembers(Listed(front, flag), last, x);
    }
  }

  /** ORDER BY sort_order, id. */
  predicate SortsBefore(a: View, b: View) {
    a.row.sortOrder < b.row.sortOrder || (a.row.sortOrder == b.row.sortOrder && a.row.id < b.row.id)
  }

  ghost predicate InSortOrder(vs: seq<View>) {
    forall i, j :: 0 <= i < j < |vs| ==> SortsBefore(vs[i], vs[j])
  }

  ghost predicate InIdOrder(vs: seq<View>) {
    forall i, j :: 0 <= i < j < |vs| ==> vs[i].row.id < vs[j].row.id
  }

  lemma {:induction false} InsertSorts(vs: seq<View>, v: View)
    requires InSortOrder(vs) && forall x :: x in vs ==> x.row.id < v.row.id
    ensures InSortOrder(InsertBySort(vs, v))
  {
    if vs == [] {
    } else {
      var front, last := vs[..|vs| - 1], vs[|vs| - 1];
      if last.row.sortOrder <= v.row.sortOrder {
        assert forall i :: 0 <= i < |vs| ==> vs[i] in vs && (vs[i] == last || SortsBefore(vs[i], last));
      } else {
        InsertSorts(front, v);
        var r := InsertBySort(front, v);
        forall i | 0 <= i < |r|
          ensures SortsBefore(r[i], last)
        {
          InsertMembers(front, v, r[i]);
          assert r[i] == v || r[i] in front;
        }
      }
    }
  }

  /** Items in id order are listed by (sort_order, id), strictly. */
  lemma {:induction false} ListedSorts(vs: seq<View>, flag: bool)
    requires InIdOrder(vs)
    ensures InSortOrder(Listed(vs, flag))
  {
    if vs == [] {
    } else {
      var front, last := vs[..|vs| - 1], vs[|vs| - 1];
      ListedSorts(front, flag);
      forall x | x in Listed(front, flag)
        ensures x.row.id < last.row.id
      {
        ListedMembers(front, flag, x);
      }
      InsertSorts(Listed(front, flag), last);
    }
  }

  lemma ViewsInIdOrder(cat: Catalog, t: int)
    ensures InIdOrder(Views(cat, t))
  {
  }

  /** A payload has exactly the live items of the type, without retired ones unless asked for, by
      (sort_order, id), each with its own fields. */
  lemma PayloadIsSorted(cat: Catalog, t: int, flag: bool, x: View)
    ensures InSortOrder(Listed(Views(cat, t), flag))
    ensures x in Listed(Views(cat, t), flag) <==>
              LiveIn(cat, t, x.row.id) && x == ViewOf(x.row.id, cat.items[x.row.id]) && (flag || x.row.isActive)
  {
    hide Views, Listed, LiveIn;
    ViewsInIdOrder(cat, t);
    ListedSorts(Views(cat, t), flag);
    ListedMembers(Views(cat, t), flag, x);
    ViewsAre(cat, t, x);
  }

  lemma ViewsAre(cat: Catalog, t: int, x: View)
    ensures x in Views(cat, t) <==> LiveIn(cat, t, x.row.id) && x == ViewOf(x.row.id, cat.items[x.row.id])
  {
    var ids := LiveOrder(cat, t);
    if LiveIn(cat, t, x.row.id) && x == ViewOf(x.row.id, cat.items[x.row.id]) {
      LiveHasPlace(cat, t, x.row.id);
      var k :| 0 <= k < |ids| && ids[k] == x.row.id;
      assert Views(cat, t)[k] == x;
    }
  }

  ghost predicate AllActive(vs: seq<View>) {
    forall k :: 0 <= k < |vs| ==> vs[k].row.isActive
  }

  lemma {:induction false} ListedLength(vs: seq<View>)
    ensures |Listed(vs, true)| == |vs|
    ensures AllActive(vs) ==> Listed(vs, false) == Listed(vs, true)
    ensures !AllActive(vs) ==> |Listed(vs, false)| < |vs|
    ensures |Listed(vs, false)| <= |vs|
  {
    if vs == [] {
    } else {
      var front, last := vs[..|vs| - 1], vs[|vs| - 1];
      assert vs == front + [last];
      ListedLength(front);
      InsertMembers(Listed(front, true), last, last);
      InsertMembers(Listed(front, false), last, last);
    }
  }

  lemma HashedSnoc(vs: seq<View>, v: View)
    ensures Hashed(vs + [v]) == Hashed(vs) + [v.row]
  {
  }

  lemma {:induction false} InsertHashed(vs: seq<View>, v: View, us: seq<View>, u: View)
    requires Hashed(vs) == Hashed(us) && v.row == u.row
    ensures Hashed(InsertBySort(vs, v)) == Hashed(InsertBySort(us, u))
  {
    assert |vs| == |Hashed(vs)| == |us|;
    if vs == [] {
      HashedSnoc(vs, v);
      HashedSnoc(us, u);
    } else {
      var n := |vs| - 1;
      assert vs[n].row == Hashed(vs)[n] == us[n].row;
      if vs[n].row.sortOrder <= v.row.sortOrder {
        HashedSnoc(vs, v);
        HashedSnoc(us, u);
      } else {
        assert Hashed(vs[..n]) == Hashed(vs)[..n] == Hashed(us[..n]);
        InsertHashed(vs[..n], v, us[..n], u);
        HashedSnoc(InsertBySort(vs[..n], v), vs[n]);
        HashedSnoc(InsertBySort(us[..n], u), us[n]);
      }
    }
  }

  /** Items that agree on the hashed fields are listed alike on the hashed fields. */
  lemma {:induction false} ListedHashed(vs: seq<View>, us: seq<View>, flag: bool)
    requires Hashed(vs) == Hashed(us)
    ensures Hashed(Listed(vs, flag)) == Hashed(Listed(us, flag))
  {
    assert |vs| == |Hashed(vs)| == |us|;
    if vs == [] {
    } else {
      var n := |vs| - 1;
      assert vs[n].row == Hashed(vs)[n] == us[n].row;
      assert Hashed(vs[..n]) == Hashed(vs)[..n] == Hashed(us[..n]);
      ListedHashed(vs[..n], us[..n], flag);
      InsertHashed(Listed(vs[..n], flag), vs[n], Listed(us[..n], flag), us[n]);
    }
  }

  // --- When a client is answered 304 ------------------------------------------------------------

  /** The stored hash and the cached tag are both the seed's, or neither is. */
  ghost predicate SameKind(seeds: map<int, Seed>, cat: Catalog, t: int, c: Cached)
    requires t in cat.types
  {
    t in seeds ==> (cat.types[t].hash == seeds[t].hash <==> c.etag == Quote(seeds[t].hash))
  }

  /** After any run of changes and pulls, whatever the texts contain, a client is answered 304 if and
      only if the type's live items now serialize to the text of those that stood when the type's row
      was read for its last full answer, and the type has not left its seed in between. */
  lemma NotModifiedIff(h: Hasher, seeds: map<int, Seed>, cat: Catalog, steps: seq<Step>, slot: Slot)
    requires GoodHasher(h, seeds) && Inv(h, seeds, cat)
    requires var w := Exec(h, World(cat, map[], map[]), steps); slot in w.caches && CheckTo(w, slot) != NoSuchType
    ensures var w := Exec(h, World(cat, map[], map[]), steps);
            var t, c := w.cat.byCode[slot.1], w.caches[slot];
            CheckTo(w, slot) == NotModified <==>
              Serialize(LiveRows(w.cat, t)) == Serialize(Hashed(c.tagged)) && SameKind(seeds, w.cat, t, c)
  {
    hide Exec, CachesOk, Inv, SameKind, CheckFor, Serialize, Listed, Unquote;
    NoCachesOk(h, seeds, cat);
    ExecKeeps(h, seeds, World(cat, map[], map[]), steps);
    MatchIff(h, seeds, Exec(h, World(cat, map[], map[]), steps), slot);
  }

  lemma MatchIff(h: Hasher, seeds: map<int, Seed>, w: World, slot: Slot)
    requires GoodHasher(h, seeds) && CachesOk(h, seeds, w) && slot in w.caches
    requires CheckTo(w, slot) != NoSuchType
    ensures var t, c := w.cat.byCode[slot.1], w.caches[slot];
            CheckTo(w, slot) == NotModified <==>
              Serialize(LiveRows(w.cat, t)) == Serialize(Hashed(c.tagged)) && SameKind(seeds, w.cat, t, c)
  {
    hide Serialize, Unquote, Listed, LiveRows, Hashed, PullOk;
    var t, c := w.cat.byCode[slot.1], w.caches[slot];
    assert CachedOk(h, seeds, w.cat, slot.1, c);
    assert HashOk(h, seeds, w.cat, t);
    var hash := w.cat.types[t].hash;
    UnquoteOfQuote(h(Serialize(Hashed(c.tagged))), hash);
    if t in seeds {
      UnquoteOfQuote(seeds[t].hash, hash);
      QuoteInjective(h(Serialize(Hashed(c.tagged))), seeds[t].hash);
    }
  }

  lemma QuoteInjective(a: string, b: string)
    ensures Quote(a) == Quote(b) <==> a == b
  {
    UnquoteOfQuote(a, b);
    UnquoteOfQuote(b, b);
  }

  /** With no bar in those two lists, whatever other items contain, a 304 means that the live items are
      those of the first read, on the hashed fields. So the client has them if and only if its two
      reads saw the same. */
  lemma NotModifiedMeansCurrent(h: Hasher, seeds: map<int, Seed>, cat: Catalog, steps: seq<Step>, slot: Slot)
    requires GoodHasher(h, seeds) && Inv(h, seeds, cat)
    requires var w := Exec(h, World(cat, map[], map[]), steps);
             slot in w.caches && CheckTo(w, slot) == NotModified
             && PipeFree(LiveRows(w.cat, w.cat.byCode[slot.1])) && PipeFree(Hashed(w.caches[slot].tagged))
    ensures var w := Exec(h, World(cat, map[], map[]), steps);
            var now, c := LiveRows(w.cat, w.cat.byCode[slot.1]), w.caches[slot];
            now == Hashed(c.tagged) && (Hashed(c.items) == now <==> Hashed(c.items) == Hashed(c.tagged))
  {
    hide Exec, CachesOk, Inv, SameKind, Serialize, Listed, Views, Unquote, PipeFree;
    NotModifiedIff(h, seeds, cat, steps, slot);
    var w := Exec(h, World(cat, map[], map[]), steps);
    SerializeInjective(LiveRows(w.cat, w.cat.byCode[slot.1]), Hashed(w.caches[slot].tagged));
  }

  /** The two payloads of a type share one tag. A client whose items are current on the hashed fields
      holds the payload it asks for now, on those fields, if and only if it asks with the flag it
      pulled with or no item is retired. */
  lemma PayloadCurrentIff(c: Cached, cat: Catalog, t: int, includeInactive: bool)
    requires c.payload == Listed(c.items, c.includeInactive) && Hashed(c.items) == LiveRows(cat, t)
    ensures Hashed(c.payload) == Hashed(Listed(Views(cat, t), includeInactive)) <==>
              includeInactive == c.includeInactive || AllActive(c.items)
  {
    HashedViews(cat, t);
    hide Views, LiveRows, Hashed;
    var now := Views(cat, t);
    ListedHashed(c.items, now, includeInactive);
    ListedLength(c.items);
    HashedLength(Listed(c.items, true));
    HashedLength(Listed(c.items, false));
  }

  lemma HashedLength(vs: seq<View>)
    ensures |Hashed(vs)| == |vs|
  {
  }

  /** The same after any run: a 304 to a client without bars in its items, whose reads saw the same. */
  lemma NotModifiedPayloadIff(
      h: Hasher, seeds: map<int, Seed>, cat: Catalog, steps: seq<Step>, slot: Slot, includeInactive: bool)
    requires GoodHasher(h, seeds) && Inv(h, seeds, cat)
    requires var w := Exec(h, World(cat, map[], map[]), steps);
             slot in w.caches && CheckTo(w, slot) == NotModified
             && PipeFree(LiveRows(w.cat, w.cat.byCode[slot.1])) && PipeFree(Hashed(w.caches[slot].tagged))
             && Hashed(w.caches[slot].items) == Hashed(w.caches[slot].tagged)
    ensures var w := Exec(h, World(cat, map[], map[]), steps);
            var t, c := w.cat.byCode[slot.1], w.caches[slot];
            Hashed(c.payload) == Hashed(Listed(Views(w.cat, t), includeInactive)) <==>
              includeInactive == c.includeInactive || AllActive(c.items)
  {
    hide Exec, CachesOk, Inv, Serialize, Listed, Unquote, PipeFree, AllActive, Hashed, Views;
    NotModifiedMeansCurrent(h, seeds, cat, steps, slot);
    NoCachesOk(h, seeds, cat);
    ExecKeeps(h, seeds, World(cat, map[], map[]), steps);
    var w := Exec(h, World(cat, map[], map[]), steps);
    CachedPayload(h, seeds, w, slot);
    PayloadCurrentIff(w.caches[slot], w.cat, w.cat.byCode[slot.1], includeInactive);
  }

  lemma CachedPayload(h: Hasher, seeds: map<int, Seed>, w: World, slot: Slot)
    requires CachesOk(h, seeds, w) && slot in w.caches
    ensures w.caches[slot].payload == Listed(w.caches[slot].items, w.caches[slot].includeInactive)
  {
    assert CachedOk(h, seeds, w.cat, slot.1, w.caches[slot]);
  }

  /** What a pull with nothing between its reads leaves. */
  lemma PulledIs(h: Hasher, w: World, slot: Slot, flag: bool)
    requires CheckTo(w, slot).Modified?
    ensures var w', t := Pulled(h, w, slot, flag), w.cat.byCode[slot.1];
            && w'.cat == w.cat && slot in w'.caches
            && w'.caches[slot]
               == Cached(Quote(w.cat.types[t].hash), flag, Listed(Views(w.cat, t), flag), Views(w.cat, t), Views(w.cat, t))
  {
    hide Views, Listed;
  }

  /** Such a 304: with a retired item, a client that pulled with one flag and asks with the other is told
      that nothing changed, and does not hold the payload it asks for. */
  lemma OtherFlagUnseen(h: Hasher, w: World, slot: Slot, flag: bool, id: int)
    requires CheckTo(w, slot).Modified?
    requires LiveIn(w.cat, w.cat.byCode[slot.1], id) && !w.cat.items[id].isActive
    ensures var w', t := Pulled(h, w, slot, flag), w.cat.byCode[slot.1];
            && CheckTo(w', slot) == NotModified && slot in w'.caches
            && w'.caches[slot].payload == Listed(Views(w'.cat, t), flag) != Listed(Views(w'.cat, t), !flag)
  {
    PulledIs(h, w, slot, flag);
    hide Pulled, Views, Listed, Unquote, LiveIn;
    var t := w.cat.byCode[slot.1];
    UnquoteOfQuote(w.cat.types[t].hash, w.cat.types[t].hash);
    var v := ViewOf(id, w.cat.items[id]);
    PayloadIsSorted(w.cat, t, true, v);
    PayloadIsSorted(w.cat, t, false, v);
  }

  // --- Which changes a client notices -----------------------------------------------------------

  /** A client pulls, and a change then rehashes the type: it is answered 304 if and only if the type's
      text is as before, and the type was not still on its seed. */
  lemma ChangeUnseenIff(h: Hasher, seeds: map<int, Seed>, w: World, slot: Slot, flag: bool, op: Op)
    requires GoodHasher(h, seeds) && Inv(h, seeds, w.cat) && CheckTo(w, slot).Modified?
    requires var cat', t := Apply(h, w.cat, op), w.cat.byCode[slot.1];
             LiveType(cat', t) && cat'.types[t].hash == LiveHash(h, cat', t)
    ensures var t, cat', w' := w.cat.byCode[slot.1], Apply(h, w.cat, op), Next(h, Pulled(h, w, slot, flag), Change(op));
            && w'.cat == cat' && slot in w'.caches && CheckTo(w', slot) != NoSuchType
            && w'.caches[slot].payload == Listed(Views(w.cat, t), flag)
            && (CheckTo(w', slot) == NotModified <==>
                  && w.cat.types[t].hash == LiveHash(h, w.cat, t)
                  && Serialize(LiveRows(cat', t)) == Serialize(LiveRows(w.cat, t)))
  {
    PulledIs(h, w, slot, flag);
    CatalogIsOk(h, seeds, w.cat);
    ByCodeKept(h, w.cat, op);
    hide Pulled, Views, Listed, Unquote, Apply, LiveRows, Serialize;
    var t := w.cat.byCode[slot.1];
    assert HashOk(h, seeds, w.cat, t);
    UnquoteOfQuote(w.cat.types[t].hash, Apply(h, w.cat, op).types[t].hash);
  }

  /** An update goes unseen if and only if the item's line in the text is as before. */
  lemma UpdateUnseenIff(
      h: Hasher, seeds: map<int, Seed>, w: World, slot: Slot, flag: bool, id: int, x: ItemUpdate)
    requires GoodHasher(h, seeds) && Inv(h, seeds, w.cat) && CheckTo(w, slot).Modified?
    requires LiveIn(w.cat, w.cat.byCode[slot.1], id) && UpdateOutcome(w.cat, id, x).None?
    ensures var t, item := w.cat.byCode[slot.1], w.cat.items[id];
            var w' := Next(h, Pulled(h, w, slot, flag), Change(UpdateItem(id, x)));
            && LiveIn(w'.cat, t, id) && slot in w'.caches && CheckTo(w', slot) != NoSuchType
            && w'.caches[slot].payload == Listed(Views(w.cat, t), flag)
            && w'.cat.items[id] == Updated(item, x.(setColor := true))
            && (CheckTo(w', slot) == NotModified <==>
                  && w.cat.types[t].hash == LiveHash(h, w.cat, t)
                  && Line(HashRowOf(id, w'.cat.items[id])) == Line(HashRowOf(id, item)))
  {
    CheckedIsLive(w, slot);
    hide Serialize, Line, Unquote, Listed, Views, HashRowOf, LiveRows, Updated, Pulled, CheckFor, GoodHasher, Inv;
    var t, item := w.cat.byCode[slot.1], Updated(w.cat.items[id], x.(setColor := true));
    UpdatedKeepsType(w.cat.items[id], x.(setColor := true));
    RowWritten(h, w.cat, t, id, item);
    ApplyIs(h, w.cat);
    assert AfterUpdate(h, w.cat, id, x.(setColor := true)) == Rehashed(h, w.cat.(items := w.cat.items[id := item]), t);
    hide Apply, AfterUpdate, Next;
    ChangeUnseenIff(h, seeds, w, slot, flag, UpdateItem(id, x));
  }

  lemma ApplyIs(h: Hasher, cat: Catalog)
    ensures forall x :: Apply(h, cat, CreateItem(x)) == AfterCreate(h, cat, x)
    ensures forall id, x :: Apply(h, cat, UpdateItem(id, x)) == AfterUpdate(h, cat, id, x.(setColor := true))
    ensures forall id, referenced :: Apply(h, cat, DeleteItem(id, referenced)) == AfterDelete(h, cat, id, referenced)
  {
  }

  lemma CheckedIsLive(w: World, slot: Slot)
    requires CheckTo(w, slot).Modified?
    ensures slot.1 in w.cat.byCode && LiveType(w.cat, w.cat.byCode[slot.1])
  {
  }

  /** Writing one live item over another and rehashing. */
  lemma RowWritten(h: Hasher, cat: Catalog, t: int, id: int, item: DictItem)
    requires LiveIn(cat, t, id) && LiveType(cat, t) && item.typeId == t && !item.deleted
    ensures var cat' := Rehashed(h, cat.(items := cat.items[id := item]), t);
            && LiveType(cat', t) && LiveIn(cat', t, id) && cat'.items[id] == item
            && cat'.types[t].hash == LiveHash(h, cat', t)
            && (Serialize(LiveRows(cat', t)) == Serialize(LiveRows(cat, t)) <==>
                  Line(HashRowOf(id, item)) == Line(HashRowOf(id, cat.items[id])))
  {
    hide Serialize, Line, HashRowOf, LiveRows;
    var mid := cat.(items := cat.items[id := item]);
    RehashedIsLive(h, mid, t);
    OneRowChanged(cat, t, id, Rehashed(h, mid, t));
  }

  lemma RehashedIsLive(h: Hasher, mid: Catalog, t: int)
    requires t in mid.types
    ensures var cat' := Rehashed(h, mid, t);
            cat'.types[t].hash == LiveHash(h, cat', t) && LiveRows(cat', t) == LiveRows(mid, t)
  {
    hide LiveRows, Serialize;
    LiveRowsSame(mid, Rehashed(h, mid, t), t);
  }

  lemma UpdatedKeepsType(item: DictItem, x: ItemUpdate)
    ensures Updated(item, x).typeId == item.typeId && Updated(item, x).deleted == item.deleted
  {
  }

  /** Replacing one live item changes the type's text exactly when it changes the item's line. */
  lemma OneRowChanged(cat: Catalog, t: int, id: int, cat': Catalog)
    requires LiveIn(cat, t, id) && LiveIn(cat', t, id) && cat'.items == cat.items[id := cat'.items[id]]
    ensures Serialize(LiveRows(cat', t)) == Serialize(LiveRows(cat, t)) <==>
              Line(HashRowOf(id, cat'.items[id])) == Line(HashRowOf(id, cat.items[id]))
  {
    hide Serialize, Line, HashRowOf, LiveRows, LiveOrder;
    LiveHasPlace(cat, t, id);
    var k :| 0 <= k < |LiveOrder(cat, t)| && LiveOrder(cat, t)[k] == id;
    RowReplaced(cat, t, id, cat', k);
    TextChangesWithLine(LiveRows(cat, t), k, HashRowOf(id, cat'.items[id]));
  }

  lemma RowReplaced(cat: Catalog, t: int, id: int, cat': Catalog, k: nat)
    requires LiveIn(cat, t, id) && LiveIn(cat', t, id) && cat'.items == cat.items[id := cat'.items[id]]
    requires k < |LiveOrder(cat, t)| && LiveOrder(cat, t)[k] == id
    ensures |LiveRows(cat, t)| == |LiveOrder(cat, t)| && LiveRows(cat, t)[k] == HashRowOf(id, cat.items[id])
    ensures LiveRows(cat', t) == LiveRows(cat, t)[k := HashRowOf(id, cat'.items[id])]
  {
    hide HashRowOf, LiveOrder, LiveIds;
    LiveOrderSame(cat, cat', t);
    PlacesAreDistinct(cat, t);
    var ids := LiveOrder(cat, t);
    LiveInKept(cat, t, cat', ids);
    hide LiveIn;
    forall j | 0 <= j < |ids|
      ensures LiveRows(cat', t)[j] == if j == k then HashRowOf(id, cat'.items[id]) else LiveRows(cat, t)[j]
    {
    }
  }

  lemma LiveInKept(cat: Catalog, t: int, cat': Catalog, ids: seq<int>)
    requires forall j :: 0 <= j < |ids| ==> LiveIn(cat, t, ids[j])
    requires cat'.items.Keys == cat.items.Keys
    ensures forall j :: 0 <= j < |ids| ==> ids[j] in cat.items && ids[j] in cat'.items
  {
  }

  lemma LiveHasPlace(cat: Catalog, t: int, id: int)
    requires LiveIn(cat, t, id)
    ensures exists k :: 0 <= k < |LiveOrder(cat, t)| && LiveOrder(cat, t)[k] == id
  {
    assert id in LiveIds(cat, t);
    assert id in LiveOrder(cat, t);
  }

  lemma PlacesAreDistinct(cat: Catalog, t: int)
    ensures forall i, j :: 0 <= i < j < |LiveOrder(cat, t)| ==> LiveOrder(cat, t)[i] != LiveOrder(cat, t)[j]
  {
  }

  /** Without a bar in the item, before and after, that is: if and only if no hashed field changed. */
  lemma UpdateUnseenIffUnhashed(
      h: Hasher, seeds: map<int, Seed>, w: World, slot: Slot, flag: bool, id: int, x: ItemUpdate)
    requires GoodHasher(h, seeds) && Inv(h, seeds, w.cat) && CheckTo(w, slot).Modified?
    requires LiveIn(w.cat, w.cat.byCode[slot.1], id) && UpdateOutcome(w.cat, id, x).None?
    requires PipeFreeRow(HashRowOf(id, w.cat.items[id]))
    requires PipeFreeRow(HashRowOf(id, Updated(w.cat.items[id], x.(setColor := true))))
    requires w.cat.types[w.cat.byCode[slot.1]].hash == LiveHash(h, w.cat, w.cat.byCode[slot.1])
    ensures var item := w.cat.items[id];
            var w' := Next(h, Pulled(h, w, slot, flag), Change(UpdateItem(id, x)));
            CheckTo(w', slot) == NotModified <==>
              HashRowOf(id, Updated(item, x.(setColor := true))) == HashRowOf(id, item)
  {
    UpdateUnseenIff(h, seeds, w, slot, flag, id, x);
    hide Next, Pulled, CheckFor, Line, PipeFreeRow, HashRowOf, Updated, LiveHash;
    var r, r' := HashRowOf(id, w.cat.items[id]), HashRowOf(id, Updated(w.cat.items[id], x.(setColor := true)));
    if Line(r) == Line(r') {
      LineInjective(r, r');
    }
  }

  /** A new item never goes unseen: it lengthens the text. */
  lemma CreateIsSeen(h: Hasher, seeds: map<int, Seed>, w: World, slot: Slot, flag: bool, x: NewItem)
    requires GoodHasher(h, seeds) && Inv(h, seeds, w.cat) && CheckTo(w, slot).Modified?
    requires CreateOutcome(w.cat, x).None? && x.typeId == w.cat.byCode[slot.1]
    ensures CheckTo(Next(h, Pulled(h, w, slot, flag), Change(CreateItem(x))), slot).Modified?
  {
    NextItemIsFresh(h, seeds, w.cat);
    CheckedIsLive(w, slot);
    hide Serialize, Unquote, Listed, Views, LiveRows, LiveHash, Pulled, CheckFor, GoodHasher, Inv, CreateOutcome;
    CreatedIs(h, w.cat, x);
    ApplyIs(h, w.cat);
    hide Apply, AfterCreate, Next;
    ChangeUnseenIff(h, seeds, w, slot, flag, CreateItem(x));
  }

  lemma CreatedIs(h: Hasher, cat: Catalog, x: NewItem)
    requires CreateOutcome(cat, x).None? && cat.nextItem !in cat.items
    ensures var cat' := AfterCreate(h, cat, x);
            && LiveType(cat', x.typeId) && cat'.types[x.typeId].hash == LiveHash(h, cat', x.typeId)
            && Serialize(LiveRows(cat', x.typeId)) != Serialize(LiveRows(cat, x.typeId))
  {
    hide Serialize, LiveRows, ItemCodeTaken;
    var t, id := x.typeId, cat.nextItem;
    var mid := cat.(nextItem := id + 1, items := cat.items[id := ItemOf(x)]);
    RehashedIsLive(h, mid, t);
    assert mid.items - {id} == cat.items - {id};
    RowAdded(cat, t, id, mid);
  }

  /** A deletion goes unseen if and only if it only retires an item that was retired already. */
  lemma DeleteUnseenIff(h: Hasher, seeds: map<int, Seed>, w: World, slot: Slot, flag: bool, id: int, referenced: bool)
    requires GoodHasher(h, seeds) && Inv(h, seeds, w.cat) && CheckTo(w, slot).Modified?
    requires LiveIn(w.cat, w.cat.byCode[slot.1], id)
    ensures var t, w' := w.cat.byCode[slot.1], Next(h, Pulled(h, w, slot, flag), Change(DeleteItem(id, referenced)));
            CheckTo(w', slot) == NotModified <==>
              referenced && !w.cat.items[id].isActive && w.cat.types[t].hash == LiveHash(h, w.cat, t)
  {
    CheckedIsLive(w, slot);
    hide Serialize, Line, Unquote, Listed, Views, LiveRows, LiveHash, Pulled, CheckFor, GoodHasher, Inv, HashRowOf, Removed;
    var t, item := w.cat.byCode[slot.1], Removed(w.cat.items[id], referenced);
    RemovedIs(h, w.cat, t, id, referenced);
    ApplyIs(h, w.cat);
    hide Apply, AfterDelete, Next;
    ChangeUnseenIff(h, seeds, w, slot, flag, DeleteItem(id, referenced));
  }

  /** What a deletion makes of the type's text. */
  lemma RemovedIs(h: Hasher, cat: Catalog, t: int, id: int, referenced: bool)
    requires LiveIn(cat, t, id) && LiveType(cat, t)
    ensures var cat' := AfterDelete(h, cat, id, referenced);
            && LiveType(cat', t) && cat'.types[t].hash == LiveHash(h, cat', t)
            && (Serialize(LiveRows(cat', t)) == Serialize(LiveRows(cat, t)) <==> referenced && !cat.items[id].isActive)
  {
    hide Serialize, Line, LiveRows;
    var item := Removed(cat.items[id], referenced);
    if referenced {
      RowWritten(h, cat, t, id, item);
      RetiredLine(HashRowOf(id, cat.items[id]));
    } else {
      var mid := cat.(items := cat.items[id := item]);
      RehashedIsLive(h, mid, t);
      assert mid.items - {id} == cat.items - {id};
      RowAdded(mid, t, id, cat);
    }
  }

  /** cat' is cat with one more live item: its text is longer. */
  lemma RowAdded(cat: Catalog, t: int, id: int, cat': Catalog)
    requires !LiveIn(cat, t, id) && LiveIn(cat', t, id) && cat.items - {id} == cat'.items - {id}
    ensures |Serialize(LiveRows(cat, t))| < |Serialize(LiveRows(cat', t))|
  {
    hide Serialize, InOrder, LiveRows;
    LiveWithout(cat, t, id, cat');
    var k := InOrderWithout(LiveIds(cat', t), id);
    RowsWithout(cat, t, id, cat', k);
    SerializeDropped(LiveRows(cat', t), k);
  }

  lemma LiveWithout(cat: Catalog, t: int, id: int, cat': Catalog)
    requires !LiveIn(cat, t, id) && LiveIn(cat', t, id) && cat.items - {id} == cat'.items - {id}
    ensures LiveIds(cat, t) == LiveIds(cat', t) - {id} && id in LiveIds(cat', t)
  {
    SameBut(cat, id, cat');
    forall k
      ensures k in LiveIds(cat, t) <==> k in LiveIds(cat', t) - {id}
    {
      assert k in LiveIds(cat, t) <==> LiveIn(cat, t, k);
      assert k in LiveIds(cat', t) <==> LiveIn(cat', t, k);
    }
  }

  lemma SameBut(cat: Catalog, id: int, cat': Catalog)
    requires cat.items - {id} == cat'.items - {id}
    ensures forall k :: k != id ==> (k in cat.items <==> k in cat'.items)
    ensures forall k :: k != id && k in cat.items ==> cat'.items[k] == cat.items[k]
  {
    forall k | k != id
      ensures k in cat.items <==> k in cat'.items
      ensures k in cat.items ==> cat'.items[k] == cat.items[k]
    {
      assert k in cat.items <==> k in cat.items - {id};
      assert k in cat'.items <==> k in cat'.items - {id};
    }
  }

  lemma RowsWithout(cat: Catalog, t: int, id: int, cat': Catalog, k: nat)
    requires cat.items - {id} == cat'.items - {id} && id !in LiveOrder(cat, t)
    requires k < |LiveOrder(cat', t)| && LiveOrder(cat, t) == LiveOrder(cat', t)[..k] + LiveOrder(cat', t)[k + 1..]
    ensures k < |LiveRows(cat', t)|
    ensures LiveRows(cat, t) == LiveRows(cat', t)[..k] + LiveRows(cat', t)[k + 1..]
  {
    hide LiveOrder, HashRowOf;
    SameBut(cat, id, cat');
    var ids, ids' := LiveOrder(cat, t), LiveOrder(cat', t);
    forall j | 0 <= j < |ids|
      ensures LiveRows(cat, t)[j] == LiveRows(cat', t)[if j < k then j else j + 1]
    {
      assert ids[j] in ids && ids[j] == ids'[if j < k then j else j + 1];
    }
  }

  /** A change of `extra` alone is such an update: the client is told that nothing changed, and still
      holds the item with its old value and not with the new one. */
  lemma ExtraChangesUnseen(h: Hasher, seeds: map<int, Seed>, w: World, slot: Slot, flag: bool, id: int, extra: string)
    requires GoodHasher(h, seeds) && Inv(h, seeds, w.cat) && CheckTo(w, slot).Modified?
    requires LiveIn(w.cat, w.cat.byCode[slot.1], id) && (flag || w.cat.items[id].isActive)
    requires w.cat.types[w.cat.byCode[slot.1]].hash == LiveHash(h, w.cat, w.cat.byCode[slot.1])
    requires extra != w.cat.items[id].extra
    ensures var t, item := w.cat.byCode[slot.1], w.cat.items[id];
            var x := ItemUpdate(None, true, item.color, Some(extra), None, None);
            var w' := Next(h, Pulled(h, w, slot, flag), Change(UpdateItem(id, x)));
            && CheckTo(w', slot) == NotModified && slot in w'.caches
            && View(HashRowOf(id, item), item.extra) in w'.caches[slot].payload
            && View(HashRowOf(id, item), extra) !in w'.caches[slot].payload
            && View(HashRowOf(id, item), extra) in Listed(Views(w'.cat, t), flag)
  {
    hide Line, Listed, Unquote, Serialize, LiveHash, Pulled;
    var t, item := w.cat.byCode[slot.1], w.cat.items[id];
    var x := ItemUpdate(None, true, item.color, Some(extra), None, None);
    CheckedIsLive(w, slot);
    UpdateUnseenIff(h, seeds, w, slot, flag, id, x);
    hide Next, CheckFor, Views, GoodHasher, Inv;
    var w' := Next(h, Pulled(h, w, slot, flag), Change(UpdateItem(id, x)));
    PayloadIsSorted(w.cat, t, flag, View(HashRowOf(id, item), item.extra));
    PayloadIsSorted(w.cat, t, flag, View(HashRowOf(id, item), extra));
    PayloadIsSorted(w'.cat, t, flag, View(HashRowOf(id, item), extra));
  }

  /** A new caption and nothing else. */
  function Caption(item: DictItem, caption: string): ItemUpdate {
    ItemUpdate(Some(caption), true, item.color, None, None, None)
  }

  lemma Recaptioned(h: Hasher, cat: Catalog, t: int, id: int, caption: string)
    requires LiveIn(cat, t, id) && LiveType(cat, t) && caption != ""
    ensures var item := cat.items[id];
            var cat' := Apply(h, cat, UpdateItem(id, Caption(item, caption)));
            && LiveType(cat', t) && LiveIn(cat', t, id) && cat'.byCode == cat.byCode
            && cat'.items == cat.items[id := item.(caption := caption)]
            && cat'.types[t].hash == LiveHash(h, cat', t)
  {
    hide LiveRows, Serialize;
    var item := cat.items[id];
    assert Updated(item, Caption(item, caption)) == item.(caption := caption);
    RehashedIsLive(h, cat.(items := cat.items[id := item.(caption := caption)]), t);
  }

  /** The two reads of a pull are two statements: a caption changed between them and changed back later
      gets a 304, while the client holds the caption of the moment in between. */
  lemma TornPullUnseen(h: Hasher, w: World, slot: Slot, flag: bool, id: int, caption: string)
    requires CatalogOk(w.cat) && CheckTo(w, slot).Modified?
    requires LiveIn(w.cat, w.cat.byCode[slot.1], id) && (flag || w.cat.items[id].isActive)
    requires w.cat.types[w.cat.byCode[slot.1]].hash == LiveHash(h, w.cat, w.cat.byCode[slot.1])
    requires caption != "" && w.cat.items[id].caption != "" && caption != w.cat.items[id].caption
    ensures var t, item := w.cat.byCode[slot.1], w.cat.items[id];
            var w1 := Next(h, w, ReadType(slot, flag));
            var w2 := Next(h, Next(h, w1, Change(UpdateItem(id, Caption(item, caption)))), ReadItems(slot));
            var w' := Next(h, w2, Change(UpdateItem(id, Caption(item, item.caption))));
            && CheckTo(w', slot) == NotModified && slot in w'.caches
            && var torn := ViewOf(id, item.(caption := caption));
            torn in w'.caches[slot].payload && torn !in Listed(Views(w'.cat, t), flag)
  {
    var t, item := w.cat.byCode[slot.1], w.cat.items[id];
    var w1 := Next(h, w, ReadType(slot, flag));
    var m := Next(h, w1, Change(UpdateItem(id, Caption(item, caption))));
    Recaptioned(h, w.cat, t, id, caption);
    Recaptioned(h, m.cat, t, id, item.caption);
    hide Apply, Views, Listed, Unquote, LiveRows, Serialize, ViewOf;
    var w2 := Next(h, m, ReadItems(slot));
    var w' := Next(h, w2, Change(UpdateItem(id, Caption(item, item.caption))));
    assert w'.cat.items == w.cat.items;
    LiveRowsSame(w.cat, w'.cat, t);
    UnquoteOfQuote(w.cat.types[t].hash, w.cat.types[t].hash);
    TornView(id, item, caption);
    PayloadIsSorted(m.cat, t, flag, ViewOf(id, item.(caption := caption)));
    PayloadIsSorted(w'.cat, t, flag, ViewOf(id, item.(caption := caption)));
  }

  lemma TornView(id: int, item: DictItem, caption: string)
    ensures var v := ViewOf(id, item.(caption := caption));
            v.row.id == id && v.row.isActive == item.isActive && (v == ViewOf(id, item) ==> caption == item.caption)
  {
  }

  /** The separator is not escaped: moving a '|' from a color into the caption goes unseen too. */
  lemma BarChangesUnseen(h: Hasher, seeds: map<int, Seed>, w: World, slot: Slot, flag: bool, id: int)
    requires GoodHasher(h, seeds) && Inv(h, seeds, w.cat) && CheckTo(w, slot).Modified?
    requires LiveIn(w.cat, w.cat.byCode[slot.1], id)
    requires w.cat.types[w.cat.byCode[slot.1]].hash == LiveHash(h, w.cat, w.cat.byCode[slot.1])
    requires var r := HashRowOf(id, w.cat.items[id]); '|' !in r.code && '|' !in r.caption && '|' in r.color
    ensures var twin := Twin(HashRowOf(id, w.cat.items[id]));
            var x := ItemUpdate(Some(twin.caption), true, Some(twin.color), None, None, None);
            var w' := Next(h, Pulled(h, w, slot, flag), Change(UpdateItem(id, x)));
            && CheckTo(w', slot) == NotModified
            && id in w'.cat.items && HashRowOf(id, w'.cat.items[id]) != HashRowOf(id, w.cat.items[id])
  {
    hide Twin, Line, Listed, Unquote, Serialize, LiveHash, LiveRows, Views, Pulled;
    var item, twin := w.cat.items[id], Twin(HashRowOf(id, w.cat.items[id]));
    var x := ItemUpdate(Some(twin.caption), true, Some(twin.color), None, None, None);
    TwinUpdate(id, item);
    TwinCollides(HashRowOf(id, item));
    CheckedIsLive(w, slot);
    assert UpdateOutcome(w.cat, id, x).None?;
    hide Next, CheckFor, Inv, GoodHasher, UpdateOutcome;
    UpdateUnseenIff(h, seeds, w, slot, flag, id, x);
  }

  /** When only the color has a bar, the twin is reached by an update. */
  lemma TwinUpdate(id: int, item: DictItem)
    requires var r := HashRowOf(id, item); '|' !in r.code && '|' !in r.caption && '|' in r.color
    ensures !PipeFreeRow(HashRowOf(id, item))
    ensures var twin := Twin(HashRowOf(id, item));
            && twin.caption != ""
            && HashRowOf(id, Updated(item, ItemUpdate(Some(twin.caption), true, Some(twin.color), None, None, None))) == twin
  {
  }
}
