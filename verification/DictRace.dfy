/** Item transactions of one dictionary type that interleave under READ COMMITTED: each writes an item,
    reads the type's items, and stores their hash in the type's row, whose lock it then holds until it
    commits. */
module DictRace {
  import opened Wrappers
  import opened Ordering
  import opened DictHash
  import opened DictCatalog

  type Writer = nat

  /** The live items of the type by id, on the hashed fields. */
  type Items = map<int, HashRow>

  /** What a write leaves of its item: a row, or nothing once it is soft-deleted. */
  function Put(items: Items, id: int, row: Option<HashRow>): Items {
    if row.Some? then items[id := row.value] else items - {id}
  }

  /** ORDER BY id. */
  function Rows(items: Items): seq<HashRow> {
    var ids := InOrder(items.Keys);
    seq(|ids|, k requires 0 <= k < |ids| => items[ids[k]])
  }

  function Text(items: Items): string {
    Serialize(Rows(items))
  }

  /** A transaction after its write, after its read of the items, and with the type's row updated.
      `seen` is what it read, its own write included. History: `missed` are the items that others
      committed since. */
  datatype Txn =
    | Wrote(id: int, row: Option<HashRow>)
    | Loaded(id: int, row: Option<HashRow>, seen: Items, missed: set<int>)
    | Rehashing(id: int, row: Option<HashRow>, seen: Items, missed: set<int>)
    | Ended

  /** The committed items and hash, the transactions, and who holds the type's row. History: `basis` and
      `missed` are what the last committer saw, and missed. */
  datatype State = State(
    items: Items, hash: string, txns: map<Writer, Txn>, lock: Option<Writer>, basis: Items, missed: set<int>)

  datatype Step =
    | Write(w: Writer, id: int, row: Option<HashRow>)
    | Load(w: Writer)
    | Rehash(w: Writer)
    | Commit(w: Writer)
    | Abort(w: Writer)

  /** Another transaction has an uncommitted write of the item. */
  predicate Taken(s: State, id: int) {
    exists u :: u in s.txns && !s.txns[u].Ended? && s.txns[u].id == id
  }

  function Unlocked(s: State, w: Writer): Option<Writer> {
    if s.lock == Some(w) then None else s.lock
  }

  function Missing(t: Txn, id: int): Txn {
    match t
    case Loaded(i, row, seen, missed) => Loaded(i, row, seen, missed + {id})
    case Rehashing(i, row, seen, missed) => Rehashing(i, row, seen, missed + {id})
    case _ => t
  }

  /** A write of a taken item and an update of a locked row wait: they change nothing yet. */
  function Next(h: Hasher, s: State, step: Step): State {
    match step
    case Write(w, id, row) =>
      if w in s.txns || Taken(s, id) || (row.Some? && row.value.id != id) then s
      else s.(txns := s.txns[w := Wrote(id, row)])
    case Load(w) =>
      if w in s.txns && s.txns[w].Wrote? then
        var t := s.txns[w];
        s.(txns := s.txns[w := Loaded(t.id, t.row, Put(s.items, t.id, t.row), {})])
      else s
    case Rehash(w) =>
      if w in s.txns && s.txns[w].Loaded? && s.lock.None? then
        var t := s.txns[w];
        s.(txns := s.txns[w := Rehashing(t.id, t.row, t.seen, t.missed)], lock := Some(w))
      else s
    case Commit(w) => if w in s.txns && s.txns[w].Rehashing? then Committed(h, s, w, s.txns[w]) else s
    case Abort(w) => if w in s.txns then s.(txns := s.txns[w := Ended], lock := Unlocked(s, w)) else s
  }

  function Committed(h: Hasher, s: State, w: Writer, t: Txn): State
    requires t.Rehashing?
  {
    State(Put(s.items, t.id, t.row), h(Text(t.seen)),
          map u | u in s.txns :: if u == w then Ended else Missing(s.txns[u], t.id),
          Unlocked(s, w), t.seen, t.missed)
  }

  function Exec(h: Hasher, s: State, steps: seq<Step>): State {
    if steps == [] then s else Next(h, Exec(h, s, steps[..|steps| - 1]), steps[|steps| - 1])
  }

  // --- The invariant ----------------------------------------------------------------------------

  ghost predicate Keyed(items: Items) {
    forall id :: id in items ==> items[id].id == id
  }

  predicate SameAt(a: Items, b: Items, id: int) {
    (id in a <==> id in b) && (id in a && id in b ==> a[id] == b[id])
  }

  ghost predicate AgreeOutside(a: Items, b: Items, missed: set<int>) {
    forall id :: id !in missed ==> SameAt(a, b, id)
  }

  ghost predicate TxnOk(s: State, t: Txn) {
    match t
    case Wrote(id, row) => row.Some? ==> row.value.id == id
    case Ended => true
    case _ =>
      && (t.row.Some? ==> t.row.value.id == t.id) && Keyed(t.seen)
      && t.id !in t.missed && AgreeOutside(t.seen, Put(s.items, t.id, t.row), t.missed)
  }

  /** Uncommitted writes are of distinct items. */
  ghost predicate Apart(s: State) {
    forall w, u :: w in s.txns && u in s.txns && w != u && !s.txns[w].Ended? && !s.txns[u].Ended? ==>
      s.txns[w].id != s.txns[u].id
  }

  ghost predicate Inv(h: Hasher, s: State) {
    && s.hash == h(Text(s.basis)) && Keyed(s.items) && Keyed(s.basis) && AgreeOutside(s.basis, s.items, s.missed)
    && Apart(s) && forall w :: w in s.txns ==> TxnOk(s, s.txns[w])
  }

  /** No transaction yet, and the hash stored is that of the items. */
  ghost predicate Fresh(h: Hasher, s: State) {
    Keyed(s.items) && s.hash == h(Text(s.items)) && s.txns == map[] && s.lock.None? && s.basis == s.items && s.missed == {}
  }

  lemma NextKeeps(h: Hasher, s: State, step: Step)
    requires Inv(h, s)
    ensures Inv(h, Next(h, s, step))
  {
    hide Text;
    match step
    case Commit(w) =>
      if w in s.txns && s.txns[w].Rehashing? {
        CommitKeeps(h, s, w);
      }
    case _ =>
  }

  lemma CommitKeeps(h: Hasher, s: State, w: Writer)
    requires Inv(h, s) && w in s.txns && s.txns[w].Rehashing?
    ensures Inv(h, Committed(h, s, w, s.txns[w]))
  {
    hide Text;
    var t, s' := s.txns[w], Committed(h, s, w, s.txns[w]);
    assert TxnOk(s, t);
    forall u | u in s'.txns
      ensures TxnOk(s', s'.txns[u])
    {
      if u != w && !s.txns[u].Ended? {
        assert TxnOk(s, s.txns[u]) && s.txns[u].id != t.id;
      }
    }
  }

  lemma {:induction false} ExecKeeps(h: Hasher, s: State, steps: seq<Step>)
    requires Inv(h, s)
    ensures Inv(h, Exec(h, s, steps))
  {
    hide Inv, Next;
    if steps == [] {
    } else {
      ExecKeeps(h, s, steps[..|steps| - 1]);
      NextKeeps(h, Exec(h, s, steps[..|steps| - 1]), steps[|steps| - 1]);
    }
  }

  // --- When the stored hash is that of the items ------------------------------------------------

  lemma RowsAt(items: Items)
    ensures |Rows(items)| == |InOrder(items.Keys)|
    ensures forall k :: 0 <= k < |Rows(items)| ==>
              InOrder(items.Keys)[k] in items && Rows(items)[k] == items[InOrder(items.Keys)[k]]
  {
    hide InOrder;
    var ids := InOrder(items.Keys);
    assert forall k :: 0 <= k < |ids| ==> ids[k] in ids;
  }

  lemma OrderMembers(items: Items, id: int)
    ensures id in items <==> id in InOrder(items.Keys)
  {
  }

  lemma OrderSame(a: Items, b: Items)
    requires Keyed(a) && Keyed(b) && Rows(a) == Rows(b)
    ensures InOrder(a.Keys) == InOrder(b.Keys)
  {
    RowsAt(a);
    RowsAt(b);
    hide Rows, InOrder;
    var ids, ids' := InOrder(a.Keys), InOrder(b.Keys);
    forall k | 0 <= k < |ids|
      ensures ids[k] == ids'[k]
    {
      assert Rows(a)[k].id == ids[k] && Rows(b)[k].id == ids'[k];
    }
  }

  lemma SameValue(a: Items, b: Items, id: int)
    requires InOrder(a.Keys) == InOrder(b.Keys) && Rows(a) == Rows(b) && id in a
    ensures id in b && b[id] == a[id]
  {
    hide Rows, InOrder;
    RowsAt(a);
    RowsAt(b);
    OrderMembers(a, id);
    var k :| 0 <= k < |InOrder(a.Keys)| && InOrder(a.Keys)[k] == id;
    assert Rows(a)[k] == a[id] && Rows(b)[k] == b[id];
  }

  lemma RowsInjective(a: Items, b: Items)
    requires Keyed(a) && Keyed(b) && Rows(a) == Rows(b)
    ensures a == b
  {
    hide Rows, InOrder, Keyed;
    OrderSame(a, b);
    forall id | id in a
      ensures id in b && b[id] == a[id]
    {
      SameValue(a, b, id);
    }
    forall id | id in b
      ensures id in a
    {
      SameValue(b, a, id);
    }
  }

  /** After any interleaving, with no bar in the texts: the stored hash is that of the committed items if
      and only if the last committer saw each item that others committed between its read and its
      commit as that item now is. Whatever the texts, it is if no one committed in between. */
  lemma StoredHashIff(h: Hasher, s0: State, steps: seq<Step>)
    requires Fresh(h, s0) && forall x, y :: h(x) == h(y) ==> x == y
    ensures var s := Exec(h, s0, steps);
            && (s.missed == {} ==> s.hash == h(Text(s.items)))
            && (PipeFree(Rows(s.items)) && PipeFree(Rows(s.basis)) ==>
                  (s.hash == h(Text(s.items)) <==> forall id :: id in s.missed ==> SameAt(s.basis, s.items, id)))
  {
    FreshOk(h, s0);
    ExecKeeps(h, s0, steps);
    var s := Exec(h, s0, steps);
    hide Exec, Rows, Serialize, PipeFree, TxnOk, Apart, SameAt;
    SameEverywhere(s.basis, s.items, s.missed);
    if PipeFree(Rows(s.items)) && PipeFree(Rows(s.basis)) && s.hash == h(Text(s.items)) {
      SerializeInjective(Rows(s.basis), Rows(s.items));
      RowsInjective(s.basis, s.items);
    }
  }

  lemma FreshOk(h: Hasher, s: State)
    requires Fresh(h, s)
    ensures Inv(h, s)
  {
  }

  lemma SameEverywhere(a: Items, b: Items, missed: set<int>)
    requires AgreeOutside(a, b, missed)
    ensures a == b <==> forall id :: id in missed ==> SameAt(a, b, id)
  {
    if forall id :: id in missed ==> SameAt(a, b, id) {
      forall id
        ensures SameAt(a, b, id)
      {
        if id in missed {
        } else {
        }
      }
      AllSame(a, b);
    }
  }

  lemma AllSame(a: Items, b: Items)
    requires forall id :: SameAt(a, b, id)
    ensures a == b
  {
    forall id
      ensures id in a.Keys <==> id in b.Keys
    {
      assert SameAt(a, b, id);
    }
    assert a.Keys == b.Keys;
    forall id | id in a
      ensures a[id] == b[id]
    {
      assert SameAt(a, b, id);
    }
  }

  // --- Transactions that only create ------------------------------------------------------------

  /** Every write of the trace inserts a new item. */
  ghost predicate Creates(h: Hasher, s0: State, steps: seq<Step>) {
    forall k :: 0 <= k < |steps| && steps[k].Write? ==>
      steps[k].row.Some? && steps[k].id !in Exec(h, s0, steps[..k]).items
  }

  ghost predicate Growing(items: Items, seen: Items, missed: set<int>) {
    seen.Keys <= items.Keys && missed <= items.Keys && missed !! seen.Keys
  }

  ghost predicate OnlyNew(s: State) {
    && Growing(s.items, s.basis, s.missed)
    && forall w :: w in s.txns && !s.txns[w].Ended? ==>
         && s.txns[w].row.Some? && s.txns[w].id !in s.items
         && (!s.txns[w].Wrote? ==> Growing(Put(s.items, s.txns[w].id, s.txns[w].row), s.txns[w].seen, s.txns[w].missed))
  }

  lemma NextOnlyNew(h: Hasher, s: State, step: Step)
    requires Inv(h, s) && OnlyNew(s) && (step.Write? ==> step.row.Some? && step.id !in s.items)
    ensures OnlyNew(Next(h, s, step))
  {
    hide Text, Committed;
    match step
    case Commit(w) =>
      if w in s.txns && s.txns[w].Rehashing? {
        CommittedOnlyNew(h, s, w);
      }
    case _ =>
  }

  lemma CommittedOnlyNew(h: Hasher, s: State, w: Writer)
    requires Apart(s) && OnlyNew(s) && w in s.txns && s.txns[w].Rehashing?
    ensures OnlyNew(Committed(h, s, w, s.txns[w]))
  {
    hide Text;
  }

  lemma {:induction false} ExecOnlyNew(h: Hasher, s0: State, steps: seq<Step>)
    requires Inv(h, s0) && OnlyNew(s0) && Creates(h, s0, steps)
    ensures OnlyNew(Exec(h, s0, steps))
  {
    if steps == [] {
    } else {
      hide Inv, OnlyNew, Next;
      var front, step := steps[..|steps| - 1], steps[|steps| - 1];
      assert forall k :: 0 <= k < |front| ==> front[k] == steps[k] && front[..k] == steps[..k];
      ExecOnlyNew(h, s0, front);
      ExecKeeps(h, s0, front);
      NextOnlyNew(h, Exec(h, s0, front), step);
    }
  }

  /** More items, longer text. */
  lemma {:induction false} TextGrows(a: Items, b: Items)
    requires a.Keys < b.Keys && forall id :: id in a ==> b[id] == a[id]
    ensures |Text(a)| < |Text(b)|
    decreases |b|
  {
    hide Text;
    assert exists x :: x in b && x !in a by {
      assert (forall x :: x in b ==> x in a) ==> b.Keys <= a.Keys;
    }
    var x :| x in b && x !in a;
    var c := b - {x};
    TextWithout(b, x);
    if c.Keys == a.Keys {
      assert forall id :: id in a ==> id in c && c[id] == a[id];
      assert c == a;
    } else {
      TextGrows(a, c);
    }
  }

  lemma TextWithout(b: Items, x: int)
    requires x in b
    ensures |Text(b - {x})| < |Text(b)|
  {
    hide Serialize, InOrder, Rows;
    var k := InOrderWithout(b.Keys, x);
    assert (b - {x}).Keys == b.Keys - {x};
    RowsWithout(b, x, k);
    SerializeDropped(Rows(b), k);
  }

  lemma RowsWithout(b: Items, x: int, k: nat)
    requires x in b && k < |InOrder(b.Keys)|
    requires InOrder((b - {x}).Keys) == InOrder(b.Keys)[..k] + InOrder(b.Keys)[k + 1..]
    ensures |Rows(b)| == |InOrder(b.Keys)|
    ensures Rows(b - {x}) == Rows(b)[..k] + Rows(b)[k + 1..]
  {
    hide InOrder, Rows;
    var c := b - {x};
    RowsAt(b);
    RowsAt(c);
    Dropped(b, c, InOrder(b.Keys), InOrder(c.Keys), Rows(b), Rows(c), k);
  }

  lemma Dropped(b: Items, c: Items, ids: seq<int>, ids': seq<int>, rows: seq<HashRow>, rows': seq<HashRow>, k: nat)
    requires |rows| == |ids| && |rows'| == |ids'| && k < |ids| && ids' == ids[..k] + ids[k + 1..]
    requires forall j :: 0 <= j < |ids| ==> ids[j] in b && rows[j] == b[ids[j]]
    requires forall j :: 0 <= j < |ids'| ==> ids'[j] in c && rows'[j] == c[ids'[j]]
    requires forall id :: id in c ==> id in b && b[id] == c[id]
    ensures rows' == rows[..k] + rows[k + 1..]
  {
    forall j | 0 <= j < |rows'|
      ensures rows'[j] == (rows[..k] + rows[k + 1..])[j]
    {
      assert ids'[j] == ids[if j < k then j else j + 1];
    }
  }

  /** Transactions that only create items, whatever the texts: the stored hash is that of the items if
      and only if the last committer read them after every other had committed. */
  lemma CreatesIff(h: Hasher, s0: State, steps: seq<Step>)
    requires Fresh(h, s0) && Creates(h, s0, steps) && forall x, y :: h(x) == h(y) ==> x == y
    ensures var s := Exec(h, s0, steps); s.hash == h(Text(s.items)) <==> s.missed == {}
  {
    hide Exec, Inv, OnlyNew, Fresh, Creates, Text;
    FreshOk(h, s0);
    FreshIsNew(h, s0);
    ExecKeeps(h, s0, steps);
    ExecOnlyNew(h, s0, steps);
    NewIff(h, Exec(h, s0, steps));
  }

  lemma FreshIsNew(h: Hasher, s: State)
    requires Fresh(h, s)
    ensures OnlyNew(s)
  {
    hide Text;
  }

  lemma NewIff(h: Hasher, s: State)
    requires Inv(h, s) && OnlyNew(s) && forall x, y :: h(x) == h(y) ==> x == y
    ensures s.hash == h(Text(s.items)) <==> s.missed == {}
  {
    hide Text, TxnOk, Apart, SameAt;
    SameEverywhere(s.basis, s.items, s.missed);
    if s.missed != {} {
      var id :| id in s.missed;
      assert id in s.items && id !in s.basis;
      BasisWithin(s);
      TextGrows(s.basis, s.items);
    }
  }

  lemma BasisWithin(s: State)
    requires Growing(s.items, s.basis, s.missed) && AgreeOutside(s.basis, s.items, s.missed)
    ensures forall id :: id in s.basis ==> id in s.items && s.items[id] == s.basis[id]
  {
    forall id | id in s.basis
      ensures id in s.items && s.items[id] == s.basis[id]
    {
      assert id !in s.missed && SameAt(s.basis, s.items, id);
    }
  }

  // --- The race, seen through -------------------------------------------------------------------

  /** Both transactions write, and read, before either commits. */
  function Raced(h: Hasher, s: State, a: HashRow, b: HashRow): State {
    var written := Next(h, Next(h, s, Write(1, a.id, Some(a))), Write(2, b.id, Some(b)));
    var loaded := Next(h, Next(h, written, Load(1)), Load(2));
    var first := Next(h, Next(h, loaded, Rehash(1)), Commit(1));
    Next(h, Next(h, first, Rehash(2)), Commit(2))
  }

  /** One transaction alone. */
  function Alone(h: Hasher, s: State, w: Writer, id: int, row: Option<HashRow>): State {
    Next(h, Next(h, Next(h, Next(h, s, Write(w, id, row)), Load(w)), Rehash(w)), Commit(w))
  }

  lemma BothLoaded(h: Hasher, s: State, a: HashRow, b: HashRow)
    requires s.txns == map[] && s.lock.None? && a.id != b.id
    ensures var written := Next(h, Next(h, s, Write(1, a.id, Some(a))), Write(2, b.id, Some(b)));
            Next(h, Next(h, written, Load(1)), Load(2))
            == s.(txns := map[1 := Loaded(a.id, Some(a), s.items[a.id := a], {}),
                              2 := Loaded(b.id, Some(b), s.items[b.id := b], {})])
  {
    BothWritten(s, h, a, b);
    var written := Next(h, Next(h, s, Write(1, a.id, Some(a))), Write(2, b.id, Some(b)));
    assert written.txns[1 := Loaded(a.id, Some(a), s.items[a.id := a], {})][
                        2 := Loaded(b.id, Some(b), s.items[b.id := b], {})]
        == map[1 := Loaded(a.id, Some(a), s.items[a.id := a], {}), 2 := Loaded(b.id, Some(b), s.items[b.id := b], {})];
    hide Taken;
  }

  lemma BothWritten(s: State, h: Hasher, a: HashRow, b: HashRow)
    requires s.txns == map[] && s.lock.None? && a.id != b.id
    ensures Next(h, Next(h, s, Write(1, a.id, Some(a))), Write(2, b.id, Some(b)))
         == s.(txns := map[1 := Wrote(a.id, Some(a)), 2 := Wrote(b.id, Some(b))])
  {
  }

  /** A loaded transaction stores its hash and commits; the other one misses its item. */
  lemma CommitsFirst(h: Hasher, s: State, w: Writer)
    requires w in s.txns && s.txns[w].Loaded? && s.lock.None?
    ensures var t, s' := s.txns[w], Next(h, Next(h, s, Rehash(w)), Commit(w));
            && s'.items == Put(s.items, t.id, t.row) && s'.hash == h(Text(t.seen)) && s'.lock.None?
            && s'.txns.Keys == s.txns.Keys && s'.txns[w] == Ended
            && forall u :: u in s.txns && u != w ==> s'.txns[u] == Missing(s.txns[u], t.id)
  {
    hide Text, Missing;
    var r := Next(h, s, Rehash(w));
    assert Next(h, r, Commit(w)) == Committed(h, r, w, r.txns[w]);
  }

  lemma RacedIs(h: Hasher, s: State, a: HashRow, b: HashRow)
    requires s.txns == map[] && s.lock.None? && a.id != b.id
    ensures var s' := Raced(h, s, a, b);
            && s'.items == s.items[a.id := a][b.id := b] && s'.hash == h(Text(s.items[b.id := b]))
            && s'.txns.Keys == {1, 2} && s'.txns[1].Ended? && s'.txns[2].Ended? && s'.lock.None?
  {
    BothLoaded(h, s, a, b);
    hide Next, Text;
    var written := Next(h, Next(h, s, Write(1, a.id, Some(a))), Write(2, b.id, Some(b)));
    var loaded := Next(h, Next(h, written, Load(1)), Load(2));
    BothCommit(h, loaded);
  }

  /** Two loaded transactions commit one after the other. */
  lemma BothCommit(h: Hasher, s: State)
    requires s.txns.Keys == {1, 2} && s.txns[1].Loaded? && s.txns[2].Loaded? && s.lock.None?
    ensures var first := Next(h, Next(h, s, Rehash(1)), Commit(1));
            var s', t, u := Next(h, Next(h, first, Rehash(2)), Commit(2)), s.txns[1], s.txns[2];
            && s'.items == Put(Put(s.items, t.id, t.row), u.id, u.row) && s'.hash == h(Text(u.seen))
            && s'.txns.Keys == {1, 2} && s'.txns[1].Ended? && s'.txns[2].Ended? && s'.lock.None?
  {
    hide Next, Text, Put;
    CommitsFirst(h, s, 1);
    CommitsFirst(h, Next(h, Next(h, s, Rehash(1)), Commit(1)), 2);
  }

  lemma AloneIs(h: Hasher, s: State, w: Writer, id: int, row: Option<HashRow>)
    requires w !in s.txns && s.lock.None? && (row.Some? ==> row.value.id == id)
    requires forall u :: u in s.txns ==> s.txns[u].Ended?
    ensures Alone(h, s, w, id, row).items == Put(s.items, id, row)
    ensures Alone(h, s, w, id, row).hash == h(Text(Put(s.items, id, row)))
  {
    hide Text;
  }

  /** The hash that the race leaves is that of the items without the first one's. Deleting that item then
      leaves the hash as it is: one tag stands for two item sets, and a client that pulled in between is
      answered 304 with the deleted item in its payload. */
  lemma LostRow(h: Hasher, s: State, a: HashRow, b: HashRow)
    requires Fresh(h, s) && a.id !in s.items && b.id !in s.items && a.id != b.id
    requires forall x, y :: h(x) == h(y) ==> x == y
    ensures var s1 := Raced(h, s, a, b);
            var s2 := Alone(h, s1, 3, a.id, None);
            && s1.items == s.items[a.id := a][b.id := b] && s1.hash != h(Text(s1.items))
            && s2.items == s.items[b.id := b] && s2.hash == s1.hash == h(Text(s2.items))
  {
    hide Text, Raced, Alone;
    RacedIs(h, s, a, b);
    AloneIs(h, Raced(h, s, a, b), 3, a.id, None);
    assert s.items[a.id := a][b.id := b] - {a.id} == s.items[b.id := b];
    TextGrows(s.items[b.id := b], s.items[a.id := a][b.id := b]);
  }
}
