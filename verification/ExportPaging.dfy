/** The export of a filtered list, each page its own statement over tables that may have changed, and
    its progress. */
module ExportPaging {
  import opened Wrappers

  type Id = nat

  /** A row of the snapshot: its sort time, and its rendered cells. */
  datatype Record = Record(at: int, cells: string)

  type Snapshot = map<Id, Record>

  const PAGE_SIZE: nat := 500

  // --- ORDER BY time DESC, id DESC --------------------------------------------------------------

  /** Row a comes before row b. */
  predicate Newer(s: Snapshot, a: Id, b: Id)
    requires a in s && b in s
  {
    s[a].at > s[b].at || (s[a].at == s[b].at && a > b)
  }

  lemma NewestExists(s: Snapshot, ids: set<Id>)
    requires ids <= s.Keys && ids != {}
    ensures exists m :: m in ids && forall k :: k in ids && k != m ==> Newer(s, m, k)
  {
    assert exists x :: x in ids by {
      assert (forall x :: x !in ids) ==> ids == {};
    }
    var x :| x in ids;
    if k :| k in ids && k != x && !Newer(s, x, k) {
      var rest := ids - {x};
      assert k in rest;
      NewestExists(s, rest);
      var m :| m in rest && forall j :: j in rest && j != m ==> Newer(s, m, j);
      assert m in ids && forall j :: j in ids && j != m ==> Newer(s, m, j) by {
        forall j | j in ids && j != m
          ensures Newer(s, m, j)
        {
          if j == x {
            assert m == k || Newer(s, m, k);
          } else {
            assert j in rest;
          }
        }
      }
    } else {
      assert x in ids && forall k :: k in ids && k != x ==> Newer(s, x, k);
    }
  }

  function Newest(s: Snapshot, ids: set<Id>): (m: Id)
    requires ids <= s.Keys && ids != {}
    ensures m in ids && forall k :: k in ids && k != m ==> Newer(s, m, k)
  {
    NewestExists(s, ids);
    var m :| m in ids && forall k :: k in ids && k != m ==> Newer(s, m, k);
    m
  }

  /** The ids in the order of the query: each once, strictly newest first. */
  function Sorted(s: Snapshot, ids: set<Id>): (r: seq<Id>)
    requires ids <= s.Keys
    ensures |r| == |ids|
    ensures forall k :: k in r <==> k in ids
    ensures Descending(s, r)
  {
    if ids == {} then [] else
      var m := Newest(s, ids);
      var rest := Sorted(s, ids - {m});
      assert Descending(s, [m] + rest) by {
        assert forall i :: 0 <= i < |rest| ==> rest[i] in rest;
      }
      [m] + rest
  }

  ghost predicate Descending(s: Snapshot, r: seq<Id>) {
    forall i, j :: 0 <= i < j < |r| ==> r[i] in s && r[j] in s && Newer(s, r[i], r[j])
  }

  function Min(a: int, b: int): int {
    if a < b then a else b
  }

  /** SELECT ... ORDER BY ... LIMIT limit OFFSET offset. */
  function Query(s: Snapshot, ids: set<Id>, limit: nat, offset: nat): seq<Id>
    requires ids <= s.Keys
  {
    var all := Sorted(s, ids);
    all[Min(offset, |all|)..Min(offset + limit, |all|)]
  }

  lemma {:induction false} DescendingUnique(s: Snapshot, a: seq<Id>, b: seq<Id>)
    requires Descending(s, a) && Descending(s, b) && forall k :: k in a <==> k in b
    requires forall k :: k in a ==> k in s
    ensures a == b
  {
    if a == [] {
      NoMembers(b);
    } else {
      assert a[0] in a && a[0] in b;
      assert b[0] in b && b[0] in a;
      FirstSame(s, a, b);
      forall k
        ensures k in a[1..] <==> k in b[1..]
      {
        TailMembers(s, a, k);
        TailMembers(s, b, k);
      }
      DescendingUnique(s, a[1..], b[1..]);
      assert a == [a[0]] + a[1..] && b == [b[0]] + b[1..];
    }
  }

  lemma NoMembers(b: seq<Id>)
    ensures (forall k :: k !in b) ==> b == []
  {
    assert b != [] ==> b[0] in b;
  }

  lemma FirstSame(s: Snapshot, a: seq<Id>, b: seq<Id>)
    requires Descending(s, a) && Descending(s, b) && a != [] && b != [] && a[0] in b && b[0] in a
    requires a[0] in s && b[0] in s
    ensures a[0] == b[0]
  {
    hide Descending, Newer;
    var i :| 0 <= i < |b| && b[i] == a[0];
    var j :| 0 <= j < |a| && a[j] == b[0];
    FirstIsNewest(s, a, j);
    FirstIsNewest(s, b, i);
    NotBothNewer(s, a[0], b[0]);
  }

  lemma FirstIsNewest(s: Snapshot, a: seq<Id>, j: nat)
    requires Descending(s, a) && j < |a|
    ensures j > 0 ==> a[0] in s && a[j] in s && Newer(s, a[0], a[j])
  {
  }

  lemma NotBothNewer(s: Snapshot, x: Id, y: Id)
    requires x in s && y in s
    ensures !(Newer(s, x, y) && Newer(s, y, x))
  {
  }

  lemma TailMembers(s: Snapshot, a: seq<Id>, k: Id)
    requires Descending(s, a) && a != []
    ensures k in a[1..] <==> k in a && k != a[0]
  {
    if k in a && k != a[0] {
      var i :| 0 <= i < |a| && a[i] == k;
      assert a[1..][i - 1] == k;
    }
    if k in a[1..] {
      var i :| 0 <= i < |a| - 1 && a[1..][i] == k;
      assert a[i + 1] == k && Newer(s, a[0], a[i + 1]);
    }
  }

  /** A row newer than all others comes first, and moves them by one. */
  lemma NewestGoesFirst(s: Snapshot, ids: set<Id>, m: Id, x: Record)
    requires ids <= s.Keys && m !in ids
    requires forall k :: k in ids ==> Newer(s[m := x], m, k)
    ensures Sorted(s[m := x], ids + {m}) == [m] + Sorted(s, ids)
  {
    hide Sorted;
    var s', r := s[m := x], Sorted(s, ids);
    assert forall i :: 0 <= i < |r| ==> r[i] in r;
    assert Descending(s', [m] + r);
    DescendingUnique(s', Sorted(s', ids + {m}), [m] + r);
  }

  // --- Progress ---------------------------------------------------------------------------------

  function ClampProgress(p: int): int {
    if p < 0 then 0 else if p > 100 then 100 else p
  }

  function Percent(processed: int, total: int): int {
    if total <= 0 then 100 else ClampProgress(processed * 100 / total)
  }

  lemma PercentGrows(a: int, b: int, total: int)
    requires 0 <= a <= b
    ensures 0 <= Percent(a, total) <= Percent(b, total) <= 100
  {
    if total > 0 {
      DivGrows(a * 100, b * 100, total);
    }
  }

  /** Of the rows counted it is the share in whole percent, rounded down; it is full when there are none to
      count, and from the last one on. */
  lemma PercentIs(processed: int, total: int)
    requires processed >= 0
    ensures total <= 0 ==> Percent(processed, total) == 100
    ensures total > 0 && processed >= total ==> Percent(processed, total) == 100
    ensures total > 0 && processed < total ==>
              var p := Percent(processed, total);
              0 <= p < 100 && p * total <= 100 * processed < (p + 1) * total
  {
    if total > 0 {
      DivideDown(processed * 100, total);
      var p := processed * 100 / total;
      if processed < total {
        MulMono(100, p, total);
      } else {
        MulMono(p + 1, 100, total);
      }
    }
  }

  lemma DivideDown(a: int, n: int)
    requires a >= 0 && n > 0
    ensures 0 <= a / n && a / n * n <= a < (a / n + 1) * n
  {
  }

  lemma DivGrows(a: int, b: int, n: int)
    requires a <= b && n > 0
    ensures a / n <= b / n
  {
    MulMono(b / n + 1, a / n, n);
  }

  lemma MulMono(a: int, b: int, n: int)
    requires n > 0
    ensures a <= b ==> a * n <= b * n
  {
  }

  // --- The job ----------------------------------------------------------------------------------

  datatype Status = Pending | Running | Succeeded | Failed

  class Job {
    var status: Status
    var processed: int
    var progress: int
    var total: int

    /** History: the progress values written, in order. */
    ghost var reports: seq<int>

    constructor ()
      ensures status == Pending && reports == []
    {
      status, processed, progress, total, reports := Pending, 0, 0, 0, [];
    }

    method UpdateProgress(processed: int, progress: int)
      modifies this
      ensures this.processed == processed && this.progress == ClampProgress(progress)
      ensures status == old(status) && total == old(total) && reports == old(reports) + [ClampProgress(progress)]
    {
      this.processed := processed;
      this.progress := ClampProgress(progress);
      reports := reports + [this.progress];
    }
  }

  ghost predicate Monotone(reports: seq<int>) {
    && (forall k :: 0 <= k < |reports| ==> 0 <= reports[k] <= 100)
    && (forall i, j :: 0 <= i < j < |reports| ==> reports[i] <= reports[j])
  }

  /** What was reported since `before` is monotone and at most x. */
  ghost predicate ReportedUpTo(before: seq<int>, reports: seq<int>, x: int) {
    && before <= reports && Monotone(reports[|before|..])
    && forall k :: |before| <= k < |reports| ==> reports[k] <= x
  }

  lemma ReportsGrow(before: seq<int>, reports: seq<int>, x: int, y: int)
    requires ReportedUpTo(before, reports, x) && x <= y && 0 <= y <= 100
    ensures ReportedUpTo(before, reports + [y], y)
  {
    var since := reports[|before|..];
    assert forall k :: 0 <= k < |since| ==> since[k] == reports[|before| + k];
    assert (reports + [y])[|before|..] == since + [y];
  }

  // --- The pages --------------------------------------------------------------------------------

  /** The rows as one statement finds them, and the ids the filter selects. */
  datatype Table = Table(rows: Snapshot, ids: set<Id>)

  predicate TableOk(t: Table) {
    t.ids <= t.rows.Keys
  }

  /** The cells of those rows in order. */
  function Cells(s: Snapshot, ids: seq<Id>): (r: seq<string>)
    requires forall k :: 0 <= k < |ids| ==> ids[k] in s
    ensures |r| == |ids|
  {
    seq(|ids|, k requires 0 <= k < |ids| => s[ids[k]].cells)
  }

  /** The whole list of a table. */
  function ListOf(t: Table): (r: seq<string>)
    requires TableOk(t)
    ensures |r| == |t.ids|
  {
    SortedIn(t);
    Cells(t.rows, Sorted(t.rows, t.ids))
  }

  lemma SortedIn(t: Table)
    requires TableOk(t)
    ensures forall k :: 0 <= k < |Sorted(t.rows, t.ids)| ==> Sorted(t.rows, t.ids)[k] in t.rows
  {
    var r := Sorted(t.rows, t.ids);
    assert forall k :: 0 <= k < |r| ==> r[k] in r;
  }

  /** The list has the cells of each selected row once, the newest first and of equal times the higher id. */
  lemma NewestFirst(t: Table)
    requires TableOk(t)
    ensures var ids := Sorted(t.rows, t.ids);
            && |ids| == |t.ids| && |ListOf(t)| == |ids| && (forall id :: id in t.ids <==> id in ids)
            && (forall k :: 0 <= k < |ids| ==> ids[k] in t.rows && ListOf(t)[k] == t.rows[ids[k]].cells)
            && forall i, j :: 0 <= i < j < |ids| ==>
                 t.rows[ids[i]].at > t.rows[ids[j]].at || (t.rows[ids[i]].at == t.rows[ids[j]].at && ids[i] > ids[j])
  {
    SortedIn(t);
    hide Sorted;
  }

  /** Page k of a table. */
  function PageOf(t: Table, k: nat): (r: seq<string>)
    requires TableOk(t)
    ensures |r| <= PAGE_SIZE
  {
    var all := ListOf(t);
    all[Min(k * PAGE_SIZE, |all|)..Min(k * PAGE_SIZE + PAGE_SIZE, |all|)]
  }

  /** Row i of page k is row 500 * k + i of the list, and a page has 500 rows as long as the list has them. */
  lemma PageHas(t: Table, k: nat, i: nat)
    requires TableOk(t)
    ensures |PageOf(t, k)| == (if |t.ids| >= 500 * k + 500 then 500 else if |t.ids| >= 500 * k then |t.ids| - 500 * k else 0)
    ensures i < |PageOf(t, k)| ==> PageOf(t, k)[i] == ListOf(t)[500 * k + i]
  {
    hide ListOf;
  }

  predicate ShortAt(tables: nat -> Table, k: nat)
    requires TableOk(tables(k))
  {
    |PageOf(tables(k), k)| < PAGE_SIZE
  }

  ghost predicate AllOk(tables: nat -> Table, bound: nat) {
    forall k :: TableOk(tables(k)) && |tables(k).ids| <= bound
  }

  /** The first n pages, page k as the k-th statement finds it. */
  function Pages(tables: nat -> Table, n: nat): seq<string>
    requires forall k :: TableOk(tables(k))
  {
    if n == 0 then [] else Pages(tables, n - 1) + PageOf(tables(n - 1), n - 1)
  }

  /** Page n is the first that comes back short. */
  ghost predicate FirstShort(tables: nat -> Table, n: nat)
    requires forall k :: TableOk(tables(k))
  {
    ShortAt(tables, n) && forall k: nat :: k < n ==> !ShortAt(tables, k)
  }

  lemma {:induction false} FullPages(tables: nat -> Table, n: nat)
    requires forall k :: TableOk(tables(k))
    requires forall k: nat :: k < n ==> !ShortAt(tables, k)
    ensures |Pages(tables, n)| == n * PAGE_SIZE
    ensures forall k: nat :: k < n ==> PageOf(tables(k), k) == Block(Pages(tables, n), k)
  {
    hide PageOf;
    if n == 0 {
    } else {
      FullPages(tables, n - 1);
      assert !ShortAt(tables, n - 1);
      var front, last := Pages(tables, n - 1), PageOf(tables(n - 1), n - 1);
      forall k: nat | k < n
        ensures PageOf(tables(k), k) == Block(front + last, k)
      {
        BlockOfConcat(front, last, n - 1, k);
      }
    }
  }

  /** Rows k * PAGE_SIZE and on, one page of them. */
  function Block(rows: seq<string>, k: nat): seq<string> {
    rows[Min(k * PAGE_SIZE, |rows|)..Min(k * PAGE_SIZE + PAGE_SIZE, |rows|)]
  }

  lemma BlockOfConcat(front: seq<string>, last: seq<string>, n: nat, k: nat)
    requires |front| == n * PAGE_SIZE && |last| <= PAGE_SIZE && k <= n
    ensures Block(front + last, k) == if k < n then Block(front, k) else last
  {
    if k < n {
      assert (k + 1) * PAGE_SIZE <= n * PAGE_SIZE;
    }
  }

  /** Lists that end within page n are equal if and only if their pages are. */
  lemma {:induction false} BlocksDecide(a: seq<string>, b: seq<string>, n: nat)
    requires |a| < n * PAGE_SIZE + PAGE_SIZE
    ensures a == b <==> forall k: nat :: k <= n ==> Block(a, k) == Block(b, k)
  {
    if forall k: nat :: k <= n ==> Block(a, k) == Block(b, k) {
      assert Block(a, n) == Block(b, n);
      BlockLength(a, b, n);
      forall i | 0 <= i < |a|
        ensures a[i] == b[i]
      {
        BlockHas(a, i);
        BlockHas(b, i);
        assert i / PAGE_SIZE <= n;
        assert Block(a, i / PAGE_SIZE) == Block(b, i / PAGE_SIZE);
      }
    }
  }

  lemma BlockHas(a: seq<string>, i: nat)
    requires i < |a|
    ensures i % PAGE_SIZE < |Block(a, i / PAGE_SIZE)| && Block(a, i / PAGE_SIZE)[i % PAGE_SIZE] == a[i]
  {
  }

  lemma BlockLength(a: seq<string>, b: seq<string>, n: nat)
    requires |a| < n * PAGE_SIZE + PAGE_SIZE && forall k: nat :: k <= n ==> Block(a, k) == Block(b, k)
    ensures |a| == |b|
  {
    var k := |a| / PAGE_SIZE;
    assert Block(a, k) == Block(b, k);
    if k > 0 {
      var j := k - 1;
      assert Block(a, j) == Block(b, j);
    }
  }

  /** The sheet is a table's list if and only if every page read is that page of the table: no row then
      came, went or moved, as far as the pages show. */
  lemma SheetIsListIff(tables: nat -> Table, n: nat, t: Table)
    requires (forall k :: TableOk(tables(k))) && TableOk(t) && FirstShort(tables, n)
    ensures Pages(tables, n + 1) == ListOf(t) <==> forall k: nat :: k <= n ==> PageOf(tables(k), k) == PageOf(t, k)
  {
    SheetBlocks(tables, n);
    ListBlocks(t);
    hide PageOf, Pages, Block, ListOf, FirstShort;
    BlocksDecide(Pages(tables, n + 1), ListOf(t), n);
  }

  lemma SheetLength(tables: nat -> Table, n: nat)
    requires (forall k :: TableOk(tables(k))) && FirstShort(tables, n)
    ensures |Pages(tables, n)| == n * PAGE_SIZE && |PageOf(tables(n), n)| < PAGE_SIZE
    ensures Pages(tables, n + 1) == Pages(tables, n) + PageOf(tables(n), n)
    ensures forall k: nat :: k < n ==> PageOf(tables(k), k) == Block(Pages(tables, n), k)
  {
    FullPages(tables, n);
    PagesGrow(tables, n);
  }

  lemma SheetBlock(tables: nat -> Table, n: nat, k: nat)
    requires (forall k :: TableOk(tables(k))) && FirstShort(tables, n) && k <= n
    ensures |Pages(tables, n + 1)| < n * PAGE_SIZE + PAGE_SIZE
    ensures PageOf(tables(k), k) == Block(Pages(tables, n + 1), k)
  {
    hide FirstShort, Pages, PageOf, Block, ShortAt, TableOk;
    SheetLength(tables, n);
    BlockOfConcat(Pages(tables, n), PageOf(tables(n), n), n, k);
  }

  lemma SheetBlocks(tables: nat -> Table, n: nat)
    requires (forall k :: TableOk(tables(k))) && FirstShort(tables, n)
    ensures |Pages(tables, n + 1)| < n * PAGE_SIZE + PAGE_SIZE
    ensures forall k: nat :: k <= n ==> PageOf(tables(k), k) == Block(Pages(tables, n + 1), k)
  {
    hide FirstShort, Pages, PageOf, Block, ShortAt, TableOk;
    SheetBlock(tables, n, n);
    forall k: nat | k <= n
      ensures PageOf(tables(k), k) == Block(Pages(tables, n + 1), k)
    {
      SheetBlock(tables, n, k);
    }
  }

  lemma ListBlocks(t: Table)
    requires TableOk(t)
    ensures forall k: nat :: PageOf(t, k) == Block(ListOf(t), k)
  {
    hide ListOf;
  }

  /** Such a change: a row newer than all others that arrives between the first two pages pushes the last
      row of the first onto the second, so the sheet has it twice. */
  lemma ArrivalRepeatsRow(t: Table, m: Id, x: Record)
    requires TableOk(t) && |t.ids| >= PAGE_SIZE && m !in t.ids
    requires forall k :: k in t.ids ==> Newer(t.rows[m := x], m, k)
    ensures var t' := Table(t.rows[m := x], t.ids + {m});
            && TableOk(t') && |PageOf(t, 0)| == PAGE_SIZE && |PageOf(t', 1)| > 0
            && PageOf(t', 1)[0] == PageOf(t, 0)[PAGE_SIZE - 1]
  {
    var t' := Table(t.rows[m := x], t.ids + {m});
    ListMoves(t, m, x, PAGE_SIZE - 1);
    PageEnds(t);
    PageEnds(t');
    hide ListOf, PageOf, Newer;
  }

  lemma PageEnds(t: Table)
    requires TableOk(t)
    ensures |ListOf(t)| == |t.ids|
    ensures |t.ids| >= PAGE_SIZE ==> |PageOf(t, 0)| == PAGE_SIZE && PageOf(t, 0)[PAGE_SIZE - 1] == ListOf(t)[PAGE_SIZE - 1]
    ensures |t.ids| > PAGE_SIZE ==> |PageOf(t, 1)| > 0 && PageOf(t, 1)[0] == ListOf(t)[PAGE_SIZE]
  {
    hide ListOf;
  }

  lemma ListMoves(t: Table, m: Id, x: Record, i: nat)
    requires TableOk(t) && m !in t.ids && i < |t.ids|
    requires forall k :: k in t.ids ==> Newer(t.rows[m := x], m, k)
    ensures var t' := Table(t.rows[m := x], t.ids + {m});
            TableOk(t') && |t'.ids| == |t.ids| + 1 && ListOf(t')[i + 1] == ListOf(t)[i]
  {
    NewestGoesFirst(t.rows, t.ids, m, x);
    var t' := Table(t.rows[m := x], t.ids + {m});
    SortedIn(t);
    SortedIn(t');
    hide Sorted;
    var k := Sorted(t.rows, t.ids)[i];
    assert Sorted(t'.rows, t'.ids)[i + 1] == k && k in Sorted(t.rows, t.ids) && k in t.ids;
  }

  /** Row k of a page is row offset + k of the list. */
  lemma PageOfSorted(t: Table, limit: nat, offset: nat)
    requires TableOk(t)
    ensures var page, all := Query(t.rows, t.ids, limit, offset), ListOf(t);
            && |all| == |t.ids| && (forall k :: 0 <= k < |page| ==> page[k] in t.rows)
            && Cells(t.rows, page) == all[Min(offset, |all|)..Min(offset + limit, |all|)]
  {
    SortedIn(t);
    hide Sorted;
    var page, ids := Query(t.rows, t.ids, limit, offset), Sorted(t.rows, t.ids);
    CellsOfSlice(t.rows, ids, Min(offset, |ids|), Min(offset + limit, |ids|));
  }

  lemma CellsOfSlice(s: Snapshot, ids: seq<Id>, i: nat, j: nat)
    requires i <= j <= |ids| && forall k :: 0 <= k < |ids| ==> ids[k] in s
    ensures forall k :: 0 <= k < j - i ==> ids[i..j][k] in s
    ensures Cells(s, ids[i..j]) == Cells(s, ids)[i..j]
  {
  }

  /** One page: its rows go to the sheet. */
  method WritePage(t: Table, page: nat, sheet: seq<string>) returns (sheet': seq<string>, pageCount: nat)
    requires TableOk(t)
    ensures sheet' == sheet + PageOf(t, page) && pageCount == |PageOf(t, page)|
  {
    hide Sorted, Query;
    var rows := Query(t.rows, t.ids, PAGE_SIZE, page * PAGE_SIZE);
    PageOfSorted(t, PAGE_SIZE, page * PAGE_SIZE);
    hide ListOf;
    sheet' := sheet;
    pageCount := 0;
    for k := 0 to |rows|
      invariant pageCount == k && sheet' == sheet + Cells(t.rows, rows)[..k]
    {
      sheet' := sheet' + [t.rows[rows[k]].cells];
      pageCount := pageCount + 1;
    }
    assert Cells(t.rows, rows)[..|rows|] == Cells(t.rows, rows);
  }

  // --- The run ----------------------------------------------------------------------------------

  /** What can fail in a run: its database and storage calls, the parameters and the workbook. The n-th
      page has a query with its row writes, and a progress update. */
  datatype Call =
    | LoadJob | MarkRunning | DecodeParams | Count | SetTotal | Page(n: nat) | Progress(n: nat) | WriteBook | Upload
    | MarkSucceeded | MarkFailed

  predicate PageClean(k: nat, fails: set<Call>) {
    Page(k) !in fails && Progress(k) !in fails
  }

  /** Nothing fails while the sheet is built, up to its first short page. */
  ghost predicate BuildsClean(tables: nat -> Table, fails: set<Call>)
    requires forall k :: TableOk(tables(k))
  {
    && Count !in fails && SetTotal !in fails
    && exists n: nat :: FirstShort(tables, n) && forall k: nat :: k <= n ==> PageClean(k, fails)
  }

  /** The first short page that a failing page comes before, or at, spoils the build. */
  lemma SpoiltBy(tables: nat -> Table, fails: set<Call>, page: nat)
    requires forall k :: TableOk(tables(k))
    requires (forall k: nat :: k < page ==> !ShortAt(tables, k)) && !PageClean(page, fails)
    ensures !BuildsClean(tables, fails)
  {
  }

  lemma CleanUpTo(tables: nat -> Table, fails: set<Call>, page: nat)
    requires (forall k :: TableOk(tables(k))) && Count !in fails && SetTotal !in fails
    requires FirstShort(tables, page) && forall k: nat :: k <= page ==> PageClean(k, fails)
    ensures BuildsClean(tables, fails)
  {
  }

  lemma NoPages(tables: nat -> Table)
    requires forall k :: TableOk(tables(k))
    ensures Pages(tables, 0) == []
  {
  }

  lemma PagesGrow(tables: nat -> Table, n: nat)
    requires forall k :: TableOk(tables(k))
    ensures Pages(tables, n + 1) == Pages(tables, n) + PageOf(tables(n), n)
    ensures ShortAt(tables, n) <==> |PageOf(tables(n), n)| < PAGE_SIZE
  {
  }

  lemma IsFirstShort(tables: nat -> Table, n: nat)
    requires forall k :: TableOk(tables(k))
    requires ShortAt(tables, n) && forall k: nat :: k < n ==> !ShortAt(tables, k)
    ensures FirstShort(tables, n)
  {
  }

  lemma FarPageIsShort(tables: nat -> Table, bound: nat, page: nat)
    requires AllOk(tables, bound)
    ensures page * PAGE_SIZE >= bound ==> ShortAt(tables, page)
  {
  }

  /** Pages until a page comes back short: `tables(k)` is what the k-th page's statement finds, `counted`
      what the count found before, and `bound` a size no table exceeds. */
  method BuildList(tables: nat -> Table, counted: nat, ghost bound: nat, job: Job, fails: set<Call>)
    returns (ok: bool, sheet: seq<string>, ghost last: nat)
    requires AllOk(tables, bound)
    modifies job
    ensures job.status == old(job.status)
    ensures job.total == if {Count, SetTotal} !! fails then counted else old(job.total)
    ensures ok <==> BuildsClean(tables, fails)
    ensures ok ==> FirstShort(tables, last) && sheet == Pages(tables, last + 1)
    ensures ok ==> job.processed == |sheet| && job.progress == Percent(|sheet|, counted) && job.total == counted
    ensures old(job.reports) <= job.reports && Monotone(job.reports[|old(job.reports)|..])
  {
    hide Percent, Monotone, PageClean, ReportedUpTo, PageOf, BuildsClean, Pages, ShortAt, TableOk, FirstShort;
    sheet, last := [], 0;
    NoPages(tables);
    ghost var before := job.reports;
    NothingReported(before, Percent(0, counted));
    if Count in fails || SetTotal in fails {
      NotClean(tables, fails);
      return false, sheet, last;
    }
    job.total := counted;
    var page := 0;
    while true
      invariant sheet == Pages(tables, page)
      invariant job.status == old(job.status) && job.total == counted
      invariant ReportedUpTo(before, job.reports, Percent(|sheet|, counted))
      invariant forall k: nat :: k < page ==> PageClean(k, fails) && !ShortAt(tables, k)
      decreases bound - page * PAGE_SIZE
    {
      ghost var done := |sheet|;
      UncleanPage(page, fails);
      ReportedIsMonotone(before, job.reports, Percent(done, counted));
      if Page(page) in fails {
        SpoiltBy(tables, fails, page);
        return false, sheet, last;
      }
      var pageCount;
      sheet, pageCount := WritePage(tables(page), page, sheet);
      if Progress(page) in fails {
        SpoiltBy(tables, fails, page);
        return false, sheet, last;
      }
      PercentGrows(done, |sheet|, counted);
      ReportsGrow(before, job.reports, Percent(done, counted), Percent(|sheet|, counted));
      job.UpdateProgress(|sheet|, Percent(|sheet|, counted));
      PagesGrow(tables, page);
      FarPageIsShort(tables, bound, page);
      last := page;
      page := page + 1;
      if pageCount < PAGE_SIZE {
        break;
      }
    }
    assert FirstShort(tables, last) by {
      IsFirstShort(tables, last);
    }
    CleanUpTo(tables, fails, last);
    ReportedIsMonotone(before, job.reports, Percent(|sheet|, counted));
    ok := true;
  }

  lemma NotClean(tables: nat -> Table, fails: set<Call>)
    requires (forall k :: TableOk(tables(k))) && (Count in fails || SetTotal in fails)
    ensures !BuildsClean(tables, fails)
  {
  }

  lemma UncleanPage(k: nat, fails: set<Call>)
    ensures PageClean(k, fails) <==> !(Page(k) in fails || Progress(k) in fails)
  {
  }

  lemma ReportedIsMonotone(before: seq<int>, reports: seq<int>, x: int)
    requires ReportedUpTo(before, reports, x)
    ensures before <= reports && Monotone(reports[|before|..])
  {
  }

  lemma ReportsReachFull(before: seq<int>, reports: seq<int>)
    requires before <= reports && Monotone(reports[|before|..])
    ensures before <= reports + [100] && Monotone((reports + [100])[|before|..])
  {
    assert (reports + [100])[|before|..] == reports[|before|..] + [100];
  }

  lemma NothingReported(reports: seq<int>, x: int)
    ensures ReportedUpTo(reports, reports, x) && Monotone(reports[|reports|..])
  {
    assert reports[|reports|..] == [];
  }

  /** One attempt: whatever the job's state was, FAILED included, it runs again from the first page.
      Only a file of all the pages is ever uploaded, and SUCCEEDED is set after the upload. A failed
      update of the status leaves the job as it was: RUNNING if the last one is lost. */
  method HandleRun(tables: nat -> Table, counted: nat, ghost bound: nat, job: Job, fails: set<Call>)
    returns (ok: bool, uploaded: Option<seq<string>>, ghost last: nat)
    requires AllOk(tables, bound)
    modifies job
    ensures ok <==> MarkSucceeded !in fails && uploaded.Some?
    ensures uploaded.Some? <==>
              {LoadJob, MarkRunning, DecodeParams, WriteBook, Upload} !! fails && BuildsClean(tables, fails)
    ensures uploaded.Some? ==> FirstShort(tables, last) && uploaded.value == Pages(tables, last + 1)
    ensures job.status == if LoadJob in fails || MarkRunning in fails then old(job.status)
                          else if ok then Succeeded
                          else if uploaded.Some? || MarkFailed in fails then Running
                          else Failed
    ensures ok ==> job.progress == 100 && job.processed == |uploaded.value| && job.total == counted
    ensures old(job.reports) <= job.reports && Monotone(job.reports[|old(job.reports)|..])
    ensures LoadJob in fails || MarkRunning in fails ==> unchanged(job)
  {
    hide Percent, Monotone, PageClean, BuildsClean, PageOf;
    ok, uploaded, last := false, None, 0;
    NothingReported(job.reports, 0);
    if LoadJob in fails || MarkRunning in fails {
      return;
    }
    job.status := Running;
    var built, sheet := DecodeParams !in fails, [];
    if built {
      built, sheet, last := BuildList(tables, counted, bound, job, fails);
    }
    if !built || WriteBook in fails || Upload in fails {
      if MarkFailed !in fails {
        job.status := Failed;
      }
      return;
    }
    uploaded := Some(sheet);
    if MarkSucceeded in fails {
      return;
    }
    ReportsReachFull(old(job.reports), job.reports);
    job.progress := 100;
    job.reports := job.reports + [100];
    job.processed := |sheet|;
    job.status := Succeeded;
    ok := true;
  }
}
