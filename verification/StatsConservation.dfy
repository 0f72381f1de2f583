/** The statistics overview and its per-project export: every bucket list accounts for every row. */
module StatsConservation {
  import opened Wrappers
  import opened Ordering

  datatype Filter = Filter(project: Option<int>, inspector: Option<int>, from: Option<int>, to: Option<int>)

  datatype ProblemRow = ProblemRow(
    deleted: bool, project: int, inspector: int, typeItem: Option<int>, statusItem: Option<int>, at: int)

  /** Mileage in whole units of its smallest step: its sums are exact here. */
  datatype InspectionRow = InspectionRow(deleted: bool, project: int, inspector: int, at: int, mileage: int, duration: int)

  datatype Bucket = Bucket(key: int, count: int)

  datatype Overview = Overview(
    byType: seq<Bucket>, byStatus: seq<Bucket>, byInspector: seq<Bucket>, byProject: seq<Bucket>,
    inspections: int, problems: int, mileage: int, duration: int)

  /** The clause both tables share: every filter that is present holds. */
  predicate Matches(f: Filter, deleted: bool, project: int, inspector: int, at: int) {
    && !deleted
    && (f.project.Some? ==> project == f.project.value)
    && (f.inspector.Some? ==> inspector == f.inspector.value)
    && (f.from.Some? ==> at >= f.from.value)
    && (f.to.Some? ==> at < f.to.value)
  }

  function Problems(f: Filter, ps: seq<ProblemRow>): seq<ProblemRow> {
    if ps == [] then []
    else
      var p := ps[|ps| - 1];
      Problems(f, ps[..|ps| - 1]) + if Matches(f, p.deleted, p.project, p.inspector, p.at) then [p] else []
  }

  function Inspections(f: Filter, xs: seq<InspectionRow>): seq<InspectionRow> {
    if xs == [] then []
    else
      var x := xs[|xs| - 1];
      Inspections(f, xs[..|xs| - 1]) + if Matches(f, x.deleted, x.project, x.inspector, x.at) then [x] else []
  }

  // --- Buckets ----------------------------------------------------------------------------------

  datatype Dimension = ByType | ByStatus | ByInspector | ByProject

  /** The column grouped by; None rows have no bucket. */
  function KeyOf(d: Dimension, p: ProblemRow): Option<int> {
    match d
    case ByType => p.typeItem
    case ByStatus => p.statusItem
    case ByInspector => Some(p.inspector)
    case ByProject => Some(p.project)
  }

  function Keys(d: Dimension, ps: seq<ProblemRow>): seq<int> {
    if ps == [] then []
    else
      var k := KeyOf(d, ps[|ps| - 1]);
      Keys(d, ps[..|ps| - 1]) + if k.Some? then [k.value] else []
  }

  function Count(keys: seq<int>, k: int): nat {
    if keys == [] then 0 else Count(keys[..|keys| - 1], k) + if keys[|keys| - 1] == k then 1 else 0
  }

  /** One bucket per key that occurs, with the number of its occurrences, in any order. */
  ghost predicate Grouped(keys: seq<int>, bs: seq<Bucket>) {
    && (forall i, j :: 0 <= i < j < |bs| ==> bs[i].key != bs[j].key)
    && (forall i :: 0 <= i < |bs| ==> bs[i].count == Count(keys, bs[i].key) && bs[i].count > 0)
    && (forall k :: k in keys ==> exists i :: 0 <= i < |bs| && bs[i].key == k)
  }

  function Sum(bs: seq<Bucket>): int {
    if bs == [] then 0 else Sum(bs[..|bs| - 1]) + bs[|bs| - 1].count
  }

  function Without(keys: seq<int>, k: int): seq<int> {
    if keys == [] then [] else Without(keys[..|keys| - 1], k) + if keys[|keys| - 1] == k then [] else [keys[|keys| - 1]]
  }

  lemma {:induction false} WithoutCounts(keys: seq<int>, k: int, j: int)
    ensures |Without(keys, k)| == |keys| - Count(keys, k)
    ensures Count(Without(keys, k), j) == if j == k then 0 else Count(keys, j)
    ensures j in Without(keys, k) <==> j in keys && j != k
  {
    if keys == [] {
    } else {
      var front, last := keys[..|keys| - 1], keys[|keys| - 1];
      WithoutCounts(front, k, j);
      assert keys == front + [last];
      if last != k {
        var w := Without(keys, k);
        assert w[..|w| - 1] == Without(front, k);
      } else {
        assert Without(keys, k) == Without(front, k);
      }
    }
  }

  lemma KeysHaveBuckets(keys: seq<int>, bs: seq<Bucket>)
    requires Grouped(keys, bs)
    ensures keys != [] ==> bs != []
  {
    if keys != [] {
      var k := keys[0];
      assert k in keys;
      var i :| 0 <= i < |bs| && bs[i].key == k;
    }
  }

  /** The buckets add up to the rows grouped. */
  lemma {:induction false} GroupedSum(keys: seq<int>, bs: seq<Bucket>)
    requires Grouped(keys, bs)
    ensures Sum(bs) == |keys|
    decreases |bs|
  {
    KeysHaveBuckets(keys, bs);
    if bs == [] {
    } else {
      var front, b := bs[..|bs| - 1], bs[|bs| - 1];
      WithoutCounts(keys, b.key, b.key);
      assert Grouped(Without(keys, b.key), front) by {
        GroupedWithout(keys, bs);
      }
      GroupedSum(Without(keys, b.key), front);
    }
  }

  lemma GroupedWithout(keys: seq<int>, bs: seq<Bucket>)
    requires Grouped(keys, bs) && bs != []
    ensures Grouped(Without(keys, bs[|bs| - 1].key), bs[..|bs| - 1])
  {
    var front, b := bs[..|bs| - 1], bs[|bs| - 1];
    var rest := Without(keys, b.key);
    forall i | 0 <= i < |front|
      ensures front[i].count == Count(rest, front[i].key) && front[i].count > 0
    {
      WithoutCounts(keys, b.key, front[i].key);
    }
    forall k | k in rest
      ensures exists i :: 0 <= i < |front| && front[i].key == k
    {
      WithoutCounts(keys, b.key, k);
      var i :| 0 <= i < |bs| && bs[i].key == k;
      assert front[i].key == k;
    }
  }

  lemma {:induction false} CountPositive(keys: seq<int>, k: int)
    ensures Count(keys, k) > 0 <==> k in keys
  {
    if keys == [] {
    } else {
      CountPositive(keys[..|keys| - 1], k);
      assert keys == keys[..|keys| - 1] + [keys[|keys| - 1]];
    }
  }

  /** GROUP BY as one pass over the keys. */
  method CountBuckets(keys: seq<int>) returns (bs: seq<Bucket>)
    ensures Grouped(keys, bs)
  {
    bs := [];
    assert keys[..0] == [];
    for n := 0 to |keys|
      invariant Grouped(keys[..n], bs)
    {
      var k := keys[n];
      assert keys[..n + 1] == keys[..n] + [k];
      var i := 0;
      while i < |bs| && bs[i].key != k
        invariant 0 <= i <= |bs| && forall j :: 0 <= j < i ==> bs[j].key != k
      {
        i := i + 1;
      }
      if i < |bs| {
        BucketGrows(keys[..n], bs, k, i);
        bs := bs[i := Bucket(k, bs[i].count + 1)];
      } else {
        BucketAdded(keys[..n], bs, k);
        bs := bs + [Bucket(k, 1)];
      }
    }
    assert keys[..|keys|] == keys;
  }

  lemma CountSnoc(keys: seq<int>, k: int, j: int)
    ensures Count(keys + [k], j) == Count(keys, j) + if j == k then 1 else 0
  {
    assert (keys + [k])[..|keys|] == keys;
  }

  lemma BucketGrows(keys: seq<int>, bs: seq<Bucket>, k: int, i: nat)
    requires Grouped(keys, bs) && i < |bs| && bs[i].key == k
    ensures Grouped(keys + [k], bs[i := Bucket(k, bs[i].count + 1)])
  {
    var bs' := bs[i := Bucket(k, bs[i].count + 1)];
    forall j | 0 <= j < |bs'|
      ensures bs'[j].count == Count(keys + [k], bs'[j].key)
    {
      CountSnoc(keys, k, bs'[j].key);
    }
    forall x | x in keys + [k]
      ensures exists j :: 0 <= j < |bs'| && bs'[j].key == x
    {
      if x == k {
        assert bs'[i].key == x;
      } else {
        var j :| 0 <= j < |bs| && bs[j].key == x;
        assert bs'[j].key == x;
      }
    }
  }

  lemma BucketAdded(keys: seq<int>, bs: seq<Bucket>, k: int)
    requires Grouped(keys, bs) && forall j :: 0 <= j < |bs| ==> bs[j].key != k
    ensures Grouped(keys + [k], bs + [Bucket(k, 1)])
  {
    var bs' := bs + [Bucket(k, 1)];
    CountPositive(keys, k);
    forall j | 0 <= j < |bs'|
      ensures bs'[j].count == Count(keys + [k], bs'[j].key)
    {
      CountSnoc(keys, k, bs'[j].key);
    }
    forall x | x in keys + [k]
      ensures exists j :: 0 <= j < |bs'| && bs'[j].key == x
    {
      if x == k {
        assert bs'[|bs|].key == x;
      } else {
        var j :| 0 <= j < |bs| && bs[j].key == x;
        assert bs'[j].key == x;
      }
    }
  }

  // --- The overview -----------------------------------------------------------------------------

  function Mileage(xs: seq<InspectionRow>): int {
    if xs == [] then 0 else Mileage(xs[..|xs| - 1]) + xs[|xs| - 1].mileage
  }

  function Duration(xs: seq<InspectionRow>): int {
    if xs == [] then 0 else Duration(xs[..|xs| - 1]) + xs[|xs| - 1].duration
  }

  ghost predicate IsOverview(o: Overview, f: Filter, ps: seq<ProblemRow>, xs: seq<InspectionRow>) {
    var p, x := Problems(f, ps), Inspections(f, xs);
    && Grouped(Keys(ByType, p), o.byType) && Grouped(Keys(ByStatus, p), o.byStatus)
    && Grouped(Keys(ByInspector, p), o.byInspector) && Grouped(Keys(ByProject, p), o.byProject)
    && o.problems == |p| && o.inspections == |x| && o.mileage == Mileage(x) && o.duration == Duration(x)
  }

  method ComputeOverview(f: Filter, ps: seq<ProblemRow>, xs: seq<InspectionRow>) returns (o: Overview)
    ensures IsOverview(o, f, ps, xs)
  {
    var p := Problems(f, ps);
    var byType := CountBuckets(Keys(ByType, p));
    var byStatus := CountBuckets(Keys(ByStatus, p));
    var byInspector := CountBuckets(Keys(ByInspector, p));
    var byProject := CountBuckets(Keys(ByProject, p));
    var x := Inspections(f, xs);
    var mileage, duration := 0, 0;
    assert x[..0] == [];
    for i := 0 to |x|
      invariant mileage == Mileage(x[..i]) && duration == Duration(x[..i])
    {
      assert x[..i + 1][..i] == x[..i];
      mileage := mileage + x[i].mileage;
      duration := duration + x[i].duration;
    }
    assert x[..|x|] == x;
    o := Overview(byType, byStatus, byInspector, byProject, |x|, |p|, mileage, duration);
  }

  /** How many of the problems have no value in the dimension. */
  function Missing(d: Dimension, ps: seq<ProblemRow>): nat {
    if ps == [] then 0 else Missing(d, ps[..|ps| - 1]) + if KeyOf(d, ps[|ps| - 1]).None? then 1 else 0
  }

  lemma {:induction false} KeysCount(d: Dimension, ps: seq<ProblemRow>)
    ensures |Keys(d, ps)| == |ps| - Missing(d, ps)
    ensures d == ByInspector || d == ByProject ==> Missing(d, ps) == 0
  {
    if ps == [] {
    } else {
      KeysCount(d, ps[..|ps| - 1]);
    }
  }

  /** Under any filter the inspector and the project buckets each sum to the problem count, the type
      and the status buckets to it less the problems without one. */
  lemma BucketsConserve(o: Overview, f: Filter, ps: seq<ProblemRow>, xs: seq<InspectionRow>)
    requires IsOverview(o, f, ps, xs)
    ensures Sum(o.byInspector) == o.problems && Sum(o.byProject) == o.problems
    ensures Sum(o.byType) == o.problems - Missing(ByType, Problems(f, ps))
    ensures Sum(o.byStatus) == o.problems - Missing(ByStatus, Problems(f, ps))
  {
    hide Grouped, Problems, Inspections;
    var p := Problems(f, ps);
    GroupedSum(Keys(ByInspector, p), o.byInspector);
    GroupedSum(Keys(ByProject, p), o.byProject);
    GroupedSum(Keys(ByType, p), o.byType);
    GroupedSum(Keys(ByStatus, p), o.byStatus);
    KeysCount(ByInspector, p);
    KeysCount(ByProject, p);
    KeysCount(ByType, p);
    KeysCount(ByStatus, p);
  }

  // --- What one row changes ---------------------------------------------------------------------

  /** What a bucket list says of a key. */
  function CountOf(bs: seq<Bucket>, k: int): int {
    if bs == [] then 0 else CountOf(bs[..|bs| - 1], k) + if bs[|bs| - 1].key == k then bs[|bs| - 1].count else 0
  }

  lemma {:induction false} CountOfOne(bs: seq<Bucket>, k: int, i: nat)
    requires i < |bs| && bs[i].key == k && forall x, y :: 0 <= x < y < |bs| ==> bs[x].key != bs[y].key
    ensures CountOf(bs, k) == bs[i].count
  {
    var front := bs[..|bs| - 1];
    if i == |front| {
      CountOfNone(front, k);
    } else {
      CountOfOne(front, k, i);
    }
  }

  lemma {:induction false} CountOfNone(bs: seq<Bucket>, k: int)
    requires forall i :: 0 <= i < |bs| ==> bs[i].key != k
    ensures CountOf(bs, k) == 0
  {
    if bs == [] {
    } else {
      CountOfNone(bs[..|bs| - 1], k);
    }
  }

  lemma GroupedCounts(keys: seq<int>, bs: seq<Bucket>, k: int)
    requires Grouped(keys, bs)
    ensures CountOf(bs, k) == Count(keys, k)
  {
    CountPositive(keys, k);
    if i :| 0 <= i < |bs| && bs[i].key == k {
      CountOfOne(bs, k, i);
    } else {
      CountOfNone(bs, k);
    }
  }

  lemma OneMoreKey(d: Dimension, p: seq<ProblemRow>, row: ProblemRow, bs: seq<Bucket>, bs': seq<Bucket>, taken: bool, k: int)
    requires Grouped(Keys(d, p), bs) && Grouped(Keys(d, if taken then p + [row] else p), bs')
    ensures CountOf(bs', k) == CountOf(bs, k) + if taken && KeyOf(d, row) == Some(k) then 1 else 0
  {
    hide Grouped, CountOf, Count, KeyOf;
    GroupedCounts(Keys(d, p), bs, k);
    GroupedCounts(Keys(d, if taken then p + [row] else p), bs', k);
    assert (p + [row])[..|p|] == p;
    if taken && KeyOf(d, row).Some? {
      CountSnoc(Keys(d, p), KeyOf(d, row).value, k);
    } else {
      assert Keys(d, p) + [] == Keys(d, p);
    }
  }

  /** One more problem is counted if it is not deleted and passes the filters that are set, the end of the
      window excluded: then it adds one to the problems, to the bucket of its inspector and of its project,
      and to those of its type and status if it has them. Otherwise it changes nothing. */
  lemma OneMoreProblem(f: Filter, ps: seq<ProblemRow>, p: ProblemRow, xs: seq<InspectionRow>, o: Overview, o': Overview, k: int)
    requires IsOverview(o, f, ps, xs) && IsOverview(o', f, ps + [p], xs)
    ensures var n := if && !p.deleted
                        && (f.project.None? || f.project.value == p.project)
                        && (f.inspector.None? || f.inspector.value == p.inspector)
                        && (f.from.None? || f.from.value <= p.at) && (f.to.None? || p.at < f.to.value)
                     then 1 else 0;
            && o'.problems == o.problems + n
            && CountOf(o'.byType, k) == CountOf(o.byType, k) + (if p.typeItem == Some(k) then n else 0)
            && CountOf(o'.byStatus, k) == CountOf(o.byStatus, k) + (if p.statusItem == Some(k) then n else 0)
            && CountOf(o'.byInspector, k) == CountOf(o.byInspector, k) + (if p.inspector == k then n else 0)
            && CountOf(o'.byProject, k) == CountOf(o.byProject, k) + (if p.project == k then n else 0)
            && o'.inspections == o.inspections && o'.mileage == o.mileage && o'.duration == o.duration
  {
    hide Grouped, Problems, Inspections, Keys, Mileage, Duration, CountOf;
    ProblemsSnoc(f, ps, p);
    var q, taken := Problems(f, ps), Matches(f, p.deleted, p.project, p.inspector, p.at);
    OneMoreKey(ByType, q, p, o.byType, o'.byType, taken, k);
    OneMoreKey(ByStatus, q, p, o.byStatus, o'.byStatus, taken, k);
    OneMoreKey(ByInspector, q, p, o.byInspector, o'.byInspector, taken, k);
    OneMoreKey(ByProject, q, p, o.byProject, o'.byProject, taken, k);
  }

  /** The same of an inspection, which adds its own mileage and duration and is in no bucket. */
  lemma OneMoreInspection(
      f: Filter, ps: seq<ProblemRow>, xs: seq<InspectionRow>, x: InspectionRow, o: Overview, o': Overview, k: int)
    requires IsOverview(o, f, ps, xs) && IsOverview(o', f, ps, xs + [x])
    ensures var counted := && !x.deleted
                           && (f.project.None? || f.project.value == x.project)
                           && (f.inspector.None? || f.inspector.value == x.inspector)
                           && (f.from.None? || f.from.value <= x.at) && (f.to.None? || x.at < f.to.value);
            && o'.inspections == o.inspections + (if counted then 1 else 0)
            && o'.mileage == o.mileage + (if counted then x.mileage else 0)
            && o'.duration == o.duration + (if counted then x.duration else 0)
            && o'.problems == o.problems
            && CountOf(o'.byType, k) == CountOf(o.byType, k) && CountOf(o'.byStatus, k) == CountOf(o.byStatus, k)
            && CountOf(o'.byInspector, k) == CountOf(o.byInspector, k) && CountOf(o'.byProject, k) == CountOf(o.byProject, k)
  {
    hide Grouped, Problems, Inspections, Keys, CountOf;
    InspectionsSnoc(f, xs, x);
    SameCounts(Keys(ByType, Problems(f, ps)), o.byType, o'.byType, k);
    SameCounts(Keys(ByStatus, Problems(f, ps)), o.byStatus, o'.byStatus, k);
    SameCounts(Keys(ByInspector, Problems(f, ps)), o.byInspector, o'.byInspector, k);
    SameCounts(Keys(ByProject, Problems(f, ps)), o.byProject, o'.byProject, k);
    var q := Inspections(f, xs);
    assert (q + [x])[..|q|] == q;
  }

  lemma SameCounts(keys: seq<int>, bs: seq<Bucket>, bs': seq<Bucket>, k: int)
    requires Grouped(keys, bs) && Grouped(keys, bs')
    ensures CountOf(bs', k) == CountOf(bs, k)
  {
    hide Grouped;
    GroupedCounts(keys, bs, k);
    GroupedCounts(keys, bs', k);
  }

  /** No rows give an overview of zeros without buckets. */
  lemma NothingToCount(o: Overview, f: Filter)
    requires IsOverview(o, f, [], [])
    ensures o == Overview([], [], [], [], 0, 0, 0, 0)
  {
    hide Grouped;
    NoKeysNoBuckets(o.byType);
    NoKeysNoBuckets(o.byStatus);
    NoKeysNoBuckets(o.byInspector);
    NoKeysNoBuckets(o.byProject);
  }

  lemma NoKeysNoBuckets(bs: seq<Bucket>)
    ensures Grouped([], bs) ==> bs == []
  {
    if bs != [] {
      assert bs[0].count > 0 ==> bs[0].count != Count([], bs[0].key);
    }
  }

  // --- The per-project export -------------------------------------------------------------------

  predicate HasProblem(f: Filter, ps: seq<ProblemRow>, id: int) {
    exists k :: 0 <= k < |ps| && ps[k].project == id
      && Matches(f, ps[k].deleted, ps[k].project, ps[k].inspector, ps[k].at)
  }

  predicate HasInspection(f: Filter, xs: seq<InspectionRow>, id: int) {
    exists k :: 0 <= k < |xs| && xs[k].project == id
      && Matches(f, xs[k].deleted, xs[k].project, xs[k].inspector, xs[k].at)
  }

  /** A live project with a matching problem or inspection. */
  ghost predicate InWindow(f: Filter, live: set<int>, ps: seq<ProblemRow>, xs: seq<InspectionRow>, id: int) {
    && id in live && (f.project.Some? ==> id == f.project.value)
    && (HasProblem(f, ps, id) || HasInspection(f, xs, id))
  }

  datatype ProjectRow = ProjectRow(id: int, overview: Overview)

  /** One row per project of the window, each once, with the overview restricted to it. */
  ghost predicate IsExport(
      rows: seq<ProjectRow>, f: Filter, live: set<int>, ps: seq<ProblemRow>, xs: seq<InspectionRow>)
  {
    && (forall i, j :: 0 <= i < j < |rows| ==> rows[i].id != rows[j].id)
    && (forall i :: 0 <= i < |rows| ==>
          InWindow(f, live, ps, xs, rows[i].id) && IsOverview(rows[i].overview, f.(project := Some(rows[i].id)), ps, xs))
    && (forall id :: InWindow(f, live, ps, xs, id) ==> exists i :: 0 <= i < |rows| && rows[i].id == id)
  }

  /** ORDER BY name, id: `rank` is a name's place in the collation. */
  predicate Before(rank: int -> int, a: int, b: int) {
    rank(a) < rank(b) || (rank(a) == rank(b) && a < b)
  }

  ghost predicate InNameOrder(rank: int -> int, ids: seq<int>) {
    forall i, j :: 0 <= i < j < |ids| ==> Before(rank, ids[i], ids[j])
  }

  function InsertByName(rank: int -> int, ids: seq<int>, id: int): (r: seq<int>)
    requires InNameOrder(rank, ids) && id !in ids
    ensures InNameOrder(rank, r) && forall k :: k in r <==> k in ids || k == id
  {
    if ids == [] then [id]
    else if Before(rank, id, ids[0]) then [id] + ids
    else
      var rest := InsertByName(rank, ids[1..], id);
      assert forall k :: 0 <= k < |rest| ==> rest[k] in rest;
      assert forall k :: k in ids <==> k == ids[0] || k in ids[1..];
      [ids[0]] + rest
  }

  function ByName(rank: int -> int, ids: seq<int>): (r: seq<int>)
    requires forall i, j :: 0 <= i < j < |ids| ==> ids[i] != ids[j]
    ensures InNameOrder(rank, r) && forall k :: k in r <==> k in ids
  {
    if ids == [] then []
    else
      var front, last := ids[..|ids| - 1], ids[|ids| - 1];
      assert ids == front + [last];
      InsertByName(rank, ByName(rank, front), last)
  }

  method ProjectsInWindow(
      f: Filter, live: set<int>, rank: int -> int, ps: seq<ProblemRow>, xs: seq<InspectionRow>)
    returns (ids: seq<int>)
    ensures InNameOrder(rank, ids)
    ensures forall id :: id in ids <==> InWindow(f, live, ps, xs, id)
  {
    var found := set id | id in live && (f.project.Some? ==> id == f.project.value)
      && (HasProblem(f, ps, id) || HasInspection(f, xs, id));
    ids := ByName(rank, InOrder(found));
  }

  method ProjectsForExport(
      f: Filter, live: set<int>, rank: int -> int, ps: seq<ProblemRow>, xs: seq<InspectionRow>)
    returns (rows: seq<ProjectRow>)
    ensures IsExport(rows, f, live, ps, xs)
    ensures forall i, j :: 0 <= i < j < |rows| ==>
              rank(rows[i].id) < rank(rows[j].id) || (rank(rows[i].id) == rank(rows[j].id) && rows[i].id < rows[j].id)
  {
    var ids := ProjectsInWindow(f, live, rank, ps, xs);
    hide InWindow, IsOverview;
    rows := [];
    for i := 0 to |ids|
      invariant |rows| == i && forall k :: 0 <= k < i ==> rows[k].id == ids[k]
      invariant forall k :: 0 <= k < i ==> IsOverview(rows[k].overview, f.(project := Some(rows[k].id)), ps, xs)
    {
      var o := ComputeOverview(f.(project := Some(ids[i])), ps, xs);
      rows := rows + [ProjectRow(ids[i], o)];
    }
    assert forall k :: 0 <= k < |ids| ==> ids[k] in ids;
  }

  // Per project, each total is a weighted sum over the matching rows of that project.

  datatype Weighted = Weighted(project: int, weight: int)

  datatype Measure = ProblemCount | InspectionCount | TotalMileage | TotalDuration

  function ProblemWeights(ps: seq<ProblemRow>): seq<Weighted> {
    if ps == [] then [] else ProblemWeights(ps[..|ps| - 1]) + [Weighted(ps[|ps| - 1].project, 1)]
  }

  function InspectionWeights(m: Measure, xs: seq<InspectionRow>): seq<Weighted> {
    if xs == [] then []
    else
      var x := xs[|xs| - 1];
      InspectionWeights(m, xs[..|xs| - 1])
      + [Weighted(x.project, Measured(m, x))]
  }

  function Weights(m: Measure, f: Filter, ps: seq<ProblemRow>, xs: seq<InspectionRow>): seq<Weighted> {
    if m == ProblemCount then ProblemWeights(Problems(f, ps)) else InspectionWeights(m, Inspections(f, xs))
  }

  function MeasureOf(m: Measure, o: Overview): int {
    match m
    case ProblemCount => o.problems
    case InspectionCount => o.inspections
    case TotalMileage => o.mileage
    case TotalDuration => o.duration
  }

  /** The weight of the rows whose project is in the set. */
  function WeightIn(ws: seq<Weighted>, ids: set<int>): int {
    if ws == [] then 0 else WeightIn(ws[..|ws| - 1], ids) + if ws[|ws| - 1].project in ids then ws[|ws| - 1].weight else 0
  }

  lemma {:induction false} WeightSplits(ws: seq<Weighted>, ids: set<int>, id: int)
    requires id !in ids
    ensures WeightIn(ws, ids + {id}) == WeightIn(ws, ids) + WeightIn(ws, {id})
  {
    if ws == [] {
    } else {
      WeightSplits(ws[..|ws| - 1], ids, id);
    }
  }

  lemma {:induction false} WeightSame(ws: seq<Weighted>, ids: set<int>, ids': set<int>)
    requires forall k :: 0 <= k < |ws| ==> (ws[k].project in ids <==> ws[k].project in ids')
    ensures WeightIn(ws, ids) == WeightIn(ws, ids')
  {
    if ws == [] {
    } else {
      WeightSame(ws[..|ws| - 1], ids, ids');
    }
  }

  lemma ProblemsSnoc(f: Filter, ps: seq<ProblemRow>, p: ProblemRow)
    ensures Problems(f, ps + [p])
         == if Matches(f, p.deleted, p.project, p.inspector, p.at) then Problems(f, ps) + [p] else Problems(f, ps)
  {
    assert (ps + [p])[..|ps|] == ps;
    assert Problems(f, ps) + [] == Problems(f, ps);
  }

  lemma InspectionsSnoc(f: Filter, xs: seq<InspectionRow>, x: InspectionRow)
    ensures Inspections(f, xs + [x])
         == if Matches(f, x.deleted, x.project, x.inspector, x.at) then Inspections(f, xs) + [x] else Inspections(f, xs)
  {
    assert (xs + [x])[..|xs|] == xs;
    assert Inspections(f, xs) + [] == Inspections(f, xs);
  }

  lemma WeightSnoc(ws: seq<Weighted>, w: Weighted, ids: set<int>)
    ensures WeightIn(ws + [w], ids) == WeightIn(ws, ids) + if w.project in ids then w.weight else 0
  {
    assert (ws + [w])[..|ws|] == ws;
  }

  lemma ProblemWeightSnoc(ps: seq<ProblemRow>, p: ProblemRow, ids: set<int>)
    ensures WeightIn(ProblemWeights(ps + [p]), ids) == WeightIn(ProblemWeights(ps), ids) + if p.project in ids then 1 else 0
  {
    assert (ps + [p])[..|ps|] == ps;
    WeightSnoc(ProblemWeights(ps), Weighted(p.project, 1), ids);
  }

  function Measured(m: Measure, x: InspectionRow): int {
    match m
    case TotalMileage => x.mileage
    case TotalDuration => x.duration
    case _ => 1
  }

  /** What the overview says of the inspections it selects. */
  function MeasuredSum(m: Measure, xs: seq<InspectionRow>): int {
    match m
    case TotalMileage => Mileage(xs)
    case TotalDuration => Duration(xs)
    case _ => |xs|
  }

  lemma InspectionWeightSnoc(m: Measure, xs: seq<InspectionRow>, x: InspectionRow, ids: set<int>)
    ensures WeightIn(InspectionWeights(m, xs + [x]), ids)
         == WeightIn(InspectionWeights(m, xs), ids) + if x.project in ids then Measured(m, x) else 0
    ensures MeasuredSum(m, xs + [x]) == MeasuredSum(m, xs) + Measured(m, x)
  {
    assert (xs + [x])[..|xs|] == xs;
    WeightSnoc(InspectionWeights(m, xs), Weighted(x.project, Measured(m, x)), ids);
  }

  lemma NarrowedMatches(f: Filter, id: int, deleted: bool, project: int, inspector: int, at: int)
    requires f.project.Some? ==> id == f.project.value
    ensures Matches(f.(project := Some(id)), deleted, project, inspector, at) <==>
              Matches(f, deleted, project, inspector, at) && project == id
    ensures project in {id} <==> project == id
  {
  }

  /** Restricting the filter to one project keeps the rows of that project. */
  lemma {:induction false} ProblemWeightIs(f: Filter, ps: seq<ProblemRow>, id: int)
    requires f.project.Some? ==> id == f.project.value
    ensures |Problems(f.(project := Some(id)), ps)| == WeightIn(ProblemWeights(Problems(f, ps)), {id})
  {
    if ps == [] {
    } else {
      var front, p := ps[..|ps| - 1], ps[|ps| - 1];
      assert front + [p] == ps;
      ProblemWeightIs(f, front, id);
      ProblemWeightStep(f, front, p, id);
    }
  }

  lemma ProblemWeightStep(f: Filter, front: seq<ProblemRow>, p: ProblemRow, id: int)
    requires f.project.Some? ==> id == f.project.value
    requires |Problems(f.(project := Some(id)), front)| == WeightIn(ProblemWeights(Problems(f, front)), {id})
    ensures |Problems(f.(project := Some(id)), front + [p])| == WeightIn(ProblemWeights(Problems(f, front + [p])), {id})
  {
    hide Problems, ProblemWeights, WeightIn, Matches;
    NarrowedMatches(f, id, p.deleted, p.project, p.inspector, p.at);
    ProblemsSnoc(f, front, p);
    ProblemsSnoc(f.(project := Some(id)), front, p);
    ProblemWeightSnoc(Problems(f, front), p, {id});
  }

  lemma {:induction false} InspectionWeightIs(m: Measure, f: Filter, xs: seq<InspectionRow>, id: int)
    requires (f.project.Some? ==> id == f.project.value) && m != ProblemCount
    ensures WeightIn(InspectionWeights(m, Inspections(f, xs)), {id})
         == MeasuredSum(m, Inspections(f.(project := Some(id)), xs))
  {
    if xs == [] {
    } else {
      hide Inspections, InspectionWeights, WeightIn, MeasuredSum, Measured, Matches;
      var front, x := xs[..|xs| - 1], xs[|xs| - 1];
      assert front + [x] == xs;
      InspectionWeightIs(m, f, front, id);
      InspectionsSnoc(f, front, x);
      InspectionsSnoc(f.(project := Some(id)), front, x);
      NarrowedMatches(f, id, x.deleted, x.project, x.inspector, x.at);
      if Matches(f, x.deleted, x.project, x.inspector, x.at) {
        SameGrowth(m, Inspections(f, front), Inspections(f.(project := Some(id)), front), x, id);
      }
    }
  }

  lemma SameGrowth(m: Measure, xs: seq<InspectionRow>, ys: seq<InspectionRow>, x: InspectionRow, id: int)
    requires WeightIn(InspectionWeights(m, xs), {id}) == MeasuredSum(m, ys)
    ensures WeightIn(InspectionWeights(m, xs + [x]), {id}) == MeasuredSum(m, if x.project == id then ys + [x] else ys)
  {
    hide InspectionWeights, WeightIn, MeasuredSum, Measured;
    InspectionWeightSnoc(m, xs, x, {id});
    InspectionWeightSnoc(m, ys, x, {id});
  }

  /** A row of the export measures the weight of its project. */
  lemma RowMeasures(m: Measure, o: Overview, f: Filter, ps: seq<ProblemRow>, xs: seq<InspectionRow>, id: int)
    requires (f.project.Some? ==> id == f.project.value) && IsOverview(o, f.(project := Some(id)), ps, xs)
    ensures MeasureOf(m, o) == WeightIn(Weights(m, f, ps, xs), {id})
  {
    hide Grouped;
    ProblemWeightIs(f, ps, id);
    if m != ProblemCount {
      InspectionWeightIs(m, f, xs, id);
    }
  }

  function SumRows(m: Measure, rows: seq<ProjectRow>): int {
    if rows == [] then 0 else SumRows(m, rows[..|rows| - 1]) + MeasureOf(m, rows[|rows| - 1].overview)
  }

  function IdsOf(rows: seq<ProjectRow>): set<int> {
    set i | 0 <= i < |rows| :: rows[i].id
  }

  lemma {:induction false} RowsSum(
      m: Measure, rows: seq<ProjectRow>, f: Filter, live: set<int>, ps: seq<ProblemRow>, xs: seq<InspectionRow>)
    requires forall i, j :: 0 <= i < j < |rows| ==> rows[i].id != rows[j].id
    requires forall i :: 0 <= i < |rows| ==>
               InWindow(f, live, ps, xs, rows[i].id) && IsOverview(rows[i].overview, f.(project := Some(rows[i].id)), ps, xs)
    ensures SumRows(m, rows) == WeightIn(Weights(m, f, ps, xs), IdsOf(rows))
  {
    hide IsOverview, Weights;
    var ws := Weights(m, f, ps, xs);
    if rows == [] {
      assert IdsOf(rows) == {};
      WeightInNothing(ws);
    } else {
      var front, row := rows[..|rows| - 1], rows[|rows| - 1];
      RowsSum(m, front, f, live, ps, xs);
      RowMeasures(m, row.overview, f, ps, xs, row.id);
      assert IdsOf(rows) == IdsOf(front) + {row.id};
      WeightSplits(ws, IdsOf(front), row.id);
    }
  }

  lemma {:induction false} WeightInNothing(ws: seq<Weighted>)
    ensures WeightIn(ws, {}) == 0
  {
    if ws == [] {
    } else {
      WeightInNothing(ws[..|ws| - 1]);
    }
  }

  lemma {:induction false} ProblemWeightProjects(f: Filter, ps: seq<ProblemRow>, k: nat)
    requires k < |ProblemWeights(Problems(f, ps))|
    ensures var id := ProblemWeights(Problems(f, ps))[k].project;
            HasProblem(f, ps, id)
  {
    var front, p := ps[..|ps| - 1], ps[|ps| - 1];
    var q := Problems(f, ps);
    if Matches(f, p.deleted, p.project, p.inspector, p.at) {
      assert q[..|q| - 1] == Problems(f, front);
      WeightsLength(q);
      WeightsLength(q[..|q| - 1]);
      if k == |q| - 1 {
        assert ps[|ps| - 1] == p;
        return;
      }
    } else {
      assert q == Problems(f, front);
    }
    ProblemWeightProjects(f, front, k);
    var id := ProblemWeights(Problems(f, front))[k].project;
    var i :| 0 <= i < |front| && front[i].project == id
      && Matches(f, front[i].deleted, front[i].project, front[i].inspector, front[i].at);
    assert ps[i] == front[i];
  }

  lemma {:induction false} WeightsLength(ps: seq<ProblemRow>)
    ensures |ProblemWeights(ps)| == |ps|
  {
    if ps == [] {
    } else {
      WeightsLength(ps[..|ps| - 1]);
    }
  }

  lemma {:induction false} InspectionWeightProjects(m: Measure, f: Filter, xs: seq<InspectionRow>, k: nat)
    requires k < |InspectionWeights(m, Inspections(f, xs))|
    ensures var id := InspectionWeights(m, Inspections(f, xs))[k].project;
            HasInspection(f, xs, id)
  {
    var front, x := xs[..|xs| - 1], xs[|xs| - 1];
    var q := Inspections(f, xs);
    if Matches(f, x.deleted, x.project, x.inspector, x.at) {
      assert q[..|q| - 1] == Inspections(f, front);
      InspectionWeightsLength(m, q);
      InspectionWeightsLength(m, q[..|q| - 1]);
      if k == |q| - 1 {
        assert xs[|xs| - 1] == x;
        return;
      }
    } else {
      assert q == Inspections(f, front);
    }
    InspectionWeightProjects(m, f, front, k);
    var id := InspectionWeights(m, Inspections(f, front))[k].project;
    var i :| 0 <= i < |front| && front[i].project == id
      && Matches(f, front[i].deleted, front[i].project, front[i].inspector, front[i].at);
    assert xs[i] == front[i];
  }

  lemma {:induction false} InspectionWeightsLength(m: Measure, xs: seq<InspectionRow>)
    ensures |InspectionWeights(m, xs)| == |xs|
  {
    if xs == [] {
    } else {
      InspectionWeightsLength(m, xs[..|xs| - 1]);
    }
  }

  /** The rows of the export sum to the overview of the same filter restricted to live projects:
      problems, inspections, mileage and duration. */
  lemma ExportConserves(
      m: Measure, rows: seq<ProjectRow>, f: Filter, live: set<int>, ps: seq<ProblemRow>, xs: seq<InspectionRow>)
    requires IsExport(rows, f, live, ps, xs)
    ensures SumRows(m, rows) == WeightIn(Weights(m, f, ps, xs), live)
  {
    RowsSum(m, rows, f, live, ps, xs);
    var ws := Weights(m, f, ps, xs);
    forall k | 0 <= k < |ws|
      ensures ws[k].project in IdsOf(rows) <==> ws[k].project in live
    {
      WeightInWindow(m, f, live, ps, xs, k);
      hide Weights, IsOverview;
    }
    WeightSame(ws, IdsOf(rows), live);
  }

  /** A live project with weight is in the window. */
  lemma WeightInWindow(m: Measure, f: Filter, live: set<int>, ps: seq<ProblemRow>, xs: seq<InspectionRow>, k: nat)
    requires k < |Weights(m, f, ps, xs)|
    ensures var id := Weights(m, f, ps, xs)[k].project;
            id in live ==> InWindow(f, live, ps, xs, id)
  {
    if m == ProblemCount {
      ProblemWeightProjects(f, ps, k);
    } else {
      InspectionWeightProjects(m, f, xs, k);
    }
  }

  /** With every project live the export sums to the overview itself. */
  lemma ExportSumsToOverview(
      m: Measure, rows: seq<ProjectRow>, o: Overview, f: Filter, live: set<int>, ps: seq<ProblemRow>, xs: seq<InspectionRow>)
    requires IsExport(rows, f, live, ps, xs) && IsOverview(o, f, ps, xs)
    requires (forall k :: 0 <= k < |ps| ==> ps[k].project in live) && (forall k :: 0 <= k < |xs| ==> xs[k].project in live)
    ensures SumRows(m, rows) == MeasureOf(m, o)
  {
    ExportConserves(m, rows, f, live, ps, xs);
    if m == ProblemCount {
      LiveProblemWeight(f, live, ps);
    } else {
      LiveInspectionWeight(m, f, live, xs);
    }
  }

  lemma {:induction false} LiveProblemWeight(f: Filter, live: set<int>, ps: seq<ProblemRow>)
    requires forall k :: 0 <= k < |ps| ==> ps[k].project in live
    ensures WeightIn(ProblemWeights(Problems(f, ps)), live) == |Problems(f, ps)|
  {
    if ps == [] {
    } else {
      hide Problems, ProblemWeights, WeightIn;
      var front, p := ps[..|ps| - 1], ps[|ps| - 1];
      assert front + [p] == ps;
      LiveProblemWeight(f, live, front);
      ProblemsSnoc(f, front, p);
      ProblemWeightSnoc(Problems(f, front), p, live);
    }
  }

  lemma {:induction false} LiveInspectionWeight(m: Measure, f: Filter, live: set<int>, xs: seq<InspectionRow>)
    requires m != ProblemCount && forall k :: 0 <= k < |xs| ==> xs[k].project in live
    ensures WeightIn(InspectionWeights(m, Inspections(f, xs)), live) == MeasuredSum(m, Inspections(f, xs))
  {
    if xs == [] {
    } else {
      hide Inspections, InspectionWeights, WeightIn, MeasuredSum, Measured;
      var front, x := xs[..|xs| - 1], xs[|xs| - 1];
      assert front + [x] == xs;
      LiveInspectionWeight(m, f, live, front);
      InspectionsSnoc(f, front, x);
      InspectionWeightSnoc(m, Inspections(f, front), x, live);
    }
  }
}
