/** Two ways to write one filter in SQL: the exports number a placeholder for each filter present,
    the lists bind all of them and let NULL pass. */
module ExportFilter {
  import opened Wrappers

  datatype Column = Project | Inspector | Inspection | TypeItem | StatusItem | Category | At

  datatype Comparison = Equal | AtLeast | Before

  /** A column value or an argument; None is NULL. */
  type Value = Option<int>

  /** The columns of a problem or an inspection row that filters look at. `status` is the status
      item of a problem, or the status literal of an inspection. */
  datatype Row = Row(
    deleted: bool, project: int, inspector: int, inspection: Value, typeItem: Value, status: Value, category: Value, at: int)

  datatype Filter = Filter(
    project: Value, inspector: Value, inspection: Value, typeItem: Value, status: Value, category: Value,
    from: Value, to: Value)

  /** `column op $n`, or `($n IS NULL OR column op $n)` when tolerant. */
  datatype Condition = Condition(column: Column, op: Comparison, placeholder: nat, tolerant: bool)

  function ValueOf(row: Row, c: Column): Value {
    match c
    case Project => Some(row.project)
    case Inspector => Some(row.inspector)
    case Inspection => row.inspection
    case TypeItem => row.typeItem
    case StatusItem => row.status
    case Category => row.category
    case At => Some(row.at)
  }

  /** Comparing with NULL is never true. */
  predicate Compares(a: Value, op: Comparison, b: Value) {
    && a.Some? && b.Some?
    && match op
       case Equal => a.value == b.value
       case AtLeast => a.value >= b.value
       case Before => a.value < b.value
  }

  predicate Holds(row: Row, args: seq<Value>, c: Condition) {
    && 1 <= c.placeholder <= |args|
    && var arg := args[c.placeholder - 1];
    (c.tolerant && arg.None?) || Compares(ValueOf(row, c.column), c.op, arg)
  }

  /** WHERE deleted_at IS NULL AND ... */
  predicate Selects(row: Row, clause: seq<Condition>, args: seq<Value>) {
    !row.deleted && forall k :: 0 <= k < |clause| ==> Holds(row, args, clause[k])
  }

  /** What a filter means, said without placeholders. */
  predicate Admits(f: Filter, row: Row) {
    && !row.deleted
    && (f.project.Some? ==> row.project == f.project.value)
    && (f.inspector.Some? ==> row.inspector == f.inspector.value)
    && (f.inspection.Some? ==> row.inspection == f.inspection)
    && (f.typeItem.Some? ==> row.typeItem == f.typeItem)
    && (f.status.Some? ==> row.status == f.status)
    && (f.category.Some? ==> row.category == f.category)
    && (f.from.Some? ==> row.at >= f.from.value)
    && (f.to.Some? ==> row.at < f.to.value)
  }

  /** Each condition has the placeholder of its own argument, which is not NULL. */
  ghost predicate OwnPlaceholders(clause: seq<Condition>, args: seq<Value>) {
    && |clause| == |args|
    && forall k :: 0 <= k < |clause| ==> clause[k].placeholder == k + 1 && !clause[k].tolerant && args[k].Some?
  }

  /** The clause so far selects exactly the rows of `upTo`, a part of the filter. */
  ghost predicate Means(clause: seq<Condition>, args: seq<Value>, upTo: Filter) {
    OwnPlaceholders(clause, args) && forall row :: Selects(row, clause, args) <==> Admits(upTo, row)
  }

  /** The filter with one more of its parts set. */
  function With(f: Filter, column: Column, op: Comparison, value: Value): Filter {
    match column
    case Project => f.(project := value)
    case Inspector => f.(inspector := value)
    case Inspection => f.(inspection := value)
    case TypeItem => f.(typeItem := value)
    case StatusItem => f.(status := value)
    case Category => f.(category := value)
    case At => if op == AtLeast then f.(from := value) else f.(to := value)
  }

  predicate Unset(f: Filter, column: Column, op: Comparison) {
    With(f, column, op, None) == f && (column == At <==> op != Equal)
  }

  lemma WithMeans(f: Filter, column: Column, op: Comparison, value: Value)
    requires Unset(f, column, op)
    ensures forall row :: Admits(With(f, column, op, value), row) <==>
              Admits(f, row) && (value.Some? ==> Compares(ValueOf(row, column), op, value))
  {
  }

  /** Adds a condition when the filter is present: its number is the count of arguments so far.
      `part` is what the clause stands for before. */
  method AddIfPresent(
      clause: seq<Condition>, args: seq<Value>, column: Column, op: Comparison, value: Value, ghost part: Filter)
    returns (clause': seq<Condition>, args': seq<Value>)
    requires Means(clause, args, part) && Unset(part, column, op)
    ensures Means(clause', args', With(part, column, op, value))
    ensures value.None? ==> clause' == clause && args' == args
    ensures value.Some? ==> clause' == clause + [Condition(column, op, |args| + 1, false)] && args' == args + [value]
  {
    hide Selects, Admits, With;
    WithMeans(part, column, op, value);
    clause', args' := clause, args;
    if value.Some? {
      args' := args' + [value];
      clause' := clause' + [Condition(column, op, |args'|, false)];
      forall row
        ensures Selects(row, clause', args') <==> Admits(With(part, column, op, value), row)
      {
        OneMoreCondition(row, clause, args, column, op, value);
      }
    }
  }

  lemma OneMoreCondition(row: Row, clause: seq<Condition>, args: seq<Value>, column: Column, op: Comparison, value: Value)
    requires OwnPlaceholders(clause, args) && value.Some?
    ensures Selects(row, clause + [Condition(column, op, |args| + 1, false)], args + [value]) <==>
              Selects(row, clause, args) && Compares(ValueOf(row, column), op, value)
  {
    var clause', args' := clause + [Condition(column, op, |args| + 1, false)], args + [value];
    forall k | 0 <= k < |clause|
      ensures Holds(row, args', clause'[k]) <==> Holds(row, args, clause[k])
    {
    }
    assert Holds(row, args', clause'[|clause|]) <==> Compares(ValueOf(row, column), op, value);
  }

  /** The two time bounds, the second one exclusive. */
  method AddWindow(clause: seq<Condition>, args: seq<Value>, f: Filter, ghost part: Filter)
    returns (clause': seq<Condition>, args': seq<Value>)
    requires Means(clause, args, part) && part.from.None? && part.to.None?
    ensures Means(clause', args', part.(from := f.from, to := f.to))
  {
    hide Means;
    clause', args' := AddIfPresent(clause, args, At, AtLeast, f.from, part);
    clause', args' := AddIfPresent(clause', args', At, Before, f.to, part.(from := f.from));
  }

  const NO_FILTER: Filter := Filter(None, None, None, None, None, None, None, None)

  /** The WHERE clause of the problem export, with LIMIT and OFFSET bound after its arguments. */
  method ProblemExportWhere(f: Filter, limit: int, offset: int)
    returns (clause: seq<Condition>, args: seq<Value>, limitAt: nat, offsetAt: nat, bound: seq<Value>)
    ensures Means(clause, args, f)
    ensures bound == args + [Some(limit), Some(offset)]
    ensures 1 <= limitAt <= |bound| && bound[limitAt - 1] == Some(limit)
    ensures 1 <= offsetAt <= |bound| && bound[offsetAt - 1] == Some(offset)
    ensures forall row :: Selects(row, clause, bound) <==> Admits(f, row)
    ensures forall row :: Selects(row, clause, bound) <==>
              && !row.deleted
              && (f.project.None? || f.project == Some(row.project)) && (f.inspector.None? || f.inspector == Some(row.inspector))
              && (f.inspection.None? || f.inspection == row.inspection) && (f.typeItem.None? || f.typeItem == row.typeItem)
              && (f.status.None? || f.status == row.status) && (f.category.None? || f.category == row.category)
              && (f.from.None? || f.from.value <= row.at) && (f.to.None? || row.at < f.to.value)
  {
    hide Means, Selects, Admits;
    AdmitsMeans(f);
    clause, args := [], [];
    NoConditions();
    ghost var p := NO_FILTER;
    clause, args := AddIfPresent(clause, args, Project, Equal, f.project, p);
    p := p.(project := f.project);
    clause, args := AddIfPresent(clause, args, Inspector, Equal, f.inspector, p);
    p := p.(inspector := f.inspector);
    clause, args := AddIfPresent(clause, args, Inspection, Equal, f.inspection, p);
    p := p.(inspection := f.inspection);
    clause, args := AddIfPresent(clause, args, TypeItem, Equal, f.typeItem, p);
    p := p.(typeItem := f.typeItem);
    clause, args := AddIfPresent(clause, args, StatusItem, Equal, f.status, p);
    p := p.(status := f.status);
    clause, args := AddIfPresent(clause, args, Category, Equal, f.category, p);
    p := p.(category := f.category);
    clause, args := AddWindow(clause, args, f, p);
    p := p.(from := f.from, to := f.to);
    limitAt, offsetAt := |args| + 1, |args| + 2;
    bound := args + [Some(limit), Some(offset)];
    MeansWithMore(clause, args, bound, f);
  }

  /** The inspection export knows five of the filters, and adds the status last. */
  method InspectionExportWhere(f: Filter, limit: int, offset: int)
    returns (clause: seq<Condition>, args: seq<Value>, limitAt: nat, offsetAt: nat, bound: seq<Value>)
    ensures Means(clause, args, OfInspections(f))
    ensures bound == args + [Some(limit), Some(offset)]
    ensures 1 <= limitAt <= |bound| && bound[limitAt - 1] == Some(limit)
    ensures 1 <= offsetAt <= |bound| && bound[offsetAt - 1] == Some(offset)
    ensures forall row :: Selects(row, clause, bound) <==> Admits(OfInspections(f), row)
    ensures forall row :: Selects(row, clause, bound) <==>
              && !row.deleted
              && (f.project.None? || f.project == Some(row.project)) && (f.inspector.None? || f.inspector == Some(row.inspector))
              && (f.status.None? || f.status == row.status)
              && (f.from.None? || f.from.value <= row.at) && (f.to.None? || row.at < f.to.value)
  {
    hide Means;
    clause, args := [], [];
    NoConditions();
    ghost var p := NO_FILTER;
    clause, args := AddIfPresent(clause, args, Project, Equal, f.project, p);
    p := p.(project := f.project);
    clause, args := AddIfPresent(clause, args, Inspector, Equal, f.inspector, p);
    p := p.(inspector := f.inspector);
    clause, args := AddWindow(clause, args, f, p);
    p := p.(from := f.from, to := f.to);
    clause, args := AddIfPresent(clause, args, StatusItem, Equal, f.status, p);
    p := p.(status := f.status);
    limitAt, offsetAt := |args| + 1, |args| + 2;
    bound := args + [Some(limit), Some(offset)];
    MeansWithMore(clause, args, bound, OfInspections(f));
  }

  lemma AdmitsMeans(f: Filter)
    ensures forall row :: Admits(f, row) <==>
              && !row.deleted
              && (f.project.None? || f.project == Some(row.project)) && (f.inspector.None? || f.inspector == Some(row.inspector))
              && (f.inspection.None? || f.inspection == row.inspection) && (f.typeItem.None? || f.typeItem == row.typeItem)
              && (f.status.None? || f.status == row.status) && (f.category.None? || f.category == row.category)
              && (f.from.None? || f.from.value <= row.at) && (f.to.None? || row.at < f.to.value)
  {
  }

  function OfInspections(f: Filter): Filter {
    f.(inspection := None, typeItem := None, category := None)
  }

  lemma NoConditions()
    ensures Means([], [], NO_FILTER)
  {
  }

  lemma MeansWithMore(clause: seq<Condition>, args: seq<Value>, more: seq<Value>, f: Filter)
    requires Means(clause, args, f) && args <= more
    ensures forall row :: Selects(row, clause, more) <==> Admits(f, row)
  {
    hide Selects, Admits;
    MoreArguments(clause, args, more);
  }

  lemma MoreArguments(clause: seq<Condition>, args: seq<Value>, more: seq<Value>)
    requires OwnPlaceholders(clause, args) && args <= more
    ensures forall row :: Selects(row, clause, more) <==> Selects(row, clause, args)
  {
  }

  // --- The lists --------------------------------------------------------------------------------

  /** The fixed clause of the problem list: eight placeholders, every one bound. */
  function ProblemListWhere(): seq<Condition> {
    [Condition(Project, Equal, 1, true), Condition(TypeItem, Equal, 2, true), Condition(StatusItem, Equal, 3, true),
     Condition(Category, Equal, 4, true), Condition(Inspector, Equal, 5, true), Condition(Inspection, Equal, 6, true),
     Condition(At, AtLeast, 7, true), Condition(At, Before, 8, true)]
  }

  function ProblemListArgs(f: Filter): seq<Value> {
    [f.project, f.typeItem, f.status, f.category, f.inspector, f.inspection, f.from, f.to]
  }

  function InspectionListWhere(): seq<Condition> {
    [Condition(Project, Equal, 1, true), Condition(Inspector, Equal, 2, true), Condition(StatusItem, Equal, 3, true),
     Condition(At, AtLeast, 4, true), Condition(At, Before, 5, true)]
  }

  function InspectionListArgs(f: Filter): seq<Value> {
    [f.project, f.inspector, f.status, f.from, f.to]
  }

  /** The list and the export of problems show the same rows under the same filter, and so do those
      of inspections. */
  lemma ListsAgreeWithExports(f: Filter, row: Row)
    ensures Selects(row, ProblemListWhere(), ProblemListArgs(f)) <==> Admits(f, row)
    ensures Selects(row, InspectionListWhere(), InspectionListArgs(f)) <==> Admits(OfInspections(f), row)
  {
    var c, a := ProblemListWhere(), ProblemListArgs(f);
    if Selects(row, c, a) {
      assert Holds(row, a, c[0]) && Holds(row, a, c[1]) && Holds(row, a, c[2]) && Holds(row, a, c[3]);
      assert Holds(row, a, c[4]) && Holds(row, a, c[5]) && Holds(row, a, c[6]) && Holds(row, a, c[7]);
    }
    var d, b := InspectionListWhere(), InspectionListArgs(f);
    if Selects(row, d, b) {
      assert Holds(row, b, d[0]) && Holds(row, b, d[1]) && Holds(row, b, d[2]) && Holds(row, b, d[3]) && Holds(row, b, d[4]);
    }
  }
}
