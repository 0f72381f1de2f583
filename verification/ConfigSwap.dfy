/** Versioned writes of one configuration key under READ COMMITTED: a writer retires the active row,
    inserts the next version and commits, while any number of others do the same. */
module ConfigSwap {
  import opened Wrappers
  import opened Ordering

  type Writer = nat
  type Time = int

  datatype ConfigRow = ConfigRow(value: string, active: bool, effectiveTo: Option<Time>)

  /** A writer's transaction. `Waiting` is blocked on the lock of the row with that version; a hit
      of the retire is kept as Some(version), a miss as None. */
  datatype Txn =
    | Begun(value: string, at: Time)
    | Waiting(value: string, at: Time, version: int)
    | Retired(value: string, at: Time, hit: Option<int>)
    | Inserted(value: string, at: Time, hit: Option<int>, version: int)
    | Done(version: int)
    | Conflicted
    | RolledBack

  /** `rows` are the committed rows by version, `lock` the writer holding the active row's lock, and
      `commits` counts the commits. */
  datatype State = State(rows: map<int, ConfigRow>, txns: map<Writer, Txn>, lock: Option<Writer>, commits: nat)

  datatype Step =
    | Begin(w: Writer, value: string, at: Time)
    | Retire(w: Writer)
    | Insert(w: Writer)
    | Commit(w: Writer)
    | Abort(w: Writer)

  predicate InFlight(t: Txn) {
    t.Begun? || t.Waiting? || t.Retired? || t.Inserted?
  }

  // --- Statements -------------------------------------------------------------------------------

  predicate ActiveAt(rows: map<int, ConfigRow>, v: int) {
    v in rows && rows[v].active
  }

  function ActiveVersions(rows: map<int, ConfigRow>): set<int> {
    set v | v in rows && rows[v].active
  }

  /** UPDATE ... WHERE is_active RETURNING version. The statement sees the rows committed when it
      starts; if the active one is locked it waits, and looks at that row again once the lock is
      gone: still active is a hit, retired by then is a miss. */
  function RetireStep(s: State, w: Writer): State
    requires w in s.txns
  {
    match s.txns[w]
    case Begun(value, at) =>
      if ActiveVersions(s.rows) == {} then s.(txns := s.txns[w := Retired(value, at, None)])
      else
        var v := Least(ActiveVersions(s.rows));
        if s.lock.Some? then s.(txns := s.txns[w := Waiting(value, at, v)])
        else s.(txns := s.txns[w := Retired(value, at, Some(v))], lock := Some(w))
    case Waiting(value, at, v) =>
      if !ActiveAt(s.rows, v) then s.(txns := s.txns[w := Retired(value, at, None)])
      else if s.lock.Some? then s
      else s.(txns := s.txns[w := Retired(value, at, Some(v))], lock := Some(w))
    case _ => s
  }

  /** Another transaction has an uncommitted row: the unique index on active rows makes us wait. */
  predicate Blocked(s: State, w: Writer) {
    exists u :: u in s.txns && u != w && s.txns[u].Inserted?
  }

  function Unlocked(s: State, w: Writer): Option<Writer> {
    if s.lock == Some(w) then None else s.lock
  }

  /** Version taken, or another active row that this transaction did not retire. */
  predicate Clashes(rows: map<int, ConfigRow>, version: int, hit: Option<int>) {
    version in rows || exists v :: v in rows && rows[v].active && hit != Some(v)
  }

  function InsertStep(s: State, w: Writer): State
    requires w in s.txns
  {
    match s.txns[w]
    case Retired(value, at, hit) =>
      var version := hit.GetOr(0) + 1;
      if Clashes(s.rows, version, hit) then s.(txns := s.txns[w := Conflicted], lock := Unlocked(s, w))
      else if Blocked(s, w) then s
      else s.(txns := s.txns[w := Inserted(value, at, hit, version)])
    case _ => s
  }

  function Swapped(rows: map<int, ConfigRow>, value: string, at: Time, hit: Option<int>, version: int): map<int, ConfigRow> {
    var retired :=
      if hit.Some? && hit.value in rows then
        rows[hit.value := rows[hit.value].(active := false, effectiveTo := Some(at))]
      else rows;
    retired[version := ConfigRow(value, true, None)]
  }

  function CommitStep(s: State, w: Writer): State
    requires w in s.txns
  {
    match s.txns[w]
    case Inserted(value, at, hit, version) =>
      State(Swapped(s.rows, value, at, hit, version), s.txns[w := Done(version)], Unlocked(s, w), s.commits + 1)
    case _ => s
  }

  function Next(s: State, step: Step): State {
    match step
    case Begin(w, value, at) => if w in s.txns then s else s.(txns := s.txns[w := Begun(value, at)])
    case Retire(w) => if w in s.txns then RetireStep(s, w) else s
    case Insert(w) => if w in s.txns then InsertStep(s, w) else s
    case Commit(w) => if w in s.txns then CommitStep(s, w) else s
    case Abort(w) =>
      if w in s.txns && InFlight(s.txns[w]) then s.(txns := s.txns[w := RolledBack], lock := Unlocked(s, w)) else s
  }

  const EMPTY: State := State(map[], map[], None, 0)

  function Exec(s: State, steps: seq<Step>): State {
    if steps == [] then s else Next(Exec(s, steps[..|steps| - 1]), steps[|steps| - 1])
  }

  // --- The invariant ----------------------------------------------------------------------------

  /** Versions are 1..n without a gap; only n is active; exactly the retired rows have an end. */
  ghost predicate HistoryOk(rows: map<int, ConfigRow>, n: nat) {
    && (forall v :: v in rows <==> 1 <= v <= n)
    && (forall v :: v in rows ==> (rows[v].active <==> v == n))
    && (forall v :: v in rows ==> (rows[v].active <==> rows[v].effectiveTo.None?))
  }

  /** A hit is always on the newest version and holds its lock; an insert follows such a hit, or a
      miss on the empty history. */
  ghost predicate TxnOk(s: State, w: Writer, t: Txn) {
    match t
    case Retired(_, _, hit) => hit.Some? ==> hit.value == s.commits && hit.value > 0 && s.lock == Some(w)
    case Inserted(_, _, hit, version) =>
      && version == s.commits + 1
      && (if hit.Some? then hit.value == s.commits && hit.value > 0 && s.lock == Some(w) else s.commits == 0)
      && forall u :: u in s.txns && u != w ==> !s.txns[u].Inserted?
    case _ => true
  }

  ghost predicate Inv(s: State) {
    && HistoryOk(s.rows, s.commits)
    && (forall w :: w in s.txns ==> TxnOk(s, w, s.txns[w]))
  }

  lemma ActiveIsNewest(rows: map<int, ConfigRow>, n: nat)
    requires HistoryOk(rows, n)
    ensures forall v :: v in ActiveVersions(rows) <==> v == n && n > 0
    ensures ActiveVersions(rows) == if n == 0 then {} else {n}
  {
  }

  lemma RetireKeeps(s: State, w: Writer)
    requires Inv(s) && w in s.txns
    ensures Inv(RetireStep(s, w)) && RetireStep(s, w).rows == s.rows
  {
    ActiveIsNewest(s.rows, s.commits);
    var s' := RetireStep(s, w);
    forall u | u in s'.txns
      ensures TxnOk(s', u, s'.txns[u])
    {
      if u != w {
        assert TxnOk(s, u, s.txns[u]);
      }
    }
  }

  /** A clash is exactly a miss on a history that is not empty. */
  lemma ClashIffMissed(s: State, w: Writer)
    requires Inv(s) && w in s.txns && s.txns[w].Retired?
    ensures var hit := s.txns[w].hit;
            Clashes(s.rows, hit.GetOr(0) + 1, hit) <==> hit.None? && s.commits > 0
  {
    assert TxnOk(s, w, s.txns[w]);
    if s.commits > 0 {
      assert s.commits in s.rows && 1 in s.rows;
    }
  }

  lemma InsertKeeps(s: State, w: Writer)
    requires Inv(s) && w in s.txns
    ensures Inv(InsertStep(s, w)) && InsertStep(s, w).rows == s.rows
  {
    var s' := InsertStep(s, w);
    assert TxnOk(s, w, s.txns[w]);
    if s.txns[w].Retired? {
      ClashIffMissed(s, w);
    }
    forall u | u in s'.txns
      ensures TxnOk(s', u, s'.txns[u])
    {
      if u != w {
        assert TxnOk(s, u, s.txns[u]);
      }
    }
  }

  lemma AbortKeeps(s: State, w: Writer)
    requires Inv(s)
    ensures Inv(Next(s, Abort(w))) && Next(s, Abort(w)).rows == s.rows
  {
    var s' := Next(s, Abort(w));
    forall u | u in s'.txns
      ensures TxnOk(s', u, s'.txns[u])
    {
      if u != w {
        assert TxnOk(s, u, s.txns[u]);
      }
    }
  }

  lemma SwappedOk(rows: map<int, ConfigRow>, n: nat, value: string, at: Time, hit: Option<int>)
    requires HistoryOk(rows, n) && if n > 0 then hit == Some(n) else hit == None
    ensures HistoryOk(Swapped(rows, value, at, hit, n + 1), n + 1)
  {
  }

  lemma CommitKeeps(s: State, w: Writer)
    requires Inv(s) && w in s.txns
    ensures Inv(CommitStep(s, w))
  {
    if s.txns[w].Inserted? {
      var s' := CommitStep(s, w);
      var t := s.txns[w];
      assert TxnOk(s, w, t);
      SwappedOk(s.rows, s.commits, t.value, t.at, t.hit);
      forall u | u in s'.txns
        ensures TxnOk(s', u, s'.txns[u])
      {
        if u != w {
          assert TxnOk(s, u, s.txns[u]);
          OtherHitsNothing(s, w, u);
        }
      }
    }
  }

  /** While one transaction has inserted, no other can still commit on the same history. */
  lemma OtherHitsNothing(s: State, w: Writer, u: Writer)
    requires Inv(s) && w in s.txns && u in s.txns && u != w && s.txns[w].Inserted?
    ensures !s.txns[u].Inserted? && (s.txns[u].Retired? ==> s.txns[u].hit.None?)
  {
    assert TxnOk(s, w, s.txns[w]) && TxnOk(s, u, s.txns[u]);
  }

  lemma NextKeeps(s: State, step: Step)
    requires Inv(s)
    ensures Inv(Next(s, step))
  {
    match step
    case Begin(w, value, at) =>
      if w !in s.txns {
        var s' := Next(s, step);
        forall u | u in s'.txns
          ensures TxnOk(s', u, s'.txns[u])
        {
          if u != w {
            assert TxnOk(s, u, s.txns[u]);
          }
        }
      }
    case Retire(w) => if w in s.txns { RetireKeeps(s, w); }
    case Insert(w) => if w in s.txns { InsertKeeps(s, w); }
    case Commit(w) => if w in s.txns { CommitKeeps(s, w); }
    case Abort(w) => AbortKeeps(s, w);
  }

  /** After any interleaving the committed versions are 1..n with only n active, n being the number
      of commits. */
  lemma {:induction false} VersionsAreContiguous(steps: seq<Step>)
    ensures Inv(Exec(EMPTY, steps))
    ensures var rows, n := Exec(EMPTY, steps).rows, Exec(EMPTY, steps).commits;
            forall v :: (v in rows <==> 1 <= v <= n)
                        && (v in rows ==> (rows[v].active <==> v == n) && (rows[v].effectiveTo.None? <==> v == n))
  {
    if steps == [] {
    } else {
      VersionsAreContiguous(steps[..|steps| - 1]);
      NextKeeps(Exec(EMPTY, steps[..|steps| - 1]), steps[|steps| - 1]);
    }
  }

  /** Only a commit changes the table: it adds version n + 1 with the writer's value and ends version
      n; every older row stays as it is. */
  lemma OnlyCommitsWrite(s: State, step: Step)
    requires Inv(s)
    ensures var s' := Next(s, step);
            if s'.commits == s.commits then s'.rows == s.rows
            else
              && step.Commit? && step.w in s.txns && s.txns[step.w].Inserted? && s'.commits == s.commits + 1
              && s'.rows.Keys == s.rows.Keys + {s.commits + 1}
              && s'.rows[s.commits + 1] == ConfigRow(value := s.txns[step.w].value, active := true, effectiveTo := None)
              && (forall v :: v in s.rows && v < s.commits ==> s'.rows[v] == s.rows[v])
              && (s.commits > 0 ==>
                    s'.rows[s.commits] == ConfigRow(
                      value := s.rows[s.commits].value, active := false, effectiveTo := Some(s.txns[step.w].at)))
  {
    NextKeeps(s, step);
    match step
    case Begin(_, _, _) =>
    case Retire(w) => if w in s.txns { RetireKeeps(s, w); }
    case Insert(w) => if w in s.txns { InsertKeeps(s, w); }
    case Commit(w) =>
      if w in s.txns {
        assert TxnOk(s, w, s.txns[w]);
      }
    case Abort(w) =>
  }

  /** The retire missed on a history that is not empty, or the transaction ended without a commit. */
  predicate Lost(t: Txn) {
    (t.Retired? && t.hit.None?) || t.Conflicted? || t.RolledBack?
  }

  lemma LostStaysLost(s: State, step: Step, w: Writer)
    requires Inv(s) && w in s.txns && Lost(s.txns[w]) && s.commits > 0
    ensures var s' := Next(s, step);
            w in s'.txns && Lost(s'.txns[w]) && s'.commits >= s.commits
  {
    if s.txns[w].Retired? {
      ClashIffMissed(s, w);
    }
  }

  /** A writer that lost the race never commits, whatever happens afterwards. */
  lemma {:induction false} LoserNeverCommits(s: State, steps: seq<Step>, w: Writer)
    requires Inv(s) && w in s.txns && Lost(s.txns[w]) && s.commits > 0
    ensures var s' := Exec(s, steps);
            Inv(s') && w in s'.txns && Lost(s'.txns[w]) && s'.commits >= s.commits
  {
    if steps == [] {
    } else {
      hide Inv, Next;
      var front, step := steps[..|steps| - 1], steps[|steps| - 1];
      LoserNeverCommits(s, front, w);
      NextKeeps(Exec(s, front), step);
      LostStaysLost(Exec(s, front), step, w);
    }
  }

  /** Its insert ends in a conflict and changes nothing. */
  lemma MissedWriterConflicts(s: State, w: Writer)
    requires Inv(s) && w in s.txns && s.txns[w].Retired? && s.txns[w].hit.None? && s.commits > 0
    ensures Next(s, Insert(w)) == s.(txns := s.txns[w := Conflicted], lock := Unlocked(s, w))
  {
    ClashIffMissed(s, w);
  }

  /** A race seen through: two writers wait for the same row, the first commits, the second gets a
      conflict, not a lost update. */
  lemma SecondOfTwoConflicts(s: State, w: Writer, u: Writer, at: Time, a: string, b: string)
    requires Inv(s) && s.commits > 0 && s.lock.None? && w != u && w !in s.txns && u !in s.txns
    requires forall x :: x in s.txns ==> !s.txns[x].Inserted?
    ensures var s1 := Next(Next(s, Begin(w, a, at)), Begin(u, b, at));
            var s2 := Next(Next(s1, Retire(w)), Retire(u));
            var s3 := Next(Next(Next(s2, Insert(w)), Commit(w)), Retire(u));
            var s' := Next(s3, Insert(u));
            && w in s'.txns && s'.txns[w] == Done(s.commits + 1)
            && u in s'.txns && s'.txns[u] == Conflicted
            && s'.commits == s.commits + 1
            && s.commits + 1 in s'.rows && s'.rows[s.commits + 1].value == a
  {
    hide Next, Inv, HistoryOk;
    BothWait(s, w, u, at, a, b);
    var s1 := Next(Next(s, Begin(w, a, at)), Begin(u, b, at));
    FirstCommits(Next(Next(s1, Retire(w)), Retire(u)), w, u);
  }

  /** The first holds the lock, the second waits for the same row. */
  ghost predicate OneWaits(s: State, w: Writer, u: Writer) {
    && Inv(s) && w in s.txns && u in s.txns && w != u && s.commits > 0
    && s.txns[w].Retired? && s.txns[w].hit == Some(s.commits)
    && s.txns[u].Waiting? && s.txns[u].version == s.commits
    && forall x :: x in s.txns ==> !s.txns[x].Inserted?
  }

  lemma BothWait(s: State, w: Writer, u: Writer, at: Time, a: string, b: string)
    requires Inv(s) && s.commits > 0 && s.lock.None? && w != u && w !in s.txns && u !in s.txns
    requires forall x :: x in s.txns ==> !s.txns[x].Inserted?
    ensures var s1 := Next(Next(s, Begin(w, a, at)), Begin(u, b, at));
            var s2 := Next(Next(s1, Retire(w)), Retire(u));
            OneWaits(s2, w, u) && s2.txns[w].value == a && s2.commits == s.commits
  {
    hide Inv, HistoryOk, InsertStep, CommitStep;
    var s0 := Next(s, Begin(w, a, at));
    NextKeeps(s, Begin(w, a, at));
    var s1 := Next(s0, Begin(u, b, at));
    NextKeeps(s0, Begin(u, b, at));
    RetireAlone(s1, w);
    NextKeeps(s1, Retire(w));
    var r1 := Next(s1, Retire(w));
    HistoryIsOk(r1);
    ActiveIsNewest(r1.rows, r1.commits);
    NextKeeps(r1, Retire(u));
  }

  lemma FirstCommits(s: State, w: Writer, u: Writer)
    requires OneWaits(s, w, u)
    ensures var s3 := Next(Next(Next(s, Insert(w)), Commit(w)), Retire(u));
            var s' := Next(s3, Insert(u));
            && w in s'.txns && s'.txns[w] == Done(s.commits + 1)
            && u in s'.txns && s'.txns[u] == Conflicted
            && s'.commits == s.commits + 1
            && s.commits + 1 in s'.rows && s'.rows[s.commits + 1].value == s.txns[w].value
  {
    hide Inv, HistoryOk, InsertStep, RetireStep;
    InsertAlone(s, w);
    NextKeeps(s, Insert(w));
    var i := Next(s, Insert(w));
    NextKeeps(i, Commit(w));
    var c := Next(i, Commit(w));
    RetireAfterCommit(c, u);
    NextKeeps(c, Retire(u));
    MissedWriterConflicts(Next(c, Retire(u)), u);
  }

  /** The row a writer waited for is no longer active: the retire misses. */
  lemma RetireAfterCommit(s: State, u: Writer)
    requires Inv(s) && u in s.txns && s.txns[u].Waiting? && s.txns[u].version < s.commits
    ensures Next(s, Retire(u)) == s.(txns := s.txns[u := Retired(s.txns[u].value, s.txns[u].at, None)])
  {
  }

  // --- The write as it runs ---------------------------------------------------------------------

  /** The unique index rejected the insert, or the request ended while a statement waited. */
  datatype SwapError = ConfigConflict | Cancelled

  ghost predicate OthersOnly(steps: seq<Step>, w: Writer) {
    forall k :: 0 <= k < |steps| ==> steps[k].w != w
  }

  /** The steps of a trace that are not w's. */
  ghost function NotOwn(trace: seq<Step>, w: Writer): seq<Step> {
    if trace == [] then []
    else NotOwn(trace[..|trace| - 1], w) + if trace[|trace| - 1].w == w then [] else [trace[|trace| - 1]]
  }

  /** What others do in the first n gaps between w's statements. */
  ghost function Turns(others: nat -> seq<Step>, n: nat): seq<Step> {
    if n == 0 then [] else Turns(others, n - 1) + others(n - 1)
  }

  lemma {:induction false} ExecConcat(s: State, a: seq<Step>, b: seq<Step>)
    ensures Exec(s, a + b) == Exec(Exec(s, a), b)
  {
    if b == [] {
      assert a + b == a;
    } else {
      assert (a + b)[..|a + b| - 1] == a + b[..|b| - 1];
      ExecConcat(s, a, b[..|b| - 1]);
    }
  }

  lemma {:induction false} NotOwnAll(trace: seq<Step>, steps: seq<Step>, w: Writer)
    requires OthersOnly(steps, w)
    ensures NotOwn(trace + steps, w) == NotOwn(trace, w) + steps
  {
    if steps == [] {
      assert trace + steps == trace;
    } else {
      var front := steps[..|steps| - 1];
      assert (trace + steps)[..|trace + steps| - 1] == trace + front;
      NotOwnAll(trace, front, w);
      assert steps == front + [steps[|steps| - 1]];
    }
  }

  /** What the writer knows of the race: c0 rows were committed when it began, and a retire that
      misses has seen a later commit, or an empty history. */
  ghost predicate Knows(s: State, w: Writer, c0: nat) {
    && Inv(s) && w in s.txns && c0 <= s.commits
    && match s.txns[w]
       case Waiting(_, _, v) => c0 <= v <= s.commits
       case Retired(_, _, hit) => hit.None? ==> c0 < s.commits || c0 == 0
       case _ => true
  }

  lemma OtherStepKnows(s: State, step: Step, w: Writer, c0: nat)
    requires Knows(s, w, c0) && step.w != w
    ensures Knows(Next(s, step), w, c0) && Next(s, step).txns[w] == s.txns[w]
  {
    NextKeeps(s, step);
    assert Next(s, step).commits >= s.commits;
  }

  lemma {:induction false} OthersKnow(s: State, steps: seq<Step>, w: Writer, c0: nat)
    requires Knows(s, w, c0) && OthersOnly(steps, w)
    ensures Knows(Exec(s, steps), w, c0) && Exec(s, steps).txns[w] == s.txns[w]
  {
    if steps == [] {
    } else {
      hide Knows;
      var front := steps[..|steps| - 1];
      OthersKnow(s, front, w, c0);
      KnowsHas(Exec(s, front), w, c0);
      OtherStepKnows(Exec(s, front), steps[|steps| - 1], w, c0);
    }
  }

  lemma KnowsHas(s: State, w: Writer, c0: nat)
    requires Knows(s, w, c0)
    ensures Inv(s) && w in s.txns && c0 <= s.commits
  {
  }

  /** A miss has seen a later commit, or an empty history. */
  lemma RetireKnows(s: State, w: Writer, c0: nat)
    requires Knows(s, w, c0) && (s.txns[w].Begun? || s.txns[w].Waiting?)
    ensures var s', t := Next(s, Retire(w)), s.txns[w];
            && Knows(s', w, c0)
            && (s'.txns[w].Waiting? || s'.txns[w].Retired?)
            && s'.txns[w].value == t.value && s'.txns[w].at == t.at
  {
    ActiveIsNewest(s.rows, s.commits);
    RetireKeeps(s, w);
  }

  /** The insert waits, goes through with the next version, or clashes because of a later commit. */
  lemma InsertKnows(s: State, w: Writer, c0: nat)
    requires Knows(s, w, c0) && s.txns[w].Retired?
    ensures var s', t := Next(s, Insert(w)), s.txns[w];
            && Knows(s', w, c0)
            && (|| s'.txns[w] == t
                || s'.txns[w] == Inserted(t.value, t.at, t.hit, t.hit.GetOr(0) + 1)
                || (s'.txns[w] == Conflicted && c0 < s'.commits))
  {
    InsertKeeps(s, w);
    ClashIffMissed(s, w);
  }

  /** A commit makes the writer's version the newest and only active one. */
  lemma CommitKnows(s: State, w: Writer, c0: nat)
    requires Knows(s, w, c0) && s.txns[w].Inserted?
    ensures var s', t := Next(s, Commit(w)), s.txns[w];
            && Inv(s') && w in s'.txns && s'.txns[w] == Done(t.version)
            && c0 < s'.commits == t.version == s.commits + 1
            && t.version in s'.rows && s'.rows[t.version] == ConfigRow(t.value, true, None)
  {
    CommitKeeps(s, w);
    assert TxnOk(s, w, s.txns[w]);
  }

  /** The trace leads from s0 to s, and besides w's steps it holds what others did in n gaps. */
  ghost predicate Traced(s0: State, s: State, trace: seq<Step>, w: Writer, others: nat -> seq<Step>, n: nat) {
    s == Exec(s0, trace) && NotOwn(trace, w) == Turns(others, n)
  }

  lemma BeginTraced(s0: State, w: Writer, value: string, at: Time, others: nat -> seq<Step>)
    requires Inv(s0) && w !in s0.txns
    ensures var s := Next(s0, Begin(w, value, at));
            && s.txns.Keys == s0.txns.Keys + {w} && s.txns[w] == Begun(value, at)
            && Traced(s0, s, [Begin(w, value, at)], w, others, 0) && Knows(s, w, s0.commits)
  {
    NextKeeps(s0, Begin(w, value, at));
    OneStep(s0, [], Begin(w, value, at));
    assert NotOwn([Begin(w, value, at)], w) == [];
  }

  lemma OneStep(s: State, trace: seq<Step>, step: Step)
    ensures Exec(s, trace + [step]) == Next(Exec(s, trace), step)
    ensures NotOwn(trace + [step], step.w) == NotOwn(trace, step.w)
  {
    assert (trace + [step])[..|trace + [step]| - 1] == trace;
  }

  /** One statement of w, after what others do in the gap before it. */
  lemma StatementTraced(s0: State, s: State, trace: seq<Step>, step: Step, others: nat -> seq<Step>, n: nat, c0: nat)
    requires Traced(s0, s, trace, step.w, others, n) && Knows(s, step.w, c0) && OthersOnly(others(n), step.w)
    ensures var s1 := Exec(s, others(n));
            && Knows(s1, step.w, c0) && s1.txns[step.w] == s.txns[step.w]
            && Traced(s0, Next(s1, step), trace + others(n) + [step], step.w, others, n + 1)
  {
    OthersKnow(s, others(n), step.w, c0);
    ExecConcat(s0, trace, others(n));
    NotOwnAll(trace, others(n), step.w);
    OneStep(s0, trace + others(n), step);
  }

  lemma AbortTraced(s0: State, s: State, trace: seq<Step>, w: Writer, others: nat -> seq<Step>, n: nat)
    requires Traced(s0, s, trace, w, others, n) && Inv(s) && w in s.txns && InFlight(s.txns[w])
    ensures var s' := Next(s, Abort(w));
            && Traced(s0, s', trace + [Abort(w)], w, others, n)
            && Inv(s') && w in s'.txns && s'.txns[w] == RolledBack
  {
    OneStep(s0, trace, Abort(w));
    AbortKeeps(s, w);
  }

  /** Nobody else has an uncommitted row, and the lock is free or w's. */
  ghost predicate Alone(s: State, w: Writer) {
    s.lock in {None, Some(w)} && forall x :: x in s.txns && x != w ==> !s.txns[x].Inserted?
  }

  /** A lone writer on its way: c0 is still the newest version, and it has not missed it. */
  ghost predicate Ready(s: State, w: Writer, c0: nat) {
    && Inv(s) && w in s.txns && Alone(s, w) && s.commits == c0
    && match s.txns[w]
       case Begun(_, _) => s.lock.None?
       case Retired(_, _, hit) => hit.None? ==> c0 == 0
       case Inserted(_, _, _, _) => true
       case _ => false
  }

  lemma LoneBegins(s: State, w: Writer, value: string, at: Time)
    requires Inv(s) && w !in s.txns && s.lock.None? && Alone(s, w)
    ensures Ready(Next(s, Begin(w, value, at)), w, s.commits)
  {
    NextKeeps(s, Begin(w, value, at));
  }

  lemma ReadyRetires(s: State, gap: seq<Step>, w: Writer, c0: nat)
    requires Ready(s, w, c0) && gap == [] && (s.txns[w].Begun? || s.txns[w].Waiting?)
    ensures var s' := Next(Exec(s, gap), Retire(w)); Ready(s', w, c0) && s'.txns[w].Retired?
  {
    RetireAlone(s, w);
    NextKeeps(s, Retire(w));
  }

  lemma ReadyInserts(s: State, gap: seq<Step>, w: Writer, c0: nat)
    requires Ready(s, w, c0) && gap == [] && s.txns[w].Retired?
    ensures var s' := Next(Exec(s, gap), Insert(w)); Ready(s', w, c0) && s'.txns[w].Inserted?
  {
    InsertAlone(s, w);
    NextKeeps(s, Insert(w));
  }

  lemma ReadyHas(s: State, gap: seq<Step>, w: Writer, c0: nat)
    requires Ready(s, w, c0) && gap == []
    ensures Exec(s, gap) == s && s.commits == c0
  {
  }

  class ConfigDb {
    var state: State

    constructor ()
      ensures state == EMPTY && Inv(state)
    {
      state := EMPTY;
    }

    /** The retire of the active row, if any: it waits for the row's lock, and looks again in each gap. */
    method RetireActive(
        w: Writer, others: nat -> seq<Step>, patience: nat,
        ghost s0: State, ghost tr: seq<Step>, ghost c0: nat, ghost lone: bool)
      returns (previous: int, turn: nat, ghost trace: seq<Step>)
      requires Traced(s0, state, tr, w, others, 0) && Knows(state, w, c0) && state.txns[w].Begun?
      requires forall n :: OthersOnly(others(n), w)
      requires lone ==> Ready(state, w, c0) && forall n :: others(n) == []
      modifies this
      ensures Traced(s0, state, trace, w, others, turn) && Knows(state, w, c0)
      ensures (state.txns[w].Waiting? && turn >= patience)
              || (state.txns[w].Retired? && state.txns[w].hit.GetOr(0) == previous)
      ensures state.txns[w].value == old(state.txns[w].value)
      ensures lone ==> Ready(state, w, c0) && state.txns[w].Retired?
    {
      hide Inv, Knows, Next, Exec, Traced, Ready, OthersOnly;
      KnowsHas(state, w, c0);
      ghost var value := state.txns[w].value;
      previous, turn, trace := 0, 0, tr;
      while true
        invariant Traced(s0, state, trace, w, others, turn) && Knows(state, w, c0)
        invariant w in state.txns && (state.txns[w].Begun? || state.txns[w].Waiting?)
        invariant state.txns[w].value == value && (lone ==> Ready(state, w, c0))
        decreases patience - turn
      {
        StatementTraced(s0, state, trace, Retire(w), others, turn, c0);
        RetireKnows(Exec(state, others(turn)), w, c0);
        if lone {
          ReadyRetires(state, others(turn), w, c0);
        }
        state, trace := Next(Exec(state, others(turn)), Retire(w)), trace + others(turn) + [Retire(w)];
        turn := turn + 1;
        KnowsHas(state, w, c0);
        if state.txns[w].Retired? {
          return state.txns[w].hit.GetOr(0), turn, trace;
        }
        if turn >= patience {
          return;
        }
      }
    }

    /** The insert of the next version: it waits while another transaction has an uncommitted row. */
    method InsertVersion(
        w: Writer, version: int, others: nat -> seq<Step>, start: nat, patience: nat,
        ghost s0: State, ghost tr: seq<Step>, ghost c0: nat, ghost lone: bool)
      returns (turn: nat, ghost trace: seq<Step>)
      requires Traced(s0, state, tr, w, others, start) && Knows(state, w, c0)
      requires state.txns[w].Retired? && state.txns[w].hit.GetOr(0) + 1 == version
      requires forall n :: OthersOnly(others(n), w)
      requires lone ==> Ready(state, w, c0) && forall n :: others(n) == []
      modifies this
      ensures Traced(s0, state, trace, w, others, turn) && Knows(state, w, c0)
      ensures || (state.txns[w].Retired? && turn >= patience)
              || (state.txns[w].Conflicted? && c0 < state.commits)
              || (state.txns[w].Inserted? && state.txns[w].version == version && state.txns[w].value == old(state.txns[w].value))
      ensures lone ==> Ready(state, w, c0) && state.txns[w].Inserted?
    {
      hide Inv, Knows, Next, Exec, Traced, Ready, OthersOnly;
      KnowsHas(state, w, c0);
      ghost var t := state.txns[w];
      turn, trace := start, tr;
      while true
        invariant Traced(s0, state, trace, w, others, turn) && Knows(state, w, c0)
        invariant w in state.txns && state.txns[w] == t && (lone ==> Ready(state, w, c0))
        decreases patience - turn
      {
        StatementTraced(s0, state, trace, Insert(w), others, turn, c0);
        InsertKnows(Exec(state, others(turn)), w, c0);
        if lone {
          ReadyInserts(state, others(turn), w, c0);
        }
        state, trace := Next(Exec(state, others(turn)), Insert(w)), trace + others(turn) + [Insert(w)];
        turn := turn + 1;
        KnowsHas(state, w, c0);
        if !state.txns[w].Retired? || turn >= patience {
          return;
        }
      }
    }

    method CommitVersion(
        w: Writer, others: nat -> seq<Step>, turn: nat,
        ghost s0: State, ghost tr: seq<Step>, ghost c0: nat, ghost lone: bool)
      returns (ghost trace: seq<Step>)
      requires Traced(s0, state, tr, w, others, turn) && Knows(state, w, c0)
      requires OthersOnly(others(turn), w) && state.txns[w].Inserted?
      requires lone ==> Ready(state, w, c0) && others(turn) == []
      modifies this
      ensures Inv(state) && Traced(s0, state, trace, w, others, turn + 1) && w in state.txns
      ensures var v := old(state.txns[w].version);
              && state.txns[w] == Done(v) && c0 < v == state.commits && (lone ==> v == c0 + 1)
              && v in state.rows && state.rows[v] == ConfigRow(old(state.txns[w].value), true, None)
    {
      hide Inv, Knows, Next, Exec, Traced, Ready, OthersOnly;
      if lone {
        ReadyHas(state, others(turn), w, c0);
      }
      StatementTraced(s0, state, tr, Commit(w), others, turn, c0);
      CommitKnows(Exec(state, others(turn)), w, c0);
      state, trace := Next(Exec(state, others(turn)), Commit(w)), tr + others(turn) + [Commit(w)];
    }

    /** swapConfigVersion. `others(n)` is what other writers do in the n-th gap between its statements, and
        a statement that waits looks again in each gap until `patience` gaps have gone by and the
        request is cancelled. The trace returned holds exactly w's steps and, of the others, the
        first `gaps` turns. */
    method SwapConfigVersion(w: Writer, value: string, at: Time, others: nat -> seq<Step>, patience: nat)
      returns (r: Result<int, SwapError>, ghost trace: seq<Step>, ghost gaps: nat)
      requires Inv(state) && w !in state.txns
      requires forall n :: OthersOnly(others(n), w)
      modifies this
      ensures Inv(state) && Traced(old(state), state, trace, w, others, gaps) && w in state.txns
      // A success is the newest version, and the only active one.
      ensures r.Success? ==>
                && state.txns[w] == Done(r.value) && old(state.commits) < r.value == state.commits
                && r.value in state.rows && state.rows[r.value] == ConfigRow(value, true, None)
      // A conflict is reported only if another writer committed meanwhile, and never to a lone writer.
      ensures r == Failure(ConfigConflict) ==> state.txns[w] == Conflicted && old(state.commits) < state.commits
      ensures r == Failure(Cancelled) ==> state.txns[w] == RolledBack && gaps >= patience
      ensures old(state.lock.None? && Alone(state, w)) && (forall n :: others(n) == []) ==>
                r == Success(old(state.commits) + 1)
    {
      hide Inv, Knows, Next, Exec, Traced, Alone, Ready, OthersOnly;
      ghost var s0, c0 := state, state.commits;
      ghost var lone := state.lock.None? && Alone(state, w) && forall n :: others(n) == [];
      BeginTraced(s0, w, value, at, others);
      if lone {
        LoneBegins(s0, w, value, at);
      }
      state := Next(state, Begin(w, value, at));
      var previous, turn;
      previous, turn, trace := RetireActive(w, others, patience, s0, [Begin(w, value, at)], c0, lone);
      gaps := turn;
      KnowsHas(state, w, c0);
      if state.txns[w].Retired? {
        var version := previous + 1;
        turn, trace := InsertVersion(w, version, others, turn, patience, s0, trace, c0, lone);
        gaps := turn;
        KnowsHas(state, w, c0);
        if state.txns[w].Conflicted? {
          return Failure(ConfigConflict), trace, gaps;
        }
        if state.txns[w].Inserted? {
          trace := CommitVersion(w, others, turn, s0, trace, c0, lone);
          return Success(version), trace, turn + 1;
        }
      }
      // a statement still waits
      AbortTraced(s0, state, trace, w, others, turn);
      state, trace := Next(state, Abort(w)), trace + [Abort(w)];
      r := Failure(Cancelled);
    }
  }

  lemma HistoryIsOk(s: State)
    requires Inv(s)
    ensures HistoryOk(s.rows, s.commits)
  {
  }

  /** With the lock free, a retire hits the newest version, if there is one. */
  lemma RetireAlone(s: State, w: Writer)
    requires Inv(s) && w in s.txns && s.txns[w].Begun? && s.lock.None?
    ensures var t, hit := s.txns[w], if s.commits == 0 then None else Some(s.commits);
            Next(s, Retire(w)) == s.(txns := s.txns[w := Retired(t.value, t.at, hit)],
                                     lock := if hit.Some? then Some(w) else None)
  {
    ActiveIsNewest(s.rows, s.commits);
  }

  /** With no other uncommitted row, the insert after a hit goes through. */
  lemma InsertAlone(s: State, w: Writer)
    requires Inv(s) && w in s.txns && s.txns[w].Retired? && (s.txns[w].hit.None? ==> s.commits == 0)
    requires forall x :: x in s.txns ==> !s.txns[x].Inserted?
    ensures var t := s.txns[w];
            Next(s, Insert(w)) == s.(txns := s.txns[w := Inserted(t.value, t.at, t.hit, s.commits + 1)])
  {
    assert TxnOk(s, w, s.txns[w]);
    ClashIffMissed(s, w);
  }
}
