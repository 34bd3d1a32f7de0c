/** The removal planner of hostipc_darwin.go: its scans, proved to produce the plan of IpcPlan. */
module IpcPlanner {
  import opened IpcRows
  import opened IpcPlan

  // ---------- ids collected so far ----------

  ghost predicate NoDuplicates(ids: seq<int>) {
    forall i, j :: 0 <= i < j < |ids| ==> ids[i] != ids[j]
  }

  /** The list of ids to remove, beside the set the scans consult. */
  ghost predicate Ledger(ids: seq<int>, selected: set<int>) {
    NoDuplicates(ids) && forall x :: x in ids <==> x in selected
  }

  ghost predicate DistinctIds(rows: seq<SemRow>) {
    forall i, j :: 0 <= i < j < |rows| ==> rows[i].id != rows[j].id
  }

  ghost predicate HasId(rows: seq<SemRow>, x: int) {
    exists i :: 0 <= i < |rows| && rows[i].id == x
  }

  ghost function Rows(rows: seq<SemRow>): set<SemRow> {
    set r | r in rows
  }

  method Take(rows: seq<SemRow>, ids: seq<int>, selected: set<int>) returns (ids': seq<int>, selected': set<int>)
    requires Ledger(ids, selected) && DistinctIds(rows)
    requires forall i :: 0 <= i < |rows| ==> rows[i].id !in selected
    ensures Ledger(ids', selected')
    ensures forall x :: x in selected' <==> x in selected || HasId(rows, x)
  {
    ids', selected' := ids, selected;
    var i := 0;
    while i < |rows|
      invariant 0 <= i <= |rows|
      invariant Ledger(ids', selected')
      invariant forall x :: x in selected' <==> x in selected || exists j :: 0 <= j < i && rows[j].id == x
    {
      assert rows[i].id !in selected';
      ids', selected' := ids' + [rows[i].id], selected' + {rows[i].id};
      i := i + 1;
    }
  }

  function InsertInt(x: int, xs: seq<int>): seq<int> {
    if xs == [] || x <= xs[0] then [x] + xs else [xs[0]] + InsertInt(x, xs[1..])
  }

  function SortInts(xs: seq<int>): seq<int> {
    if xs == [] then [] else InsertInt(xs[0], SortInts(xs[1..]))
  }

  lemma {:induction false} InsertIntSorts(x: int, xs: seq<int>)
    requires Increasing(xs) && x !in xs
    ensures Increasing(InsertInt(x, xs))
    ensures forall y :: y in InsertInt(x, xs) <==> y == x || y in xs
    decreases |xs|
  {
    assert xs != [] ==> xs[0] in xs;
    if xs != [] && x > xs[0] {
      InsertIntSorts(x, xs[1..]);
      var rest := InsertInt(x, xs[1..]);
      forall j | 0 <= j < |rest| ensures xs[0] < rest[j] {
        assert rest[j] in rest;
        if rest[j] != x { assert rest[j] in xs[1..]; }
      }
      assert xs == [xs[0]] + xs[1..];
    }
  }

  lemma {:induction false} SortIntsSorts(xs: seq<int>)
    requires NoDuplicates(xs)
    ensures Increasing(SortInts(xs))
    ensures forall y :: y in SortInts(xs) <==> y in xs
    decreases |xs|
  {
    if xs != [] {
      SortIntsSorts(xs[1..]);
      assert xs == [xs[0]] + xs[1..];
      InsertIntSorts(xs[0], SortInts(xs[1..]));
    }
  }

  // ---------- control segments ----------

  method ScanShared(rows: seq<SharedRow>, user: string, alive: int -> bool)
    returns (active: set<Key>, dead: set<Key>, ids: seq<int>)
    requires forall i, j :: 0 <= i < j < |rows| ==> rows[i].id != rows[j].id
    ensures active == LiveBases(rows, user, alive)
    ensures dead == DeadBases(rows, user, alive)
    ensures NoDuplicates(ids)
    ensures forall x :: x in ids <==> exists r :: r in rows && r.id == x && DeadControl(r, user, alive)
  {
    active, dead, ids := {}, {}, [];
    var i := 0;
    while i < |rows|
      invariant 0 <= i <= |rows|
      invariant active == LiveBases(rows[..i], user, alive)
      invariant dead == DeadBases(rows[..i], user, alive)
      invariant NoDuplicates(ids)
      invariant forall x :: x in ids <==> exists j :: 0 <= j < i && rows[j].id == x && DeadControl(rows[j], user, alive)
    {
      var row := rows[i];
      assert rows[..i + 1] == rows[..i] + [row];
      i := i + 1;
      if row.owner != user || row.size != CONTROL_SEGMENT_BYTES {
        continue;
      }
      if row.creatorPid <= 1 {
        continue;
      }
      if row.attachments > 0 || alive(row.creatorPid) {
        active := active + {row.key};
        continue;
      }
      dead := dead + {row.key};
      assert row.id !in ids;
      ids := ids + [row.id];
    }
    assert rows[..i] == rows;
    forall x ensures x in ids <==> exists r :: r in rows && r.id == x && DeadControl(r, user, alive) {
      if r :| r in rows && r.id == x && DeadControl(r, user, alive) {
        var j :| 0 <= j < |rows| && rows[j] == r;
      }
    }
  }

  /** The loop over the live bases, in whatever order the map yields them. */
  method BelongsToActivePostgres(active: set<Key>, key: Key) returns (yes: bool)
    ensures yes <==> Live(active, key)
  {
    var left := active;
    while left != {}
      invariant left <= active
      invariant forall b :: b in active && b !in left ==> !(b < key <= b + KEY_SPAN)
      decreases |left|
    {
      var base :| base in left;
      assert key > base ==> Minus(key, base) == key - base;
      if key > base && Minus(key, base) <= KEY_SPAN {
        return true;
      }
      left := left - {base};
    }
    yes := false;
  }

  method AnyActive(rows: seq<SemRow>, active: set<Key>) returns (yes: bool)
    ensures yes <==> exists r :: r in rows && Live(active, r.key)
  {
    yes := false;
    var i := 0;
    while i < |rows|
      invariant 0 <= i <= |rows|
      invariant forall j :: 0 <= j < i ==> !Live(active, rows[j].key)
    {
      var here := BelongsToActivePostgres(active, rows[i].key);
      if here {
        return true;
      }
      i := i + 1;
    }
  }

  // ---------- candidates ----------

  method SelectCandidates(rows: seq<SemRow>, user: string) returns (candidates: seq<SemRow>)
    requires KernelDistinct(rows)
    ensures Sorted(candidates) && DistinctIds(candidates)
    ensures Rows(candidates) == Candidates(rows, user)
  {
    candidates := [];
    var i := 0;
    while i < |rows|
      invariant 0 <= i <= |rows|
      invariant Rows(candidates) == Candidates(rows[..i], user)
      invariant DistinctKeys(candidates)
    {
      var row := rows[i];
      OneMoreCandidate(rows, i, user);
      if row.key > 0 && row.owner == user && row.mode == "--ra-------" && row.semaphores == SEMAPHORES_PER_SET {
        forall r | r in candidates ensures r.key != row.key {
          assert r in Rows(candidates);
        }
        assert Rows(candidates + [row]) == Rows(candidates) + {row};
        candidates := candidates + [row];
      }
      i := i + 1;
    }
    assert rows[..i] == rows;
    SortSorts(candidates);
    assert Rows(SortByKey(candidates)) == Rows(candidates);
    candidates := SortByKey(candidates);
    DistinctFromKernel(rows, candidates, user);
  }

  lemma OneMoreCandidate(rows: seq<SemRow>, i: nat, user: string)
    requires i < |rows|
    ensures Candidates(rows[..i + 1], user) == Candidates(rows[..i], user) + (if Eligible(rows[i], user) then {rows[i]} else {})
  {
    assert rows[..i + 1] == rows[..i] + [rows[i]];
  }

  lemma DistinctFromKernel(rows: seq<SemRow>, candidates: seq<SemRow>, user: string)
    requires KernelDistinct(rows) && Sorted(candidates) && Rows(candidates) == Candidates(rows, user)
    ensures DistinctIds(candidates)
  {
    forall i, j | 0 <= i < j < |candidates| ensures candidates[i].id != candidates[j].id {
      assert candidates[i] in Rows(candidates) && candidates[j] in Rows(candidates);
      assert candidates[i] in rows && candidates[j] in rows;
      assert candidates[i] != candidates[j];
    }
  }

  /** Once the first n rows are read, the named ones among them are selected on top of what was. */
  ghost predicate Progress(rows: seq<SemRow>, n: int, before: set<int>, selected: set<int>, named: set<SemRow>)
    requires 0 <= n <= |rows|
  {
    forall x :: x in selected <==> x in before || exists i :: 0 <= i < n && rows[i].id == x && rows[i] in named
  }

  lemma Progresses(rows: seq<SemRow>, start: nat, end: nat, before: set<int>, selected: set<int>, selected': set<int>,
                   named: set<SemRow>, pick: bool)
    requires start < end <= |rows| && Progress(rows, start, before, selected, named)
    requires forall i :: start <= i < end ==> (rows[i] in named <==> pick)
    requires forall x :: x in selected' <==> x in selected || (pick && HasId(rows[start..end], x))
    ensures Progress(rows, end, before, selected', named)
  {
    forall x ensures HasId(rows[start..end], x) <==> exists i :: start <= i < end && rows[i].id == x {
      if i :| start <= i < end && rows[i].id == x {
        assert rows[start..end][i - start].id == x;
      }
    }
  }

  lemma FreshIds(rows: seq<SemRow>, start: nat, end: nat, before: set<int>, selected: set<int>, named: set<SemRow>)
    requires DistinctIds(rows) && start < end <= |rows| && Progress(rows, start, before, selected, named)
    requires forall i :: 0 <= i < |rows| ==> rows[i].id !in before
    ensures DistinctIds(rows[start..end])
    ensures forall i :: 0 <= i < end - start ==> rows[start..end][i].id !in selected
  {
  }

  ghost function FirstNamed(rows: set<SemRow>, active: set<Key>, dead: set<Key>): set<SemRow> {
    set r | r in rows && First(rows, active, dead, r)
  }

  ghost function SecondNamed(rows: set<SemRow>, active: set<Key>): set<SemRow> {
    set r | r in rows && Second(rows, active, r)
  }

  // ---------- first phase ----------

  /** The end of the stretch of consecutive keys that begins at start. */
  method RunEnd(rows: seq<SemRow>, start: nat) returns (end: nat)
    requires Sorted(rows) && start < |rows|
    ensures start < end <= |rows|
    ensures forall i :: start <= i < end ==> rows[i].key == rows[start].key + (i - start)
    ensures end < |rows| ==> rows[end].key > rows[end - 1].key + 1
  {
    end := start + 1;
    while end < |rows| && rows[end].key == Plus(rows[end - 1].key, 1)
      invariant start < end <= |rows|
      invariant forall i :: start <= i < end ==> rows[i].key == rows[start].key + (i - start)
    {
      end := end + 1;
    }
  }

  lemma StretchIsRun(rows: seq<SemRow>, start: nat, end: nat)
    requires Sorted(rows) && start < end <= |rows|
    requires forall i :: start <= i < end ==> rows[i].key == rows[start].key + (i - start)
    requires start > 0 ==> rows[start].key > rows[start - 1].key + 1
    requires end < |rows| ==> rows[end].key > rows[end - 1].key + 1
    ensures IsRun(Rows(rows), rows[start].key, rows[end - 1].key)
    ensures forall r :: r in rows[start..end] <==> r in rows && rows[start].key <= r.key <= rows[end - 1].key
  {
    var lo, hi := rows[start].key, rows[end - 1].key;
    forall k | lo <= k <= hi ensures HasKey(Rows(rows), k) {
      assert rows[start + (k - lo)] in Rows(rows);
    }
    forall i | 0 <= i < |rows| ensures rows[i].key != lo - 1 && rows[i].key != hi + 1 {
      assert i < start - 1 ==> rows[i].key < rows[start - 1].key;
      assert i > end ==> rows[i].key > rows[end].key;
    }
    forall r ensures r in rows[start..end] <==> r in rows && lo <= r.key <= hi {
      if r in rows && lo <= r.key <= hi {
        var i :| 0 <= i < |rows| && rows[i] == r;
        assert rows[start..end][i - start] == r;
      }
    }
  }

  method SameCreation(run: seq<SemRow>) returns (same: bool)
    requires run != []
    ensures same <==> run[0].createdAt != "" && forall r :: r in run ==> r.createdAt == run[0].createdAt
  {
    same := run[0].createdAt != "";
    var i := 1;
    while i < |run|
      invariant 1 <= i <= |run|
      invariant same <==> run[0].createdAt != ""
      invariant forall j :: 0 <= j < i ==> run[j].createdAt == run[0].createdAt
    {
      if run[i].createdAt != run[0].createdAt {
        return false;
      }
      i := i + 1;
    }
  }

  lemma OneCreationOfRun(rows: set<SemRow>, run: seq<SemRow>, lo: int, hi: int)
    requires run != [] && forall r :: r in run <==> r in rows && lo <= r.key <= hi
    ensures OneCreation(rows, lo, hi) <==>
            run[0].createdAt != "" && forall r :: r in run ==> r.createdAt == run[0].createdAt
  {
    var when := run[0].createdAt;
    assert run[0] in run;
    if when != "" && forall r :: r in run ==> r.createdAt == when {
      assert CreatedAt(rows, lo, hi, when);
    }
    if OneCreation(rows, lo, hi) {
      var w :| w != "" && CreatedAt(rows, lo, hi, w);
    }
  }

  /** Whether the run rows[start..end] is removed: exactly when the plan picks it. */
  method JudgeRun(rows: seq<SemRow>, start: nat, end: nat, active: set<Key>, dead: set<Key>) returns (pick: bool)
    requires Sorted(rows) && start < end <= |rows| && rows[start].key > 0
    requires forall i :: start <= i < end ==> rows[i].key == rows[start].key + (i - start)
    requires forall r :: r in rows[start..end] <==> r in rows && rows[start].key <= r.key <= rows[end - 1].key
    ensures pick <==> RunPicked(Rows(rows), active, dead, rows[start].key, rows[end - 1].key)
  {
    var run := rows[start..end];
    var base := Minus(run[0].key, 1);
    var busy := AnyActive(run, active);
    var same := SameCreation(run);
    OneCreationOfRun(Rows(rows), run, rows[start].key, rows[end - 1].key);
    pick := !busy && (base in dead || (|run| >= 2 && same));
  }

  lemma RunJudged(rows: seq<SemRow>, start: nat, end: nat, active: set<Key>, dead: set<Key>, i: nat)
    requires start <= i < end <= |rows| && IsRun(Rows(rows), rows[start].key, rows[end - 1].key)
    requires forall r :: r in rows[start..end] ==> rows[start].key <= r.key <= rows[end - 1].key
    ensures rows[i] in FirstNamed(Rows(rows), active, dead) <==>
            RunPicked(Rows(rows), active, dead, rows[start].key, rows[end - 1].key)
  {
    assert rows[start..end][i - start] == rows[i];
    RunDecides(Rows(rows), active, dead, rows[start].key, rows[end - 1].key, rows[i]);
  }

  method SelectRuns(rows: seq<SemRow>, active: set<Key>, dead: set<Key>) returns (ids: seq<int>, selected: set<int>)
    requires Sorted(rows) && DistinctIds(rows) && forall r :: r in rows ==> r.key > 0
    ensures Ledger(ids, selected)
    ensures Progress(rows, |rows|, {}, selected, FirstNamed(Rows(rows), active, dead))
  {
    ids, selected := [], {};
    ghost var named := FirstNamed(Rows(rows), active, dead);
    var start := 0;
    while start < |rows|
      invariant 0 <= start <= |rows|
      invariant 0 < start < |rows| ==> rows[start].key > rows[start - 1].key + 1
      invariant Ledger(ids, selected)
      invariant Progress(rows, start, {}, selected, named)
    {
      var end := RunEnd(rows, start);
      StretchIsRun(rows, start, end);
      assert rows[start] in rows;
      var pick := JudgeRun(rows, start, end, active, dead);
      forall i | start <= i < end ensures rows[i] in named <==> pick {
        RunJudged(rows, start, end, active, dead, i);
      }
      ghost var before := selected;
      if pick {
        FreshIds(rows, start, end, {}, selected, named);
        ids, selected := Take(rows[start..end], ids, selected);
      }
      Progresses(rows, start, end, {}, before, selected, named, pick);
      start := end;
    }
  }

  // ---------- second phase ----------

  /** The rows the first phase left, by creation time. */
  ghost predicate GroupsDone(groups: map<string, seq<SemRow>>, rows: seq<SemRow>, n: int, selected: set<int>)
    requires 0 <= n <= |rows|
  {
    && (forall when :: when in groups ==> GroupOf(groups[when], rows, n, selected, when))
    && (forall i :: 0 <= i < n && rows[i].id !in selected ==> rows[i].createdAt in groups)
  }

  ghost predicate GroupOf(group: seq<SemRow>, rows: seq<SemRow>, n: int, selected: set<int>, when: string)
    requires 0 <= n <= |rows|
  {
    && DistinctKeys(group)
    && forall r :: r in group <==> r in rows[..n] && r.id !in selected && r.createdAt == when
  }

  method GroupByCreation(rows: seq<SemRow>, selected: set<int>) returns (groups: map<string, seq<SemRow>>)
    requires Sorted(rows)
    ensures GroupsDone(groups, rows, |rows|, selected)
  {
    groups := map[];
    var i := 0;
    while i < |rows|
      invariant 0 <= i <= |rows|
      invariant GroupsDone(groups, rows, i, selected)
    {
      var row := rows[i];
      assert rows[..i + 1] == rows[..i] + [row];
      assert forall r :: r in rows[..i] ==> r.key < row.key;
      if row.id !in selected {
        groups := groups[row.createdAt := (if row.createdAt in groups then groups[row.createdAt] else []) + [row]];
      }
      i := i + 1;
    }
  }

  /** The end of the stretch within the span of the key at start. */
  method ClusterEnd(rows: seq<SemRow>, start: nat) returns (end: nat)
    requires Sorted(rows) && start < |rows|
    ensures start < end <= |rows|
    ensures forall i :: start <= i < end ==> rows[i].key <= rows[start].key + KEY_SPAN
    ensures end < |rows| ==> rows[end].key > rows[start].key + KEY_SPAN
  {
    end := start + 1;
    while end < |rows| && Minus(rows[end].key, rows[start].key) <= KEY_SPAN
      invariant start < end <= |rows|
      invariant forall i :: start <= i < end ==> rows[i].key <= rows[start].key + KEY_SPAN
    {
      end := end + 1;
    }
  }

  lemma NextStart(rows: seq<SemRow>, start: nat, end: nat)
    requires Sorted(rows) && start < end < |rows| && ClusterStart(Rows(rows), rows[start].key)
    requires forall i :: start <= i < end ==> rows[i].key <= rows[start].key + KEY_SPAN
    requires rows[end].key > rows[start].key + KEY_SPAN
    ensures ClusterStart(Rows(rows), rows[end].key)
  {
    var p: nat := rows[start].key;
    assert rows[end] in Rows(rows);
    assert NoKeyBetween(Rows(rows), p + KEY_SPAN, rows[end].key);
  }

  lemma FirstStart(rows: seq<SemRow>)
    requires Sorted(rows) && rows != []
    ensures ClusterStart(Rows(rows), rows[0].key)
  {
    assert rows[0] in Rows(rows);
    assert NoKeyBelow(Rows(rows), rows[0].key);
  }

  lemma ClusterRows(rows: seq<SemRow>, start: nat, end: nat)
    requires Sorted(rows) && start < end <= |rows|
    requires forall i :: start <= i < end ==> rows[i].key <= rows[start].key + KEY_SPAN
    requires end < |rows| ==> rows[end].key > rows[start].key + KEY_SPAN
    ensures forall r :: r in rows[start..end] <==> r in rows && rows[start].key <= r.key <= rows[start].key + KEY_SPAN
  {
    assert forall i :: end < i < |rows| ==> rows[i].key > rows[end].key;
    forall r ensures r in rows[start..end] <==> r in rows && rows[start].key <= r.key <= rows[start].key + KEY_SPAN {
      if r in rows && rows[start].key <= r.key <= rows[start].key + KEY_SPAN {
        var i :| 0 <= i < |rows| && rows[i] == r;
        assert rows[start..end][i - start] == r;
      }
    }
  }

  lemma ClusterJudged(rows: seq<SemRow>, start: nat, end: nat, active: set<Key>, i: nat)
    requires Sorted(rows) && start <= i < end <= |rows| && ClusterStart(Rows(rows), rows[start].key)
    requires forall r :: r in rows[start..end] <==> r in rows && rows[start].key <= r.key <= rows[start].key + KEY_SPAN
    ensures rows[i] in SecondNamed(Rows(rows), active) <==>
            Quiet(Rows(rows), active, rows[start].key, rows[start].key + KEY_SPAN) && end - start >= 2
  {
    var s: nat, r := rows[start].key, rows[i];
    assert rows[start..end][i - start] == r;
    ClusterDecides(Rows(rows), active, s, r);
    if end - start >= 2 {
      var j := if i == start then start + 1 else start;
      assert rows[start..end][j - start] == rows[j];
      assert rows[j] in Rows(rows) && rows[j] != r;
    } else if Accompanied(Rows(rows), s, r) {
      var o :| o in Rows(rows) && o != r && s <= o.key <= s + KEY_SPAN;
      assert o in rows[start..end];
    }
  }

  method SelectClusters(group: seq<SemRow>, active: set<Key>, ids: seq<int>, selected: set<int>)
    returns (ids': seq<int>, selected': set<int>)
    requires DistinctKeys(group) && Ledger(ids, selected)
    requires forall r, q :: r in group && q in group && r != q ==> r.id != q.id
    requires forall r :: r in group ==> r.id !in selected
    ensures Ledger(ids', selected')
    ensures forall x :: x in selected' <==> x in selected || exists r :: r in SecondNamed(Rows(group), active) && r.id == x
  {
    SortSorts(group);
    var rows := SortByKey(group);
    assert Rows(rows) == Rows(group);
    SortedIds(rows, group, selected);
    ghost var named := SecondNamed(Rows(group), active);
    ids', selected' := ids, selected;
    if rows != [] { FirstStart(rows); }
    var start := 0;
    while start < |rows|
      invariant 0 <= start <= |rows|
      invariant start < |rows| ==> ClusterStart(Rows(rows), rows[start].key)
      invariant Ledger(ids', selected')
      invariant Progress(rows, start, selected, selected', named)
    {
      var end := ClusterEnd(rows, start);
      ClusterRows(rows, start, end);
      var cluster := rows[start..end];
      var busy := AnyActive(cluster, active);
      var pick := !busy && |cluster| >= 2;
      forall i | start <= i < end ensures rows[i] in named <==> pick {
        ClusterJudged(rows, start, end, active, i);
      }
      ghost var before := selected';
      if pick {
        FreshIds(rows, start, end, selected, selected', named);
        ids', selected' := Take(cluster, ids', selected');
      }
      Progresses(rows, start, end, selected, before, selected', named, pick);
      if end < |rows| { NextStart(rows, start, end); }
      start := end;
    }
    ProgressAll(rows, selected, selected', named);
  }

  lemma SortedIds(rows: seq<SemRow>, group: seq<SemRow>, selected: set<int>)
    requires Sorted(rows) && forall r :: r in rows <==> r in group
    requires forall r, q :: r in group && q in group && r != q ==> r.id != q.id
    requires forall r :: r in group ==> r.id !in selected
    ensures DistinctIds(rows)
    ensures forall i :: 0 <= i < |rows| ==> rows[i].id !in selected
  {
    forall i | 0 <= i < |rows| ensures rows[i].id !in selected {
      assert rows[i] in rows;
    }
    forall i, j | 0 <= i < j < |rows| ensures rows[i].id != rows[j].id {
      assert rows[i] in rows && rows[j] in rows && rows[i] != rows[j];
    }
  }

  lemma ProgressAll(rows: seq<SemRow>, before: set<int>, selected: set<int>, named: set<SemRow>)
    requires Progress(rows, |rows|, before, selected, named) && forall r :: r in named ==> r in rows
    ensures forall x :: x in selected <==> x in before || exists r :: r in named && r.id == x
  {
    forall x ensures x in selected <==> x in before || exists r :: r in named && r.id == x {
      if r :| r in named && r.id == x {
        var i :| 0 <= i < |rows| && rows[i] == r;
      }
    }
  }

  /** What the second phase has added once the creation times in done are visited. */
  ghost predicate Visited(rows: set<SemRow>, active: set<Key>, dead: set<Key>, done: set<string>,
                          before: set<int>, selected: set<int>) {
    forall x :: x in selected <==> x in before || NamedIn(x, rows, active, dead, done)
  }

  ghost predicate NamedIn(x: int, rows: set<SemRow>, active: set<Key>, dead: set<Key>, done: set<string>) {
    exists r :: r in rows && r.createdAt in done && r.id == x && Second(Left(rows, active, dead, r.createdAt), active, r)
  }

  lemma VisitOne(rows: seq<SemRow>, group: seq<SemRow>, active: set<Key>, dead: set<Key>, first: set<int>,
                 done: set<string>, when: string, selected: set<int>, selected': set<int>)
    requires DistinctIds(rows) && Progress(rows, |rows|, {}, first, FirstNamed(Rows(rows), active, dead))
    requires GroupOf(group, rows, |rows|, first, when) && when !in done
    requires Visited(Rows(rows), active, dead, done, first, selected)
    requires forall x :: x in selected' <==> x in selected || exists r :: r in SecondNamed(Rows(group), active) && r.id == x
    ensures Visited(Rows(rows), active, dead, done + {when}, first, selected')
  {
    LeftIsGroup(rows, group, active, dead, first, when);
    hide First, Second;
    var all := Rows(rows);
    var left := Left(all, active, dead, when);
    forall x ensures x in selected' <==> x in first || NamedIn(x, all, active, dead, done + {when}) {
      if r :| r in all && r.createdAt in done + {when} && r.id == x && Second(Left(all, active, dead, r.createdAt), active, r) {
        if r.createdAt == when { assert r in SecondNamed(Rows(group), active); }
      }
      if r :| r in SecondNamed(Rows(group), active) && r.id == x {
        assert r in left && r in all && r.createdAt == when;
      }
    }
  }

  lemma LeftIsGroup(rows: seq<SemRow>, group: seq<SemRow>, active: set<Key>, dead: set<Key>, first: set<int>, when: string)
    requires DistinctIds(rows) && Progress(rows, |rows|, {}, first, FirstNamed(Rows(rows), active, dead))
    requires GroupOf(group, rows, |rows|, first, when)
    ensures Rows(group) == Left(Rows(rows), active, dead, when)
  {
    assert rows[..|rows|] == rows;
    forall r | r in rows ensures r.id in first <==> First(Rows(rows), active, dead, r) {
      var i :| 0 <= i < |rows| && rows[i] == r;
    }
  }

  lemma GroupIsFresh(rows: seq<SemRow>, group: seq<SemRow>, active: set<Key>, dead: set<Key>, first: set<int>,
                     done: set<string>, when: string, selected: set<int>)
    requires DistinctIds(rows) && GroupOf(group, rows, |rows|, first, when) && when !in done
    requires Visited(Rows(rows), active, dead, done, first, selected)
    ensures forall r, q :: r in group && q in group && r != q ==> r.id != q.id
    ensures forall r :: r in group ==> r.id !in selected
  {
    forall r, q | r in rows && q in rows && r != q ensures r.id != q.id {
      var i :| 0 <= i < |rows| && rows[i] == r;
      var j :| 0 <= j < |rows| && rows[j] == q;
    }
    assert rows[..|rows|] == rows;
  }

  /** The loop over the creation times, in whatever order the map yields them. */
  method SelectGroups(rows: seq<SemRow>, active: set<Key>, dead: set<Key>, ids: seq<int>, first: set<int>)
    returns (ids': seq<int>, selected: set<int>)
    requires Sorted(rows) && DistinctIds(rows) && Ledger(ids, first)
    requires Progress(rows, |rows|, {}, first, FirstNamed(Rows(rows), active, dead))
    ensures Ledger(ids', selected)
    ensures Visited(Rows(rows), active, dead, set r | r in rows :: r.createdAt, first, selected)
  {
    var groups := GroupByCreation(rows, first);
    ids', selected := ids, first;
    var pending := groups.Keys;
    ghost var done: set<string> := {};
    while pending != {}
      invariant done == groups.Keys - pending && pending <= groups.Keys
      invariant Ledger(ids', selected)
      invariant Visited(Rows(rows), active, dead, done, first, selected)
      decreases |pending|
    {
      var when :| when in pending;
      GroupIsFresh(rows, groups[when], active, dead, first, done, when, selected);
      ghost var before := selected;
      ids', selected := SelectClusters(groups[when], active, ids', selected);
      VisitOne(rows, groups[when], active, dead, first, done, when, before, selected);
      pending := pending - {when};
      done := done + {when};
    }
    AllVisited(rows, groups, active, dead, first, selected);
  }

  lemma AllVisited(rows: seq<SemRow>, groups: map<string, seq<SemRow>>, active: set<Key>, dead: set<Key>,
                   first: set<int>, selected: set<int>)
    requires DistinctIds(rows) && GroupsDone(groups, rows, |rows|, first)
    requires Progress(rows, |rows|, {}, first, FirstNamed(Rows(rows), active, dead))
    requires Visited(Rows(rows), active, dead, groups.Keys, first, selected)
    ensures Visited(Rows(rows), active, dead, set r | r in rows :: r.createdAt, first, selected)
  {
    var all := Rows(rows);
    forall r | r in rows && Second(Left(all, active, dead, r.createdAt), active, r) ensures r.createdAt in groups.Keys {
      var i :| 0 <= i < |rows| && rows[i] == r;
      assert r in Left(all, active, dead, r.createdAt);
      assert r.id !in first;
    }
  }

  /** The whole planner: what to remove among shared segments and among semaphore sets. */
  method RemovalPlan(sharedRows: seq<SharedRow>, semRows: seq<SemRow>, user: string, alive: int -> bool)
    returns (sharedIds: seq<int>, semaphoreIds: seq<int>)
    requires forall i, j :: 0 <= i < j < |sharedRows| ==> sharedRows[i].id != sharedRows[j].id
    requires KernelDistinct(semRows)
    ensures IsSharedPlan(sharedIds, sharedRows, user, alive)
    ensures IsPlan(semaphoreIds, semRows, user, LiveBases(sharedRows, user, alive), DeadBases(sharedRows, user, alive))
  {
    var active, dead, shared := ScanShared(sharedRows, user, alive);
    var rows := SelectCandidates(semRows, user);
    assert forall r :: r in rows ==> r in Rows(rows);
    var ids, first := SelectRuns(rows, active, dead);
    var ids', selected := SelectGroups(rows, active, dead, ids, first);
    AllNamed(rows, active, dead, first, selected);
    SortIntsSorts(shared);
    SortIntsSorts(ids');
    sharedIds, semaphoreIds := SortInts(shared), SortInts(ids');
  }

  lemma AllNamed(rows: seq<SemRow>, active: set<Key>, dead: set<Key>, first: set<int>, selected: set<int>)
    requires Progress(rows, |rows|, {}, first, FirstNamed(Rows(rows), active, dead))
    requires Visited(Rows(rows), active, dead, set r | r in rows :: r.createdAt, first, selected)
    ensures forall x :: x in selected <==> IdNamed(x, Rows(rows), active, dead)
  {
    var all := Rows(rows);
    ProgressAll(rows, {}, first, FirstNamed(all, active, dead));
    forall x ensures x in selected <==> IdNamed(x, all, active, dead) {
      if IdNamed(x, all, active, dead) {
        var r :| r in all && r.id == x && Named(all, active, dead, r);
        if First(all, active, dead, r) {
          assert r in FirstNamed(all, active, dead);
        }
      }
      if r :| r in FirstNamed(all, active, dead) && r.id == x {
        assert Named(all, active, dead, r);
      }
    }
  }
}
