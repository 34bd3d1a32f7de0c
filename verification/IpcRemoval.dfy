/** Carrying a removal plan out, and telling what became of it (hostipc_darwin.go). */
module IpcRemoval {

  datatype Resource = Shared(id: int) | Semaphore(id: int)

  /** An argument of the removing command: a flag, or the id it applies to. */
  datatype Argument = Flag(shared: bool) | Id(id: int)

  const BATCH := 256

  function Arguments(plan: seq<Resource>): (a: seq<Argument>)
    ensures |a| == 2 * |plan|
  {
    if plan == [] then [] else [Flag(plan[0].Shared?), Id(plan[0].id)] + Arguments(plan[1..])
  }

  function Joined(batches: seq<seq<Argument>>): seq<Argument> {
    if batches == [] then [] else Joined(batches[..|batches| - 1]) + batches[|batches| - 1]
  }

  /** The arguments of a bounded stretch of the plan: every flag with its id. */
  ghost predicate Whole(batch: seq<Argument>, plan: seq<Resource>) {
    exists i, j :: 0 <= i < j <= |plan| && j - i <= BATCH && batch == Arguments(plan[i..j])
  }

  /** Pair k of the arguments is resource k: the flag for shared segments exactly for one, then its id. */
  lemma {:induction false} ArgumentsAre(plan: seq<Resource>, k: nat)
    requires k < |plan|
    ensures plan[k].Shared? ==> Arguments(plan)[2 * k] == Flag(true)
    ensures plan[k].Semaphore? ==> Arguments(plan)[2 * k] == Flag(false)
    ensures Arguments(plan)[2 * k + 1] == Id(plan[k].id)
    decreases k
  {
    if k > 0 { ArgumentsAre(plan[1..], k - 1); }
  }

  lemma {:induction false} ArgumentsConcat(x: seq<Resource>, y: seq<Resource>)
    ensures Arguments(x + y) == Arguments(x) + Arguments(y)
    decreases |x|
  {
    if x == [] {
      assert x + y == y;
    } else {
      ArgumentsConcat(x[1..], y);
      assert (x + y)[1..] == x[1..] + y;
    }
  }

  lemma Cut(plan: seq<Resource>, n: nat, c: nat)
    requires n + c <= |plan|
    ensures Arguments(plan[n..])[..2 * c] == Arguments(plan[n..n + c])
    ensures Arguments(plan[n..])[2 * c..] == Arguments(plan[n + c..])
    ensures 0 < c <= BATCH ==> Whole(Arguments(plan[n..n + c]), plan)
  {
    ArgumentsConcat(plan[n..n + c], plan[n + c..]);
    assert plan[n..] == plan[n..n + c] + plan[n + c..];
  }

  lemma NothingJoined()
    ensures Joined([]) == []
  {
  }

  lemma Append(batches: seq<seq<Argument>>, b: seq<Argument>, rest: seq<Argument>)
    ensures Joined(batches + [b]) + rest == Joined(batches) + (b + rest)
  {
    assert (batches + [b])[..|batches|] == batches;
  }

  /** Every resource is named to some command exactly once, and no command is cut inside a pair. */
  method RemovalBatches(plan: seq<Resource>) returns (batches: seq<seq<Argument>>)
    ensures Joined(batches) == Arguments(plan)
    ensures forall k :: 0 <= k < |batches| ==> Whole(batches[k], plan)
    ensures forall k :: 0 <= k < |batches| ==> if k < |batches| - 1 then |batches[k]| == 512 else 0 < |batches[k]| <= 512
  {
    hide Joined, Whole, Arguments;
    NothingJoined();
    var operations := Arguments(plan);
    batches := [];
    ghost var n: nat := 0;
    assert plan[0..] == plan && [] + operations == operations;
    while |operations| > 0
      invariant n <= |plan| && operations == Arguments(plan[n..])
      invariant Joined(batches) + operations == Arguments(plan)
      invariant forall k :: 0 <= k < |batches| ==> Whole(batches[k], plan)
      invariant forall k :: 0 <= k < |batches| ==> 0 < |batches[k]| <= 512 && (|batches[k]| < 512 ==> operations == [] && k == |batches| - 1)
      decreases |operations|
    {
      var count := BATCH * 2;
      if count > |operations| {
        count := |operations|;
      }
      Cut(plan, n, count / 2);
      Append(batches, operations[..count], operations[count..]);
      assert operations[..count] + operations[count..] == operations;
      batches := batches + [operations[..count]];
      operations := operations[count..];
      n := n + count / 2;
    }
    assert operations == [] && Joined(batches) + [] == Joined(batches);
  }

  // ---------- the verdict ----------

  function Remaining(planned: seq<int>, present: set<int>): seq<int> {
    if planned == [] then []
    else Remaining(planned[..|planned| - 1], present)
         + (if planned[|planned| - 1] in present then [planned[|planned| - 1]] else [])
  }

  method SurvivingIds(planned: seq<int>, rows: seq<int>) returns (remaining: seq<int>)
    ensures remaining == Remaining(planned, set r | r in rows)
  {
    var present: set<int> := {};
    for i := 0 to |rows|
      invariant present == set r | r in rows[..i]
    {
      assert rows[..i + 1] == rows[..i] + [rows[i]];
      present := present + {rows[i]};
    }
    assert rows[..|rows|] == rows;
    remaining := [];
    for i := 0 to |planned|
      invariant remaining == Remaining(planned[..i], present)
    {
      assert planned[..i + 1][..i] == planned[..i];
      if planned[i] in present {
        remaining := remaining + [planned[i]];
      }
    }
    assert planned[..|planned|] == planned;
  }

  datatype Verdict = Verdict(shared: int, semaphores: int, failed: bool)

  /** Counts what is gone, whoever removed it; fails exactly when something planned is still there. */
  method RecoveryVerdict(shared: seq<int>, semaphores: seq<int>, sharedRows: seq<int>, semaphoreRows: seq<int>)
    returns (v: Verdict)
    requires forall i, j :: 0 <= i < j < |shared| ==> shared[i] != shared[j]
    requires forall i, j :: 0 <= i < j < |semaphores| ==> semaphores[i] != semaphores[j]
    ensures v.shared == |set x | x in shared && x !in sharedRows|
    ensures v.semaphores == |set x | x in semaphores && x !in semaphoreRows|
    ensures v.failed <==> Survives(shared, sharedRows) || Survives(semaphores, semaphoreRows)
  {
    var left := SurvivingIds(shared, sharedRows);
    var right := SurvivingIds(semaphores, semaphoreRows);
    ghost var seen, seen' := set r | r in sharedRows, set r | r in semaphoreRows;
    GoneCounted(shared, seen);
    GoneCounted(semaphores, seen');
    assert (set x | x in shared && x !in sharedRows) == Gone(shared, seen);
    assert (set x | x in semaphores && x !in semaphoreRows) == Gone(semaphores, seen');
    SurvivesWhen(shared, sharedRows);
    SurvivesWhen(semaphores, semaphoreRows);
    v := Verdict(|shared| - |left|, |semaphores| - |right|, |left| > 0 || |right| > 0);
  }

  lemma {:induction false} RemainingAre(planned: seq<int>, present: set<int>)
    ensures forall x :: x in Remaining(planned, present) <==> x in planned && x in present
    decreases |planned|
  {
    if planned != [] {
      var front := planned[..|planned| - 1];
      RemainingAre(front, present);
      assert planned == front + [planned[|planned| - 1]];
    }
  }

  /** Something planned is still listed. */
  ghost predicate Survives(planned: seq<int>, rows: seq<int>) {
    exists i :: 0 <= i < |planned| && planned[i] in rows
  }

  lemma SurvivesWhen(planned: seq<int>, rows: seq<int>)
    ensures |Remaining(planned, set r | r in rows)| > 0 <==> Survives(planned, rows)
  {
    var left := Remaining(planned, set r | r in rows);
    RemainingAre(planned, set r | r in rows);
    if |left| > 0 {
      assert left[0] in left;
      var i :| 0 <= i < |planned| && planned[i] == left[0];
      assert planned[i] in rows;
    }
    if i :| 0 <= i < |planned| && planned[i] in rows {
      var x := planned[i];
      assert x in planned && x in rows;
      assert x in left;
    }
  }

  ghost function Gone(planned: seq<int>, present: set<int>): set<int> {
    set x | x in planned && x !in present
  }

  lemma {:induction false} GoneCounted(planned: seq<int>, present: set<int>)
    requires forall i, j :: 0 <= i < j < |planned| ==> planned[i] != planned[j]
    ensures |planned| - |Remaining(planned, present)| == |Gone(planned, present)|
    decreases |planned|
  {
    if planned == [] {
      assert Gone(planned, present) == {};
    } else {
      var last, front := planned[|planned| - 1], planned[..|planned| - 1];
      GoneCounted(front, present);
      OneMoreGone(front, last, present);
      assert planned == front + [last];
    }
  }

  lemma OneMoreGone(front: seq<int>, last: int, present: set<int>)
    requires last !in front
    ensures |Gone(front + [last], present)| == |Gone(front, present)| + (if last in present then 0 else 1)
  {
    assert Gone(front + [last], present) == Gone(front, present) + (if last in present then {} else {last});
  }
}
