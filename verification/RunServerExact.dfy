/**
 The hypotheses of the run server's theorems are exact. From any sound state a step that
 breaks one of them can be continued to the harm the theorem excludes, and in that
 continuation nothing else goes wrong: no hypothesis of any theorem is broken again.
 */
module RunServerExact {
  import opened Options
  import opened RunServer
  import opened RunServerSafety
  import opened RunServerSignals

  // ---------- runs in which nothing goes wrong ----------

  ghost predicate Faultless(s: State, l: Label)
    requires Enabled(s, l)
  {
    Careful(s, l) && RecordedInTime(s, l) && ReadsHolders(s, l) && OnePerService(s, l)
  }

  ghost predicate FaultlessRun(s: State, ls: seq<Label>)
    requires IsRun(s, ls)
    decreases |ls|
  {
    ls == [] || (Faultless(s, ls[0]) && FaultlessRun(Apply(s, ls[0]), ls[1..]))
  }

  lemma Prepend(s: State, l: Label, ls: seq<Label>)
    requires Enabled(s, l) && Faultless(s, l) && IsRun(Apply(s, l), ls) && FaultlessRun(Apply(s, l), ls)
    ensures IsRun(s, [l] + ls) && FaultlessRun(s, [l] + ls)
    ensures After(s, [l] + ls) == After(Apply(s, l), ls)
  {
    assert ([l] + ls)[1..] == ls;
  }

  /** The true answer to an inspection. */
  function Truth(s: State, pid: int): (seen: Inspection)
    ensures Honest(s, pid, seen) && !seen.Failed?
  {
    if pid in s.procs
    then Identity(s.procs[pid].start, s.procs[pid].boot, ExecutableOf(s.procs[pid].program))
    else NotFound
  }

  /** What the process named by the lock file truly is. */
  function OwnerSeen(s: State, r: Root): Inspection
    requires r in s.roots
  {
    var owner := PidFileOwner(s, r);
    if owner.Some? then Truth(s, owner.value) else NotFound
  }

  lemma Above(xs: set<int>) returns (n: int)
    ensures n > 0 && forall x :: x in xs ==> x < n
  {
    n := 1;
    if x :| x in xs {
      var below := Above(xs - {x});
      n := if below > x then below else x + 1;
      assert forall y :: y in xs ==> y == x || y in xs - {x};
    }
  }

  /** The kernel can always hand out a birth never seen before. */
  lemma FreshMark(s: State) returns (m: Mark)
    ensures m.pid > 0 && m.pid !in s.procs && m !in s.used
  {
    var pids := set m | m in s.used :: m.pid;
    var n := Above(s.procs.Keys + pids);
    m := Mark(n, 0, "");
    assert m in s.used ==> m.pid in pids;
  }

  // ---------- two postmasters ----------

  ghost predicate Doubles(s: State, ls: seq<Label>) {
    IsRun(s, ls) && FaultlessRun(s, ls) && !AtMostOnePostmaster(After(s, ls))
  }

  /** From here a run without any further fault puts a second postmaster on some cluster. */
  ghost predicate Doomed(s: State) {
    exists ls :: Doubles(s, ls)
  }

  /** A live postmaster that agent a, in phase p on root r, does not know of. */
  ghost predicate Unseen(s: State, a: Mark, p: Phase, r: Root, pid: int) {
    a in s.agents && s.agents[a] == p && r in s.roots && LivePostmaster(s, r, pid)
  }

  lemma DoubleFromLaunching(s: State, a: Mark, r: Root, sv: Service, live: nat, pid: int) returns (ls: seq<Label>)
    requires Unseen(s, a, Launching(r, sv, live), r, pid) && s.roots[r].pidFile == Absent
    ensures Doubles(s, ls)
  {
    var m := FreshMark(s);
    var l := By(a, Launch(m));
    var t := Apply(s, l);
    assert LivePostmaster(t, r, pid) && LivePostmaster(t, r, m.pid);
    Prepend(s, l, []);
    ls := [l] + [];
  }

  lemma DoubleFromClearing(s: State, a: Mark, r: Root, sv: Service, live: nat, pid: int) returns (ls: seq<Label>)
    requires Unseen(s, a, Clearing(r, sv, live), r, pid)
    ensures Doubles(s, ls)
  {
    var l := By(a, RemoveStale);
    ls := DoubleFromLaunching(Apply(s, l), a, r, sv, live, pid);
    Prepend(s, l, ls);
    ls := [l] + ls;
  }

  lemma DoubleFromExamining(s: State, a: Mark, r: Root, sv: Service, live: nat, pid: int) returns (ls: seq<Label>)
    requires Unseen(s, a, Examining(r, sv, live), r, pid)
    requires s.roots[r].pidFile == Absent && s.roots[r].record == None
    ensures Doubles(s, ls)
  {
    var l := By(a, Disown(NotFound, NotFound));
    ls := DoubleFromClearing(Apply(s, l), a, r, sv, live, pid);
    Prepend(s, l, ls);
    ls := [l] + ls;
  }

  lemma {:induction false} DoubleFromPruning(s: State, a: Mark, p: Phase, pid: int) returns (ls: seq<Label>)
    requires p.Pruning? && p.purpose.ForAcquire? && Unseen(s, a, p, p.root, pid)
    requires s.roots[p.root].pidFile == Absent && s.roots[p.root].record == None
    requires p.pending <= s.roots[p.root].holders.Keys
    ensures Doubles(s, ls)
    decreases |p.pending|
  {
    hide IsRun, After, FaultlessRun;
    var l := By(a, PruneDone);
    if p.pending == {} {
      ls := DoubleFromExamining(Apply(s, l), a, p.root, p.purpose.service, p.live, pid);
    } else {
      var sv :| sv in p.pending;
      var h := s.roots[p.root].holders[sv];
      l := By(a, PruneOne(sv, true, Truth(s, h.agent.pid), if h.run.Some? then Truth(s, h.run.value.pid) else NotFound));
      var t := Apply(s, l);
      ls := DoubleFromPruning(t, a, t.agents[a], pid);
    }
    Prepend(s, l, ls);
    ls := [l] + ls;
  }

  lemma DoubleFromIdle(s: State, a: Mark, r: Root, pid: int) returns (ls: seq<Label>)
    requires Unseen(s, a, Idle, r, pid)
    requires s.roots[r].lock == None && s.roots[r].pidFile == Absent && s.roots[r].record == None
    ensures Doubles(s, ls)
  {
    var l := By(a, BeginAcquire(r, ""));
    var t := Apply(s, l);
    ls := DoubleFromPruning(t, a, t.agents[a], pid);
    Prepend(s, l, ls);
    ls := [l] + ls;
  }

  lemma DoubleFromSweeping(s: State, a: Mark, r: Root, pid: int) returns (ls: seq<Label>)
    requires Unseen(s, a, Sweeping(r), r, pid) && s.roots[r].record == None
    ensures Doubles(s, ls)
  {
    var l := By(a, Sweep);
    ls := DoubleFromIdle(Apply(s, l), a, r, pid);
    Prepend(s, l, ls);
    ls := [l] + ls;
  }

  lemma DoubleFromForgetting(s: State, a: Mark, r: Root, pid: int) returns (ls: seq<Label>)
    requires Unseen(s, a, Forgetting(r), r, pid)
    ensures Doubles(s, ls)
  {
    var l := By(a, Forget);
    ls := DoubleFromSweeping(Apply(s, l), a, r, pid);
    Prepend(s, l, ls);
    ls := [l] + ls;
  }

  lemma DoubleFromWaiting(s: State, a: Mark, r: Root, record: Record, pid: int) returns (ls: seq<Label>)
    requires Unseen(s, a, Waiting(r, record), r, pid) && !Lives(s, record.postmaster)
    ensures Doubles(s, ls)
  {
    var l := By(a, WaitOver(Truth(s, record.postmaster.pid)));
    ls := DoubleFromForgetting(Apply(s, l), a, r, pid);
    Prepend(s, l, ls);
    ls := [l] + ls;
  }

  /** An agent about to remove the lock file of a postmaster it does not wait for brings up a second one. */
  lemma DoubleFromRemoving(s: State, a: Mark, pid: int) returns (ls: seq<Label>)
    requires a in s.agents && Removing(s.agents[a]) && s.agents[a].root in s.roots && LivePostmaster(s, s.agents[a].root, pid)
    requires s.agents[a].Waiting? ==> !Lives(s, s.agents[a].record.postmaster)
    requires s.agents[a].Sweeping? ==> s.roots[s.agents[a].root].record.None?
    ensures Doubles(s, ls)
  {
    match s.agents[a]
    case Clearing(r, sv, live) => ls := DoubleFromClearing(s, a, r, sv, live, pid);
    case Waiting(r, record) => ls := DoubleFromWaiting(s, a, r, record, pid);
    case Forgetting(r) => ls := DoubleFromForgetting(s, a, r, pid);
    case Sweeping(r) => ls := DoubleFromSweeping(s, a, r, pid);
  }

  lemma CarelessDooms(s: State, l: Label)
    requires Sound(s) && Enabled(s, l) && !Careful(s, l)
    ensures Doomed(Apply(s, l))
  {
    var t := Apply(s, l);
    if l.By? {
      assert PhaseLocks(s, l.agent);
      var ls := DoubleFromForgetting(t, l.agent, s.agents[l.agent].root, s.agents[l.agent].record.postmaster.pid);
    } else {
      var a :| a in s.agents && Holding(s.agents[a]) == Some(l.world.on) && Removing(s.agents[a]);
      assert AgentFits(s, a) && SignalKnown(s, a);
      if s.agents[a].Waiting? && Lives(t, s.agents[a].record.postmaster) { StaysDead(s, l, s.agents[a].record.postmaster); }
      var ls := DoubleFromRemoving(t, a, l.world.late.pid);
    }
  }

  lemma {:induction false} SoundAfter(s: State, ls: seq<Label>)
    requires Sound(s) && IsRun(s, ls) && FaultlessRun(s, ls)
    ensures Sound(After(s, ls))
    decreases |ls|
  {
    if ls != [] {
      SoundExactly(s, ls[0]);
      SoundAfter(Apply(s, ls[0]), ls[1..]);
    }
  }

  /** A step from a sound state is careful exactly when no faultless continuation has two postmasters. */
  lemma CarefulExactly(s: State, l: Label)
    requires Sound(s) && Enabled(s, l)
    ensures Careful(s, l) <==> !Doomed(Apply(s, l))
  {
    if Careful(s, l) {
      SoundExactly(s, l);
      forall ls | IsRun(Apply(s, l), ls) && FaultlessRun(Apply(s, l), ls)
        ensures !Doubles(Apply(s, l), ls)
      {
        SoundAfter(Apply(s, l), ls);
      }
    } else {
      CarelessDooms(s, l);
    }
  }

  lemma Start(s: State, ls: seq<Label>)
    requires IsRun(s, ls)
    ensures StateAt(s, ls, 0) == s
  {
  }

  /** Over whole runs: every step is careful exactly when no state on the way is doomed. */
  lemma {:induction false} CarefulOverRuns(s: State, ls: seq<Label>, n: nat)
    requires Init(s) && IsRun(s, ls) && n <= |ls|
    ensures (forall k: nat :: k < n ==> CarefulAt(s, ls, k)) <==> (forall k: nat :: k <= n ==> !Doomed(StateAt(s, ls, k)))
    ensures (forall k: nat :: k < n ==> CarefulAt(s, ls, k)) ==> Sound(StateAt(s, ls, n))
  {
    hide IsRun, After;
    if n == 0 {
      InitSound(s);
      Start(s, ls);
      forall more | IsRun(s, more) && FaultlessRun(s, more) ensures !Doubles(s, more) { SoundAfter(s, more); }
    } else {
      CarefulOverRuns(s, ls, n - 1);
      Steps(s, ls, n - 1);
      var before, after := StateAt(s, ls, n - 1), StateAt(s, ls, n);
      if forall k: nat :: k < n - 1 ==> CarefulAt(s, ls, k) {
        CarefulExactly(before, ls[n - 1]);
        SoundExactly(before, ls[n - 1]);
        assert CarefulAt(s, ls, n - 1) <==> !Doomed(after);
      }
    }
  }
}
