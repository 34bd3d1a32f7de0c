/**
 Whom a signal may reach, exactly: from a state in which every served agent is on record,
 a step breaks one of the hypotheses if and only if a run without any further fault can go
 on to signal a served agent's server; likewise for a signal that reaches a stranger.
 */
module RunServerSignalsExact {
  import opened Options
  import opened RunServer
  import opened RunServerSafety
  import opened RunServerSignals
  import opened RunServerExact

  ghost predicate RecordAlive(s: State, r: Root) {
    r in s.roots && s.roots[r].record.Some? && Lives(s, s.roots[r].record.value.postmaster)
  }

  /**
   The harm. With a victim: a signal may go out for a root the victim is served on. With
   none: a signal may go out to a process that is not the root's postmaster.
   */
  ghost predicate Hits(s: State, r: Root, victim: Option<Mark>) {
    exists a, seen ::
      && ActEnabled(s, a, Signal(seen)) && s.agents[a].root == r
      && match victim
         case Some(b) => Served(s, r, b)
         case None => !LivePostmaster(s, r, s.agents[a].record.postmaster.pid)
  }

  ghost predicate Strikes(s: State, ls: seq<Label>, r: Root, victim: Option<Mark>) {
    IsRun(s, ls) && FaultlessRun(s, ls) && Hits(After(s, ls), r, victim)
  }

  /** The root's server is recorded and alive; the victim is served, or the server is a stranger. */
  ghost predicate Aimed(s: State, r: Root, victim: Option<Mark>) {
    && RecordAlive(s, r)
    && match victim
       case Some(b) => Served(s, r, b)
       case None => !LivePostmaster(s, r, s.roots[r].record.value.postmaster.pid)
  }

  // ---------- from a stop to the signal ----------

  lemma StrikeFromStopping(s: State, a: Mark, r: Root, victim: Option<Mark>) returns (ls: seq<Label>)
    requires Aimed(s, r, victim) && a in s.agents && s.agents[a] == Stopping(r)
    ensures Strikes(s, ls, r, victim)
  {
    var seen := Truth(s, s.roots[r].record.value.postmaster.pid);
    var l := By(a, ConfirmStop(seen));
    var t := Apply(s, l);
    assert ActEnabled(t, a, Signal(seen)) && Hits(t, r, victim);
    Prepend(s, l, []);
    ls := [l] + [];
  }

  /** No served agent's record is among the holder files. */
  ghost predicate Unlisted(s: State, r: Root) {
    r in s.roots && forall b :: Served(s, r, b) ==> s.agents[b].service !in s.roots[r].holders
  }

  /** A collection that finds every remaining holder file unreadable goes on to stop the server. */
  lemma {:induction false} StrikeFromCollecting(s: State, a: Mark, p: Phase, victim: Option<Mark>) returns (ls: seq<Label>)
    requires p.Pruning? && p.purpose == ForCollect && p.live == 0 && a in s.agents && s.agents[a] == p
    requires Aimed(s, p.root, victim) && Unlisted(s, p.root) && p.pending <= s.roots[p.root].holders.Keys
    ensures Strikes(s, ls, p.root, victim)
    decreases |p.pending|
  {
    hide IsRun, After, FaultlessRun, Hits;
    var l := By(a, PruneDone);
    if p.pending == {} {
      ls := StrikeFromStopping(Apply(s, l), a, p.root, victim);
    } else {
      var sv :| sv in p.pending;
      l := By(a, PruneOne(sv, false, Failed, Failed));
      var t := Apply(s, l);
      forall b | Served(t, p.root, b) ensures Served(s, p.root, b) {}
      ls := StrikeFromCollecting(t, a, t.agents[a], victim);
    }
    Prepend(s, l, ls);
    ls := [l] + ls;
  }

  lemma StrikeFromIdle(s: State, a: Mark, r: Root, victim: Option<Mark>) returns (ls: seq<Label>)
    requires Aimed(s, r, victim) && Unlisted(s, r) && a in s.agents && s.agents[a] == Idle && s.roots[r].lock == None
    ensures Strikes(s, ls, r, victim)
  {
    hide IsRun, After, FaultlessRun, Hits;
    var l := By(a, BeginCollect(r));
    var t := Apply(s, l);
    forall b | Served(t, r, b) ensures Served(s, r, b) {}
    ls := StrikeFromCollecting(t, a, t.agents[a], victim);
    Prepend(s, l, ls);
    ls := [l] + ls;
  }

  /** The agents attached to r, the victim aside. */
  function Others(s: State, r: Root, victim: Option<Mark>): set<Mark> {
    set c | c in s.agents && s.agents[c].Attached? && s.agents[c].root == r && victim != Some(c)
  }

  /** s after agent c has released its service on r and given up before pruning. */
  function Left(s: State, c: Mark): State
    requires c in s.agents && s.agents[c].Attached? && s.agents[c].root in s.roots
  {
    var p := s.agents[c];
    s.(agents := s.agents[c := Idle],
       roots := s.roots[p.root := s.roots[p.root].(holders := s.roots[p.root].holders - {p.service}, lock := None)])
  }

  lemma Leaves(s: State, c: Mark, ls: seq<Label>) returns (more: seq<Label>)
    requires c in s.agents && s.agents[c].Attached? && s.agents[c].root in s.roots && s.roots[s.agents[c].root].lock == None
    requires IsRun(Left(s, c), ls) && FaultlessRun(Left(s, c), ls)
    ensures IsRun(s, more) && FaultlessRun(s, more) && After(s, more) == After(Left(s, c), ls)
  {
    hide IsRun, After, FaultlessRun;
    var l, l' := By(c, BeginRelease), By(c, GiveUp(NotFound));
    var t := Apply(s, l);
    var u := Apply(t, l');
    assert u.agents == Left(s, c).agents && u.roots == Left(s, c).roots;
    assert u == Left(s, c);
    Prepend(t, l', ls);
    Prepend(s, l, [l'] + ls);
    more := [l] + ([l'] + ls);
  }

  /** The victim's record is gone from the holder files, or there is no victim. */
  ghost predicate Erased(s: State, r: Root, victim: Option<Mark>) {
    r in s.roots && match victim
      case Some(b) => b in s.agents && s.agents[b].Attached? && s.agents[b].service !in s.roots[r].holders
      case None => true
  }

  // ---------- when no server is left: a failed start brings one up and stops it ----------

  /** No agent, and no run that launched an attached one, is a process called like a postmaster. */
  ghost predicate OwnNames(s: State) {
    forall b :: b in s.agents ==>
      OwnName(s, b) && (s.agents[b].Attached? && s.agents[b].run.Some? ==> OwnName(s, s.agents[b].run.value))
  }

  ghost predicate OwnName(s: State, m: Mark) {
    Lives(s, m) ==> !IsPostmasterExecutable(ExecutableOf(s.procs[m.pid].program))
  }

  /** b is served on r, whose recorded server, if any, is gone; agent a is in phase p. */
  ghost predicate Orphaned(s: State, a: Mark, p: Phase, r: Root, b: Mark) {
    && a in s.agents && s.agents[a] == p && r in s.roots && Served(s, r, b) && !RecordAlive(s, r)
  }

  lemma StrikeFromJoining(s: State, a: Mark, r: Root, sv: Service, b: Mark) returns (ls: seq<Label>)
    requires a in s.agents && s.agents[a] == Joining(r, sv, 0, true) && Aimed(s, r, Some(b))
    ensures Strikes(s, ls, r, Some(b))
  {
    hide IsRun, After, FaultlessRun, Hits;
    var l := By(a, AcquireFailed);
    ls := StrikeFromStopping(Apply(s, l), a, r, Some(b));
    Prepend(s, l, ls);
    ls := [l] + ls;
  }

  lemma StrikeFromRecording(s: State, a: Mark, r: Root, sv: Service, b: Mark, m: Mark) returns (ls: seq<Label>)
    requires a in s.agents && s.agents[a] == Recording(r, sv, 0) && r in s.roots && Served(s, r, b)
    requires m.pid > 0 && Lives(s, m) && LivePostmaster(s, r, m.pid) && s.roots[r].pidFile == Names(m.pid)
    ensures Strikes(s, ls, r, Some(b))
  {
    hide IsRun, After, FaultlessRun, Hits;
    var l := By(a, RecordPostmaster(Truth(s, m.pid)));
    ls := StrikeFromJoining(Apply(s, l), a, r, sv, b);
    Prepend(s, l, ls);
    ls := [l] + ls;
  }

  lemma StrikeFromLaunched(s: State, a: Mark, r: Root, sv: Service, b: Mark, m: Mark) returns (ls: seq<Label>)
    requires a in s.agents && s.agents[a] == Launching(r, sv, 0) && r in s.roots && Served(s, r, b)
    requires m.pid > 0 && Lives(s, m) && LivePostmaster(s, r, m.pid) && s.roots[r].pidFile == Names(m.pid)
    ensures Strikes(s, ls, r, Some(b))
  {
    hide IsRun, After, FaultlessRun, Hits;
    var l := By(a, LaunchReported);
    ls := StrikeFromRecording(Apply(s, l), a, r, sv, b, m);
    Prepend(s, l, ls);
    ls := [l] + ls;
  }

  lemma StrikeFromLaunching(s: State, a: Mark, r: Root, sv: Service, b: Mark) returns (ls: seq<Label>)
    requires Orphaned(s, a, Launching(r, sv, 0), r, b) && s.roots[r].pidFile == Absent
    ensures Strikes(s, ls, r, Some(b))
  {
    hide IsRun, After, FaultlessRun, Hits;
    var m := FreshMark(s);
    var l := By(a, Launch(m));
    ls := StrikeFromLaunched(Apply(s, l), a, r, sv, b, m);
    Prepend(s, l, ls);
    ls := [l] + ls;
  }

  lemma StrikeFromClearing(s: State, a: Mark, r: Root, sv: Service, b: Mark) returns (ls: seq<Label>)
    requires Orphaned(s, a, Clearing(r, sv, 0), r, b)
    ensures Strikes(s, ls, r, Some(b))
  {
    hide IsRun, After, FaultlessRun, Hits;
    var l := By(a, RemoveStale);
    ls := StrikeFromLaunching(Apply(s, l), a, r, sv, b);
    Prepend(s, l, ls);
    ls := [l] + ls;
  }

  /** A true answer disowns the lock file. */
  predicate Freed(s: State, r: Root) {
    r in s.roots && PidFileVerdict(PidFileOwner(s, r), OwnerSeen(s, r)).Disowned?
  }

  lemma StrikeFromExamining(s: State, a: Mark, r: Root, sv: Service, b: Mark) returns (ls: seq<Label>)
    requires Orphaned(s, a, Examining(r, sv, 0), r, b) && Freed(s, r)
    ensures Strikes(s, ls, r, Some(b))
  {
    hide IsRun, After, FaultlessRun, Hits;
    var record := s.roots[r].record;
    var seen := if record.Some? then Truth(s, record.value.postmaster.pid) else NotFound;
    var l := By(a, Disown(seen, OwnerSeen(s, r)));
    ls := StrikeFromClearing(Apply(s, l), a, r, sv, b);
    Prepend(s, l, ls);
    ls := [l] + ls;
  }

  lemma {:induction false} StrikeFromAcquiring(s: State, a: Mark, p: Phase, b: Mark) returns (ls: seq<Label>)
    requires p.Pruning? && p.purpose.ForAcquire? && p.live == 0 && Orphaned(s, a, p, p.root, b) && Freed(s, p.root)
    requires Unlisted(s, p.root) && p.pending <= s.roots[p.root].holders.Keys
    ensures Strikes(s, ls, p.root, Some(b))
    decreases |p.pending|
  {
    hide IsRun, After, FaultlessRun, Hits;
    var l := By(a, PruneDone);
    if p.pending == {} {
      ls := StrikeFromExamining(Apply(s, l), a, p.root, p.purpose.service, b);
    } else {
      var sv :| sv in p.pending;
      l := By(a, PruneOne(sv, false, Failed, Failed));
      var t := Apply(s, l);
      forall c | Served(t, p.root, c) ensures Served(s, p.root, c) {}
      ls := StrikeFromAcquiring(t, a, t.agents[a], b);
    }
    Prepend(s, l, ls);
    ls := [l] + ls;
  }

  lemma StrikeFromFreed(s: State, a: Mark, r: Root, b: Mark) returns (ls: seq<Label>)
    requires Orphaned(s, a, Idle, r, b) && Freed(s, r) && Unlisted(s, r) && s.roots[r].lock == None
    ensures Strikes(s, ls, r, Some(b))
  {
    hide IsRun, After, FaultlessRun, Hits;
    var l := By(a, BeginAcquire(r, ""));
    var t := Apply(s, l);
    forall c | Served(t, r, c) ensures Served(s, r, c) {}
    ls := StrikeFromAcquiring(t, a, t.agents[a], b);
    Prepend(s, l, ls);
    ls := [l] + ls;
  }

  /** A process called like a postmaster that answers to the lock file may end first. */
  lemma StrikeFromOrphaned(s: State, a: Mark, r: Root, b: Mark) returns (ls: seq<Label>)
    requires Orphaned(s, a, Idle, r, b) && OwnNames(s) && Unlisted(s, r) && s.roots[r].lock == None
    ensures Strikes(s, ls, r, Some(b))
  {
    hide IsRun, After, FaultlessRun, Hits;
    if Freed(s, r) {
      ls := StrikeFromFreed(s, a, r, b);
    } else {
      var l := Of(Exit(PidFileOwner(s, r).value, true));
      var t := Apply(s, l);
      assert MarkAt(s, l.world.pid) !in s.agents;
      forall c | Served(t, r, c) ensures Served(s, r, c) {}
      ls := StrikeFromFreed(t, a, r, b);
      Prepend(s, l, ls);
      ls := [l] + ls;
    }
  }

  // ---------- everybody but the victim leaves ----------

  /** The harm is in reach: the server is there to be signalled, or may be brought up again. */
  ghost predicate Ready(s: State, r: Root, victim: Option<Mark>) {
    Aimed(s, r, victim) || (victim.Some? && Served(s, r, victim.value) && !RecordAlive(s, r) && OwnNames(s))
  }

  /** When everybody but the victim has left, an idle agent collects, or starts and fails. */
  lemma {:induction false} StrikeFromCrowd(s: State, a: Mark, r: Root, victim: Option<Mark>) returns (ls: seq<Label>)
    requires Ready(s, r, victim) && Erased(s, r, victim) && a in s.agents && s.agents[a] == Idle && s.roots[r].lock == None
    ensures Strikes(s, ls, r, victim)
    decreases |Others(s, r, victim)|
  {
    hide IsRun, After, FaultlessRun, Hits;
    if c :| c in Others(s, r, victim) {
      var t := Left(s, c);
      assert Others(t, r, victim) == Others(s, r, victim) - {c};
      ls := StrikeFromCrowd(t, a, r, victim);
      ls := Leaves(s, c, ls);
    } else {
      forall b | Served(s, r, b) ensures victim == Some(b) { assert b !in Others(s, r, victim); }
      if Aimed(s, r, victim) { ls := StrikeFromIdle(s, a, r, victim); } else { ls := StrikeFromOrphaned(s, a, r, victim.value); }
    }
  }

  // ---------- a stranger ----------

  lemma RecordedStrikes(s: State, a: Mark) returns (ls: seq<Label>)
    requires a in s.agents && s.agents[a].Joining? && s.agents[a].started && s.agents[a].root in s.roots
    requires Aimed(s, s.agents[a].root, None)
    ensures Strikes(s, ls, s.agents[a].root, None)
  {
    hide IsRun, After, FaultlessRun, Hits;
    var l, r := By(a, AcquireFailed), s.agents[a].root;
    var t := Apply(s, l);
    if s.agents[a].live == 0 { ls := StrikeFromStopping(t, a, r, None); } else { ls := StrikeFromCrowd(t, a, r, None); }
    Prepend(s, l, ls);
    ls := [l] + ls;
  }

  /** From here a run without any further fault may signal a process that is no postmaster of the root. */
  ghost predicate StrangerAtRisk(s: State) {
    exists ls, r :: Strikes(s, ls, r, None)
  }

  lemma {:induction false} TrueAfter(s: State, ls: seq<Label>)
    requires Base(s) && RecordsTrue(s) && IsRun(s, ls) && FaultlessRun(s, ls)
    ensures Base(After(s, ls)) && RecordsTrue(After(s, ls))
    decreases |ls|
  {
    if ls != [] {
      BaseStep(s, ls[0]);
      RecordsTrueExactly(s, ls[0]);
      TrueAfter(Apply(s, ls[0]), ls[1..]);
    }
  }

  lemma TrueNeverHits(s: State, r: Root)
    requires Base(s) && RecordsTrue(s)
    ensures !Hits(s, r, None)
  {
    forall a, seen | ActEnabled(s, a, Signal(seen)) && s.agents[a].root == r
      ensures LivePostmaster(s, r, s.agents[a].record.postmaster.pid)
    {
      assert SignalKnown(s, a);
    }
  }

  lemma TrueIsRiskless(s: State)
    requires Base(s) && RecordsTrue(s)
    ensures !StrangerAtRisk(s)
  {
    forall ls, r | IsRun(s, ls) && FaultlessRun(s, ls)
      ensures !Strikes(s, ls, r, None)
    {
      TrueAfter(s, ls);
      TrueNeverHits(After(s, ls), r);
    }
  }

  /** A birth is recorded in time exactly when no faultless continuation signals a stranger. */
  lemma TimelyExactly(s: State, l: Label)
    requires Base(s) && RecordsTrue(s) && Enabled(s, l)
    ensures RecordedInTime(s, l) <==> !StrangerAtRisk(Apply(s, l))
  {
    if RecordedInTime(s, l) {
      BaseStep(s, l);
      RecordsTrueExactly(s, l);
      TrueIsRiskless(Apply(s, l));
    } else {
      var ls := RecordedStrikes(Apply(s, l), l.agent);
    }
  }

  // ---------- a served agent ----------

  /** From here a run without any further fault may signal the server of a served agent. */
  ghost predicate ServedAtRisk(s: State) {
    exists ls, r, b :: Strikes(s, ls, r, Some(b))
  }

  lemma {:induction false} AttendedAfter(s: State, ls: seq<Label>)
    requires Base(s) && Attended(s) && IsRun(s, ls) && FaultlessRun(s, ls)
    ensures Base(After(s, ls)) && Attended(After(s, ls))
    decreases |ls|
  {
    hide Attended, Base;
    if ls != [] {
      BaseStep(s, ls[0]);
      AttendedExactly(s, ls[0]);
      AttendedAfter(Apply(s, ls[0]), ls[1..]);
    }
  }

  lemma AttendedIsRiskless(s: State)
    requires Base(s) && Attended(s)
    ensures !ServedAtRisk(s)
  {
    forall ls, r, b | IsRun(s, ls) && FaultlessRun(s, ls)
      ensures !Strikes(s, ls, r, Some(b))
    {
      AttendedAfter(s, ls);
      AttendedNeverHits(After(s, ls), r, b);
    }
  }

  lemma AttendedNeverHits(s: State, r: Root, b: Mark)
    requires Attended(s)
    ensures !Hits(s, r, Some(b))
  {
    forall a, seen | ActEnabled(s, a, Signal(seen)) && s.agents[a].root == r
      ensures !Served(s, r, b)
    {
      assert Quiet(s, a, b);
    }
  }

  /** The agent that pruned an unread holder file of b gives up, and the crowd disperses. */
  lemma UnreadStrikes(s: State, l: Label, b: Mark) returns (ls: seq<Label>)
    requires Enabled(s, l) && OwnNames(Apply(s, l)) && l.By? && l.act.PruneOne? && !l.act.read
    requires Served(s, RootOf(s, l), b) && s.agents[b].service == l.act.holder
    ensures Strikes(Apply(s, l), ls, RootOf(s, l), Some(b))
  {
    hide IsRun, After, FaultlessRun, Hits;
    var t, r := Apply(s, l), RootOf(s, l);
    var l' := By(l.agent, GiveUp(NotFound));
    ls := StrikeFromCrowd(Apply(t, l'), l.agent, r, Some(b));
    Prepend(t, l', ls);
    ls := [l'] + ls;
  }

  /** The agent that was attached first takes the record of the second one along when it leaves. */
  lemma SharedStrikes(s: State, l: Label, c: Mark) returns (ls: seq<Label>)
    requires Enabled(s, l) && OwnNames(Apply(s, l)) && l.By? && l.act.Register?
    requires c in s.agents && s.agents[c].Attached? && s.agents[c].root == RootOf(s, l)
    requires s.agents[c].service == s.agents[l.agent].service
    ensures Strikes(Apply(s, l), ls, RootOf(s, l), Some(l.agent))
  {
    hide IsRun, After, FaultlessRun, Hits;
    var t, r := Apply(s, l), RootOf(s, l);
    ls := StrikeFromCrowd(Left(t, c), c, r, Some(l.agent));
    ls := Leaves(t, c, ls);
  }

  /**
   A step reads every served agent's record and shares no service exactly when no
   faultless continuation signals the server of a served agent.
   */
  lemma AttendedIsNeeded(s: State, l: Label)
    requires Base(s) && Attended(s) && Enabled(s, l) && OwnNames(Apply(s, l))
    ensures ReadsHolders(s, l) && OnePerService(s, l) <==> !ServedAtRisk(Apply(s, l))
  {
    hide Base, Attended;
    if ReadsHolders(s, l) && OnePerService(s, l) {
      BaseStep(s, l);
      AttendedExactly(s, l);
      AttendedIsRiskless(Apply(s, l));
    } else if !ReadsHolders(s, l) {
      var b :| Served(s, RootOf(s, l), b) && s.agents[b].service == l.act.holder;
      var ls := UnreadStrikes(s, l, b);
    } else {
      var r := RootOf(s, l);
      var c :| c in s.agents && s.agents[c].Attached? && s.agents[c].root == r && s.agents[c].service == s.agents[l.agent].service;
      var ls := SharedStrikes(s, l, c);
    }
  }

  // ---------- over whole runs ----------

  /** No birth recorded late: exactly when no state on the way puts a stranger at risk. */
  lemma {:induction false} TimelyOverRuns(s: State, ls: seq<Label>, n: nat)
    requires Init(s) && IsRun(s, ls) && n <= |ls|
    ensures (forall k: nat :: k < n ==> TimelyAt(s, ls, k)) <==> (forall k: nat :: k <= n ==> !StrangerAtRisk(StateAt(s, ls, k)))
  {
    hide IsRun, After;
    BaseAlways(s, ls, n);
    if n == 0 {
      Start(s, ls);
      RecordsTrueAlways(s, ls, 0);
      TrueIsRiskless(s);
    } else {
      TimelyOverRuns(s, ls, n - 1);
      Steps(s, ls, n - 1);
      var before, after := StateAt(s, ls, n - 1), StateAt(s, ls, n);
      if forall k: nat :: k < n - 1 ==> TimelyAt(s, ls, k) {
        BaseAlways(s, ls, n - 1);
        RecordsTrueAlways(s, ls, n - 1);
        TimelyExactly(before, ls[n - 1]);
        assert TimelyAt(s, ls, n - 1) <==> !StrangerAtRisk(after);
      }
    }
  }

  /** Every record read and no service shared: exactly when no state on the way puts a served agent at risk. */
  lemma {:induction false} AttendedOverRuns(s: State, ls: seq<Label>, n: nat)
    requires Init(s) && IsRun(s, ls) && n <= |ls|
    requires forall k: nat :: k <= n ==> OwnNames(StateAt(s, ls, k))
    ensures (forall k: nat :: k < n ==> AttendedAt(s, ls, k)) <==> (forall k: nat :: k <= n ==> !ServedAtRisk(StateAt(s, ls, k)))
  {
    hide IsRun, After, Base, Attended, OwnNames;
    BaseAlways(s, ls, n);
    if n == 0 {
      Start(s, ls);
      AttendedAlways(s, ls, 0);
      AttendedIsRiskless(s);
    } else {
      AttendedOverRuns(s, ls, n - 1);
      Steps(s, ls, n - 1);
      var before, after := StateAt(s, ls, n - 1), StateAt(s, ls, n);
      if forall k: nat :: k < n - 1 ==> AttendedAt(s, ls, k) {
        BaseAlways(s, ls, n - 1);
        AttendedAlways(s, ls, n - 1);
        AttendedIsNeeded(before, ls[n - 1]);
        assert AttendedAt(s, ls, n - 1) <==> !ServedAtRisk(after);
      }
    }
  }
}
