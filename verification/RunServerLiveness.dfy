/**
 The machine gets things done. An abandoned server goes away: when every holder's agent, or the
 run that launched it, is dead, a collection that is told the truth stops the server and leaves
 none of its files. And a service can be brought up whenever nothing holds the cluster, or
 attach to the server that does.
 */
module RunServerLiveness {
  import opened Options
  import opened RunServer
  import opened RunServerSafety
  import opened RunServerSignals
  import opened RunServerExact

  /** The agent of a holder, or the run that launched it, is gone. */
  ghost predicate HolderGone(s: State, h: Holder) {
    !Lives(s, h.agent) || (h.run.Some? && !Lives(s, h.run.value))
  }

  ghost predicate AllGone(s: State, r: Root) {
    r in s.roots && forall sv :: sv in s.roots[r].holders ==> HolderGone(s, s.roots[r].holders[sv])
  }

  /** The postmaster m of the root is recorded and runs. */
  ghost predicate Runs(s: State, r: Root, m: Mark) {
    && r in s.roots && s.roots[r].record.Some? && s.roots[r].record.value.postmaster == m
    && Lives(s, m) && LivePostmaster(s, r, m.pid)
  }

  /** Every holder file was read, and every inspection answered. */
  predicate Told(l: Label) {
    l.By? ==> match l.act
      case PruneOne(_, read, agentSeen, runSeen) => read && !agentSeen.Failed? && !runSeen.Failed?
      case ConfirmStop(seen) => !seen.Failed?
      case Signal(seen) => !seen.Failed?
      case WaitOver(seen) => !seen.Failed?
      case _ => true
  }

  /** A run without fault ends with the server gone, and with its record, its lock file and the lock. */
  ghost predicate Collects(s: State, ls: seq<Label>, r: Root, m: Mark) {
    && IsRun(s, ls) && FaultlessRun(s, ls) && (forall i :: 0 <= i < |ls| ==> Told(ls[i]))
    && var t := After(s, ls);
       && t.procs == s.procs - {m.pid} && r in t.roots
       && t.roots[r].record == None && t.roots[r].pidFile == Absent && t.roots[r].lock == None && t.roots[r].holders == map[]
  }

  lemma Before(s: State, l: Label, ls: seq<Label>, r: Root, m: Mark)
    requires Enabled(s, l) && Faultless(s, l) && Told(l) && Collects(Apply(s, l), ls, r, m)
    requires Apply(s, l).procs - {m.pid} == s.procs - {m.pid}
    ensures Collects(s, [l] + ls, r, m)
  {
    Prepend(s, l, ls);
  }

  lemma FromSweeping(s: State, a: Mark, r: Root, m: Mark) returns (ls: seq<Label>)
    requires a in s.agents && s.agents[a] == Sweeping(r) && r in s.roots && m.pid !in s.procs
    requires s.roots[r].record == None && s.roots[r].holders == map[]
    ensures Collects(s, ls, r, m)
  {
    var l := By(a, Sweep);
    Before(s, l, [], r, m);
    ls := [l] + [];
  }

  lemma FromForgetting(s: State, a: Mark, r: Root, m: Mark) returns (ls: seq<Label>)
    requires a in s.agents && s.agents[a] == Forgetting(r) && r in s.roots && m.pid !in s.procs && s.roots[r].holders == map[]
    ensures Collects(s, ls, r, m)
  {
    hide Collects;
    var l := By(a, Forget);
    ls := FromSweeping(Apply(s, l), a, r, m);
    Before(s, l, ls, r, m);
    ls := [l] + ls;
  }

  lemma FromWaiting(s: State, a: Mark, r: Root, record: Record) returns (ls: seq<Label>)
    requires a in s.agents && s.agents[a] == Waiting(r, record) && r in s.roots && s.roots[r].holders == map[]
    requires Lives(s, record.postmaster) ==> LivePostmaster(s, r, record.postmaster.pid)
    requires !Lives(s, record.postmaster) ==> record.postmaster.pid !in s.procs
    ensures Collects(s, ls, r, record.postmaster)
    decreases if Lives(s, record.postmaster) then 1 else 0
  {
    hide Collects;
    var m := record.postmaster;
    var l: Label;
    if Lives(s, m) {
      l := Of(Exit(m.pid, true));
      ls := FromWaiting(Apply(s, l), a, r, record);
    } else {
      l := By(a, WaitOver(Truth(s, m.pid)));
      ls := FromForgetting(Apply(s, l), a, r, m);
    }
    Before(s, l, ls, r, m);
    ls := [l] + ls;
  }

  lemma FromSignalling(s: State, a: Mark, r: Root, record: Record) returns (ls: seq<Label>)
    requires a in s.agents && s.agents[a] == Signalling(r, record) && r in s.roots && s.roots[r].holders == map[]
    requires Lives(s, record.postmaster) && LivePostmaster(s, r, record.postmaster.pid)
    ensures Collects(s, ls, r, record.postmaster)
  {
    hide Collects;
    var l := By(a, Signal(Truth(s, record.postmaster.pid)));
    ls := FromWaiting(Apply(s, l), a, r, record);
    Before(s, l, ls, r, record.postmaster);
    ls := [l] + ls;
  }

  lemma FromStopping(s: State, a: Mark, r: Root, m: Mark) returns (ls: seq<Label>)
    requires a in s.agents && s.agents[a] == Stopping(r) && Runs(s, r, m) && s.roots[r].holders == map[]
    ensures Collects(s, ls, r, m)
  {
    hide Collects;
    var l := By(a, ConfirmStop(Truth(s, m.pid)));
    ls := FromSignalling(Apply(s, l), a, r, s.roots[r].record.value);
    Before(s, l, ls, r, m);
    ls := [l] + ls;
  }

  lemma {:induction false} FromPruning(s: State, a: Mark, p: Phase, m: Mark) returns (ls: seq<Label>)
    requires p.Pruning? && p.purpose == ForCollect && p.live == 0 && a in s.agents && s.agents[a] == p
    requires Runs(s, p.root, m) && AllGone(s, p.root) && p.pending == s.roots[p.root].holders.Keys
    ensures Collects(s, ls, p.root, m)
    decreases |p.pending|
  {
    hide Collects;
    var l := By(a, PruneDone);
    if p.pending == {} {
      assert s.roots[p.root].holders == map[];
      ls := FromStopping(Apply(s, l), a, p.root, m);
    } else {
      var sv :| sv in p.pending;
      var h := s.roots[p.root].holders[sv];
      l := By(a, PruneOne(sv, true, Truth(s, h.agent.pid), if h.run.Some? then Truth(s, h.run.value.pid) else NotFound));
      var t := Apply(s, l);
      ls := FromPruning(t, a, t.agents[a], m);
    }
    Before(s, l, ls, p.root, m);
    ls := [l] + ls;
  }

  /** Whatever holder files a dead run has left, an idle agent can collect its server, and nothing stays. */
  lemma AbandonedServerIsCollected(s: State, a: Mark, r: Root, m: Mark) returns (ls: seq<Label>)
    requires a in s.agents && s.agents[a] == Idle && Runs(s, r, m) && s.roots[r].lock == None && AllGone(s, r)
    ensures Collects(s, ls, r, m)
  {
    hide Collects;
    var l := By(a, BeginCollect(r));
    var t := Apply(s, l);
    ls := FromPruning(t, a, t.agents[a], m);
    Before(s, l, ls, r, m);
    ls := [l] + ls;
  }

  // ---------- bringing a service up ----------

  /** Agent a is attached with its record in place, to a recorded server of the root that runs. */
  ghost predicate Attends(t: State, a: Mark, r: Root, sv: Service) {
    && a in t.agents && t.agents[a] == Attached(r, sv, None)
    && r in t.roots && t.roots[r].lock == None && sv in t.roots[r].holders && t.roots[r].holders[sv] == Holder(a, None)
    && t.roots[r].record.Some? && t.roots[r].record.value.hasSocket && Runs(t, r, t.roots[r].record.value.postmaster)
  }

  ghost predicate Brings(s: State, ls: seq<Label>, a: Mark, r: Root, sv: Service) {
    && IsRun(s, ls) && FaultlessRun(s, ls) && (forall i :: 0 <= i < |ls| ==> Told(ls[i]))
    && Attends(After(s, ls), a, r, sv)
  }

  lemma Leads(s: State, l: Label, ls: seq<Label>, a: Mark, r: Root, sv: Service)
    requires Enabled(s, l) && Faultless(s, l) && Told(l) && Brings(Apply(s, l), ls, a, r, sv)
    ensures Brings(s, [l] + ls, a, r, sv)
  {
    Prepend(s, l, ls);
  }

  /** Nobody else is attached for the service. */
  ghost predicate Vacant(s: State, a: Mark, r: Root, sv: Service) {
    forall b :: b in s.agents && s.agents[b].Attached? && s.agents[b].root == r ==> s.agents[b].service != sv
  }

  lemma FromJoining(s: State, a: Mark, r: Root, sv: Service, live: nat, started: bool) returns (ls: seq<Label>)
    requires a in s.agents && s.agents[a] == Joining(r, sv, live, started) && Vacant(s, a, r, sv)
    requires r in s.roots && s.roots[r].record.Some? && s.roots[r].record.value.hasSocket && Runs(s, r, s.roots[r].record.value.postmaster)
    ensures Brings(s, ls, a, r, sv)
  {
    var l := By(a, Register(None));
    Leads(s, l, [], a, r, sv);
    ls := [l] + [];
  }

  lemma FromRecording(s: State, a: Mark, r: Root, sv: Service, live: nat, m: Mark) returns (ls: seq<Label>)
    requires a in s.agents && s.agents[a] == Recording(r, sv, live) && Vacant(s, a, r, sv) && r in s.roots
    requires m.pid > 0 && Lives(s, m) && LivePostmaster(s, r, m.pid) && s.roots[r].pidFile == Names(m.pid)
    ensures Brings(s, ls, a, r, sv)
  {
    hide Brings;
    var l := By(a, RecordPostmaster(Truth(s, m.pid)));
    ls := FromJoining(Apply(s, l), a, r, sv, live, true);
    Leads(s, l, ls, a, r, sv);
    ls := [l] + ls;
  }

  lemma FromLaunched(s: State, a: Mark, r: Root, sv: Service, live: nat, m: Mark) returns (ls: seq<Label>)
    requires a in s.agents && s.agents[a] == Launching(r, sv, live) && Vacant(s, a, r, sv) && r in s.roots
    requires m.pid > 0 && Lives(s, m) && LivePostmaster(s, r, m.pid) && s.roots[r].pidFile == Names(m.pid)
    ensures Brings(s, ls, a, r, sv)
  {
    hide Brings;
    var l := By(a, LaunchReported);
    ls := FromRecording(Apply(s, l), a, r, sv, live, m);
    Leads(s, l, ls, a, r, sv);
    ls := [l] + ls;
  }

  lemma FromLaunching(s: State, a: Mark, r: Root, sv: Service, live: nat) returns (ls: seq<Label>)
    requires a in s.agents && s.agents[a] == Launching(r, sv, live) && Vacant(s, a, r, sv)
    requires r in s.roots && s.roots[r].pidFile == Absent
    ensures Brings(s, ls, a, r, sv)
  {
    hide Brings;
    var m := FreshMark(s);
    var l := By(a, Launch(m));
    ls := FromLaunched(Apply(s, l), a, r, sv, live, m);
    Leads(s, l, ls, a, r, sv);
    ls := [l] + ls;
  }

  lemma FromClearing(s: State, a: Mark, r: Root, sv: Service, live: nat) returns (ls: seq<Label>)
    requires a in s.agents && s.agents[a] == Clearing(r, sv, live) && Vacant(s, a, r, sv) && r in s.roots
    ensures Brings(s, ls, a, r, sv)
  {
    hide Brings;
    var l := By(a, RemoveStale);
    ls := FromLaunching(Apply(s, l), a, r, sv, live);
    Leads(s, l, ls, a, r, sv);
    ls := [l] + ls;
  }

  /** The true answer about the recorded birth. */
  function RecordSeen(s: State, r: Root): Inspection
    requires r in s.roots
  {
    if s.roots[r].record.Some? then Truth(s, s.roots[r].record.value.postmaster.pid) else NotFound
  }

  /** Nothing holds the cluster: no recorded birth lives, and no postmaster answers to the lock file. */
  predicate Unheld(s: State, r: Root) {
    && r in s.roots
    && (s.roots[r].record.Some? ==> !Lives(s, s.roots[r].record.value.postmaster))
    && (PidFileOwner(s, r).Some? ==>
          ExecutableOf(s.procs[PidFileOwner(s, r).value].program) != "postgres"
          && ExecutableOf(s.procs[PidFileOwner(s, r).value].program) != "postmaster")
  }

  /** The recorded server runs and can be reached. */
  ghost predicate Reachable(s: State, r: Root) {
    r in s.roots && s.roots[r].record.Some? && s.roots[r].record.value.hasSocket && Runs(s, r, s.roots[r].record.value.postmaster)
  }

  lemma FromExamining(s: State, a: Mark, r: Root, sv: Service, live: nat) returns (ls: seq<Label>)
    requires a in s.agents && s.agents[a] == Examining(r, sv, live) && Vacant(s, a, r, sv)
    requires Unheld(s, r) || Reachable(s, r)
    ensures Brings(s, ls, a, r, sv)
  {
    hide Brings;
    var l;
    if Reachable(s, r) {
      l := By(a, AttachServer(RecordSeen(s, r)));
      ls := FromJoining(Apply(s, l), a, r, sv, live, false);
    } else {
      l := By(a, Disown(RecordSeen(s, r), OwnerSeen(s, r)));
      ls := FromClearing(Apply(s, l), a, r, sv, live);
    }
    Leads(s, l, ls, a, r, sv);
    ls := [l] + ls;
  }

  lemma {:induction false} FromAcquiring(s: State, a: Mark, p: Phase, sv: Service) returns (ls: seq<Label>)
    requires p.Pruning? && p.purpose == ForAcquire(sv) && a in s.agents && s.agents[a] == p && Vacant(s, a, p.root, sv)
    requires (Unheld(s, p.root) || Reachable(s, p.root)) && p.pending <= s.roots[p.root].holders.Keys
    ensures Brings(s, ls, a, p.root, sv)
    decreases |p.pending|
  {
    hide Brings;
    var l := By(a, PruneDone);
    if p.pending == {} {
      ls := FromExamining(Apply(s, l), a, p.root, sv, p.live);
    } else {
      var held :| held in p.pending;
      var h := s.roots[p.root].holders[held];
      l := By(a, PruneOne(held, true, Truth(s, h.agent.pid), if h.run.Some? then Truth(s, h.run.value.pid) else NotFound));
      var t := Apply(s, l);
      ls := FromAcquiring(t, a, t.agents[a], sv);
    }
    Leads(s, l, ls, a, p.root, sv);
    ls := [l] + ls;
  }

  /** An idle agent can acquire a vacant service of a free root, by starting the server or by attaching to it. */
  lemma ServiceComesUp(s: State, a: Mark, r: Root, sv: Service) returns (ls: seq<Label>)
    requires a in s.agents && s.agents[a] == Idle && r in s.roots && s.roots[r].lock == None && Vacant(s, a, r, sv)
    requires Unheld(s, r) || Reachable(s, r)
    ensures Brings(s, ls, a, r, sv)
  {
    hide Brings;
    var l := By(a, BeginAcquire(r, sv));
    var t := Apply(s, l);
    ls := FromAcquiring(t, a, t.agents[a], sv);
    Leads(s, l, ls, a, r, sv);
    ls := [l] + ls;
  }

  // ---------- how the other ways out end ----------

  /** A failed acquire ends the server it started unless somebody else holds it, and one it attached to never. */
  lemma FailedAcquire(s: State, a: Mark)
    requires ActEnabled(s, a, AcquireFailed)
    ensures var p := s.agents[a];
            var next := Apply(s, By(a, AcquireFailed)).agents[a];
            next == if (p.Recording? || p.started) && p.live == 0 then Stopping(p.root) else Idle
  {
  }

  /** A start that fails may leave its pg_ctl at large, and ends what it started unless somebody else holds the root. */
  lemma FailedLaunch(s: State, a: Mark, late: bool)
    requires ActEnabled(s, a, LaunchFailed(late))
    ensures var p, r := s.agents[a], s.agents[a].root;
            var t := Apply(s, By(a, LaunchFailed(late)));
            && t.agents[a] == (if p.live == 0 then Stopping(r) else Idle)
            && t.roots[r].lateLaunches == s.roots[r].lateLaunches + (if late then 1 else 0)
            && t.roots[r].pidFile == s.roots[r].pidFile && t.roots[r].record == s.roots[r].record
  {
  }

  /** A stop that finds its server gone, or is refused for that reason, drops the record as one that saw it go. */
  lemma StopsForget(s: State, a: Mark, act: Act)
    requires ActEnabled(s, a, act) && (act.StopNothing? || (act.SignalRefused? && act.forget) || act.Forget?)
    ensures Apply(s, By(a, act)).roots[s.agents[a].root].record == None
  {
  }

  /** An agent that dies leaves its lock free, its holder file in place, and a pg_ctl it was waiting for at large. */
  lemma DeathOfAnAgent(s: State, a: Mark, orderly: bool)
    requires a in s.agents && Lives(s, a) && s.procs[a.pid].program.Other? && Holding(s.agents[a]).Some? && s.agents[a].root in s.roots
    ensures var t, r := Apply(s, Of(Exit(a.pid, orderly))), s.agents[a].root;
            && a !in t.agents && t.roots[r].lock == None && t.roots[r].holders == s.roots[r].holders
            && t.roots[r].lateLaunches == s.roots[r].lateLaunches + (if s.agents[a].Launching? then 1 else 0)
  {
    assert MarkAt(s, a.pid) == a;
  }

  /** Only a server with a socket directory is attached to. */
  lemma AttachNeedsSocket(s: State, a: Mark, seen: Inspection)
    requires ActEnabled(s, a, AttachServer(seen))
    ensures s.roots[s.agents[a].root].record.Some? && s.roots[s.agents[a].root].record.value.hasSocket
  {
  }
}
