/** At most one live postmaster per cluster, and the invariants every run of the machine keeps. */
module RunServerSafety {
  import opened Options
  import opened RunServer

  // ---------- the lock file owns the cluster ----------

  /** Every live postmaster is the one its cluster's lock file names. */
  ghost predicate LockFileOwns(s: State) {
    forall r, pid :: LivePostmaster(s, r, pid) ==> r in s.roots && s.roots[r].pidFile == Names(pid)
  }

  ghost predicate AtMostOnePostmaster(s: State) {
    forall r, p, q :: LivePostmaster(s, r, p) && LivePostmaster(s, r, q) ==> p == q
  }

  ghost predicate NoPostmaster(s: State, r: Root) {
    forall pid :: !LivePostmaster(s, r, pid)
  }

  /** The labels with which an agent removes a cluster's lock file. */
  predicate Removes(l: Label) {
    l.By? && (l.act.RemoveStale? || l.act.Sweep?)
  }

  /** The root an agent's step is about. */
  function RootOf(s: State, l: Label): Root
    requires l.By? && Enabled(s, l)
  {
    Target(s.agents[l.agent], l.act).value
  }

  ghost predicate SafeRemoval(s: State, l: Label)
    requires Enabled(s, l)
  {
    Removes(l) ==> NoPostmaster(s, RootOf(s, l))
  }

  lemma KeptStep(s: State, l: Label)
    requires LockFileOwns(s) && Enabled(s, l) && !Removes(l)
    ensures LockFileOwns(Apply(s, l))
  {
    var t := Apply(s, l);
    forall c, pid | LivePostmaster(t, c, pid)
      ensures c in t.roots && t.roots[c].pidFile == Names(pid)
    {
      if pid in s.procs && s.procs[pid] == t.procs[pid] {
        assert LivePostmaster(s, c, pid);
        if l.Of? && l.world.Exit? && s.procs[l.world.pid].program == Postmaster(c) {
          assert LivePostmaster(s, c, l.world.pid);
        }
      }
    }
  }

  lemma RemovalStep(s: State, l: Label)
    requires LockFileOwns(s) && Enabled(s, l) && Removes(l)
    ensures LockFileOwns(Apply(s, l)) <==> NoPostmaster(s, RootOf(s, l))
  {
    var t, r := Apply(s, l), RootOf(s, l);
    assert t.roots[r].pidFile == Absent;
    forall c, pid
      ensures LivePostmaster(t, c, pid) <==> LivePostmaster(s, c, pid)
    {
    }
  }

  /** One step keeps the lock file's ownership exactly when it is not an unsafe removal. */
  lemma OwnershipStep(s: State, l: Label)
    requires LockFileOwns(s) && Enabled(s, l)
    ensures LockFileOwns(Apply(s, l)) <==> SafeRemoval(s, l)
  {
    if Removes(l) { RemovalStep(s, l); } else { KeptStep(s, l); }
  }

  // ---------- runs ----------

  lemma RunPrefix(s: State, ls: seq<Label>, k: nat)
    requires IsRun(s, ls) && k <= |ls|
    ensures IsRun(s, ls[..k])
    ensures k < |ls| ==> Enabled(After(s, ls[..k]), ls[k])
    ensures k < |ls| ==> IsRun(s, ls[..k + 1]) && After(s, ls[..k + 1]) == Apply(After(s, ls[..k]), ls[k])
    decreases k
  {
    if k == 0 {
      if |ls| > 0 {
        assert ls[..1] == [ls[0]];
        assert ls[..1][1..] == [];
      }
    } else {
      RunPrefix(Apply(s, ls[0]), ls[1..], k - 1);
      assert ls[..k][1..] == ls[1..][..k - 1];
      if k < |ls| { assert ls[..k + 1][1..] == ls[1..][..k]; }
    }
  }

  /** The state after the first k labels. */
  ghost function StateAt(s: State, ls: seq<Label>, k: nat): State
    requires IsRun(s, ls) && k <= |ls|
  {
    RunPrefix(s, ls, k);
    After(s, ls[..k])
  }

  lemma Steps(s: State, ls: seq<Label>, k: nat)
    requires IsRun(s, ls) && k < |ls|
    ensures Enabled(StateAt(s, ls, k), ls[k])
    ensures StateAt(s, ls, k + 1) == Apply(StateAt(s, ls, k), ls[k])
  {
    RunPrefix(s, ls, k);
  }

  /** Label k of a run removes no live postmaster's lock file. */
  ghost predicate SafeAt(s: State, ls: seq<Label>, k: nat)
    requires IsRun(s, ls) && k < |ls|
  {
    Steps(s, ls, k);
    SafeRemoval(StateAt(s, ls, k), ls[k])
  }

  /**
   Over a whole run, with no other hypothesis: every live postmaster stays named by its
   lock file exactly as long as no agent has removed the file of a live one.
   */
  lemma {:induction false} OwnershipOverRuns(s: State, ls: seq<Label>, n: nat)
    requires LockFileOwns(s) && IsRun(s, ls) && n <= |ls|
    ensures (forall k: nat :: k <= n ==> LockFileOwns(StateAt(s, ls, k)))
       <==> (forall k: nat :: k < n ==> SafeAt(s, ls, k))
  {
    if n == 0 {
      assert StateAt(s, ls, 0) == s;
    } else {
      OwnershipOverRuns(s, ls, n - 1);
      Steps(s, ls, n - 1);
      var before, after := StateAt(s, ls, n - 1), StateAt(s, ls, n);
      if LockFileOwns(before) {
        OwnershipStep(before, ls[n - 1]);
        assert SafeAt(s, ls, n - 1) <==> LockFileOwns(after);
      }
    }
  }

  // ---------- locks, marks and records ----------

  /** Marks are never reused: every mark in sight was handed out once. */
  ghost predicate MarksKnown(s: State) {
    && (forall pid :: pid in s.procs ==> pid > 0 && MarkAt(s, pid) in s.used)
    && (forall r, m :: (r, m) in s.recorded ==> m in s.used)
    && (forall a :: a in s.agents && s.agents[a].Attached? && s.agents[a].run.Some? ==> s.agents[a].run.value in s.used)
  }

  ghost predicate AgentLives(s: State, a: Mark) {
    a in s.agents ==> Lives(s, a) && s.procs[a.pid].program.Other?
  }

  /** A phase that holds a root holds that root's lock. */
  ghost predicate PhaseLocks(s: State, a: Mark) {
    a in s.agents && Holding(s.agents[a]).Some? ==>
      s.agents[a].root in s.roots && s.roots[s.agents[a].root].lock == Some(a)
  }

  /** A taken lock is held by an agent in such a phase. */
  ghost predicate LockHeld(s: State, r: Root) {
    r in s.roots && s.roots[r].lock.Some? ==>
      s.roots[r].lock.value in s.agents && Holding(s.agents[s.roots[r].lock.value]) == Some(r)
  }

  ghost predicate LocksAgree(s: State) {
    (forall a :: PhaseLocks(s, a)) && (forall r :: LockHeld(s, r))
  }

  /** Records, and the marks agents signal on, come from the history of recordings. */
  ghost predicate RecordKnown(s: State, r: Root) {
    r in s.roots && s.roots[r].record.Some? ==> (r, s.roots[r].record.value.postmaster) in s.recorded
  }

  ghost predicate SignalKnown(s: State, a: Mark) {
    a in s.agents && (s.agents[a].Signalling? || s.agents[a].Waiting?) ==>
      (s.agents[a].root, s.agents[a].record.postmaster) in s.recorded
  }

  ghost predicate RecordsKnown(s: State) {
    (forall r :: RecordKnown(s, r)) && (forall a :: SignalKnown(s, a))
  }

  ghost predicate Base(s: State) {
    MarksKnown(s) && (forall a :: AgentLives(s, a)) && LocksAgree(s) && RecordsKnown(s)
  }

  /** An agent starts a step with its root's lock or takes it free, and ends as its phase says. */
  lemma ActLocks(s: State, a: Mark, act: Act)
    requires ActEnabled(s, a, act) && LocksAgree(s)
    ensures var p := s.agents[a];
            var r := Target(p, act).value;
            var next := NextPhase(s, p, r, act);
            && (Holding(p) == Some(r) || Holding(p).None?)
            && (s.roots[r].lock == Some(a) || s.roots[r].lock.None?)
            && (Holding(next) == Some(r) || Holding(next).None?)
  {
    assert PhaseLocks(s, a);
  }

  lemma MarksKnownWorld(s: State, w: World)
    requires Base(s) && WorldEnabled(s, w)
    ensures MarksKnown(ApplyWorld(s, w))
  {
    var t := ApplyWorld(s, w);
    assert s.used <= t.used && t.recorded == s.recorded;
    forall pid | pid in t.procs
      ensures pid > 0 && MarkAt(t, pid) in t.used
    {
      if pid in s.procs && s.procs[pid] == t.procs[pid] { assert MarkAt(s, pid) in s.used; }
    }
  }

  lemma MarksKnownAct(s: State, a: Mark, act: Act)
    requires Base(s) && ActEnabled(s, a, act)
    ensures MarksKnown(ApplyAct(s, a, act))
  {
    var t, r := ApplyAct(s, a, act), Target(s.agents[a], act).value;
    assert s.used <= t.used;
    forall pid | pid in t.procs
      ensures pid > 0 && MarkAt(t, pid) in t.used
    {
      if pid in s.procs && s.procs[pid] == t.procs[pid] { assert MarkAt(s, pid) in s.used; }
    }
    if act.Register? && act.run.Some? {
      assert MarkAt(s, act.run.value.pid) == act.run.value;
    }
    if act.RecordPostmaster? {
      assert MarkAt(s, PidFileOwner(s, r).value) == Recorded(s, r, act).postmaster;
    }
  }

  lemma AgentLivesStep(s: State, l: Label, b: Mark)
    requires AgentLives(s, b) && Enabled(s, l)
    ensures AgentLives(Apply(s, l), b)
  {
  }

  lemma LocksAgreeWorld(s: State, w: World)
    requires LocksAgree(s) && WorldEnabled(s, w)
    ensures LocksAgree(ApplyWorld(s, w))
  {
    var t := ApplyWorld(s, w);
    assert w.Exit? ==> PhaseLocks(s, MarkAt(s, w.pid));
    forall b
      ensures PhaseLocks(t, b)
    {
      assert PhaseLocks(s, b);
    }
    forall r
      ensures LockHeld(t, r)
    {
      assert LockHeld(s, r);
    }
  }

  lemma LocksAgreeAct(s: State, a: Mark, act: Act)
    requires LocksAgree(s) && ActEnabled(s, a, act)
    ensures LocksAgree(ApplyAct(s, a, act))
  {
    var t := ApplyAct(s, a, act);
    ActLocks(s, a, act);
    forall b
      ensures PhaseLocks(t, b)
    {
      assert PhaseLocks(s, b);
    }
    forall r
      ensures LockHeld(t, r)
    {
      assert LockHeld(s, r);
    }
  }

  lemma RecordsKnownStep(s: State, l: Label)
    requires RecordsKnown(s) && Enabled(s, l)
    ensures RecordsKnown(Apply(s, l))
  {
    var t := Apply(s, l);
    forall r
      ensures RecordKnown(t, r)
    {
      assert RecordKnown(s, r);
    }
    forall a
      ensures SignalKnown(t, a)
    {
      assert SignalKnown(s, a);
      if l.By? { assert RecordKnown(s, RootOf(s, l)); }
    }
  }

  lemma BaseStep(s: State, l: Label)
    requires Base(s) && Enabled(s, l)
    ensures Base(Apply(s, l))
  {
    match l {
      case Of(w) => MarksKnownWorld(s, w); LocksAgreeWorld(s, w);
      case By(a, act) => MarksKnownAct(s, a, act); LocksAgreeAct(s, a, act);
    }
    forall b ensures AgentLives(Apply(s, l), b) { AgentLivesStep(s, l, b); }
    RecordsKnownStep(s, l);
  }

  // ---------- what a careful run leaves out ----------

  /** An agent between deciding that nothing holds the cluster and removing its lock file. */
  predicate Removing(p: Phase) {
    p.Clearing? || p.Waiting? || p.Forgetting? || p.Sweeping?
  }

  /** A failed inspection is not read as the end of the postmaster being stopped. */
  ghost predicate GoneIsTrue(s: State, l: Label)
    requires Enabled(s, l)
  {
    l.By? && l.act.WaitOver? ==>
      var m := s.agents[l.agent].record.postmaster;
      !(Lives(s, m) && LivePostmaster(s, s.agents[l.agent].root, m.pid))
  }

  /** No abandoned pg_ctl lands while an agent is about to remove that cluster's lock file. */
  ghost predicate NoLateLaunch(s: State, l: Label)
    requires Enabled(s, l)
  {
    l.Of? && l.world.LateLaunch? ==>
      forall a :: a in s.agents && Holding(s.agents[a]) == Some(l.world.on) ==> !Removing(s.agents[a])
  }

  /** The two things the program cannot see both went well. */
  ghost predicate Careful(s: State, l: Label)
    requires Enabled(s, l)
  {
    GoneIsTrue(s, l) && NoLateLaunch(s, l)
  }

  ghost predicate CarefulAt(s: State, ls: seq<Label>, k: nat)
    requires IsRun(s, ls) && k < |ls|
  {
    Steps(s, ls, k);
    Careful(StateAt(s, ls, k), ls[k])
  }

  ghost predicate CarefulRun(s: State, ls: seq<Label>)
    requires IsRun(s, ls)
  {
    forall k: nat :: k < |ls| ==> CarefulAt(s, ls, k)
  }

  // ---------- the invariant of careful runs ----------

  /** While a recorded birth lives, the lock file names its PID, be it a postmaster or a stranger. */
  ghost predicate Fits(s: State, r: Root, record: Record)
    requires r in s.roots
  {
    Lives(s, record.postmaster) ==>
      s.roots[r].pidFile == Names(record.postmaster.pid)
      && (record.hasSocket || LivePostmaster(s, r, record.postmaster.pid))
  }

  ghost predicate NothingRecorded(s: State, r: Root)
    requires r in s.roots
  {
    s.roots[r].record.None? || !Lives(s, s.roots[r].record.value.postmaster)
  }

  ghost predicate RecordFits(s: State, r: Root) {
    r in s.roots && s.roots[r].record.Some? ==> Fits(s, r, s.roots[r].record.value)
  }

  /** What an agent that goes by a root's record relies on. */
  ghost predicate AgentFits(s: State, a: Mark) {
    a in s.agents && Holding(s.agents[a]).Some? && s.agents[a].root in s.roots ==>
      var p := s.agents[a];
      && (p.Signalling? || p.Waiting? ==> Fits(s, p.root, p.record))
      && (p.Clearing? || p.Launching? ==> NothingRecorded(s, p.root))
      && (p.Sweeping? ==> s.roots[p.root].record.None?)
  }

  ghost predicate RecordsFit(s: State) {
    (forall r :: RecordFits(s, r)) && (forall a :: AgentFits(s, a))
  }

  ghost predicate WindowClear(s: State, a: Mark, pid: int) {
    a in s.agents && Removing(s.agents[a]) && LivePostmaster(s, s.agents[a].root, pid) ==>
      s.agents[a].Waiting? && MarkAt(s, pid) == s.agents[a].record.postmaster
  }

  /** While an agent is about to remove a lock file, nothing but what it stops holds the cluster. */
  ghost predicate WindowsClear(s: State) {
    forall a, pid :: WindowClear(s, a, pid)
  }

  ghost predicate Sound(s: State) {
    Base(s) && LockFileOwns(s) && RecordsFit(s) && WindowsClear(s)
  }

  lemma InitSound(s: State)
    requires Init(s)
    ensures Sound(s)
  {
  }

  lemma SoundRemoval(s: State, l: Label)
    requires Sound(s) && Enabled(s, l)
    ensures SafeRemoval(s, l)
  {
    if Removes(l) {
      forall pid
        ensures !LivePostmaster(s, RootOf(s, l), pid)
      {
        assert WindowClear(s, l.agent, pid);
      }
    }
  }

  /** A birth handed out once does not come back. */
  lemma StaysDead(s: State, l: Label, m: Mark)
    requires Base(s) && Enabled(s, l) && m in s.used && Lives(Apply(s, l), m)
    ensures Lives(s, m) && s.procs[m.pid] == Apply(s, l).procs[m.pid]
  {
  }

  lemma FitsWorld(s: State, w: World, r: Root, record: Record)
    requires Base(s) && LockFileOwns(s) && WorldEnabled(s, w) && r in s.roots
    requires record.postmaster in s.used && Fits(s, r, record)
    ensures Fits(ApplyWorld(s, w), r, record)
  {
    var t, m := ApplyWorld(s, w), record.postmaster;
    if Lives(t, m) {
      StaysDead(s, Of(w), m);
      if w.Exit? && s.procs[w.pid].program == Postmaster(r) { assert LivePostmaster(s, r, w.pid); }
    }
  }

  lemma RecordFitsWorld(s: State, w: World, r: Root)
    requires Sound(s) && WorldEnabled(s, w)
    ensures RecordFits(ApplyWorld(s, w), r)
  {
    if r in s.roots && s.roots[r].record.Some? {
      assert RecordKnown(s, r) && RecordFits(s, r);
      FitsWorld(s, w, r, s.roots[r].record.value);
    }
  }

  lemma AgentFitsWorld(s: State, w: World, a: Mark)
    requires Sound(s) && WorldEnabled(s, w)
    ensures AgentFits(ApplyWorld(s, w), a)
  {
    var t := ApplyWorld(s, w);
    if a in t.agents && Holding(t.agents[a]).Some? && t.agents[a].root in t.roots {
      var p := s.agents[a];
      assert t.agents[a] == p && AgentFits(s, a) && RecordKnown(s, p.root) && SignalKnown(s, a);
      if p.Signalling? || p.Waiting? { FitsWorld(s, w, p.root, p.record); }
      if t.roots[p.root].record.Some? && Lives(t, t.roots[p.root].record.value.postmaster) {
        StaysDead(s, Of(w), t.roots[p.root].record.value.postmaster);
      }
    }
  }

  lemma RecordFitsAct(s: State, a: Mark, act: Act, r: Root)
    requires Sound(s) && ActEnabled(s, a, act)
    ensures RecordFits(ApplyAct(s, a, act), r)
  {
    var t := ApplyAct(s, a, act);
    assert RecordKnown(s, r) && RecordFits(s, r) && AgentFits(s, a);
    if r in t.roots && t.roots[r].record.Some? && !act.RecordPostmaster? {
      if Lives(t, t.roots[r].record.value.postmaster) {
        StaysDead(s, By(a, act), t.roots[r].record.value.postmaster);
      }
    }
  }

  /** Once an agent disowns a lock file, no recorded birth of the root lives. */
  lemma DisownedIsUnrecorded(s: State, a: Mark, act: Act)
    requires Sound(s) && ActEnabled(s, a, act) && act.Disown?
    ensures NothingRecorded(s, s.agents[a].root)
  {
    assert RecordFits(s, s.agents[a].root);
  }

  lemma OwnFits(s: State, a: Mark, act: Act)
    requires Sound(s) && ActEnabled(s, a, act)
    ensures AgentFits(ApplyAct(s, a, act), a)
  {
    var t, r := ApplyAct(s, a, act), Target(s.agents[a], act).value;
    ActLocks(s, a, act);
    assert AgentFits(s, a) && RecordFits(s, r) && RecordKnown(s, r);
    if act.Disown? { DisownedIsUnrecorded(s, a, act); }
    if act.Launch? && s.roots[r].record.Some? && Lives(t, s.roots[r].record.value.postmaster) {
      StaysDead(s, By(a, act), s.roots[r].record.value.postmaster);
    }
  }

  /** A step of one agent leaves the files and the processes another one relies on alone. */
  lemma OtherFits(s: State, a: Mark, act: Act, b: Mark)
    requires Sound(s) && ActEnabled(s, a, act) && a != b
    ensures AgentFits(ApplyAct(s, a, act), b)
  {
    var t := ApplyAct(s, a, act);
    if b in s.agents && Holding(s.agents[b]).Some? && s.agents[b].root in s.roots {
      var p := s.agents[b];
      assert AgentFits(s, b) && PhaseLocks(s, b) && RecordKnown(s, p.root) && SignalKnown(s, b);
      ActLocks(s, a, act);
      assert t.roots[p.root] == s.roots[p.root];
      if (p.Signalling? || p.Waiting?) && Lives(t, p.record.postmaster) { StaysDead(s, By(a, act), p.record.postmaster); }
      if s.roots[p.root].record.Some? && Lives(t, s.roots[p.root].record.value.postmaster) {
        StaysDead(s, By(a, act), s.roots[p.root].record.value.postmaster);
      }
    }
  }

  lemma RecordsFitStep(s: State, l: Label)
    requires Sound(s) && Enabled(s, l)
    ensures RecordsFit(Apply(s, l))
  {
    forall r ensures RecordFits(Apply(s, l), r) {
      match l { case Of(w) => RecordFitsWorld(s, w, r); case By(a, act) => RecordFitsAct(s, a, act, r); }
    }
    forall b ensures AgentFits(Apply(s, l), b) {
      match l
      case Of(w) => AgentFitsWorld(s, w, b);
      case By(a, act) => if a == b { OwnFits(s, a, act); } else { OtherFits(s, a, act, b); }
    }
  }

  /** Disowning a lock file proves that nothing holds the cluster. */
  lemma DisownedIsFree(s: State, l: Label, pid: int)
    requires Sound(s) && Enabled(s, l) && l.By? && l.act.Disown?
    ensures !LivePostmaster(s, s.agents[l.agent].root, pid)
  {
    assert pid in s.procs ==> MarkAt(s, pid) in s.used;
  }

  /** A postmaster that still runs on the cluster when a stop is signalled is the recorded one. */
  lemma SignalledIsOnly(s: State, l: Label, pid: int)
    requires Sound(s) && Enabled(s, l) && l.By? && l.act.Signal?
    requires LivePostmaster(s, s.agents[l.agent].root, pid)
    ensures MarkAt(s, pid) == s.agents[l.agent].record.postmaster
  {
    assert AgentFits(s, l.agent);
  }

  lemma OwnWindow(s: State, l: Label, pid: int)
    requires Sound(s) && Enabled(s, l) && Careful(s, l) && l.By?
    ensures WindowClear(Apply(s, l), l.agent, pid)
  {
    var a := l.agent;
    assert WindowClear(s, a, pid);
    if l.act.Disown? { DisownedIsFree(s, l, pid); }
    else if l.act.Signal? && LivePostmaster(s, s.agents[a].root, pid) { SignalledIsOnly(s, l, pid); }
  }

  /** Two agents never act on one root: the one about to remove its lock file holds the lock. */
  lemma OtherWindow(s: State, l: Label, b: Mark, pid: int)
    requires Sound(s) && Enabled(s, l) && l.By? && b != l.agent
    ensures WindowClear(Apply(s, l), b, pid)
  {
    assert WindowClear(s, b, pid) && PhaseLocks(s, b);
    ActLocks(s, l.agent, l.act);
  }

  lemma OutsideWindow(s: State, l: Label, b: Mark, pid: int)
    requires Sound(s) && Enabled(s, l) && Careful(s, l) && l.Of?
    ensures WindowClear(Apply(s, l), b, pid)
  {
    assert WindowClear(s, b, pid);
  }

  lemma WindowsClearStep(s: State, l: Label)
    requires Sound(s) && Enabled(s, l) && Careful(s, l)
    ensures WindowsClear(Apply(s, l))
  {
    forall b, pid
      ensures WindowClear(Apply(s, l), b, pid)
    {
      if l.Of? { OutsideWindow(s, l, b, pid); }
      else if l.agent == b { OwnWindow(s, l, pid); }
      else { OtherWindow(s, l, b, pid); }
    }
  }

  /** A careless step leaves a live postmaster behind the back of an agent about to remove its lock file. */
  lemma CarelessWindow(s: State, l: Label) returns (a: Mark, pid: int)
    requires Sound(s) && Enabled(s, l) && !Careful(s, l)
    ensures !WindowClear(Apply(s, l), a, pid)
  {
    if l.By? {
      a, pid := l.agent, s.agents[l.agent].record.postmaster.pid;
    } else {
      a :| a in s.agents && Holding(s.agents[a]) == Some(l.world.on) && Removing(s.agents[a]);
      pid := l.world.late.pid;
      assert SignalKnown(s, a) && AgentLives(s, a);
    }
  }

  /** The hypothesis is exact: a step keeps the invariant if and only if it is careful. */
  lemma SoundExactly(s: State, l: Label)
    requires Sound(s) && Enabled(s, l)
    ensures Sound(Apply(s, l)) <==> Careful(s, l)
  {
    if Careful(s, l) {
      BaseStep(s, l);
      SoundRemoval(s, l);
      OwnershipStep(s, l);
      RecordsFitStep(s, l);
      WindowsClearStep(s, l);
    } else {
      var a, pid := CarelessWindow(s, l);
    }
  }

  lemma {:induction false} SoundAlways(s: State, ls: seq<Label>, k: nat)
    requires Sound(s) && IsRun(s, ls) && CarefulRun(s, ls) && k <= |ls|
    ensures Sound(StateAt(s, ls, k))
  {
    if k == 0 {
      assert StateAt(s, ls, 0) == s;
    } else {
      SoundAlways(s, ls, k - 1);
      Steps(s, ls, k - 1);
      assert CarefulAt(s, ls, k - 1);
      SoundExactly(StateAt(s, ls, k - 1), ls[k - 1]);
    }
  }

  /** However agents, collections, crashes and PID reuse interleave, one cluster has one live postmaster. */
  lemma SinglePostmaster(s: State, ls: seq<Label>, k: nat)
    requires Init(s) && IsRun(s, ls) && CarefulRun(s, ls) && k <= |ls|
    ensures AtMostOnePostmaster(StateAt(s, ls, k))
  {
    InitSound(s);
    SoundAlways(s, ls, k);
  }
}
