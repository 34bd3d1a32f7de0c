/** Whom a stop signal reaches, and while whom it is never sent. */
module RunServerSignals {
  import opened Options
  import opened RunServer
  import opened RunServerSafety

  lemma {:induction false} BaseAlways(s: State, ls: seq<Label>, k: nat)
    requires Init(s) && IsRun(s, ls) && k <= |ls|
    ensures Base(StateAt(s, ls, k))
  {
    if k == 0 {
      InitSound(s);
      assert StateAt(s, ls, 0) == s;
    } else {
      BaseAlways(s, ls, k - 1);
      Steps(s, ls, k - 1);
      BaseStep(StateAt(s, ls, k - 1), ls[k - 1]);
    }
  }

  /**
   In every run: a signal goes out only under the root's lock, and the process it reaches
   is the one whose PID, start id and boot id were recorded for that root.
   */
  lemma SignalsReachTheRecorded(s: State, ls: seq<Label>, k: nat)
    requires Init(s) && IsRun(s, ls) && k < |ls| && ls[k].By? && ls[k].act.Signal?
    ensures var now, a := StateAt(s, ls, k), ls[k].agent;
            && a in now.agents && (now.agents[a].Signalling? || now.agents[a].Waiting?)
            && var r, target := now.agents[a].root, now.agents[a].record.postmaster;
               && r in now.roots && now.roots[r].lock == Some(a)
               && (r, target) in now.recorded
               && Lives(now, target)
  {
    BaseAlways(s, ls, k);
    Steps(s, ls, k);
    assert PhaseLocks(StateAt(s, ls, k), ls[k].agent) && SignalKnown(StateAt(s, ls, k), ls[k].agent);
  }

  /** A mark enters the history only when the lock holder finds it behind the cluster's lock file. */
  lemma RecordedUnderLock(s: State, ls: seq<Label>, k: nat, r: Root, m: Mark)
    requires Init(s) && IsRun(s, ls) && k < |ls|
    requires (r, m) in StateAt(s, ls, k + 1).recorded && (r, m) !in StateAt(s, ls, k).recorded
    ensures var now := StateAt(s, ls, k);
            && ls[k].By? && r in now.roots && now.roots[r].lock == Some(ls[k].agent)
            && now.roots[r].pidFile == Names(m.pid) && Lives(now, m)
  {
    BaseAlways(s, ls, k);
    Steps(s, ls, k);
    if ls[k].By? { assert PhaseLocks(StateAt(s, ls, k), ls[k].agent); }
  }

  /** The PID pg_ctl reported is not reused before its birth is recorded. */
  ghost predicate RecordedInTime(s: State, l: Label)
    requires Enabled(s, l)
  {
    l.By? && l.act.RecordPostmaster? ==> LivePostmaster(s, RootOf(s, l), PidFileOwner(s, RootOf(s, l)).value)
  }

  ghost predicate TimelyAt(s: State, ls: seq<Label>, k: nat)
    requires IsRun(s, ls) && k < |ls|
  {
    Steps(s, ls, k);
    RecordedInTime(StateAt(s, ls, k), ls[k])
  }

  /** A recorded process that lives is its cluster's postmaster. */
  ghost predicate RecordsTrue(s: State) {
    forall r, m :: (r, m) in s.recorded && Lives(s, m) ==> LivePostmaster(s, r, m.pid)
  }

  lemma RecordsTrueExactly(s: State, l: Label)
    requires Base(s) && RecordsTrue(s) && Enabled(s, l)
    ensures RecordsTrue(Apply(s, l)) <==> RecordedInTime(s, l)
  {
    var t := Apply(s, l);
    if !RecordedInTime(s, l) {
      var r := RootOf(s, l);
      var m := Recorded(s, r, l.act).postmaster;
      assert (r, m) in t.recorded && Lives(t, m) && !LivePostmaster(t, r, m.pid);
    }
  }

  lemma {:induction false} RecordsTrueAlways(s: State, ls: seq<Label>, k: nat)
    requires Init(s) && IsRun(s, ls) && k <= |ls|
    requires forall j: nat :: j < k ==> TimelyAt(s, ls, j)
    ensures RecordsTrue(StateAt(s, ls, k))
  {
    if k == 0 {
      assert StateAt(s, ls, 0) == s;
    } else {
      RecordsTrueAlways(s, ls, k - 1);
      BaseAlways(s, ls, k - 1);
      Steps(s, ls, k - 1);
      assert TimelyAt(s, ls, k - 1);
      RecordsTrueExactly(StateAt(s, ls, k - 1), ls[k - 1]);
    }
  }

  /** When no PID is reused before it is recorded, a signal reaches only the root's own postmaster. */
  lemma SignalsReachTheOwnPostmaster(s: State, ls: seq<Label>, k: nat)
    requires Init(s) && IsRun(s, ls) && k < |ls| && ls[k].By? && ls[k].act.Signal?
    requires forall j: nat :: j < k ==> TimelyAt(s, ls, j)
    ensures var now, a := StateAt(s, ls, k), ls[k].agent;
            && a in now.agents && (now.agents[a].Signalling? || now.agents[a].Waiting?)
            && LivePostmaster(now, now.agents[a].root, now.agents[a].record.postmaster.pid)
  {
    SignalsReachTheRecorded(s, ls, k);
    RecordsTrueAlways(s, ls, k);
  }

  // ---------- never while a live agent of a live run is attached ----------

  /** b is attached to r, alive, and so is the run that launched it. */
  ghost predicate Served(s: State, r: Root, b: Mark) {
    && b in s.agents && s.agents[b].Attached? && s.agents[b].root == r
    && (s.agents[b].run.Some? ==> Lives(s, s.agents[b].run.value))
  }

  ghost predicate Unserved(s: State, r: Root) {
    forall b :: !Served(s, r, b)
  }

  /** A holder file that cannot be read is not that of a served agent. */
  ghost predicate ReadsHolders(s: State, l: Label)
    requires Enabled(s, l)
  {
    l.By? && l.act.PruneOne? && !l.act.read ==>
      forall b :: Served(s, RootOf(s, l), b) ==> s.agents[b].service != l.act.holder
  }

  /** No second agent attaches for a service that already has one. */
  ghost predicate OnePerService(s: State, l: Label)
    requires Enabled(s, l)
  {
    l.By? && l.act.Register? ==>
      forall b :: b in s.agents && s.agents[b].Attached? && s.agents[b].root == RootOf(s, l) ==>
        s.agents[b].service != s.agents[l.agent].service
  }

  ghost predicate AttendedAt(s: State, ls: seq<Label>, k: nat)
    requires IsRun(s, ls) && k < |ls|
  {
    Steps(s, ls, k);
    ReadsHolders(StateAt(s, ls, k), ls[k]) && OnePerService(StateAt(s, ls, k), ls[k])
  }

  /** A served agent's record is in place. */
  ghost predicate Registered(s: State, r: Root, b: Mark) {
    Served(s, r, b) ==>
      var p := s.agents[b];
      r in s.roots && p.service in s.roots[r].holders && s.roots[r].holders[p.service] == Holder(b, p.run)
  }

  ghost predicate Distinct(s: State, b: Mark, c: Mark) {
    b != c && b in s.agents && c in s.agents && s.agents[b].Attached? && s.agents[c].Attached?
    && s.agents[b].root == s.agents[c].root ==>
      s.agents[b].service != s.agents[c].service
  }

  /** A pruning agent has counted, or will still read, every served agent's record. */
  ghost predicate Counted(s: State, a: Mark, b: Mark) {
    a in s.agents && s.agents[a].Pruning? && Served(s, s.agents[a].root, b) ==>
      s.agents[b].service in s.agents[a].pending || s.agents[a].live > 0
  }

  /** Phases reached only after a prune that found nobody. */
  predicate FoundNobody(p: Phase) {
    match p
    case Examining(_, _, live) => live == 0
    case Clearing(_, _, live) => live == 0
    case Launching(_, _, live) => live == 0
    case Recording(_, _, live) => live == 0
    case Joining(_, _, live, _) => live == 0
    case Stopping(_) => true
    case Signalling(_, _) => true
    case Waiting(_, _) => true
    case Forgetting(_) => true
    case Sweeping(_) => true
    case _ => false
  }

  ghost predicate Quiet(s: State, a: Mark, b: Mark) {
    a in s.agents && FoundNobody(s.agents[a]) ==> !Served(s, s.agents[a].root, b)
  }

  ghost predicate Attended(s: State) {
    && (forall r, b :: Registered(s, r, b))
    && (forall b, c :: Distinct(s, b, c))
    && (forall a, b :: Counted(s, a, b))
    && (forall a, b :: Quiet(s, a, b))
  }

  /** Being served is lost or gained only by the agent's own step or by a death. */
  lemma ServedBefore(s: State, l: Label, r: Root, b: Mark)
    requires Base(s) && Enabled(s, l) && Served(Apply(s, l), r, b)
    requires !(l.By? && l.agent == b && l.act.Register?)
    ensures Served(s, r, b) && s.agents[b] == Apply(s, l).agents[b]
  {
    var t := Apply(s, l);
    assert s.agents[b] == t.agents[b];
    if t.agents[b].run.Some? {
      var m := t.agents[b].run.value;
      assert m in s.used;
      assert Lives(s, m);
    }
  }

  lemma RegisteredWorld(s: State, w: World, r: Root, b: Mark)
    requires Base(s) && Attended(s) && WorldEnabled(s, w)
    ensures Registered(ApplyWorld(s, w), r, b)
  {
    if Served(ApplyWorld(s, w), r, b) {
      ServedBefore(s, Of(w), r, b);
      assert Registered(s, r, b);
    }
  }

  lemma RegisteredAct(s: State, a: Mark, act: Act, r: Root, b: Mark)
    requires Base(s) && Attended(s) && ActEnabled(s, a, act)
    requires ReadsHolders(s, By(a, act)) && OnePerService(s, By(a, act))
    ensures Registered(ApplyAct(s, a, act), r, b)
  {
    var t := ApplyAct(s, a, act);
    ActLocks(s, a, act);
    if Served(t, r, b) && !(a == b && act.Register?) {
      ServedBefore(s, By(a, act), r, b);
      assert Registered(s, r, b) && Distinct(s, a, b);
      assert AgentLives(s, b);
    }
  }

  lemma DistinctStep(s: State, l: Label, b: Mark, c: Mark)
    requires Attended(s) && Enabled(s, l) && OnePerService(s, l)
    ensures Distinct(Apply(s, l), b, c)
  {
    assert Distinct(s, b, c);
  }

  lemma CountedWorld(s: State, w: World, a: Mark, b: Mark)
    requires Base(s) && Attended(s) && WorldEnabled(s, w)
    ensures Counted(ApplyWorld(s, w), a, b) && Quiet(ApplyWorld(s, w), a, b)
  {
    var t := ApplyWorld(s, w);
    assert Counted(s, a, b) && Quiet(s, a, b);
    if a in t.agents && Holding(t.agents[a]).Some? && Served(t, t.agents[a].root, b) {
      ServedBefore(s, Of(w), t.agents[a].root, b);
    }
  }

  lemma CountedOwn(s: State, a: Mark, act: Act, b: Mark)
    requires Base(s) && Attended(s) && ActEnabled(s, a, act) && ReadsHolders(s, By(a, act))
    ensures Counted(ApplyAct(s, a, act), a, b) && Quiet(ApplyAct(s, a, act), a, b)
  {
    var t := ApplyAct(s, a, act);
    ActLocks(s, a, act);
    assert Counted(s, a, b) && Quiet(s, a, b);
    if Holding(t.agents[a]).Some? && Served(t, t.agents[a].root, b) {
      ServedBefore(s, By(a, act), t.agents[a].root, b);
      assert Registered(s, t.agents[a].root, b) && AgentLives(s, b) && Distinct(s, a, b);
    }
  }

  lemma CountedOther(s: State, c: Mark, act: Act, a: Mark, b: Mark)
    requires Base(s) && Attended(s) && ActEnabled(s, c, act) && a != c
    ensures Counted(ApplyAct(s, c, act), a, b) && Quiet(ApplyAct(s, c, act), a, b)
  {
    var t := ApplyAct(s, c, act);
    ActLocks(s, c, act);
    assert Counted(s, a, b) && Quiet(s, a, b) && PhaseLocks(s, a);
    if a in t.agents && Holding(t.agents[a]).Some? && Served(t, t.agents[a].root, b) {
      ServedBefore(s, By(c, act), t.agents[a].root, b);
    }
  }

  lemma AttendedStep(s: State, l: Label)
    requires Base(s) && Attended(s) && Enabled(s, l) && ReadsHolders(s, l) && OnePerService(s, l)
    ensures Attended(Apply(s, l))
  {
    var t := Apply(s, l);
    forall r, b ensures Registered(t, r, b) {
      match l { case Of(w) => RegisteredWorld(s, w, r, b); case By(a, act) => RegisteredAct(s, a, act, r, b); }
    }
    forall b, c ensures Distinct(t, b, c) { DistinctStep(s, l, b, c); }
    forall a, b ensures Counted(t, a, b) && Quiet(t, a, b) {
      match l
      case Of(w) => CountedWorld(s, w, a, b);
      case By(c, act) => if a == c { CountedOwn(s, a, act, b); } else { CountedOther(s, c, act, a, b); }
    }
  }

  /** A step that breaks a hypothesis leaves a served agent without its record, or two under one. */
  lemma UnattendedStep(s: State, l: Label)
    requires Base(s) && Attended(s) && Enabled(s, l) && !(ReadsHolders(s, l) && OnePerService(s, l))
    ensures !Attended(Apply(s, l))
  {
    var t, r, a := Apply(s, l), RootOf(s, l), l.agent;
    if !ReadsHolders(s, l) {
      var b :| Served(s, r, b) && s.agents[b].service == l.act.holder;
      assert !Registered(t, r, b);
    } else {
      var b :| b in s.agents && s.agents[b].Attached? && s.agents[b].root == r && s.agents[b].service == s.agents[a].service;
      assert !Distinct(t, a, b);
    }
  }

  /** Both hypotheses are exact: a step keeps every served agent on record if and only if it meets them. */
  lemma AttendedExactly(s: State, l: Label)
    requires Base(s) && Attended(s) && Enabled(s, l)
    ensures Attended(Apply(s, l)) <==> ReadsHolders(s, l) && OnePerService(s, l)
  {
    if ReadsHolders(s, l) && OnePerService(s, l) { AttendedStep(s, l); } else { UnattendedStep(s, l); }
  }

  lemma {:induction false} AttendedAlways(s: State, ls: seq<Label>, k: nat)
    requires Init(s) && IsRun(s, ls) && k <= |ls|
    requires forall j: nat :: j < k ==> AttendedAt(s, ls, j)
    ensures Attended(StateAt(s, ls, k))
  {
    if k == 0 {
      assert StateAt(s, ls, 0) == s;
    } else {
      AttendedAlways(s, ls, k - 1);
      BaseAlways(s, ls, k - 1);
      Steps(s, ls, k - 1);
      assert AttendedAt(s, ls, k - 1);
      AttendedStep(StateAt(s, ls, k - 1), ls[k - 1]);
    }
  }

  /**
   While an attached agent and the run that launched it are alive, nobody signals their
   server: not a releasing agent, not a failed acquire, not another run's collection.
   */
  lemma ServedIsNeverSignalled(s: State, ls: seq<Label>, k: nat)
    requires Init(s) && IsRun(s, ls) && k < |ls| && ls[k].By? && ls[k].act.Signal?
    requires forall j: nat :: j < k ==> AttendedAt(s, ls, j)
    ensures ls[k].agent in StateAt(s, ls, k).agents && !StateAt(s, ls, k).agents[ls[k].agent].Idle?
    ensures Unserved(StateAt(s, ls, k), StateAt(s, ls, k).agents[ls[k].agent].root)
  {
    hide IsRun, After, Apply;
    AttendedAlways(s, ls, k);
    Steps(s, ls, k);
    var now, a := StateAt(s, ls, k), ls[k].agent;
    forall b
      ensures !Served(now, now.agents[a].root, b)
    {
      assert Quiet(now, a, b);
    }
  }
}
