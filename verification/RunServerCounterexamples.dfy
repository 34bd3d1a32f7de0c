/** Runs that show the hypotheses of the safety theorems are needed. */
module RunServerCounterexamples {
  import opened Options
  import opened RunServer
  import opened RunServerSafety
  import opened RunServerSignals

  const R: Root := "run"
  const P := Mark(10, 1, "boot")
  const A := Mark(20, 2, "boot")
  const B := Mark(21, 2, "boot")
  const Q := Mark(30, 3, "boot")
  const LATE := Mark(31, 3, "boot")
  const REUSED := Mark(30, 4, "boot")
  const SEEN := Identity(1, "boot", "postgres")
  const SERVER := Record(P, true)
  const FREE := RootState(None, map[], None, Absent, 0)

  const PROCS := map[10 := Process(1, "boot", Postmaster(R)),
                     20 := Process(2, "boot", Other("agent")),
                     21 := Process(2, "boot", Other("agent"))]

  /** A run's server left running and recorded, and two processes that may become agents. */
  function Left(late: nat): State {
    State(PROCS, {P, A, B}, map[], map[R := RootState(None, map[], Some(SERVER), Names(10), late)], {(R, P)})
  }

  /** The files of the run's root while an agent holds its lock. */
  function Locked(a: Mark, late: nat): RootState {
    RootState(Some(a), map[], Some(SERVER), Names(10), late)
  }

  lemma LeftIsInitial(late: nat)
    ensures Init(Left(late))
  {
  }

  /** A run ending in t goes on to u by one more label. */
  lemma Extend(s: State, ls: seq<Label>, t: State, l: Label, u: State)
    requires IsRun(s, ls) && After(s, ls) == t && Enabled(t, l) && Apply(t, l) == u
    ensures IsRun(s, ls + [l]) && After(s, ls + [l]) == u
    decreases |ls|
  {
    if ls == [] {
      assert ls + [l] == [l] && [l][1..] == [];
    } else {
      Extend(Apply(s, ls[0]), ls[1..], t, l, u);
      assert (ls + [l])[1..] == ls[1..] + [l];
    }
  }

  lemma Nothing(s: State)
    ensures IsRun(s, []) && After(s, []) == s
  {
  }

  /** t with agent a in phase p and the root's files rs. */
  function At(t: State, a: Mark, p: Phase, rs: RootState): State {
    t.(agents := t.agents[a := p], roots := map[R := rs])
  }

  /** One more act of agent a, which leaves it in phase q with the files fs. */
  lemma Do(s: State, ls: seq<Label>, t: State, a: Mark, p: Phase, rs: RootState, act: Act, q: Phase, fs: RootState)
    requires IsRun(s, ls) && After(s, ls) == At(t, a, p, rs)
    requires Target(p, act) == Some(R) && !act.Launch? && !act.RecordPostmaster?
    requires Allowed(At(t, a, p, rs), p, R, act)
    requires q == NextPhase(At(t, a, p, rs), p, R, act)
    requires fs == NextFiles(At(t, a, p, rs), a, p, R, act).(lock := if Holding(q).Some? then Some(a) else None)
    ensures IsRun(s, ls + [By(a, act)]) && After(s, ls + [By(a, act)]) == At(t, a, q, fs)
  {
    hide IsRun, After;
    assert t.agents[a := p][a := q] == t.agents[a := q];
    assert (map[R := rs])[R := fs] == map[R := fs];
    Extend(s, ls, At(t, a, p, rs), By(a, act), At(t, a, q, fs));
  }

  lemma StopBegins(s: State, ls: seq<Label>, t: State, a: Mark, rs: RootState) returns (more: seq<Label>)
    requires IsRun(s, ls) && After(s, ls) == At(t, a, Stopping(R), rs)
    requires rs.lock == Some(a) && rs.record == Some(SERVER) && 10 in t.procs && t.procs[10] == PROCS[10]
    ensures more == ls + [By(a, ConfirmStop(SEEN))] + [By(a, Signal(SEEN))]
    ensures IsRun(s, more) && After(s, more) == At(t, a, Waiting(R, SERVER), rs)
  {
    hide IsRun, After;
    Do(s, ls, t, a, Stopping(R), rs, ConfirmStop(SEEN), Signalling(R, SERVER), rs);
    more := ls + [By(a, ConfirmStop(SEEN))];
    Do(s, more, t, a, Signalling(R, SERVER), rs, Signal(SEEN), Waiting(R, SERVER), rs);
    more := more + [By(a, Signal(SEEN))];
  }

  lemma SweepEnds(s: State, ls: seq<Label>, t: State, a: Mark, rs: RootState, seen: Inspection) returns (more: seq<Label>)
    requires IsRun(s, ls) && After(s, ls) == At(t, a, Waiting(R, SERVER), rs) && rs.lock == Some(a)
    requires Honest(t, P.pid, seen) && !Confirmed(P, seen)
    ensures IsRun(s, more)
    ensures After(s, more) == At(t, a, Idle, rs.(lock := None, record := None, pidFile := Absent))
  {
    hide IsRun, After;
    Do(s, ls, t, a, Waiting(R, SERVER), rs, WaitOver(seen), Forgetting(R), rs);
    more := ForgetsAndSweeps(s, ls + [By(a, WaitOver(seen))], t, a, rs);
  }

  lemma ForgetsAndSweeps(s: State, ls: seq<Label>, t: State, a: Mark, rs: RootState) returns (more: seq<Label>)
    requires IsRun(s, ls) && After(s, ls) == At(t, a, Forgetting(R), rs) && rs.lock == Some(a)
    ensures IsRun(s, more)
    ensures After(s, more) == At(t, a, Idle, rs.(lock := None, record := None, pidFile := Absent))
  {
    hide IsRun, After;
    var forgot := rs.(record := None);
    Do(s, ls, t, a, Forgetting(R), rs, Forget, Sweeping(R), forgot);
    more := ls + [By(a, Forget)];
    Do(s, more, t, a, Sweeping(R), forgot, Sweep, Idle, forgot.(lock := None, pidFile := Absent));
    more := more + [By(a, Sweep)];
  }

  /** An acquire that finds no holder, no record and no lock file is ready to start a postmaster. */
  lemma Prepares(s: State, ls: seq<Label>, t: State, a: Mark, late: nat) returns (more: seq<Label>)
    requires IsRun(s, ls) && After(s, ls) == At(t, a, Idle, FREE.(lateLaunches := late))
    ensures IsRun(s, more)
    ensures After(s, more) == At(t, a, Clearing(R, "db", 0), FREE.(lock := Some(a), lateLaunches := late))
  {
    hide IsRun, After;
    var free := FREE.(lateLaunches := late);
    var rs := free.(lock := Some(a));
    assert free.holders.Keys == {};
    Do(s, ls, t, a, Idle, free, BeginAcquire(R, "db"), Pruning(R, ForAcquire("db"), {}, 0), rs);
    more := ls + [By(a, BeginAcquire(R, "db"))];
    Do(s, more, t, a, Pruning(R, ForAcquire("db"), {}, 0), rs, PruneDone, Examining(R, "db", 0), rs);
    more := more + [By(a, PruneDone)];
    Do(s, more, t, a, Examining(R, "db", 0), rs, Disown(Failed, Failed), Clearing(R, "db", 0), rs);
    more := more + [By(a, Disown(Failed, Failed))];
  }

  /** t after postmaster m was born. */
  function WithPostmaster(t: State, m: Mark): State {
    t.(procs := t.procs[m.pid := Process(m.start, m.boot, Postmaster(R))], used := t.used + {m})
  }

  lemma Starts(s: State, ls: seq<Label>, t: State, a: Mark, late: nat) returns (more: seq<Label>)
    requires IsRun(s, ls) && After(s, ls) == At(t, a, Clearing(R, "db", 0), FREE.(lock := Some(a), lateLaunches := late))
    requires Q.pid !in t.procs && Q !in t.used
    ensures IsRun(s, more)
    ensures After(s, more) == At(WithPostmaster(t, Q), a, Launching(R, "db", 0),
                                 FREE.(lock := Some(a), pidFile := Names(Q.pid), lateLaunches := late))
  {
    hide IsRun, After;
    var rs := FREE.(lock := Some(a), lateLaunches := late);
    Do(s, ls, t, a, Clearing(R, "db", 0), rs, RemoveStale, Launching(R, "db", 0), rs);
    more := ls + [By(a, RemoveStale)];
    var t0 := At(t, a, Launching(R, "db", 0), rs);
    var t1 := At(WithPostmaster(t, Q), a, Launching(R, "db", 0), rs.(pidFile := Names(Q.pid)));
    assert t0.agents[a := Launching(R, "db", 0)] == t1.agents;
    Extend(s, more, t0, By(a, Launch(Q)), t1);
    more := more + [By(a, Launch(Q))];
  }

  /** The abandoned server is collected up to the stop signal. */
  lemma Signalled(late: nat) returns (ls: seq<Label>)
    ensures IsRun(Left(late), ls) && |ls| == 5
    ensures After(Left(late), ls) == At(Left(late), A, Waiting(R, SERVER), Locked(A, late))
  {
    hide IsRun, After;
    var s := Left(late);
    var rs := s.roots[R];
    ls := [Of(StartAgent(A))];
    Nothing(s);
    Extend(s, [], s, Of(StartAgent(A)), At(s, A, Idle, rs));
    assert [] + ls == ls;
    var held := rs.(lock := Some(A));
    assert rs.holders.Keys == {};
    Do(s, ls, s, A, Idle, rs, BeginCollect(R), Pruning(R, ForCollect, {}, 0), held);
    ls := ls + [By(A, BeginCollect(R))];
    Do(s, ls, s, A, Pruning(R, ForCollect, {}, 0), held, PruneDone, Stopping(R), held);
    ls := ls + [By(A, PruneDone)];
    ls := StopBegins(s, ls, s, A, Locked(A, late));
  }

  /**
   waitGone read a failed inspection as "gone": the lock file of a live postmaster is
   removed, and the next acquire starts a second one on the same cluster.
   */
  lemma FooledWait() returns (ls: seq<Label>)
    ensures Init(Left(0)) && IsRun(Left(0), ls) && !AtMostOnePostmaster(After(Left(0), ls))
  {
    hide IsRun, After;
    var s := Left(0);
    LeftIsInitial(0);
    ls := Signalled(0);
    ls := SweepEnds(s, ls, s, A, Locked(A, 0), Failed);
    ls := Prepares(s, ls, s, A, 0);
    ls := Starts(s, ls, s, A, 0);
    var t := After(s, ls);
    assert LivePostmaster(t, R, 10) && LivePostmaster(t, R, 30);
  }

  /**
   A pg_ctl that outlived its agent lands after the signalled postmaster exits and before
   the agent removes the lock file: the file removed is the late postmaster's.
   */
  lemma LateLaunchInWindow() returns (ls: seq<Label>)
    ensures Init(Left(1)) && IsRun(Left(1), ls) && !AtMostOnePostmaster(After(Left(1), ls))
  {
    hide IsRun, After;
    var s := Left(1);
    LeftIsInitial(1);
    ls := Signalled(1);
    ls := ReplacedUnseen(s, ls);
    var late := WithPostmaster(s.(procs := s.procs - {10}), LATE);
    var rs := Locked(A, 1).(pidFile := Names(31), lateLaunches := 0);
    ls := SweepEnds(s, ls, late, A, rs, NotFound);
    ls := Prepares(s, ls, late, A, 0);
    ls := Starts(s, ls, late, A, 0);
    var t := After(s, ls);
    assert LivePostmaster(t, R, 31) && LivePostmaster(t, R, 30);
  }

  /** The signalled postmaster exits, and the orphaned pg_ctl brings up another. */
  lemma ReplacedUnseen(s: State, ls: seq<Label>) returns (more: seq<Label>)
    requires s == Left(1) && IsRun(s, ls) && After(s, ls) == At(s, A, Waiting(R, SERVER), Locked(A, 1))
    ensures IsRun(s, more)
    ensures After(s, more) == At(WithPostmaster(s.(procs := s.procs - {10}), LATE), A, Waiting(R, SERVER),
                                 Locked(A, 1).(pidFile := Names(31), lateLaunches := 0))
  {
    hide IsRun, After;
    var exited := s.(procs := s.procs - {10});
    var rs := Locked(A, 1).(pidFile := Absent);
    Extend(s, ls, At(s, A, Waiting(R, SERVER), Locked(A, 1)), Of(Exit(10, true)), At(exited, A, Waiting(R, SERVER), rs));
    more := ls + [Of(Exit(10, true))];
    var late := WithPostmaster(exited, LATE);
    var rs' := rs.(pidFile := Names(31), lateLaunches := 0);
    Extend(s, more, At(exited, A, Waiting(R, SERVER), rs), Of(LateLaunch(R, LATE)), At(late, A, Waiting(R, SERVER), rs'));
    more := more + [Of(LateLaunch(R, LATE))];
  }

  /** A run without a server, and one process that may become an agent. */
  function Fresh(): State {
    State(map[20 := PROCS[20]], {A}, map[], map[R := FREE], {})
  }

  const STRANGER := Identity(4, "boot", "editor")
  const STARTED := FREE.(lock := Some(A), pidFile := Names(30))
  const WRONG := STARTED.(record := Some(Record(REUSED, true)))

  /** The machine once the new postmaster is dead and its PID is an editor's. */
  function Reborn(): State {
    var t := WithPostmaster(Fresh(), Q);
    t.(procs := (t.procs - {30})[30 := Process(4, "boot", Other("editor"))], used := t.used + {REUSED})
  }

  function Mistaken(): State {
    Reborn().(recorded := {(R, REUSED)})
  }

  lemma Launches() returns (ls: seq<Label>)
    ensures IsRun(Fresh(), ls)
    ensures After(Fresh(), ls) == At(WithPostmaster(Fresh(), Q), A, Launching(R, "db", 0), STARTED)
  {
    hide IsRun, After;
    var s := Fresh();
    ls := [Of(StartAgent(A))];
    Nothing(s);
    Extend(s, [], s, Of(StartAgent(A)), At(s, A, Idle, FREE));
    assert [] + ls == ls;
    ls := Prepares(s, ls, s, A, 0);
    ls := Starts(s, ls, s, A, 0);
  }

  lemma LosesItsPid() returns (ls: seq<Label>)
    ensures IsRun(Fresh(), ls) && After(Fresh(), ls) == At(Reborn(), A, Recording(R, "db", 0), STARTED)
  {
    hide IsRun, After;
    ls := Launches();
    var s, p := Fresh(), Recording(R, "db", 0);
    var t := WithPostmaster(s, Q);
    Do(s, ls, t, A, Launching(R, "db", 0), STARTED, LaunchReported, p, STARTED);
    ls := ls + [By(A, LaunchReported)];
    var dead := t.(procs := t.procs - {30});
    Extend(s, ls, At(t, A, p, STARTED), Of(Exit(30, false)), At(dead, A, p, STARTED));
    ls := ls + [Of(Exit(30, false))];
    Extend(s, ls, At(dead, A, p, STARTED), Of(Spawn(REUSED, "editor")), At(Reborn(), A, p, STARTED));
    ls := ls + [Of(Spawn(REUSED, "editor"))];
  }

  lemma RecordsStranger() returns (ls: seq<Label>)
    ensures IsRun(Fresh(), ls) && After(Fresh(), ls) == At(Mistaken(), A, Joining(R, "db", 0, true), WRONG)
  {
    hide IsRun, After;
    ls := LosesItsPid();
    var t0, t1 := At(Reborn(), A, Recording(R, "db", 0), STARTED), At(Mistaken(), A, Joining(R, "db", 0, true), WRONG);
    assert t0.agents[A := t1.agents[A]] == t1.agents && t0.roots[R := WRONG] == t1.roots;
    Extend(Fresh(), ls, t0, By(A, RecordPostmaster(STRANGER)), t1);
    ls := ls + [By(A, RecordPostmaster(STRANGER))];
  }

  lemma StopsStranger() returns (ls: seq<Label>)
    ensures IsRun(Fresh(), ls) && After(Fresh(), ls) == At(Mistaken(), A, Signalling(R, Record(REUSED, true)), WRONG)
  {
    hide IsRun, After;
    ls := RecordsStranger();
    Do(Fresh(), ls, Mistaken(), A, Joining(R, "db", 0, true), WRONG, AcquireFailed, Stopping(R), WRONG);
    ls := ls + [By(A, AcquireFailed)];
    Do(Fresh(), ls, Mistaken(), A, Stopping(R), WRONG, ConfirmStop(STRANGER), Signalling(R, Record(REUSED, true)), WRONG);
    ls := ls + [By(A, ConfirmStop(STRANGER))];
  }

  /**
   The postmaster pg_ctl reported dies and its PID goes to an editor before the birth is
   recorded: the editor is recorded, and the failed acquire signals it.
   */
  lemma ReusedBeforeRecording() returns (ls: seq<Label>)
    ensures Init(Fresh()) && IsRun(Fresh(), ls) && Enabled(After(Fresh(), ls), By(A, Signal(STRANGER)))
    ensures var now := After(Fresh(), ls);
            now.agents[A].Signalling? && Lives(now, now.agents[A].record.postmaster)
            && now.procs[now.agents[A].record.postmaster.pid].program == Other("editor")
  {
    hide IsRun, After;
    ls := StopsStranger();
  }

  /** The files of the run's root once B is attached for its database. */
  function Joined(lock: Option<Mark>): RootState {
    RootState(lock, map["db" := Holder(B, None)], Some(SERVER), Names(10), 0)
  }

  lemma Attaches(s: State) returns (ls: seq<Label>)
    requires s == Left(0)
    ensures IsRun(s, ls) && After(s, ls) == At(s, B, Attached(R, "db", None), Joined(None))
  {
    hide IsRun, After;
    var rs, held := s.roots[R], Locked(B, 0);
    ls := [Of(StartAgent(B))];
    Nothing(s);
    Extend(s, [], s, Of(StartAgent(B)), At(s, B, Idle, rs));
    assert [] + ls == ls && rs.holders.Keys == {};
    Do(s, ls, s, B, Idle, rs, BeginAcquire(R, "db"), Pruning(R, ForAcquire("db"), {}, 0), held);
    ls := ls + [By(B, BeginAcquire(R, "db"))];
    Do(s, ls, s, B, Pruning(R, ForAcquire("db"), {}, 0), held, PruneDone, Examining(R, "db", 0), held);
    ls := ls + [By(B, PruneDone)];
    ls := Registers(s, ls);
  }

  lemma Registers(s: State, ls: seq<Label>) returns (more: seq<Label>)
    requires s == Left(0) && IsRun(s, ls) && After(s, ls) == At(s, B, Examining(R, "db", 0), Locked(B, 0))
    ensures IsRun(s, more) && After(s, more) == At(s, B, Attached(R, "db", None), Joined(None))
  {
    hide IsRun, After;
    var held := Locked(B, 0);
    Do(s, ls, s, B, Examining(R, "db", 0), held, AttachServer(SEEN), Joining(R, "db", 0, false), held);
    more := ls + [By(B, AttachServer(SEEN))];
    Do(s, more, s, B, Joining(R, "db", 0, false), held, Register(None), Attached(R, "db", None), Joined(None));
    more := more + [By(B, Register(None))];
  }

  /** A collector that cannot read B's holder file finds nobody. */
  lemma Overlooks(s: State, ls: seq<Label>, t: State) returns (more: seq<Label>)
    requires IsRun(s, ls) && After(s, ls) == At(t, A, Idle, Joined(None))
    ensures IsRun(s, more) && After(s, more) == At(t, A, Stopping(R), Joined(Some(A)).(holders := map[]))
  {
    hide IsRun, After;
    var held, pruned := Joined(Some(A)), Joined(Some(A)).(holders := map[]);
    assert Joined(None).holders.Keys == {"db"} && held.holders - {"db"} == map[] && {"db"} - {"db"} == {};
    var skip := PruneOne("db", false, Failed, Failed);
    Do(s, ls, t, A, Idle, Joined(None), BeginCollect(R), Pruning(R, ForCollect, {"db"}, 0), held);
    more := ls + [By(A, BeginCollect(R))];
    Do(s, more, t, A, Pruning(R, ForCollect, {"db"}, 0), held, skip, Pruning(R, ForCollect, {}, 0), pruned);
    more := more + [By(A, skip)];
    Do(s, more, t, A, Pruning(R, ForCollect, {}, 0), pruned, PruneDone, Stopping(R), pruned);
    more := more + [By(A, PruneDone)];
  }

  /** A holder file that cannot be read is pruned like a dead one: a served agent's server is signalled. */
  lemma UnreadHolder() returns (ls: seq<Label>)
    ensures Init(Left(0)) && IsRun(Left(0), ls) && Enabled(After(Left(0), ls), By(A, Signal(SEEN)))
    ensures After(Left(0), ls).agents[A].root == R && Served(After(Left(0), ls), R, B)
  {
    hide IsRun, After;
    var s := Left(0);
    LeftIsInitial(0);
    ls := Attaches(s);
    var t := At(s, B, Attached(R, "db", None), Joined(None));
    Extend(s, ls, t, Of(StartAgent(A)), At(t, A, Idle, Joined(None)));
    ls := Overlooks(s, ls + [Of(StartAgent(A))], t);
    hide Enabled, Served;
    ls := StopsServed(s, ls, t);
  }

  const BSEEN := Identity(2, "boot", "agent")

  /** The files once A has written its own record over B's. */
  function Overwritten(lock: Option<Mark>): RootState {
    Joined(lock).(holders := map["db" := Holder(A, None)])
  }

  /** A second agent attaches for the service B is attached for. */
  lemma Shares(s: State, ls: seq<Label>, t: State) returns (more: seq<Label>)
    requires t.procs == PROCS && IsRun(s, ls) && After(s, ls) == At(t, A, Idle, Joined(None))
    ensures IsRun(s, more) && After(s, more) == At(t, A, Attached(R, "db", None), Overwritten(None))
  {
    hide IsRun, After;
    var held := Joined(Some(A));
    assert Joined(None).holders.Keys == {"db"} && {"db"} - {"db"} == {};
    var keep := PruneOne("db", true, BSEEN, NotFound);
    Do(s, ls, t, A, Idle, Joined(None), BeginAcquire(R, "db"), Pruning(R, ForAcquire("db"), {"db"}, 0), held);
    more := ls + [By(A, BeginAcquire(R, "db"))];
    Do(s, more, t, A, Pruning(R, ForAcquire("db"), {"db"}, 0), held, keep, Pruning(R, ForAcquire("db"), {}, 1), held);
    more := more + [By(A, keep)];
    Do(s, more, t, A, Pruning(R, ForAcquire("db"), {}, 1), held, PruneDone, Examining(R, "db", 1), held);
    more := SharesOn(s, more + [By(A, PruneDone)], t, held);
  }

  lemma SharesOn(s: State, ls: seq<Label>, t: State, held: RootState) returns (more: seq<Label>)
    requires t.procs == PROCS && held == Joined(Some(A)) && IsRun(s, ls)
    requires After(s, ls) == At(t, A, Examining(R, "db", 1), held)
    ensures IsRun(s, more) && After(s, more) == At(t, A, Attached(R, "db", None), Overwritten(None))
  {
    hide IsRun, After;
    Do(s, ls, t, A, Examining(R, "db", 1), held, AttachServer(SEEN), Joining(R, "db", 1, false), held);
    more := ls + [By(A, AttachServer(SEEN))];
    assert held.holders["db" := Holder(A, None)] == Overwritten(None).holders;
    hide Honest, Alive, MarkAt;
    Do(s, more, t, A, Joining(R, "db", 1, false), held, Register(None), Attached(R, "db", None), Overwritten(None));
    more := more + [By(A, Register(None))];
  }

  /** It leaves again, and with the one record finds nobody. */
  lemma TakesAlong(s: State, ls: seq<Label>, t: State) returns (more: seq<Label>)
    requires IsRun(s, ls) && After(s, ls) == At(t, A, Attached(R, "db", None), Overwritten(None))
    ensures IsRun(s, more) && After(s, more) == At(t, A, Stopping(R), Joined(Some(A)).(holders := map[]))
  {
    hide IsRun, After;
    var alone := Joined(Some(A)).(holders := map[]);
    assert Overwritten(None).holders.Keys - {"db"} == {} && Overwritten(None).holders - {"db"} == map[];
    Do(s, ls, t, A, Attached(R, "db", None), Overwritten(None), BeginRelease, Pruning(R, ForRelease, {}, 0), alone);
    more := ls + [By(A, BeginRelease)];
    Do(s, more, t, A, Pruning(R, ForRelease, {}, 0), alone, PruneDone, Stopping(R), alone);
    more := more + [By(A, PruneDone)];
  }

  /** Two agents attach for one service: the second to leave is signalled off by the first. */
  lemma TwoAgentsOneService() returns (ls: seq<Label>)
    ensures Init(Left(0)) && IsRun(Left(0), ls) && Enabled(After(Left(0), ls), By(A, Signal(SEEN)))
    ensures After(Left(0), ls).agents[A].root == R && Served(After(Left(0), ls), R, B)
  {
    hide IsRun, After;
    var s := Left(0);
    LeftIsInitial(0);
    ls := Attaches(s);
    var t := At(s, B, Attached(R, "db", None), Joined(None));
    Extend(s, ls, t, Of(StartAgent(A)), At(t, A, Idle, Joined(None)));
    ls := Shares(s, ls + [Of(StartAgent(A))], t);
    ls := TakesAlong(s, ls, t);
    hide Enabled, Served;
    ls := StopsServed(s, ls, t);
  }

  /** Stopping while B is attached, A may signal its server. */
  lemma StopsServed(s: State, ls: seq<Label>, t: State) returns (more: seq<Label>)
    requires s == Left(0) && t == At(s, B, Attached(R, "db", None), Joined(None)) && IsRun(s, ls)
    requires After(s, ls) == At(t, A, Stopping(R), Joined(Some(A)).(holders := map[]))
    ensures IsRun(s, more) && After(s, more) == At(t, A, Signalling(R, SERVER), Joined(Some(A)).(holders := map[]))
    ensures Enabled(After(s, more), By(A, Signal(SEEN)))
    ensures After(s, more).agents[A].root == R && Served(After(s, more), R, B)
  {
    hide IsRun, After;
    var pruned := Joined(Some(A)).(holders := map[]);
    Do(s, ls, t, A, Stopping(R), pruned, ConfirmStop(SEEN), Signalling(R, SERVER), pruned);
    more := ls + [By(A, ConfirmStop(SEEN))];
  }
}
