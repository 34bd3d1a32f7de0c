/**
 * Runs in which the lock is let go too early, by each of the three ways a bootstrap can fail, and
 * runs in which an agent's abandoned session is left with it.
 */
module ControlPlaneCounterexample {
  import opened Options
  import opened ControlPlane
  import opened ControlPlaneSafety

  const T := Thread(0, 0)
  const AGAIN := Thread(0, 1)

  lemma {:induction false} Extend(s: State, ls: seq<Label>, t: State, l: Label, u: State)
    requires IsRun(s, ls) && After(s, ls) == t && Enabled(t, l) && Apply(t, l) == u
    ensures IsRun(s, ls + [l]) && After(s, ls + [l]) == u
    decreases |ls|
  {
    if ls == [] {
      assert ls + [l] == [l] && [l][1..] == [];
    } else {
      Extend(Apply(s, ls[0]), ls[1..], t, l, u);
      assert (ls + [l])[1..] == ls[1..] + [l];
    }
  }

  lemma Nothing(s: State)
    ensures IsRun(s, []) && After(s, []) == s
  {
  }

  // ---------- a bootstrap lets go too early ----------

  const CONTROL := Session(OfBoot(0), None, false)
  const CHILD := Session(Kid(0), Some(Migration), false)
  const FIRST := map[1 := OfBoot(0)]
  const SECOND := map[1 := OfBoot(0), 2 := Kid(0)]

  /** A bootstrap at this stage, on control session 1. */
  function Booting(at: BootStage, ok: bool, children: set<nat>, sessions: map<Id, Session>, owner: Option<Id>,
                   used: map<Id, Holder>): State {
    State(map[], map[0 := BootPhase(at, 1, 1, ok)], children, map[], map[], sessions, owner, used, {})
  }

  lemma TakesTheLock() returns (ls: seq<Label>)
    ensures IsRun(Init(), ls) && After(Init(), ls) == Booting(BootLocked, true, {}, map[1 := CONTROL], Some(1), FIRST)
  {
    hide IsRun, After;
    var s := Init();
    var a := Booting(BootAsking, true, {}, map[1 := Session(OfBoot(0), None, true)], None, FIRST);
    Nothing(s);
    Extend(s, [], s, Boot(0, BootOpen(1, 1)), a);
    ls := [] + [Boot(0, BootOpen(1, 1))];
    Extend(s, ls, a, Boot(0, BootAskOk), Booting(BootLocked, true, {}, map[1 := CONTROL], Some(1), FIRST));
    ls := ls + [Boot(0, BootAskOk)];
  }

  /** The bootstrap takes the lock and starts its child. */
  lemma StartsItsChild() returns (ls: seq<Label>)
    ensures IsRun(Init(), ls)
    ensures After(Init(), ls) == Booting(RunningChild, true, {0}, map[1 := CONTROL], Some(1), FIRST)
  {
    hide IsRun, After;
    ls := TakesTheLock();
    var b := Booting(BootLocked, true, {}, map[1 := CONTROL], Some(1), FIRST);
    Extend(Init(), ls, b, Boot(0, SpawnChild), Booting(RunningChild, true, {0}, map[1 := CONTROL], Some(1), FIRST));
    ls := ls + [Boot(0, SpawnChild)];
  }

  lemma ChildConnects() returns (ls: seq<Label>)
    ensures IsRun(Init(), ls)
    ensures After(Init(), ls) == Booting(RunningChild, true, {0}, map[1 := CONTROL, 2 := CHILD], Some(1), SECOND)
  {
    hide IsRun, After;
    ls := StartsItsChild();
    var c := Booting(RunningChild, true, {0}, map[1 := CONTROL], Some(1), FIRST);
    var d := Booting(RunningChild, true, {0}, map[1 := CONTROL, 2 := CHILD], Some(1), SECOND);
    Extend(Init(), ls, c, Boot(0, KidOpens(2)), d);
    ls := ls + [Boot(0, KidOpens(2))];
  }

  /** A child's session at work, and nobody holding the lock. */
  function Unguarded(boots: map<nat, BootPhase>, children: set<nat>, gone: set<Id>): State {
    State(map[], boots, children, map[], map[], map[2 := CHILD], None, SECOND, gone)
  }

  /** The same with an agent's thread and its grants session 3. */
  function Beside(u: State, at: Stage, three: Session, owner: Option<Id>): State {
    u.(threads := map[T := Phase(at, 0, false, 3)], control := map[0 := T], sessions := map[2 := CHILD, 3 := three],
       owner := owner, used := SECOND[3 := OfThread(T)])
  }

  lemma GrantsAsked(ls: seq<Label>, e: State) returns (more: seq<Label>)
    requires IsRun(Init(), ls) && After(Init(), ls) == e && e == Unguarded(e.boots, e.children, e.abandoned)
    ensures IsRun(Init(), more) && After(Init(), more) == Beside(e, GrantAsking, Session(OfThread(T), None, true), None)
  {
    hide IsRun, After;
    var f := e.(threads := map[T := Phase(Between, 0, false, 0)], control := map[0 := T]);
    Extend(Init(), ls, e, By(T, Acquire(0)), f);
    more := ls + [By(T, Acquire(0))];
    Extend(Init(), more, f, By(T, BeginTx(3)), Beside(e, GrantAsking, Session(OfThread(T), None, true), None));
    more := more + [By(T, BeginTx(3))];
  }

  /** An agent then reconciles grants while the child's backend is still migrating. */
  lemma GrantsRun(ls: seq<Label>, boots: map<nat, BootPhase>, children: set<nat>, gone: set<Id>) returns (more: seq<Label>)
    requires IsRun(Init(), ls) && After(Init(), ls) == Unguarded(boots, children, gone)
    ensures IsRun(Init(), more) && Works(After(Init(), more), 2, Migration) && Works(After(Init(), more), 3, Grants)
  {
    hide IsRun, After;
    var e := Unguarded(boots, children, gone);
    more := GrantsAsked(ls, e);
    var g := Beside(e, GrantAsking, Session(OfThread(T), None, true), None);
    Extend(Init(), more, g, By(T, GrantOk), Beside(e, Granting, Session(OfThread(T), Some(Grants), false), Some(3)));
    more := more + [By(T, GrantOk)];
  }

  /** The drain gives up with the child's session alive. */
  lemma FailedDrain() returns (ls: seq<Label>)
    ensures IsRun(Init(), ls) && Works(After(Init(), ls), 2, Migration) && Works(After(Init(), ls), 3, Grants)
  {
    hide IsRun, After;
    ls := ChildConnects();
    var both := map[1 := CONTROL, 2 := CHILD];
    var d := Booting(RunningChild, true, {0}, both, Some(1), SECOND);
    var e := Booting(Draining, false, {}, both, Some(1), SECOND);
    Extend(Init(), ls, d, Boot(0, ChildReaped(false)), e);
    ls := ls + [Boot(0, ChildReaped(false))];
    assert both - {1} == map[2 := CHILD];
    Extend(Init(), ls, e, Boot(0, DrainFails), Unguarded(map[], {}, {}));
    ls := ls + [Boot(0, DrainFails)];
    ls := GrantsRun(ls, map[], {}, {});
  }

  /** The bootstrap is killed, and the child it started connects afterwards. */
  lemma KilledBootstrap() returns (ls: seq<Label>)
    ensures IsRun(Init(), ls) && Works(After(Init(), ls), 2, Migration) && Works(After(Init(), ls), 3, Grants)
  {
    hide IsRun, After;
    ls := StartsItsChild();
    var c := Booting(RunningChild, true, {0}, map[1 := CONTROL], Some(1), FIRST);
    var d := State(map[], map[], {0}, map[], map[], map[], None, FIRST, {1});
    assert map[1 := CONTROL] - {1} == map[];
    Extend(Init(), ls, c, Boot(0, BootDies), d);
    ls := ls + [Boot(0, BootDies)];
    Extend(Init(), ls, d, Boot(0, KidOpens(2)), Unguarded(map[], {0}, {1}));
    ls := ls + [Boot(0, KidOpens(2))];
    ls := GrantsRun(ls, map[], {0}, {1});
  }

  /** The bootstrap loses its control connection while its child migrates. */
  lemma LostControlConnection() returns (ls: seq<Label>)
    ensures IsRun(Init(), ls) && Works(After(Init(), ls), 2, Migration) && Works(After(Init(), ls), 3, Grants)
  {
    hide IsRun, After;
    ls := ChildConnects();
    var both := map[1 := CONTROL, 2 := CHILD];
    var d := Booting(RunningChild, true, {0}, both, Some(1), SECOND);
    assert both - {1} == map[2 := CHILD];
    Extend(Init(), ls, d, Of(SessionEnds(1)), Unguarded(d.boots, {0}, {}));
    ls := ls + [Of(SessionEnds(1))];
    ls := GrantsRun(ls, d.boots, {0}, {});
  }

  // ---------- an agent leaves the lock behind ----------

  const MINE := map[1 := OfThread(T)]

  /** A thread at this stage, with session 1. */
  function Calling(t: Thread, at: Stage, sessions: map<Id, Session>, owner: Option<Id>, gone: set<Id>): State {
    State(map[t := Phase(at, 1, false, 1)], map[], {}, map[0 := t], map[], sessions, owner, MINE, gone)
  }

  lemma Asks() returns (ls: seq<Label>)
    ensures IsRun(Init(), ls)
    ensures After(Init(), ls) == Calling(T, Asking, map[1 := Session(OfThread(T), None, true)], None, {})
  {
    hide IsRun, After;
    var s := Init();
    var a := s.(threads := map[T := Phase(Between, 1, false, 0)], control := map[0 := T]);
    Nothing(s);
    Extend(s, [], s, By(T, Acquire(1)), a);
    ls := [] + [By(T, Acquire(1))];
    Extend(s, ls, a, By(T, Open(1)), Calling(T, Asking, map[1 := Session(OfThread(T), None, true)], None, {}));
    ls := ls + [By(T, Open(1))];
  }

  /**
   * An open gives up its wait for the lock and closes its pool; the backend, still waiting, is handed
   * the lock with nobody left to release it.
   */
  lemma AbandonedWaitTakesTheLock() returns (ls: seq<Label>)
    ensures IsRun(Init(), ls) && After(Init(), ls).owner == Some(1)
    ensures After(Init(), ls).sessions == map[1 := Session(Orphan, None, false)]
  {
    hide IsRun, After;
    ls := Asks();
    var waits := Session(OfThread(T), None, true);
    var b := Calling(T, Asking, map[1 := waits], None, {});
    var c := Calling(T, Failing, map[1 := waits], None, {1});
    Extend(Init(), ls, b, By(T, AskFails(true)), c);
    ls := ls + [By(T, AskFails(true))];
    var d := Calling(T, Between, map[1 := waits.(holder := Orphan)], None, {1});
    Extend(Init(), ls, c, By(T, ClosePool), d);
    ls := ls + [By(T, ClosePool)];
    Extend(Init(), ls, d, Of(UnwantedGrant(1)), Calling(T, Between, map[1 := Session(Orphan, None, false)], Some(1), {1}));
    ls := ls + [Of(UnwantedGrant(1))];
  }

  const BUSY := Session(OfThread(T), Some(Migration), false)

  lemma Migrates() returns (ls: seq<Label>)
    ensures IsRun(Init(), ls) && After(Init(), ls) == Calling(T, Migrating, map[1 := BUSY], Some(1), {})
  {
    hide IsRun, After;
    ls := Asks();
    var b := Calling(T, Asking, map[1 := Session(OfThread(T), None, true)], None, {});
    var c := Calling(T, Opened, map[1 := Session(OfThread(T), None, false)], Some(1), {});
    Extend(Init(), ls, b, By(T, AskOk), c);
    ls := ls + [By(T, AskOk)];
    Extend(Init(), ls, c, By(T, BeginUp), Calling(T, Migrating, map[1 := BUSY], Some(1), {}));
    ls := ls + [By(T, BeginUp)];
  }

  lemma MigrationAbandoned() returns (ls: seq<Label>)
    ensures IsRun(Init(), ls) && After(Init(), ls) == Calling(T, Closing, map[1 := BUSY], Some(1), {1})
  {
    hide IsRun, After;
    ls := Migrates();
    var d := Calling(T, Migrating, map[1 := BUSY], Some(1), {});
    Extend(Init(), ls, d, By(T, UpAbandoned), Calling(T, Closing, map[1 := BUSY], Some(1), {1}));
    ls := ls + [By(T, UpAbandoned)];
  }

  /** An agent gives up on a migration and calls again: it waits for the lock its own backend holds. */
  lemma WaitsForItsOwn() returns (ls: seq<Label>)
    ensures IsRun(Init(), ls)
    ensures var s := After(Init(), ls);
            && s.threads == map[AGAIN := Phase(Asking, 1, false, 2)]
            && s.owner == Some(1) && 1 in s.used && s.used[1] == OfThread(T) && Works(s, 1, Migration)
  {
    hide IsRun, After;
    ls := MigrationAbandoned();
    var left := Session(Orphan, Some(Migration), false);
    var e := Calling(T, Closing, map[1 := BUSY], Some(1), {1});
    var f := State(map[T := Phase(Between, 0, false, 1)], map[], {}, map[0 := T], map[], map[1 := left], Some(1), MINE, {1});
    Extend(Init(), ls, e, By(T, ClosePool), f);
    ls := ls + [By(T, ClosePool)];
    var g := f.(threads := map[], control := map[]);
    Extend(Init(), ls, f, By(T, GiveUp), g);
    ls := CallsAgain(ls + [By(T, GiveUp)], g);
  }

  lemma CallsAgain(ls: seq<Label>, g: State) returns (more: seq<Label>)
    requires g == State(map[], map[], {}, map[], map[], map[1 := Session(Orphan, Some(Migration), false)], Some(1), MINE, {1})
    requires IsRun(Init(), ls) && After(Init(), ls) == g
    ensures IsRun(Init(), more)
    ensures var s := After(Init(), more);
            && s.threads == map[AGAIN := Phase(Asking, 1, false, 2)]
            && s.owner == Some(1) && 1 in s.used && s.used[1] == OfThread(T) && Works(s, 1, Migration)
  {
    hide IsRun, After;
    var h := g.(threads := map[AGAIN := Phase(Between, 1, false, 0)], control := map[0 := AGAIN]);
    Extend(Init(), ls, g, By(AGAIN, Acquire(1)), h);
    more := ls + [By(AGAIN, Acquire(1))];
    var waits := Session(OfThread(AGAIN), None, true);
    var i := h.(threads := map[AGAIN := Phase(Asking, 1, false, 2)], sessions := g.sessions[2 := waits],
                used := MINE[2 := OfThread(AGAIN)]);
    Extend(Init(), more, h, By(AGAIN, Open(2)), i);
    more := more + [By(AGAIN, Open(2))];
  }
}
