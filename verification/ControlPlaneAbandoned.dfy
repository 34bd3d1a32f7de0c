/**
 * Who is left holding the advisory lock, in every run, whether bootstraps keep their discipline or
 * not: a session outlives its client only if the client abandoned it, gave up on a statement or a
 * wait whose backend had not answered, or died.
 */
module ControlPlaneAbandoned {
  import opened Options
  import opened ControlPlane
  import opened ControlPlaneSafety

  // ---------- the invariant ----------

  /** A thread past its agent's control-plane lock is the one client of its session. */
  ghost predicate Client(s: State, t: Thread) {
    t in s.threads ==>
      var p := s.threads[t];
      && t.agent in s.control && s.control[t.agent] == t
      && (InSession(p) ==> p.x in s.used && s.used[p.x] == OfThread(t))
      && (InSession(p) && p.x in s.sessions ==> s.sessions[p.x].holder == OfThread(t))
      && (p.at.Asking? || p.at.GrantAsking? ==> s.owner != Some(p.x))
  }

  ghost predicate BootClient(s: State, b: nat) {
    b in s.boots ==>
      var x := s.boots[b].x;
      x in s.used && s.used[x] == OfBoot(b) && (x in s.sessions ==> s.sessions[x].holder == OfBoot(b))
  }

  predicate AtRest(session: Session) {
    session.work.None? && !session.waiting
  }

  /** What a session's client has done with it so far. */
  predicate Handled(s: State, p: Phase, x: Id)
    requires x in s.sessions
  {
    && (x in s.abandoned ==> p.at.Failing? || p.at.Closing?)
    && ((p.at.Failing? || p.at.Closing?) && x !in s.abandoned ==> AtRest(s.sessions[x]))
    && (p.at.Opened? ==> AtRest(s.sessions[x]))
  }

  ghost predicate Accounted(s: State, x: Id) {
    x in s.sessions ==>
      && x in s.used
      && match s.sessions[x].holder
         case OfThread(t) =>
           && s.used[x] == OfThread(t) && t in s.threads && InSession(s.threads[t]) && s.threads[t].x == x
           && Handled(s, s.threads[t], x)
         case OfBoot(b) => b in s.boots && s.boots[b].x == x && s.used[x] == OfBoot(b) && x !in s.abandoned
         case Kid(b) => s.used[x] == Kid(b) && x !in s.abandoned && !s.sessions[x].waiting && s.owner != Some(x)
         case Orphan => !s.used[x].Kid? && x in s.abandoned
  }

  ghost predicate Known(s: State, x: Id) {
    (x in s.abandoned ==> x in s.used) && (s.owner == Some(x) ==> x in s.sessions)
  }

  ghost predicate Kept(s: State) {
    && (forall t :: Client(s, t))
    && (forall b :: BootClient(s, b))
    && (forall x :: Accounted(s, x))
    && (forall x :: Known(s, x))
  }

  lemma InitKept()
    ensures Kept(Init())
  {
  }

  // ---------- a session the step does not touch ----------

  /** Nothing about session y changes. */
  ghost predicate SameSession(s: State, u: State, y: Id) {
    && (y in u.sessions <==> y in s.sessions) && (y in s.sessions ==> u.sessions[y] == s.sessions[y])
    && (y in s.used ==> y in u.used && u.used[y] == s.used[y])
    && (y in u.abandoned <==> y in s.abandoned)
    && (u.owner == Some(y) <==> s.owner == Some(y))
  }

  /** The session a step of a thread or a bootstrap works on. */
  function TouchedBy(s: State, l: Label): Option<Id> {
    match l
    case By(t, act) => Touched(s, t, act)
    case Boot(b, act) => BootTouched(s, b, act)
    case Of(w) => if w.SessionEnds? || w.UnwantedGrant? then Some(w.x) else None
  }

  lemma MovedTouches(s: State, l: Label)
    requires Enabled(s, l) && !(l.Of? && l.world.AgentDies?)
    ensures Touches(s, Moved(s, l), TouchedBy(s, l))
  {
    match l
    case By(t, act) => hide ApplyThread, Touches; ThreadTouches(s, t, act);
    case Boot(b, act) => hide ApplyBoot, Touches, BootEnabled; BootTouches(s, b, act);
    case Of(w) => WorldTouches(s, w);
  }

  lemma WorldTouches(s: State, w: World)
    requires WorldEnabled(s, w) && !w.AgentDies?
    ensures Touches(s, ApplyWorld(s, w), TouchedBy(s, Of(w)))
  {
    var u, x := ApplyWorld(s, w), TouchedBy(s, Of(w));
    assert u.sessions - Only(x) == s.sessions - Only(x);
  }

  lemma ElsewhereTouches(s: State, l: Label)
    requires Enabled(s, l) && !(l.Of? && l.world.AgentDies?)
    ensures Touches(s, Apply(s, l), TouchedBy(s, l))
  {
    hide Moved, Enabled, TouchedBy;
    MovedTouches(s, l);
  }

  lemma AbandonsTouched(s: State, l: Label)
    requires Enabled(s, l) && !(l.Of? && l.world.AgentDies?)
    ensures Abandons(s, l) <= Only(TouchedBy(s, l))
  {
  }

  lemma HistoryGrows(s: State, l: Label)
    requires Enabled(s, l)
    ensures Apply(s, l).abandoned == s.abandoned + Abandons(s, l)
  {
  }

  lemma Elsewhere(s: State, l: Label, y: Id)
    requires Enabled(s, l) && !(l.Of? && l.world.AgentDies?) && TouchedBy(s, l) != Some(y)
    ensures SameSession(s, Apply(s, l), y)
  {
    hide Apply, Abandons;
    ElsewhereTouches(s, l);
    AbandonsTouched(s, l);
    HistoryGrows(s, l);
    SameElsewhere(s, Apply(s, l), TouchedBy(s, l), y);
  }

  // ---------- a thread's step ----------

  lemma ThreadElsewhere(s: State, t: Thread, act: Act, v: Thread)
    requires Client(s, t) && Client(s, v) && ThreadEnabled(s, t, act) && v != t
    ensures Client(Apply(s, By(t, act)), v)
  {
    hide ServerAfter, NextPhase, Touches;
    var l := By(t, act);
    ServerKeeps(s, t, act);
    ThreadTouches(s, t, act);
    if v in s.threads && InSession(s.threads[v]) {
      TouchedIsAnothers(s, t, act, s.threads[v].x);
      Elsewhere(s, l, s.threads[v].x);
    }
  }

  /** A session that began as another client's is not the one a thread works on. */
  lemma TouchedIsAnothers(s: State, t: Thread, act: Act, y: Id)
    requires Client(s, t) && ThreadEnabled(s, t, act) && y in s.used && s.used[y] != OfThread(t)
    ensures Touched(s, t, act) != Some(y)
  {
  }

  lemma ThreadSelf(s: State, t: Thread, act: Act)
    requires Client(s, t) && ThreadEnabled(s, t, act) && (forall x :: Known(s, x)) && (forall x :: Accounted(s, x))
    ensures Client(Apply(s, By(t, act)), t)
  {
    hide Abandons;
    if s.owner.Some? { assert Known(s, s.owner.value) && Accounted(s, s.owner.value); }
  }

  lemma OpenAccounts(s: State, t: Thread, act: Act)
    requires ThreadEnabled(s, t, act) && Opens(act) && Known(s, act.x)
    ensures Accounted(Apply(s, By(t, act)), act.x)
  {
  }

  lemma DetachAccounts(s: State, t: Thread, act: Act, x: Id)
    requires t in s.threads && Client(s, t) && ThreadEnabled(s, t, act) && Detaches(act) && x == s.threads[t].x && Accounted(s, x)
    ensures Accounted(Apply(s, By(t, act)), x)
  {
  }

  lemma WorkAccounts(s: State, t: Thread, act: Act, x: Id)
    requires t in s.threads && Client(s, t) && ThreadEnabled(s, t, act) && !Opens(act) && !Detaches(act) && !Quiet(act)
    requires x == s.threads[t].x && Accounted(s, x)
    ensures Accounted(Apply(s, By(t, act)), x)
  {
  }

  lemma ThreadAccounts(s: State, t: Thread, act: Act, x: Id)
    requires Client(s, t) && ThreadEnabled(s, t, act) && Touched(s, t, act) == Some(x) && Accounted(s, x) && Known(s, x)
    ensures Accounted(Apply(s, By(t, act)), x)
  {
    hide Accounted, Client, Known, Apply;
    if Opens(act) { OpenAccounts(s, t, act); }
    else if Detaches(act) { DetachAccounts(s, t, act, x); }
    else { WorkAccounts(s, t, act, x); }
  }

  lemma ThreadKnows(s: State, t: Thread, act: Act, x: Id)
    requires Client(s, t) && ThreadEnabled(s, t, act) && Touched(s, t, act) == Some(x) && Accounted(s, x) && Known(s, x)
    ensures Known(Apply(s, By(t, act)), x)
  {
  }

  lemma ThreadAccountsElsewhere(s: State, t: Thread, act: Act, y: Id)
    requires Client(s, t) && ThreadEnabled(s, t, act) && Touched(s, t, act) != Some(y) && Accounted(s, y)
    ensures Accounted(Apply(s, By(t, act)), y)
  {
    hide ServerAfter, Abandons;
    ServerKeeps(s, t, act);
    Elsewhere(s, By(t, act), y);
  }

  lemma ThreadKeeps(s: State, t: Thread, act: Act)
    requires Kept(s) && ThreadEnabled(s, t, act)
    ensures Kept(Apply(s, By(t, act)))
  {
    hide Client, BootClient, Accounted, Known, Apply, ThreadEnabled, Touched, SameSession;
    var u, x := Apply(s, By(t, act)), Touched(s, t, act);
    forall v ensures Client(u, v) {
      if v == t { ThreadSelf(s, t, act); } else { ThreadElsewhere(s, t, act, v); }
    }
    forall b ensures BootClient(u, b) { ThreadLeavesBoot(s, t, act, b); }
    forall y: Id ensures Accounted(u, y) && Known(u, y) {
      if Some(y) == x {
        ThreadAccounts(s, t, act, y);
        ThreadKnows(s, t, act, y);
      } else {
        ThreadAccountsElsewhere(s, t, act, y);
        Elsewhere(s, By(t, act), y);
        KnownElsewhere(s, u, y);
      }
    }
  }

  lemma KnownElsewhere(s: State, u: State, y: Id)
    requires Known(s, y) && SameSession(s, u, y)
    ensures Known(u, y)
  {
  }

  lemma ThreadLeavesBoot(s: State, t: Thread, act: Act, b: nat)
    requires Client(s, t) && BootClient(s, b) && ThreadEnabled(s, t, act)
    ensures BootClient(Apply(s, By(t, act)), b)
  {
    hide ServerAfter, Abandons, Touched;
    ServerKeeps(s, t, act);
    ThreadTouches(s, t, act);
    if b in s.boots {
      TouchedIsAnothers(s, t, act, s.boots[b].x);
      Elsewhere(s, By(t, act), s.boots[b].x);
    }
  }

  // ---------- a bootstrap's step ----------

  lemma BootTouchedIsAnothers(s: State, b: nat, act: BootAct, y: Id)
    requires BootClient(s, b) && BootEnabled(s, b, act) && y in s.used && s.used[y] != OfBoot(b)
    ensures BootTouched(s, b, act) != Some(y)
  {
  }

  lemma BootLeavesThread(s: State, b: nat, act: BootAct, t: Thread)
    requires BootClient(s, b) && Client(s, t) && BootEnabled(s, b, act)
    ensures Client(Apply(s, Boot(b, act)), t)
  {
    hide ApplyBoot, BootTouched, BootEnabled, Abandons;
    BootTouches(s, b, act);
    if t in s.threads && InSession(s.threads[t]) {
      BootTouchedIsAnothers(s, b, act, s.threads[t].x);
      Elsewhere(s, Boot(b, act), s.threads[t].x);
    }
  }

  lemma BootSelf(s: State, b: nat, act: BootAct)
    requires BootClient(s, b) && BootEnabled(s, b, act)
    ensures BootClient(Apply(s, Boot(b, act)), b)
  {
    hide Abandons;
  }

  lemma BootLeavesBoot(s: State, b: nat, act: BootAct, c: nat)
    requires BootClient(s, b) && BootClient(s, c) && BootEnabled(s, b, act) && c != b
    ensures BootClient(Apply(s, Boot(b, act)), c)
  {
    hide ApplyBoot, BootTouched, BootEnabled, Abandons;
    BootTouches(s, b, act);
    assert SameBoot(s, ApplyBoot(s, b, act), c);
    if c in s.boots {
      BootTouchedIsAnothers(s, b, act, s.boots[c].x);
      Elsewhere(s, Boot(b, act), s.boots[c].x);
    }
  }

  lemma BootOpenAccounts(s: State, b: nat, act: BootAct)
    requires BootEnabled(s, b, act) && BootStarts(act) && Known(s, act.x) && Accounted(s, act.x)
    ensures Accounted(Apply(s, Boot(b, act)), act.x)
  {
  }

  lemma BootWorkAccounts(s: State, b: nat, act: BootAct, x: Id)
    requires b in s.boots && BootClient(s, b) && BootEnabled(s, b, act) && !BootStarts(act)
    requires x == s.boots[b].x && Accounted(s, x)
    ensures Accounted(Apply(s, Boot(b, act)), x)
  {
  }

  lemma BootAccounts(s: State, b: nat, act: BootAct, x: Id)
    requires BootClient(s, b) && BootEnabled(s, b, act) && BootTouched(s, b, act) == Some(x) && Accounted(s, x) && Known(s, x)
    ensures Accounted(Apply(s, Boot(b, act)), x)
  {
    hide Accounted, BootClient, Known, Apply;
    if BootStarts(act) { BootOpenAccounts(s, b, act); } else { BootWorkAccounts(s, b, act, x); }
  }

  lemma BootKnows(s: State, b: nat, act: BootAct, x: Id)
    requires BootClient(s, b) && BootEnabled(s, b, act) && BootTouched(s, b, act) == Some(x) && Accounted(s, x) && Known(s, x)
    ensures Known(Apply(s, Boot(b, act)), x)
  {
  }

  lemma BootAccountsElsewhere(s: State, b: nat, act: BootAct, y: Id)
    requires BootClient(s, b) && BootEnabled(s, b, act) && BootTouched(s, b, act) != Some(y) && Accounted(s, y)
    ensures Accounted(Apply(s, Boot(b, act)), y)
  {
    hide BootServerAfter, Abandons;
    BootServerKeeps(s, b, act);
    Elsewhere(s, Boot(b, act), y);
  }

  lemma BootKeeps(s: State, b: nat, act: BootAct)
    requires Kept(s) && BootEnabled(s, b, act)
    ensures Kept(Apply(s, Boot(b, act)))
  {
    hide Client, BootClient, Accounted, Known, Apply, BootEnabled, BootTouched, SameSession;
    var u, x := Apply(s, Boot(b, act)), BootTouched(s, b, act);
    forall t ensures Client(u, t) { BootLeavesThread(s, b, act, t); }
    forall c ensures BootClient(u, c) {
      if c == b { BootSelf(s, b, act); } else { BootLeavesBoot(s, b, act, c); }
    }
    forall y: Id ensures Accounted(u, y) && Known(u, y) {
      if Some(y) == x {
        BootAccounts(s, b, act, y);
        BootKnows(s, b, act, y);
      } else {
        BootAccountsElsewhere(s, b, act, y);
        Elsewhere(s, Boot(b, act), y);
        KnownElsewhere(s, u, y);
      }
    }
  }

  // ---------- the world's step ----------

  lemma WorldKeeps(s: State, w: World)
    requires Kept(s) && WorldEnabled(s, w)
    ensures Kept(Apply(s, Of(w)))
  {
    var u := Apply(s, Of(w));
    forall t ensures Client(u, t) { assert Client(s, t); }
    forall b ensures BootClient(u, b) { assert BootClient(s, b); }
    forall y: Id ensures Accounted(u, y) && Known(u, y) { assert Accounted(s, y) && Known(s, y); }
  }

  lemma KeptStep(s: State, l: Label)
    requires Kept(s) && Enabled(s, l)
    ensures Kept(Apply(s, l))
  {
    match l
    case By(t, act) => ThreadKeeps(s, t, act);
    case Boot(b, act) => BootKeeps(s, b, act);
    case Of(w) => WorldKeeps(s, w);
  }

  lemma {:induction false} KeptAlways(s: State, ls: seq<Label>)
    requires Kept(s) && IsRun(s, ls)
    ensures Kept(After(s, ls))
    decreases |ls|
  {
    if ls != [] {
      KeptStep(s, ls[0]);
      KeptAlways(Apply(s, ls[0]), ls[1..]);
    }
  }

  // ---------- when a session is abandoned ----------

  /** Some step of the run walks away from session x. */
  ghost predicate WalkedAway(s: State, ls: seq<Label>, x: Id)
    requires IsRun(s, ls)
    decreases |ls|
  {
    ls != [] && (x in Abandons(s, ls[0]) || WalkedAway(Apply(s, ls[0]), ls[1..], x))
  }

  lemma {:induction false} HistoryIsExact(s: State, ls: seq<Label>, x: Id)
    requires IsRun(s, ls)
    ensures x in After(s, ls).abandoned <==> x in s.abandoned || WalkedAway(s, ls, x)
    decreases |ls|
  {
    if ls != [] {
      HistoryGrows(s, ls[0]);
      HistoryIsExact(Apply(s, ls[0]), ls[1..], x);
    }
  }

  // ---------- what every run promises ----------

  /** A client is at a session: its thread is past the control plane with it, or its bootstrap lives. */
  predicate InUse(s: State, x: Id)
    requires x in s.used
  {
    match s.used[x]
    case OfThread(t) => t in s.threads && InSession(s.threads[t]) && s.threads[t].x == x
    case OfBoot(b) => b in s.boots && s.boots[b].x == x
    case _ => false
  }

  /**
   * In every run, a session is orphaned exactly when it still lives, some step walked away from it,
   * and no thread is still on its way to close it.
   */
  lemma OrphansAreAbandoned(ls: seq<Label>, x: Id)
    requires IsRun(Init(), ls) && x in After(Init(), ls).sessions
    ensures var s := After(Init(), ls);
            && x in s.used
            && (s.sessions[x].holder == Orphan <==> WalkedAway(Init(), ls, x) && !InUse(s, x))
  {
    InitKept();
    KeptAlways(Init(), ls);
    HistoryIsExact(Init(), ls, x);
    var s := After(Init(), ls);
    assert Accounted(s, x);
    if s.used[x].OfThread? { assert Client(s, s.used[x].thread); }
    if s.used[x].OfBoot? { assert BootClient(s, s.used[x].boot); }
  }

  /**
   * In every run, a thread's or bootstrap's session that nobody uses any more lives on, and so can
   * hold the lock, only if some step walked away from it: after a failed open, a closed handle or a
   * finished transaction, at once and at any later time.
   */
  lemma NeverLeftHeld(ls: seq<Label>, x: Id)
    requires IsRun(Init(), ls)
    ensures var s := After(Init(), ls);
            && (s.owner == Some(x) ==> x in s.sessions)
            && (x in s.sessions ==> x in s.used)
            && (x in s.sessions && !s.used[x].Kid? && !InUse(s, x) ==> WalkedAway(Init(), ls, x))
  {
    InitKept();
    KeptAlways(Init(), ls);
    HistoryIsExact(Init(), ls, x);
    assert Accounted(After(Init(), ls), x) && Known(After(Init(), ls), x);
  }

  /** In every run, whoever holds the lock is a client still using the session, or walked away from it. */
  lemma OwnerIsAccountable(ls: seq<Label>)
    requires IsRun(Init(), ls) && After(Init(), ls).owner.Some?
    ensures var s := After(Init(), ls);
            var x := s.owner.value;
            x in s.sessions && x in s.used && !s.used[x].Kid? && (InUse(s, x) || WalkedAway(Init(), ls, x))
  {
    InitKept();
    KeptAlways(Init(), ls);
    var s := After(Init(), ls);
    HistoryIsExact(Init(), ls, s.owner.value);
    assert Accounted(s, s.owner.value) && Known(s, s.owner.value);
  }

  /**
   * In every run, of the sessions that threads of one agent ever opened, a thread that asks for the
   * lock has all but its own behind it: one that still lives is an abandoned orphan, and only such a
   * one can hold the lock that the thread waits for.
   */
  lemma WaitsWithNothingHeld(ls: seq<Label>, t: Thread, y: Id)
    requires IsRun(Init(), ls)
    requires var s := After(Init(), ls); t in s.threads && (s.threads[t].at.Asking? || s.threads[t].at.GrantAsking?)
    requires var s := After(Init(), ls);
             y in s.sessions && y in s.used && s.used[y].OfThread? && s.used[y].thread.agent == t.agent
    ensures var s := After(Init(), ls);
            && (y == s.threads[t].x ==> s.owner != Some(y))
            && (y != s.threads[t].x ==> s.sessions[y].holder == Orphan && WalkedAway(Init(), ls, y))
  {
    InitKept();
    KeptAlways(Init(), ls);
    HistoryIsExact(Init(), ls, y);
    var s := After(Init(), ls);
    assert Accounted(s, y) && Client(s, t) && Client(s, s.used[y].thread);
  }
}
