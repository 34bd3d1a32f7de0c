/**
 * The locks let work through. While the advisory lock is free, a call that has its agent's control
 * plane migrates every lineage it has left, runs its grants and leaves, and a bootstrap runs a child
 * for every lineage and then its grants; each gives back the lock, its sessions and its mutexes.
 */
module ControlPlaneLiveness {
  import opened Options
  import opened ControlPlane
  import opened ControlPlaneSafety
  import opened ControlPlaneExact

  lemma Onwards(s: State, l: Label, ls: seq<Label>)
    requires Enabled(s, l) && Tight(s, l) && IsRun(Apply(s, l), ls) && AllTight(Apply(s, l), ls)
    ensures IsRun(s, [l] + ls) && AllTight(s, [l] + ls) && After(s, [l] + ls) == After(Apply(s, l), ls)
  {
    assert ([l] + ls)[1..] == ls;
  }

  // ---------- a call ----------

  /** Tight steps take the call from s to its end, and these sessions are left. */
  ghost predicate Completes(s: State, ls: seq<Label>, t: Thread, rest: map<Id, Session>) {
    && IsRun(s, ls) && AllTight(s, ls)
    && var u := After(s, ls);
       && t !in u.threads && t.agent !in u.control && u.owner == None && u.sessions == rest
       && (t.agent in u.reload ==> u.reload[t.agent] != t)
  }

  /** The call is at this phase, with its session if it has one, and nobody else on the lock. */
  ghost predicate At(s: State, t: Thread, p: Phase, own: Option<Session>, owner: Option<Id>, rest: map<Id, Session>) {
    && t in s.threads && s.threads[t] == p && s.owner == owner && p.x !in rest
    && s.sessions == (if own.Some? then rest[p.x := own.value] else rest)
  }

  lemma Later(s: State, t: Thread, act: Act, ls: seq<Label>, rest: map<Id, Session>)
    requires ThreadEnabled(s, t, act) && Completes(Apply(s, By(t, act)), ls, t, rest)
    ensures Completes(s, [By(t, act)] + ls, t, rest)
  {
    Onwards(s, By(t, act), ls);
  }

  lemma FromGranting(s: State, t: Thread, p: Phase, rest: map<Id, Session>) returns (ls: seq<Label>)
    requires p.at.Granting? && At(s, t, p, Some(Session(OfThread(t), Some(Grants), false)), Some(p.x), rest)
    ensures Completes(s, ls, t, rest)
  {
    assert rest[p.x := s.sessions[p.x]] - {p.x} == rest;
    Later(s, t, GrantEnds, [], rest);
    ls := [By(t, GrantEnds)] + [];
  }

  lemma FromGrantAsking(s: State, t: Thread, p: Phase, rest: map<Id, Session>) returns (ls: seq<Label>)
    requires p.at.GrantAsking? && At(s, t, p, Some(Session(OfThread(t), None, true)), None, rest)
    ensures Completes(s, ls, t, rest)
  {
    hide Completes;
    var u := Apply(s, By(t, GrantOk));
    assert u.sessions == rest[p.x := Session(OfThread(t), Some(Grants), false)];
    ls := FromGranting(u, t, u.threads[t], rest);
    Later(s, t, GrantOk, ls, rest);
    ls := [By(t, GrantOk)] + ls;
  }

  /** Idle between lineages. */
  ghost predicate Pausing(s: State, t: Thread, left: nat, hot: bool, rest: map<Id, Session>) {
    && t in s.threads && s.threads[t].at.Between? && s.threads[t].left == left && s.threads[t].hot == hot
    && s.owner == None && s.sessions == rest && (hot ==> t.agent in s.reload && s.reload[t.agent] == t)
    && (!hot && t.agent in s.reload ==> s.reload[t.agent] != t)
  }

  lemma FromMigrated(s: State, t: Thread, rest: map<Id, Session>) returns (ls: seq<Label>)
    requires Pausing(s, t, 0, false, rest)
    ensures Completes(s, ls, t, rest)
  {
    hide Completes;
    var x := Above(s.used.Keys + rest.Keys);
    var u := Apply(s, By(t, BeginTx(x)));
    ls := FromGrantAsking(u, t, u.threads[t], rest);
    Later(s, t, BeginTx(x), ls, rest);
    ls := [By(t, BeginTx(x))] + ls;
  }

  lemma {:induction false} FromPausing(s: State, t: Thread, left: nat, hot: bool, rest: map<Id, Session>) returns (ls: seq<Label>)
    requires Pausing(s, t, left, hot, rest)
    ensures Completes(s, ls, t, rest)
    decreases left, 10
  {
    hide Completes;
    if left > 0 {
      var x := Above(s.used.Keys + rest.Keys);
      var u := Apply(s, By(t, Open(x)));
      ls := FromAsking(u, t, u.threads[t], rest);
      Later(s, t, Open(x), ls, rest);
      ls := [By(t, Open(x))] + ls;
    } else if hot {
      ls := FromMigrated(Apply(s, By(t, HotDone)), t, rest);
      Later(s, t, HotDone, ls, rest);
      ls := [By(t, HotDone)] + ls;
    } else {
      ls := FromMigrated(s, t, rest);
    }
  }

  /** The reload mutex is held exactly by a hot call. */
  ghost predicate Mutex(s: State, t: Thread, hot: bool) {
    if hot then t.agent in s.reload && s.reload[t.agent] == t else t.agent in s.reload ==> s.reload[t.agent] != t
  }

  lemma FromAsking(s: State, t: Thread, p: Phase, rest: map<Id, Session>) returns (ls: seq<Label>)
    requires p.at.Asking? && p.left > 0 && At(s, t, p, Some(Session(OfThread(t), None, true)), None, rest) && Mutex(s, t, p.hot)
    ensures Completes(s, ls, t, rest)
    decreases p.left, 9
  {
    hide Completes;
    var u := Apply(s, By(t, AskOk));
    assert u.sessions == rest[p.x := Session(OfThread(t), None, false)];
    ls := FromOpened(u, t, u.threads[t], rest);
    Later(s, t, AskOk, ls, rest);
    ls := [By(t, AskOk)] + ls;
  }

  lemma FromOpened(s: State, t: Thread, p: Phase, rest: map<Id, Session>) returns (ls: seq<Label>)
    requires p.at.Opened? && p.left > 0 && At(s, t, p, Some(Session(OfThread(t), None, false)), Some(p.x), rest) && Mutex(s, t, p.hot)
    ensures Completes(s, ls, t, rest)
    decreases p.left, 8
  {
    hide Completes;
    var u := Apply(s, By(t, BeginUp));
    assert u.sessions == rest[p.x := Session(OfThread(t), Some(Migration), false)];
    ls := FromMigrating(u, t, u.threads[t], rest);
    Later(s, t, BeginUp, ls, rest);
    ls := [By(t, BeginUp)] + ls;
  }

  lemma FromMigrating(s: State, t: Thread, p: Phase, rest: map<Id, Session>) returns (ls: seq<Label>)
    requires p.at.Migrating? && p.left > 0 && Mutex(s, t, p.hot)
    requires At(s, t, p, Some(Session(OfThread(t), Some(Migration), false)), Some(p.x), rest)
    ensures Completes(s, ls, t, rest)
    decreases p.left, 7
  {
    hide Completes;
    var u := Apply(s, By(t, UpEnds));
    assert u.sessions == rest[p.x := Session(OfThread(t), None, false)];
    ls := FromClosing(u, t, u.threads[t], rest);
    Later(s, t, UpEnds, ls, rest);
    ls := [By(t, UpEnds)] + ls;
  }

  lemma FromClosing(s: State, t: Thread, p: Phase, rest: map<Id, Session>) returns (ls: seq<Label>)
    requires p.at.Closing? && p.left > 0 && At(s, t, p, Some(Session(OfThread(t), None, false)), Some(p.x), rest) && Mutex(s, t, p.hot)
    ensures Completes(s, ls, t, rest)
    decreases p.left, 6
  {
    hide Completes;
    var u := Apply(s, By(t, Unlock));
    ls := FromUnlocked(u, t, p, rest);
    Later(s, t, Unlock, ls, rest);
    ls := [By(t, Unlock)] + ls;
  }

  /** Closing the pool of a released session ends it. */
  lemma FromUnlocked(s: State, t: Thread, p: Phase, rest: map<Id, Session>) returns (ls: seq<Label>)
    requires p.at.Closing? && p.left > 0 && At(s, t, p, Some(Session(OfThread(t), None, false)), None, rest) && Mutex(s, t, p.hot)
    ensures Completes(s, ls, t, rest)
    decreases p.left, 5
  {
    hide Completes;
    assert rest[p.x := s.sessions[p.x]] - {p.x} == rest;
    var u := Apply(s, By(t, ClosePool));
    ls := FromPausing(u, t, p.left - 1, p.hot, rest);
    Later(s, t, ClosePool, ls, rest);
    ls := [By(t, ClosePool)] + ls;
  }

  /** With the advisory lock free, a call of any number of lineages that takes its agent's control plane completes. */
  lemma CallCompletes(s: State, t: Thread, lineages: nat) returns (ls: seq<Label>)
    requires t !in s.threads && t.agent !in s.control && t.agent !in s.reload && s.owner == None
    ensures Completes(s, ls, t, s.sessions)
  {
    hide Completes;
    var act := Acquire(lineages);
    ls := FromPausing(Apply(s, By(t, act)), t, lineages, false, s.sessions);
    Later(s, t, act, ls, s.sessions);
    ls := [By(t, act)] + ls;
  }

  /** So does the handling of a watched change, under the reload mutex, which it gives back. */
  lemma HotCallCompletes(s: State, t: Thread) returns (ls: seq<Label>)
    requires t !in s.threads && t.agent !in s.control && t.agent !in s.reload && s.owner == None
    ensures Completes(s, ls, t, s.sessions)
  {
    hide Completes;
    var u := Apply(s, By(t, AcquireHot));
    ls := FromPausing(Apply(u, By(t, LockReload)), t, 1, true, s.sessions);
    Later(u, t, LockReload, ls, s.sessions);
    ls := [By(t, LockReload)] + ls;
    Later(s, t, AcquireHot, ls, s.sessions);
    ls := [By(t, AcquireHot)] + ls;
  }

  /** The handle's unlock releases the lock while the connection is still there. */
  lemma UnlockReleases(s: State, t: Thread)
    requires ThreadEnabled(s, t, Unlock)
    ensures var u, x := Apply(s, By(t, Unlock)), s.threads[t].x; u.owner != Some(x) && u.sessions == s.sessions
  {
  }

  // ---------- a bootstrap ----------

  /** Tight steps take the bootstrap to its end, and these sessions are left. */
  ghost predicate Boots(s: State, ls: seq<Label>, b: nat, rest: map<Id, Session>) {
    && IsRun(s, ls) && AllTight(s, ls)
    && var u := After(s, ls);
       b !in u.boots && b !in u.children && u.owner == None && u.sessions == rest
  }

  /** On its control session with the lock, its child as said, none of the other sessions a child's. */
  ghost predicate Holds(s: State, b: nat, p: BootPhase, work: Option<Work>, rest: map<Id, Session>) {
    && b in s.boots && s.boots[b] == p && s.owner == Some(p.x) && p.x !in rest
    && s.sessions == rest[p.x := Session(OfBoot(b), work, false)]
    && (b in s.children <==> p.at.RunningChild?)
    && (forall y :: y in rest ==> rest[y].holder != Kid(b))
  }

  lemma Thereafter(s: State, l: Label, ls: seq<Label>, b: nat, rest: map<Id, Session>)
    requires Enabled(s, l) && Tight(s, l) && Boots(Apply(s, l), ls, b, rest)
    ensures Boots(s, [l] + ls, b, rest)
  {
    Onwards(s, l, ls);
  }

  lemma FromBootGranting(s: State, b: nat, p: BootPhase, rest: map<Id, Session>) returns (ls: seq<Label>)
    requires p.at.BootGranting? && Holds(s, b, p, Some(Grants), rest)
    ensures Boots(s, ls, b, rest)
  {
    assert rest[p.x := s.sessions[p.x]] - {p.x} == rest;
    Thereafter(s, Boot(b, BootGrantEnds), [], b, rest);
    ls := [Boot(b, BootGrantEnds)] + [];
  }

  lemma {:induction false} FromBootLocked(s: State, b: nat, p: BootPhase, rest: map<Id, Session>) returns (ls: seq<Label>)
    requires p.at.BootLocked? && Holds(s, b, p, None, rest)
    ensures Boots(s, ls, b, rest)
    decreases p.left, 10
  {
    hide Boots;
    var l := Boot(b, if p.left > 0 then SpawnChild else BootGrant);
    var u := Apply(s, l);
    if p.left > 0 {
      ls := FromRunningChild(u, b, u.boots[b], rest);
    } else {
      assert u.sessions == rest[p.x := Session(OfBoot(b), Some(Grants), false)];
      ls := FromBootGranting(u, b, u.boots[b], rest);
    }
    Thereafter(s, l, ls, b, rest);
    ls := [l] + ls;
  }

  lemma FromRunningChild(s: State, b: nat, p: BootPhase, rest: map<Id, Session>) returns (ls: seq<Label>)
    requires p.at.RunningChild? && p.left > 0 && Holds(s, b, p, None, rest)
    ensures Boots(s, ls, b, rest)
    decreases p.left, 9
  {
    hide Boots;
    var controls := set c | c in s.boots :: s.boots[c].x;
    var y := Above(s.used.Keys + s.sessions.Keys + controls);
    assert forall z :: z in rest ==> z in s.sessions;
    assert forall c :: c in s.boots ==> s.boots[c].x in controls;
    var l := Boot(b, KidOpens(y));
    ls := FromChildAtWork(Apply(s, l), b, p, y, rest);
    Thereafter(s, l, ls, b, rest);
    ls := [l] + ls;
  }

  /** The child's session ends by itself when its migration is done. */
  lemma FromChildAtWork(s: State, b: nat, p: BootPhase, y: Id, rest: map<Id, Session>) returns (ls: seq<Label>)
    requires p.at.RunningChild? && p.left > 0 && y != p.x && y !in rest && p.x !in rest
    requires b in s.boots && s.boots[b] == p && s.owner == Some(p.x) && b in s.children
    requires s.sessions == rest[p.x := Session(OfBoot(b), None, false)][y := Session(Kid(b), Some(Migration), false)]
    requires forall z :: z in rest ==> rest[z].holder != Kid(b)
    requires forall c :: c in s.boots && c != b ==> s.boots[c].x != y
    ensures Boots(s, ls, b, rest)
    decreases p.left, 8
  {
    hide Boots;
    var l := Of(SessionEnds(y));
    var u := Apply(s, l);
    assert u.sessions == rest[p.x := Session(OfBoot(b), None, false)];
    ls := FromChildDone(u, b, p, rest);
    Thereafter(s, l, ls, b, rest);
    ls := [l] + ls;
  }

  lemma FromChildDone(s: State, b: nat, p: BootPhase, rest: map<Id, Session>) returns (ls: seq<Label>)
    requires p.at.RunningChild? && p.left > 0 && Holds(s, b, p, None, rest)
    ensures Boots(s, ls, b, rest)
    decreases p.left, 7
  {
    hide Boots;
    var l := Boot(b, ChildReaped(true));
    var u := Apply(s, l);
    ls := FromDraining(u, b, u.boots[b], rest);
    Thereafter(s, l, ls, b, rest);
    ls := [l] + ls;
  }

  lemma FromDraining(s: State, b: nat, p: BootPhase, rest: map<Id, Session>) returns (ls: seq<Label>)
    requires p.at.Draining? && p.ok && p.left > 0 && Holds(s, b, p, None, rest)
    ensures Boots(s, ls, b, rest)
    decreases p.left, 6
  {
    hide Boots;
    var l := Boot(b, DrainOk);
    var u := Apply(s, l);
    ls := FromBootLocked(u, b, u.boots[b], rest);
    Thereafter(s, l, ls, b, rest);
    ls := [l] + ls;
  }

  /** A state in order, with the lock free: a new bootstrap of any number of lineages completes. */
  lemma BootstrapCompletes(s: State, b: nat, lineages: nat) returns (ls: seq<Label>)
    requires Inv(s) && s.owner == None && b !in s.boots && b !in s.children && NoKids(s, b)
    ensures Boots(s, ls, b, s.sessions)
  {
    hide Boots;
    var x := Above(s.used.Keys + s.sessions.Keys);
    var l, l' := Boot(b, BootOpen(x, lineages)), Boot(b, BootAskOk);
    var t := Apply(s, l);
    var u := Apply(t, l');
    assert u.sessions == s.sessions[x := Session(OfBoot(b), None, false)];
    ls := FromBootLocked(u, b, u.boots[b], s.sessions);
    Thereafter(t, l', ls, b, s.sessions);
    ls := [l'] + ls;
    Thereafter(s, l, ls, b, s.sessions);
    ls := [l] + ls;
  }
}
