/** What the locks of the control plane buy, over every run. */
module ControlPlaneSafety {
  import opened Options
  import opened ControlPlane

  // ---------- the invariant, piece by piece ----------

  ghost predicate ThreadOk(s: State, t: Thread) {
    t in s.threads ==>
      var p := s.threads[t];
      && t.agent in s.control && s.control[t.agent] == t
      && (p.hot ==> t.agent in s.reload && s.reload[t.agent] == t)
      && (p.at.WantsReload? || p.at.GrantAsking? || p.at.Granting? ==> !p.hot)
      && (InSession(p) ==> p.x in s.used && s.used[p.x] == OfThread(t))
      && (InSession(p) && p.x in s.sessions ==> s.sessions[p.x].holder == OfThread(t) && StageOk(s, p))
  }

  /** What a thread's own session is doing. */
  predicate StageOk(s: State, p: Phase)
    requires p.x in s.sessions
  {
    var session := s.sessions[p.x];
    match p.at
    case Opened => s.owner == Some(p.x) && session.work.None? && !session.waiting
    case Migrating => s.owner == Some(p.x) && session.work == Some(Migration) && !session.waiting
    case Closing => session.work != Some(Grants) && !session.waiting
    case Granting => s.owner == Some(p.x) && session.work == Some(Grants) && !session.waiting
    case Asking => s.owner != Some(p.x) && session.work.None?
    case GrantAsking => s.owner != Some(p.x) && session.work.None?
    case _ => session.work.None?
  }

  ghost predicate BootOk(s: State, b: nat) {
    b in s.boots ==>
      var p := s.boots[b];
      && p.x in s.used && s.used[p.x] == OfBoot(b)
      && (p.x in s.sessions ==> s.sessions[p.x].holder == OfBoot(b) && BootStageOk(s, p))
      && (NeedsControl(s, b) ==> p.x in s.sessions)
      && (p.at.BootAsking? || p.at.BootLocked? || p.at.BootGranting? ==> NoKids(s, b))
  }

  predicate BootStageOk(s: State, p: BootPhase)
    requires p.x in s.sessions
  {
    var session := s.sessions[p.x];
    match p.at
    case BootAsking => s.owner != Some(p.x) && session.work.None?
    case BootGranting => s.owner == Some(p.x) && session.work == Some(Grants) && !session.waiting
    case _ => s.owner == Some(p.x) && session.work.None? && !session.waiting
  }

  ghost predicate SessionOk(s: State, x: Id) {
    x in s.sessions ==>
      var session := s.sessions[x];
      && x in s.used
      && (session.work.Some? && !session.holder.Kid? ==> s.owner == Some(x))
      && (session.waiting ==> session.work.None? && s.owner != Some(x))
      && match session.holder
         case OfThread(t) => t in s.threads && InSession(s.threads[t]) && s.threads[t].x == x
         case OfBoot(b) => b in s.boots && s.boots[b].x == x
         case Kid(b) => b in s.boots && !session.waiting && session.work == Some(Migration) && s.owner != Some(x)
         case Orphan => true
  }

  ghost predicate AgentOk(s: State, a: nat) {
    && (a in s.control ==> s.control[a].agent == a && s.control[a] in s.threads)
    && (a in s.reload ==> s.reload[a].agent == a && s.reload[a] in s.threads && s.threads[s.reload[a]].hot)
  }

  /** A child runs exactly while its bootstrap waits for it. */
  ghost predicate ChildOk(s: State, b: nat) {
    b in s.children <==> b in s.boots && s.boots[b].at.RunningChild?
  }

  ghost predicate Inv(s: State) {
    && (forall t :: ThreadOk(s, t))
    && (forall b :: BootOk(s, b))
    && (forall x :: SessionOk(s, x))
    && (forall a :: AgentOk(s, a))
    && (forall b :: ChildOk(s, b))
    && (s.owner.Some? ==> s.owner.value in s.sessions)
  }

  // ---------- steps that touch one session at most ----------

  function Only(x: Option<Id>): set<Id> {
    if x.Some? then {x.value} else {}
  }

  /** Other sessions are as they were, and the lock changed hands only to or from this one. */
  predicate Touches(s: State, u: State, x: Option<Id>) {
    && u.sessions - Only(x) == s.sessions - Only(x)
    && u.used - Only(x) == s.used - Only(x)
    && (x.Some? && x.value in s.used ==> x.value in u.used && u.used[x.value] == s.used[x.value])
    && (u.owner == s.owner || (s.owner.None? && x.Some? && u.owner == x) || (x.Some? && s.owner == x && u.owner.None?))
  }

  lemma SameElsewhere(s: State, u: State, x: Option<Id>, y: Id)
    requires Touches(s, u, x) && x != Some(y)
    ensures y in u.sessions <==> y in s.sessions
    ensures y in s.sessions ==> u.sessions[y] == s.sessions[y]
    ensures y in s.used ==> y in u.used && u.used[y] == s.used[y]
  {
    if y in s.used { assert (u.used - Only(x))[y] == (s.used - Only(x))[y]; }
    assert y in u.sessions - Only(x) <==> y in s.sessions - Only(x);
    if y in s.sessions { assert (u.sessions - Only(x))[y] == (s.sessions - Only(x))[y]; }
  }

  lemma ThreadFrame(s: State, u: State, x: Option<Id>, t: Thread)
    requires ThreadOk(s, t) && Touches(s, u, x)
    requires (t in u.threads <==> t in s.threads) && (t in s.threads ==> u.threads[t] == s.threads[t])
    requires t in s.threads && InSession(s.threads[t]) ==> Some(s.threads[t].x) != x
    requires t in s.threads ==> t.agent in u.control && u.control[t.agent] == s.control[t.agent]
    requires t in s.threads && s.threads[t].hot ==> t.agent in u.reload && u.reload[t.agent] == s.reload[t.agent]
    ensures ThreadOk(u, t)
  {
    if t in s.threads && InSession(s.threads[t]) {
      SameElsewhere(s, u, x, s.threads[t].x);
    }
  }

  lemma BootFrame(s: State, u: State, x: Option<Id>, b: nat)
    requires BootOk(s, b) && Touches(s, u, x)
    requires (b in u.boots <==> b in s.boots) && (b in s.boots ==> u.boots[b] == s.boots[b])
    requires b in s.boots ==> Some(s.boots[b].x) != x
    requires x.Some? && x.value in u.sessions && u.sessions[x.value].holder == Kid(b) && b in s.boots ==>
               s.boots[b].at.RunningChild?
    ensures BootOk(u, b)
  {
    if b in s.boots {
      SameElsewhere(s, u, x, s.boots[b].x);
      if NoKids(s, b) && !s.boots[b].at.RunningChild? {
        forall y | y in u.sessions ensures u.sessions[y].holder != Kid(b) {
          if Some(y) != x { SameElsewhere(s, u, x, y); }
        }
      }
    }
  }

  lemma SessionFrame(s: State, u: State, x: Option<Id>, y: Id)
    requires SessionOk(s, y) && Touches(s, u, x) && x != Some(y)
    requires y in s.sessions && s.sessions[y].holder.OfThread? ==>
      var t := s.sessions[y].holder.thread; t in u.threads && InSession(u.threads[t]) && u.threads[t].x == y
    requires y in s.sessions && s.sessions[y].holder.OfBoot? ==>
      var b := s.sessions[y].holder.boot; b in u.boots && u.boots[b].x == y
    requires y in s.sessions && s.sessions[y].holder.Kid? ==> s.sessions[y].holder.boot in u.boots
    ensures SessionOk(u, y)
  {
    SameElsewhere(s, u, x, y);
  }

  // ---------- a thread's step ----------

  predicate Opens(act: Act) { act.Open? || act.BeginTx? }
  predicate Quiet(act: Act) { act.Acquire? || act.AcquireHot? || act.LockReload? || act.GiveUp? || act.HotDone? || act.OpenFails? }
  predicate Detaches(act: Act) { act.ClosePool? || act.GrantFails? || act.GrantEnds? || act.GrantAbandoned? }

  /** The session an act opens or works on. */
  function Touched(s: State, t: Thread, act: Act): Option<Id> {
    if Opens(act) then Some(act.x)
    else if Quiet(act) || t !in s.threads then None
    else Some(s.threads[t].x)
  }

  lemma LocksKeepServer(s: State, t: Thread, q: Option<Phase>)
    ensures var u := LocksAfter(s, t, q);
            u.sessions == s.sessions && u.owner == s.owner && u.used == s.used && u.boots == s.boots && u.children == s.children
  {
  }

  lemma ServerKeeps(s: State, t: Thread, act: Act)
    requires ThreadEnabled(s, t, act)
    ensures var u := ServerAfter(s, t, act);
            && u.boots == s.boots && u.children == s.children && u.threads == s.threads
            && u.control == s.control && u.reload == s.reload && u.abandoned == s.abandoned
  {
  }

  lemma ServerTouches(s: State, t: Thread, act: Act)
    requires ThreadEnabled(s, t, act)
    ensures Touches(s, ServerAfter(s, t, act), Touched(s, t, act))
  {
    var x := Touched(s, t, act);
    var u := ServerAfter(s, t, act);
    assert u.sessions - Only(x) == s.sessions - Only(x);
    assert u.used - Only(x) == s.used - Only(x);
  }

  lemma ThreadTouches(s: State, t: Thread, act: Act)
    requires ThreadEnabled(s, t, act)
    ensures Touches(s, ApplyThread(s, t, act), Touched(s, t, act))
    ensures ApplyThread(s, t, act).boots == s.boots && ApplyThread(s, t, act).children == s.children
  {
    hide LocksAfter, ServerAfter;
    ServerTouches(s, t, act);
    ServerKeeps(s, t, act);
    LocksKeepServer(ServerAfter(s, t, act), t, PhaseAfter(s, t, act));
  }

  lemma ActorStays(s: State, t: Thread, act: Act)
    requires ThreadOk(s, t) && AgentOk(s, t.agent) && ThreadEnabled(s, t, act) && (s.owner.Some? ==> s.owner.value in s.used)
    requires t in s.threads && s.threads[t].x in s.sessions ==> SessionOk(s, s.threads[t].x)
    ensures ThreadOk(ApplyThread(s, t, act), t)
  {
  }

  lemma OpenedSession(s: State, t: Thread, act: Act)
    requires ThreadEnabled(s, t, act) && Opens(act) && (s.owner.Some? ==> s.owner.value in s.used)
    ensures SessionOk(ApplyThread(s, t, act), act.x)
  {
  }

  lemma DetachedSession(s: State, t: Thread, act: Act)
    requires t in s.threads && ThreadOk(s, t) && SessionOk(s, s.threads[t].x) && ThreadEnabled(s, t, act) && Detaches(act)
    ensures SessionOk(ApplyThread(s, t, act), s.threads[t].x)
  {
  }

  lemma UsedSession(s: State, t: Thread, act: Act)
    requires t in s.threads && ThreadOk(s, t) && SessionOk(s, s.threads[t].x) && ThreadEnabled(s, t, act)
    requires !Detaches(act) && !Opens(act) && !Quiet(act)
    ensures SessionOk(ApplyThread(s, t, act), s.threads[t].x)
  {
  }

  lemma ActorAgents(s: State, t: Thread, act: Act, a: nat)
    requires ThreadOk(s, t) && AgentOk(s, a) && AgentOk(s, t.agent) && ThreadEnabled(s, t, act)
    requires a != t.agent && a in s.control ==> s.control[a] != t
    ensures AgentOk(ApplyThread(s, t, act), a)
  {
    hide ServerAfter, NextPhase;
    ServerKeeps(s, t, act);
  }

  /** Only one thread of an agent is past its control-plane lock. */
  lemma Alone(s: State, t: Thread, act: Act, other: Thread)
    requires ThreadOk(s, t) && ThreadOk(s, other) && ThreadEnabled(s, t, act) && other in s.threads && other != t
    ensures other.agent != t.agent
  {
  }

  /** A thread works on no session but its own. */
  lemma TouchedIsOwn(s: State, t: Thread, act: Act, other: Thread)
    requires ThreadOk(s, t) && ThreadOk(s, other) && ThreadEnabled(s, t, act)
    requires other in s.threads && InSession(s.threads[other]) && other != t
    ensures Some(s.threads[other].x) != Touched(s, t, act)
  {
  }

  lemma TouchedIsNoKid(s: State, t: Thread, act: Act)
    requires ThreadOk(s, t) && ThreadEnabled(s, t, act)
    ensures var u, x := ApplyThread(s, t, act), Touched(s, t, act);
            x.Some? && x.value in u.sessions ==> !u.sessions[x.value].holder.Kid?
  {
  }

  lemma ActorSession(s: State, t: Thread, act: Act)
    requires Inv(s) && ThreadEnabled(s, t, act) && Touched(s, t, act).Some?
    ensures SessionOk(ApplyThread(s, t, act), Touched(s, t, act).value)
  {
    hide ApplyThread, StageOk, BootOk, AgentOk;
    assert ThreadOk(s, t);
    if s.owner.Some? { assert SessionOk(s, s.owner.value); }
    if Opens(act) { OpenedSession(s, t, act); }
    else {
      assert SessionOk(s, s.threads[t].x);
      if Detaches(act) { DetachedSession(s, t, act); } else { UsedSession(s, t, act); }
    }
  }

  lemma OwnerStays(s: State, t: Thread, act: Act)
    requires ThreadOk(s, t) && ThreadEnabled(s, t, act) && (s.owner.Some? ==> s.owner.value in s.sessions)
    ensures var u := ApplyThread(s, t, act); u.owner.Some? ==> u.owner.value in u.sessions
  {
  }

  lemma ThreadStep(s: State, t: Thread, act: Act)
    requires Inv(s) && ThreadEnabled(s, t, act)
    ensures Inv(ApplyThread(s, t, act))
  {
    hide ThreadOk, BootOk, SessionOk, AgentOk, ThreadEnabled, ServerAfter, NextPhase, Touched, Touches;
    var u, x := ApplyThread(s, t, act), Touched(s, t, act);
    if s.owner.Some? { OwnerKnown(s); }
    ThreadTouches(s, t, act);
    ServerKeeps(s, t, act);
    forall v ensures ThreadOk(u, v) {
      if v == t {
        ActorStays(s, t, act);
      } else {
        if v in s.threads {
          OwnsItsLocks(s, v);
          Alone(s, t, act, v);
          if InSession(s.threads[v]) { TouchedIsOwn(s, t, act, v); }
        }
        ThreadFrame(s, u, x, v);
      }
    }
    forall b ensures BootOk(u, b) {
      TouchedIsNoKid(s, t, act);
      TouchedIsNoBoot(s, t, act, b);
      BootFrame(s, u, x, b);
    }
    forall y: Id ensures SessionOk(u, y) {
      if Some(y) == x {
        ActorSession(s, t, act);
      } else {
        if y in s.sessions && s.sessions[y].holder.OfThread? { HolderStays(s, t, act, y); }
        if y in s.sessions { HolderKnown(s, y); }
        SessionFrame(s, u, x, y);
      }
    }
    forall a ensures AgentOk(u, a) { ControlIsOwn(s, t, a); ActorAgents(s, t, act, a); }
    forall b ensures ChildOk(u, b) { assert ChildOk(s, b); }
    OwnerStays(s, t, act);
  }

  lemma OwnsItsLocks(s: State, v: Thread)
    requires ThreadOk(s, v) && v in s.threads
    ensures v.agent in s.control && s.control[v.agent] == v
    ensures s.threads[v].hot ==> v.agent in s.reload && s.reload[v.agent] == v
  {
  }

  lemma TouchedIsNoBoot(s: State, t: Thread, act: Act, b: nat)
    requires ThreadOk(s, t) && BootOk(s, b) && ThreadEnabled(s, t, act)
    ensures b in s.boots ==> Some(s.boots[b].x) != Touched(s, t, act)
  {
  }

  lemma HolderKnown(s: State, y: Id)
    requires SessionOk(s, y) && y in s.sessions
    ensures s.sessions[y].holder.OfBoot? ==> s.sessions[y].holder.boot in s.boots && s.boots[s.sessions[y].holder.boot].x == y
    ensures s.sessions[y].holder.Kid? ==> s.sessions[y].holder.boot in s.boots
  {
  }

  /** The holder of a session the step does not touch is still at it. */
  lemma HolderStays(s: State, t: Thread, act: Act, y: Id)
    requires ThreadOk(s, t) && SessionOk(s, y) && ThreadEnabled(s, t, act) && Some(y) != Touched(s, t, act)
    requires y in s.sessions && s.sessions[y].holder.OfThread?
    ensures var v := s.sessions[y].holder.thread;
            var u := ApplyThread(s, t, act);
            v in u.threads && InSession(u.threads[v]) && u.threads[v].x == y
  {
    hide StageOk, ServerAfter;
    ServerKeeps(s, t, act);
  }

  lemma OwnerKnown(s: State)
    requires Inv(s) && s.owner.Some?
    ensures s.owner.value in s.used
  {
    assert SessionOk(s, s.owner.value);
  }

  lemma ControlIsOwn(s: State, t: Thread, a: nat)
    requires Inv(s)
    ensures a != t.agent && a in s.control ==> s.control[a] != t
  {
    assert AgentOk(s, a);
  }

  // ---------- a bootstrap's step ----------

  function BootTouched(s: State, b: nat, act: BootAct): Option<Id> {
    if act.BootOpen? || act.KidOpens? then Some(act.x)
    else if act.SpawnChild? || act.ChildReaped? || b !in s.boots then None
    else Some(s.boots[b].x)
  }

  lemma BootServerTouches(s: State, b: nat, act: BootAct)
    requires BootEnabled(s, b, act)
    ensures Touches(s, BootServerAfter(s, b, act), BootTouched(s, b, act))
  {
    var u, x := BootServerAfter(s, b, act), BootTouched(s, b, act);
    assert u.sessions - Only(x) == s.sessions - Only(x);
    assert u.used - Only(x) == s.used - Only(x);
  }

  lemma BootServerKeeps(s: State, b: nat, act: BootAct)
    requires BootEnabled(s, b, act)
    ensures var u := BootServerAfter(s, b, act); u.threads == s.threads && u.control == s.control && u.reload == s.reload
    ensures BootServerAfter(s, b, act).boots == s.boots
  {
  }

  predicate SameBoot(s: State, u: State, c: nat) {
    (c in u.boots <==> c in s.boots) && (c in s.boots ==> u.boots[c] == s.boots[c])
  }

  lemma BootTouches(s: State, b: nat, act: BootAct)
    requires BootEnabled(s, b, act)
    ensures Touches(s, ApplyBoot(s, b, act), BootTouched(s, b, act))
    ensures var u := ApplyBoot(s, b, act); u.threads == s.threads && u.control == s.control && u.reload == s.reload
    ensures forall c :: c != b ==> SameBoot(s, ApplyBoot(s, b, act), c)
  {
    hide BootServerAfter, BootTouched, BootLeaves, NextBootPhase, BootEnabled;
    BootServerTouches(s, b, act);
    BootServerKeeps(s, b, act);
  }

  predicate BootStarts(act: BootAct) { act.BootOpen? || act.KidOpens? }

  lemma BootStays(s: State, b: nat, act: BootAct)
    requires BootOk(s, b) && ChildOk(s, b) && BootEnabled(s, b, act) && Tight(s, Boot(b, act))
    requires s.owner.Some? ==> s.owner.value in s.used
    requires b in s.boots && s.boots[b].x in s.sessions ==> SessionOk(s, s.boots[b].x)
    ensures BootOk(ApplyBoot(s, b, act), b)
  {
    BootTouches(s, b, act);
    if !BootStarts(act) && NoKids(s, b) { KidsUnchanged(s, b, act); }
  }

  lemma KidsUnchanged(s: State, b: nat, act: BootAct)
    requires BootOk(s, b) && BootEnabled(s, b, act) && !BootStarts(act) && NoKids(s, b)
    ensures NoKids(ApplyBoot(s, b, act), b)
  {
    BootTouches(s, b, act);
    var u, x := ApplyBoot(s, b, act), BootTouched(s, b, act);
    forall y | y in u.sessions ensures u.sessions[y].holder != Kid(b) {
      if Some(y) != x { SameElsewhere(s, u, x, y); }
    }
  }

  lemma BootSession(s: State, b: nat, act: BootAct)
    requires BootOk(s, b) && ChildOk(s, b) && BootEnabled(s, b, act) && BootTouched(s, b, act).Some?
    requires s.owner.Some? ==> s.owner.value in s.used
    requires b in s.boots ==> SessionOk(s, s.boots[b].x)
    ensures SessionOk(ApplyBoot(s, b, act), BootTouched(s, b, act).value)
  {
  }

  lemma BootTouchedIsOwn(s: State, b: nat, act: BootAct)
    requires BootOk(s, b) && BootEnabled(s, b, act)
    ensures forall t :: ThreadOk(s, t) && t in s.threads && InSession(s.threads[t]) ==> Some(s.threads[t].x) != BootTouched(s, b, act)
    ensures forall c :: c != b && BootOk(s, c) && c in s.boots ==> Some(s.boots[c].x) != BootTouched(s, b, act)
  {
  }

  lemma BootMakesOwnKids(s: State, b: nat, act: BootAct)
    requires BootOk(s, b) && BootEnabled(s, b, act)
    ensures var u, x := ApplyBoot(s, b, act), BootTouched(s, b, act);
            x.Some? && x.value in u.sessions && u.sessions[x.value].holder.Kid? ==> u.sessions[x.value].holder == Kid(b)
  {
  }

  lemma BootOwner(s: State, b: nat, act: BootAct)
    requires BootOk(s, b) && BootEnabled(s, b, act) && (s.owner.Some? ==> s.owner.value in s.sessions)
    ensures var u := ApplyBoot(s, b, act); u.owner.Some? ==> u.owner.value in u.sessions
  {
  }

  lemma BootAgents(s: State, b: nat, act: BootAct, a: nat)
    requires BootOk(s, b) && AgentOk(s, a) && BootEnabled(s, b, act)
    ensures AgentOk(ApplyBoot(s, b, act), a)
  {
    hide BootServerAfter;
    BootTouches(s, b, act);
  }

  /** The holder of a session the step does not touch is still at it, kids included. */
  lemma BootHolderStays(s: State, b: nat, act: BootAct, y: Id)
    requires BootOk(s, b) && SessionOk(s, y) && BootEnabled(s, b, act) && Tight(s, Boot(b, act)) && Some(y) != BootTouched(s, b, act)
    requires y in s.sessions
    ensures var u, holder := ApplyBoot(s, b, act), s.sessions[y].holder;
            && (holder.OfBoot? ==> holder.boot in u.boots && u.boots[holder.boot].x == y)
            && (holder.Kid? ==> holder.boot in u.boots)
            && (holder.OfThread? ==> holder.thread in s.threads && InSession(s.threads[holder.thread]) && s.threads[holder.thread].x == y)
  {
  }

  lemma BootChildren(s: State, b: nat, act: BootAct, c: nat)
    requires BootEnabled(s, b, act) && Tight(s, Boot(b, act)) && ChildOk(s, c)
    ensures ChildOk(ApplyBoot(s, b, act), c)
  {
    hide BootServerAfter;
    BootServerKeeps(s, b, act);
  }

  lemma BootStep(s: State, b: nat, act: BootAct)
    requires Inv(s) && BootEnabled(s, b, act) && Tight(s, Boot(b, act))
    ensures Inv(ApplyBoot(s, b, act))
  {
    hide ApplyBoot, ThreadOk, BootOk, SessionOk, AgentOk, BootEnabled, Tight, BootTouched, Touches;
    var u, x := ApplyBoot(s, b, act), BootTouched(s, b, act);
    if s.owner.Some? { OwnerKnown(s); }
    BootTouches(s, b, act);
    BootTouchedIsOwn(s, b, act);
    BootMakesOwnKids(s, b, act);
    forall t ensures ThreadOk(u, t) {
      if t in s.threads { OwnsItsLocks(s, t); }
      ThreadFrame(s, u, x, t);
    }
    forall c ensures BootOk(u, c) {
      if c == b { BootStays(s, b, act); } else { assert SameBoot(s, u, c); BootFrame(s, u, x, c); }
    }
    forall y: Id ensures SessionOk(u, y) {
      if Some(y) == x {
        BootSession(s, b, act);
      } else {
        if y in s.sessions { BootHolderStays(s, b, act, y); }
        SessionFrame(s, u, x, y);
      }
    }
    forall a ensures AgentOk(u, a) { BootAgents(s, b, act, a); }
    forall c ensures ChildOk(u, c) { BootChildren(s, b, act, c); }
    BootOwner(s, b, act);
  }

  // ---------- the world's step ----------

  lemma DeathStep(s: State, a: nat)
    requires Inv(s)
    ensures Inv(ApplyWorld(s, AgentDies(a)))
  {
    var u := ApplyWorld(s, AgentDies(a));
    forall t ensures ThreadOk(u, t) { assert ThreadOk(s, t) && AgentOk(s, t.agent); }
    forall b ensures BootOk(u, b) { assert BootOk(s, b); }
    forall x: Id ensures SessionOk(u, x) { assert SessionOk(s, x); }
    forall c ensures AgentOk(u, c) { assert AgentOk(s, c); }
    forall b ensures ChildOk(u, b) { assert ChildOk(s, b); }
  }

  lemma LossStep(s: State, w: World)
    requires Inv(s) && WorldEnabled(s, w) && (w.SessionEnds? || w.UnwantedGrant?) && Tight(s, Of(w))
    ensures Inv(ApplyWorld(s, w))
  {
    var u, x := ApplyWorld(s, w), Some(w.x);
    assert SessionOk(s, w.x);
    assert u.sessions - Only(x) == s.sessions - Only(x);
    forall t ensures ThreadOk(u, t) {
      assert ThreadOk(s, t);
      if !(t in s.threads && InSession(s.threads[t]) && s.threads[t].x == w.x) { ThreadFrame(s, u, x, t); }
    }
    forall b ensures BootOk(u, b) {
      assert BootOk(s, b);
      if b in s.boots && s.boots[b].x == w.x { LostControl(s, w, b); } else { BootFrame(s, u, x, b); }
    }
    forall y: Id ensures SessionOk(u, y) {
      assert SessionOk(s, y);
      if y != w.x { SessionFrame(s, u, x, y); }
    }
    forall a ensures AgentOk(u, a) { assert AgentOk(s, a); }
    forall b ensures ChildOk(u, b) { assert ChildOk(s, b); }
  }

  lemma LostControl(s: State, w: World, b: nat)
    requires WorldEnabled(s, w) && (w.SessionEnds? || w.UnwantedGrant?) && Tight(s, Of(w))
    requires b in s.boots && s.boots[b].x == w.x && BootOk(s, b)
    ensures BootOk(ApplyWorld(s, w), b)
  {
    var u := ApplyWorld(s, w);
    assert NoKids(s, b) ==> NoKids(u, b);
  }

  lemma ChildHasBoot(s: State, b: nat)
    requires Inv(s)
    ensures b in s.children ==> b in s.boots
  {
    assert ChildOk(s, b);
  }

  /** The history of abandoned sessions does not enter into the invariant. */
  lemma HistoryIsAside(s: State, ids: set<Id>)
    requires Inv(s)
    ensures Inv(s.(abandoned := ids))
  {
    var v := s.(abandoned := ids);
    forall t ensures ThreadOk(v, t) { assert ThreadOk(s, t); }
    forall b ensures BootOk(v, b) { BootAside(s, ids, b); }
    forall x: Id ensures SessionOk(v, x) { assert SessionOk(s, x); }
    forall a ensures AgentOk(v, a) { assert AgentOk(s, a); }
    forall b ensures ChildOk(v, b) { assert ChildOk(s, b); }
  }

  lemma BootAside(s: State, ids: set<Id>, b: nat)
    requires BootOk(s, b)
    ensures BootOk(s.(abandoned := ids), b)
  {
    assert NoKids(s, b) <==> NoKids(s.(abandoned := ids), b);
  }

  lemma MovedStep(s: State, l: Label)
    requires Inv(s) && Enabled(s, l) && Tight(s, l)
    ensures Inv(Moved(s, l))
  {
    hide Inv, Tight, ThreadEnabled, BootEnabled, ApplyThread, ApplyBoot, ApplyWorld;
    match l
    case By(t, act) => ThreadStep(s, t, act);
    case Boot(b, act) => BootStep(s, b, act);
    case Of(w) =>
      match w
      case AgentDies(a) => DeathStep(s, a);
      case ChildEnds(b) => ChildHasBoot(s, b);
      case SessionEnds(_) => LossStep(s, w);
      case UnwantedGrant(_) => LossStep(s, w);
  }

  /** Every step a bootstrap takes in order keeps the invariant. */
  lemma InvStep(s: State, l: Label)
    requires Inv(s) && Enabled(s, l) && Tight(s, l)
    ensures Inv(Apply(s, l))
  {
    hide Inv, Moved, Abandons, Tight, Enabled;
    MovedStep(s, l);
    HistoryIsAside(Moved(s, l), Apply(s, l).abandoned);
  }

  lemma {:induction false} InvAlways(s: State, ls: seq<Label>)
    requires Inv(s) && IsRun(s, ls) && AllTight(s, ls)
    ensures Inv(After(s, ls))
    decreases |ls|
  {
    if ls != [] {
      InvStep(s, ls[0]);
      InvAlways(Apply(s, ls[0]), ls[1..]);
    }
  }

  lemma InitOk()
    ensures Inv(Init())
  {
  }

  // ---------- migrations and grants never overlap ----------

  predicate Works(s: State, x: Id, w: Work) {
    x in s.sessions && s.sessions[x].work == Some(w)
  }

  /** Two sessions at work at once are the migration sessions of one bootstrap's child. */
  lemma WorkersShareAChild(s: State, x: Id, y: Id)
    requires Inv(s) && x != y && x in s.sessions && y in s.sessions
    requires s.sessions[x].work.Some? && s.sessions[y].work.Some?
    ensures s.sessions[x].holder.Kid? && s.sessions[x].holder == s.sessions[y].holder
  {
    assert SessionOk(s, x) && SessionOk(s, y);
    if s.sessions[x].holder.Kid? { KidMeansOwner(s, x); }
    if s.sessions[y].holder.Kid? { KidMeansOwner(s, y); }
  }

  /** While a child's session lives, its bootstrap's control session holds the lock and does no work itself. */
  lemma KidMeansOwner(s: State, x: Id)
    requires Inv(s) && x in s.sessions && s.sessions[x].holder.Kid?
    ensures var b := s.sessions[x].holder.boot;
            && b in s.boots && s.owner == Some(s.boots[b].x) && s.boots[b].x in s.sessions
            && s.sessions[s.boots[b].x].work.None? && s.sessions[s.boots[b].x].holder == OfBoot(b)
  {
    assert SessionOk(s, x);
    var b := s.sessions[x].holder.boot;
    assert BootOk(s, b);
    assert !NoKids(s, b);
  }

  lemma NeverOverlap(s: State, x: Id, y: Id)
    requires Inv(s) && x != y
    ensures !(Works(s, x, Migration) && Works(s, y, Grants)) && !(Works(s, x, Grants) && Works(s, y, Grants))
    ensures Works(s, x, Migration) && Works(s, y, Migration) ==>
              s.sessions[x].holder.Kid? && s.sessions[x].holder == s.sessions[y].holder
  {
    if x in s.sessions && y in s.sessions && s.sessions[x].work.Some? && s.sessions[y].work.Some? {
      WorkersShareAChild(s, x, y);
      assert SessionOk(s, x) && SessionOk(s, y);
    }
  }

  /**
   * In every run whose bootstraps let go in order, however agents and bootstraps interleave, die or
   * lose connections: no migration runs beside a grants run, no two grants runs overlap, and two
   * migrations only within one child.
   */
  lemma MigrationsAndGrantsNeverOverlap(ls: seq<Label>, x: Id, y: Id)
    requires IsRun(Init(), ls) && AllTight(Init(), ls) && x != y
    ensures !(Works(After(Init(), ls), x, Migration) && Works(After(Init(), ls), y, Grants))
    ensures !(Works(After(Init(), ls), x, Grants) && Works(After(Init(), ls), y, Grants))
    ensures Works(After(Init(), ls), x, Migration) && Works(After(Init(), ls), y, Migration) ==>
              After(Init(), ls).sessions[x].holder.Kid? && After(Init(), ls).sessions[x].holder == After(Init(), ls).sessions[y].holder
  {
    InitOk();
    InvAlways(Init(), ls);
    NeverOverlap(After(Init(), ls), x, y);
  }

  // ---------- the reload mutex ----------

  /** The reload mutex is taken inside the control plane, so nobody ever waits for it. */
  lemma ReloadIsNeverContended(s: State, t: Thread)
    requires Inv(s) && t in s.threads && s.threads[t].at.WantsReload?
    ensures ThreadEnabled(s, t, LockReload)
  {
    assert ThreadOk(s, t) && AgentOk(s, t.agent);
    forall u | u in s.threads && u.agent == t.agent ensures u == t {
      assert ThreadOk(s, u);
    }
  }
}
