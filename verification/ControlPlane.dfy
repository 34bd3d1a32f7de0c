/**
 * Who may change one database's schema and grants, and when: the agents' threads with their
 * in-process locks (runtime.go, migrations.go, hotreload.go), the managed bootstrap with its
 * migration child (libs/go/bootstrap/run.go), and the server's sessions with the one advisory
 * lock they all take.
 */
module ControlPlane {
  import opened Options

  type Id = nat

  /** One call of Init, Start or the change handler in one agent process. */
  datatype Thread = Thread(agent: nat, call: nat)

  datatype Work = Migration | Grants

  /** Whose connection a session is. A kid belongs to the child a bootstrap runs. */
  datatype Holder = OfThread(thread: Thread) | OfBoot(boot: nat) | Kid(boot: nat) | Orphan

  /** A server session: what it executes, and whether it waits for the advisory lock. */
  datatype Session = Session(holder: Holder, work: Option<Work>, waiting: bool)

  datatype Stage = Between | WantsReload | Asking | Opened | Migrating | Failing | Closing | GrantAsking | Granting

  /**
   * A thread that holds its agent's control plane. left: lineages still to migrate. hot: on behalf
   * of a watched change, under the reload mutex. x: its session, in the stages that have one.
   */
  datatype Phase = Phase(at: Stage, left: nat, hot: bool, x: Id)

  datatype BootStage = BootAsking | BootLocked | RunningChild | Draining | BootGranting

  /** A bootstrap on its control session x. ok: whether its last child succeeded. */
  datatype BootPhase = BootPhase(at: BootStage, left: nat, x: Id, ok: bool)

  /**
   * children: the bootstraps whose migration child runs, whether or not they still live.
   * abandoned: every session whose client gave up on it while it may have been at work or waiting.
   */
  datatype State = State(
    threads: map<Thread, Phase>,
    boots: map<nat, BootPhase>,
    children: set<nat>,
    control: map<nat, Thread>,      // per agent, the thread holding the control plane
    reload: map<nat, Thread>,       // per agent, the thread holding the reload mutex
    sessions: map<Id, Session>,
    owner: Option<Id>,              // the session holding the advisory lock
    used: map<Id, Holder>,          // every session there ever was, with whose it began as
    abandoned: set<Id>)

  datatype Act =
    | Acquire(lineages: nat)
    | AcquireHot
    | LockReload
    | GiveUp
    | Open(x: Id)
    | AskOk
    | AskFails(abandoned: bool)     // abandoned: the backend goes on waiting
    | OpenFails
    | BeginUp
    | UpEnds
    | UpAbandoned                   // the client gives up while the statement still runs
    | Unlock
    | ClosePool
    | HotDone
    | BeginTx(x: Id)
    | GrantOk
    | GrantFails(abandoned: bool)
    | GrantEnds
    | GrantAbandoned

  datatype BootAct =
    | BootOpen(x: Id, lineages: nat)
    | BootAskOk
    | BootAskFails(abandoned: bool)
    | SpawnChild
    | KidOpens(x: Id)               // also after the bootstrap that started the child is gone
    | ChildReaped(ok: bool)
    | DrainOk
    | DrainFails
    | BootGrant
    | BootGrantEnds
    | BootGrantAbandoned
    | BootFails
    | BootDies

  datatype World = AgentDies(agent: nat) | SessionEnds(x: Id) | UnwantedGrant(x: Id) | ChildEnds(boot: nat)

  datatype Label = By(thread: Thread, act: Act) | Boot(boot: nat, does: BootAct) | Of(world: World)

  // ---------- sessions ----------

  predicate InSession(p: Phase) {
    !p.at.Between? && !p.at.WantsReload?
  }

  /** The session and the lock, once this session is gone. */
  function Ended(s: State, x: Id): State {
    s.(sessions := s.sessions - {x}, owner := if s.owner == Some(x) then None else s.owner)
  }

  /** The client is done with a session: an idle one ends, one at work or waiting goes on alone. */
  function Detached(s: State, x: Id): State {
    if x !in s.sessions then s
    else if s.sessions[x].work.None? && !s.sessions[x].waiting then Ended(s, x)
    else s.(sessions := s.sessions[x := s.sessions[x].(holder := Orphan)])
  }

  /** A session still connected, at this work. */
  function Working(s: State, x: Id, work: Option<Work>): State {
    if x in s.sessions then s.(sessions := s.sessions[x := s.sessions[x].(work := work, waiting := false)]) else s
  }

  function Connected(s: State, x: Id, holder: Holder, work: Option<Work>, waiting: bool): State {
    s.(sessions := s.sessions[x := Session(holder, work, waiting)], used := s.used[x := holder])
  }

  /** A waiting session is handed the lock. */
  function Granted(s: State, x: Id, work: Option<Work>): State {
    Working(s, x, work).(owner := Some(x))
  }

  function Unlocked(s: State, x: Id): State {
    s.(owner := if s.owner == Some(x) then None else s.owner)
  }

  // ---------- threads ----------

  predicate ThreadEnabled(s: State, t: Thread, act: Act) {
    if t !in s.threads then
      (act.Acquire? || act.AcquireHot?) && t.agent !in s.control
    else
      !act.Acquire? && !act.AcquireHot? && Allowed(s, t, s.threads[t], act)
  }

  predicate Allowed(s: State, t: Thread, p: Phase, act: Act) {
    match act
    case LockReload => p.at.WantsReload? && t.agent !in s.reload
    case GiveUp => p.at.Between? || p.at.WantsReload?
    case Open(x) => p.at.Between? && p.left > 0 && x !in s.used
    case AskOk => p.at.Asking? && s.owner.None? && p.x in s.sessions
    case AskFails(_) => p.at.Asking?
    case OpenFails => p.at.Opened?
    case BeginUp => p.at.Opened? && p.x in s.sessions
    case UpEnds => p.at.Migrating?
    case UpAbandoned => p.at.Migrating?
    case Unlock => p.at.Closing? && p.x in s.sessions && s.sessions[p.x].work.None?
    case ClosePool => p.at.Failing? || p.at.Closing?
    case HotDone => p.at.Between? && p.hot
    case BeginTx(x) => p.at.Between? && p.left == 0 && !p.hot && x !in s.used
    case GrantOk => p.at.GrantAsking? && s.owner.None? && p.x in s.sessions
    case GrantFails(_) => p.at.GrantAsking?
    case GrantEnds => p.at.Granting?
    case GrantAbandoned => p.at.Granting?
    case _ => true
  }

  predicate Leaves(act: Act) {
    act.GiveUp? || act.GrantFails? || act.GrantEnds? || act.GrantAbandoned?
  }

  /** Where the thread goes, when it does not leave. */
  function NextPhase(p: Phase, act: Act): Phase {
    match act
    case Acquire(n) => Phase(Between, n, false, 0)
    case AcquireHot => Phase(WantsReload, 1, false, 0)
    case LockReload => Phase(Between, 1, true, 0)
    case Open(x) => p.(at := Asking, x := x)
    case AskOk => p.(at := Opened)
    case AskFails(_) => p.(at := Failing)
    case OpenFails => p.(at := Failing)
    case BeginUp => p.(at := Migrating)
    case UpEnds => p.(at := Closing)
    case UpAbandoned => p.(at := Closing)
    case ClosePool => p.(at := Between, left := if p.at.Closing? && p.left > 0 then p.left - 1 else p.left)
    case HotDone => Phase(Between, 0, false, 0)
    case BeginTx(x) => Phase(GrantAsking, 0, false, x)
    case GrantOk => p.(at := Granting)
    case _ => p
  }

  /** What the server sees of an act. */
  function ServerAfter(s: State, t: Thread, act: Act): State
    requires ThreadEnabled(s, t, act)
  {
    match act
    case Open(x) => Connected(s, x, OfThread(t), None, true)
    case BeginTx(x) => Connected(s, x, OfThread(t), None, true)
    case AskOk => Granted(s, s.threads[t].x, None)
    case GrantOk => Granted(s, s.threads[t].x, Some(Grants))
    case AskFails(abandoned) => if abandoned then s else Working(s, s.threads[t].x, None)
    case GrantFails(abandoned) =>
      if abandoned then Detached(s, s.threads[t].x) else Ended(s, s.threads[t].x)
    case BeginUp => Working(s, s.threads[t].x, Some(Migration))
    case UpEnds => Working(s, s.threads[t].x, None)
    case Unlock => Unlocked(s, s.threads[t].x)
    case ClosePool => Detached(s, s.threads[t].x)
    case GrantEnds => Ended(s, s.threads[t].x)
    case GrantAbandoned => Detached(s, s.threads[t].x)
    case _ => s
  }

  const IDLE := Phase(Between, 0, false, 0)

  function PhaseAfter(s: State, t: Thread, act: Act): Option<Phase> {
    if Leaves(act) then None else Some(NextPhase(if t in s.threads then s.threads[t] else IDLE, act))
  }

  /** The locks inside the process, taken and released with the phases. */
  function LocksAfter(s: State, t: Thread, q: Option<Phase>): State {
    s.(threads := if q.Some? then s.threads[t := q.value] else s.threads - {t},
       control := if q.Some? then s.control[t.agent := t] else s.control - {t.agent},
       reload := if q.Some? && q.value.hot then s.reload[t.agent := t]
                 else if t.agent in s.reload && s.reload[t.agent] == t then s.reload - {t.agent} else s.reload)
  }

  function ApplyThread(s: State, t: Thread, act: Act): State
    requires ThreadEnabled(s, t, act)
  {
    LocksAfter(ServerAfter(s, t, act), t, PhaseAfter(s, t, act))
  }

  // ---------- the managed bootstrap ----------

  ghost predicate NoKids(s: State, b: nat) {
    forall x :: x in s.sessions ==> s.sessions[x].holder != Kid(b)
  }

  ghost predicate BootEnabled(s: State, b: nat, act: BootAct) {
    match act
    case BootOpen(x, _) => b !in s.boots && b !in s.children && x !in s.used && NoKids(s, b)
    case KidOpens(x) => b in s.children && x !in s.used
    case _ => b in s.boots && BootAllowed(s, b, s.boots[b], act)
  }

  ghost predicate BootAllowed(s: State, b: nat, p: BootPhase, act: BootAct) {
    match act
    case BootAskOk => p.at.BootAsking? && s.owner.None? && p.x in s.sessions
    case BootAskFails(_) => p.at.BootAsking?
    case SpawnChild => p.at.BootLocked? && p.left > 0
    case ChildReaped(_) => p.at.RunningChild?
    case DrainOk => p.at.Draining? && NoKids(s, b) && p.x in s.sessions
    case DrainFails => p.at.Draining?
    case BootGrant => p.at.BootLocked? && p.left == 0 && p.x in s.sessions
    case BootGrantEnds => p.at.BootGranting?
    case BootGrantAbandoned => p.at.BootGranting?
    case BootFails => p.at.BootLocked?
    case _ => true
  }

  predicate BootLeaves(p: BootPhase, act: BootAct) {
    || act.BootAskFails? || act.DrainFails? || act.BootGrantEnds? || act.BootGrantAbandoned? || act.BootFails? || act.BootDies?
    || (act.DrainOk? && !p.ok)
  }

  function NextBootPhase(p: BootPhase, act: BootAct): BootPhase {
    match act
    case BootOpen(x, n) => BootPhase(BootAsking, n, x, true)
    case BootAskOk => p.(at := BootLocked)
    case SpawnChild => p.(at := RunningChild)
    case ChildReaped(ok) => p.(at := Draining, ok := ok)
    case DrainOk => p.(at := BootLocked, left := if p.left > 0 then p.left - 1 else 0)
    case BootGrant => p.(at := BootGranting)
    case _ => p
  }

  ghost function BootServerAfter(s: State, b: nat, act: BootAct): State
    requires BootEnabled(s, b, act)
  {
    match act
    case BootOpen(x, _) => Connected(s, x, OfBoot(b), None, true)
    case BootAskOk => Granted(s, s.boots[b].x, None)
    case BootAskFails(abandoned) => if abandoned then Detached(s, s.boots[b].x) else Ended(s, s.boots[b].x)
    case KidOpens(x) => Connected(s, x, Kid(b), Some(Migration), false)
    case DrainOk => if s.boots[b].ok then s else Ended(s, s.boots[b].x)
    case DrainFails => Ended(s, s.boots[b].x)
    case BootGrant => Working(s, s.boots[b].x, Some(Grants))
    case BootGrantEnds => Ended(s, s.boots[b].x)
    case BootGrantAbandoned => Detached(s, s.boots[b].x)
    case BootFails => Ended(s, s.boots[b].x)
    case BootDies => Detached(s, s.boots[b].x)
    case _ => s
  }

  const NO_BOOT := BootPhase(BootAsking, 0, 0, true)

  /** The child starts and is reaped with its bootstrap, and outlives one that dies. */
  function ChildrenAfter(s: State, b: nat, act: BootAct): set<nat> {
    if act.SpawnChild? then s.children + {b} else if act.ChildReaped? then s.children - {b} else s.children
  }

  function BootsAfter(s: State, b: nat, act: BootAct): map<nat, BootPhase> {
    var p := if b in s.boots then s.boots[b] else NO_BOOT;
    if act.KidOpens? then s.boots else if BootLeaves(p, act) then s.boots - {b} else s.boots[b := NextBootPhase(p, act)]
  }

  ghost function ApplyBoot(s: State, b: nat, act: BootAct): State
    requires BootEnabled(s, b, act)
  {
    BootServerAfter(s, b, act).(boots := BootsAfter(s, b, act), children := ChildrenAfter(s, b, act))
  }

  // ---------- the world ----------

  predicate WorldEnabled(s: State, w: World) {
    match w
    case AgentDies(_) => true
    case SessionEnds(x) => x in s.sessions   // by itself, or its connection is lost
    case UnwantedGrant(x) => x in s.sessions && s.sessions[x].waiting && GivenUp(s, s.sessions[x].holder) && s.owner.None?
    case ChildEnds(b) => b in s.children && b !in s.boots
  }

  /** The client waits no longer, though the backend may. */
  predicate GivenUp(s: State, holder: Holder) {
    holder.Orphan? || (holder.OfThread? && holder.thread in s.threads && s.threads[holder.thread].at.Failing?)
  }

  /** A process's sessions are left to end by themselves. */
  function Orphaned(s: State, agent: nat): map<Id, Session> {
    map x | x in s.sessions ::
      if s.sessions[x].holder.OfThread? && s.sessions[x].holder.thread.agent == agent
      then s.sessions[x].(holder := Orphan) else s.sessions[x]
  }

  function ApplyWorld(s: State, w: World): State
    requires WorldEnabled(s, w)
  {
    match w
    case AgentDies(a) =>
      s.(threads := map t | t in s.threads && t.agent != a :: s.threads[t],
         control := s.control - {a}, reload := s.reload - {a}, sessions := Orphaned(s, a))
    case SessionEnds(x) => Ended(s, x)
    case UnwantedGrant(x) => Granted(s, x, None)
    case ChildEnds(b) => s.(children := s.children - {b})
  }

  // ---------- the history of abandoned sessions ----------

  /** The sessions a step's client walks away from without their backend having answered. */
  function Abandons(s: State, l: Label): set<Id> {
    match l
    case By(t, act) =>
      if t in s.threads && (act.AskFails? || act.GrantFails?) && act.abandoned then {s.threads[t].x}
      else if t in s.threads && (act.UpAbandoned? || act.GrantAbandoned?) then {s.threads[t].x}
      else {}
    case Boot(b, act) =>
      if b in s.boots && (act.BootDies? || act.BootGrantAbandoned? || (act.BootAskFails? && act.abandoned)) then {s.boots[b].x}
      else {}
    case Of(AgentDies(a)) =>
      set x | x in s.sessions && s.sessions[x].holder.OfThread? && s.sessions[x].holder.thread.agent == a
    case Of(_) => {}
  }

  // ---------- runs ----------

  ghost predicate Enabled(s: State, l: Label) {
    match l
    case By(t, act) => ThreadEnabled(s, t, act)
    case Boot(b, act) => BootEnabled(s, b, act)
    case Of(w) => WorldEnabled(s, w)
  }

  ghost function Moved(s: State, l: Label): State
    requires Enabled(s, l)
  {
    match l
    case By(t, act) => ApplyThread(s, t, act)
    case Boot(b, act) => ApplyBoot(s, b, act)
    case Of(w) => ApplyWorld(s, w)
  }

  ghost function Apply(s: State, l: Label): State
    requires Enabled(s, l)
  {
    Moved(s, l).(abandoned := s.abandoned + Abandons(s, l))
  }

  function Init(): State {
    State(map[], map[], {}, map[], map[], map[], None, map[], {})
  }

  /**
   * A bootstrap keeps the lock for as long as a child of its may migrate: its drain does not fail
   * with a session of the child alive, it does not die with a child or a session of one, and it
   * does not lose its control connection while a child runs, or will, or has left a session.
   */
  ghost predicate Tight(s: State, l: Label) {
    match l
    case Boot(b, act) =>
      && (b in s.boots && act.DrainFails? ==> NoKids(s, b))
      && (b in s.boots && act.BootDies? ==> NoKids(s, b) && b !in s.children)
    case Of(SessionEnds(x)) => forall b :: b in s.boots && s.boots[b].x == x ==> !NeedsControl(s, b)
    case _ => true
  }

  /** A child of the bootstrap runs, is still to be started, or has left a session. */
  ghost predicate NeedsControl(s: State, b: nat)
    requires b in s.boots
  {
    var p := s.boots[b];
    p.at.RunningChild? || (p.at.BootLocked? && p.left > 0) || (p.at.Draining? && !NoKids(s, b))
  }

  ghost predicate IsRun(s: State, ls: seq<Label>)
    decreases |ls|
  {
    ls == [] || (Enabled(s, ls[0]) && IsRun(Apply(s, ls[0]), ls[1..]))
  }

  ghost predicate AllTight(s: State, ls: seq<Label>)
    requires IsRun(s, ls)
    decreases |ls|
  {
    ls == [] || (Tight(s, ls[0]) && AllTight(Apply(s, ls[0]), ls[1..]))
  }

  ghost function After(s: State, ls: seq<Label>): State
    requires IsRun(s, ls)
    decreases |ls|
  {
    if ls == [] then s else After(Apply(s, ls[0]), ls[1..])
  }
}
