/**
 The machine the shared run server lives on: processes, the agents of every run, and
 the files of each run's root (the flock, the holder records, the recorded postmaster
 and the cluster's postmaster.pid).

 A run of the machine is a sequence of labels. A label carries everything the program
 does not decide itself: what an inspection answered, which PID the kernel handed out,
 which process ended. Enabled says when a label may happen and Apply what it does, so
 a run is determined by its labels.
 */
module RunServer {
  import opened Options

  type Root = string
  type Service = string

  /** A PID together with the start facts that tell it from a later process. */
  datatype Mark = Mark(pid: int, start: nat, boot: string)

  datatype Program = Postmaster(cluster: Root) | Other(executable: string)

  datatype Process = Process(start: nat, boot: string, program: Program)

  /** What inspecting a PID can answer. Failed is any error but "no such process". */
  datatype Inspection = Identity(start: nat, boot: string, executable: string) | NotFound | Failed

  datatype Holder = Holder(agent: Mark, run: Option<Mark>)

  datatype Record = Record(postmaster: Mark, hasSocket: bool)

  datatype PidFile = Absent | Unreadable | Names(pid: int)

  /** lateLaunches counts the pg_ctl launches nobody waits for any more. */
  datatype RootState = RootState(
    lock: Option<Mark>,
    holders: map<Service, Holder>,
    record: Option<Record>,
    pidFile: PidFile,
    lateLaunches: nat)

  datatype Purpose = ForAcquire(service: Service) | ForRelease | ForCollect

  /** Where an agent is in its code; every phase but the first two holds the root's lock. */
  datatype Phase =
    | Idle
    | Attached(root: Root, service: Service, run: Option<Mark>)
    | Pruning(root: Root, purpose: Purpose, pending: set<Service>, live: nat)
    | Examining(root: Root, service: Service, live: nat)
    | Clearing(root: Root, service: Service, live: nat)
    | Launching(root: Root, service: Service, live: nat)
    | Recording(root: Root, service: Service, live: nat)
    | Joining(root: Root, service: Service, live: nat, started: bool)
    | Stopping(root: Root)
    | Signalling(root: Root, record: Record)
    | Waiting(root: Root, record: Record)
    | Forgetting(root: Root)
    | Sweeping(root: Root)

  /** recorded keeps every postmaster mark ever written to a root's record. */
  datatype State = State(
    procs: map<int, Process>,
    used: set<Mark>,
    agents: map<Mark, Phase>,
    roots: map<Root, RootState>,
    recorded: set<(Root, Mark)>)

  // ---------- the program's own questions about a process ----------

  function ExecutableOf(p: Program): string {
    match p
    case Postmaster(_) => "postgres"
    case Other(executable) => executable
  }

  predicate IsPostmasterExecutable(executable: string) {
    executable == "postgres" || executable == "postmaster"
  }

  predicate SameBirth(m: Mark, seen: Inspection) {
    seen.Identity? && seen.start == m.start && seen.boot == m.boot
  }

  /** A failed inspection counts as alive. */
  predicate Alive(m: Mark, seen: Inspection) {
    seen.Failed? || SameBirth(m, seen)
  }

  /** A failed inspection counts as not confirmed. */
  predicate Confirmed(m: Mark, seen: Inspection) {
    SameBirth(m, seen)
  }

  predicate HolderAlive(h: Holder, agentSeen: Inspection, runSeen: Inspection) {
    Alive(h.agent, agentSeen) && (h.run.None? || Alive(h.run.value, runSeen))
  }

  // ---------- the truth about a process ----------

  predicate Lives(s: State, m: Mark) {
    m.pid in s.procs && s.procs[m.pid].start == m.start && s.procs[m.pid].boot == m.boot
  }

  function MarkAt(s: State, pid: int): Mark
    requires pid in s.procs
  {
    Mark(pid, s.procs[pid].start, s.procs[pid].boot)
  }

  /** An inspection may fail at any time; when it answers, the answer is true. */
  predicate Honest(s: State, pid: int, seen: Inspection) {
    match seen
    case Identity(start, boot, executable) =>
      pid in s.procs && s.procs[pid].start == start && s.procs[pid].boot == boot
      && ExecutableOf(s.procs[pid].program) == executable
    case NotFound => pid !in s.procs
    case Failed => true
  }

  predicate LivePostmaster(s: State, r: Root, pid: int) {
    pid in s.procs && s.procs[pid].program == Postmaster(r)
  }

  /** The PID postmaster.pid names, when it names a live process. */
  function PidFileOwner(s: State, r: Root): Option<int>
    requires r in s.roots
  {
    match s.roots[r].pidFile
    case Names(pid) => if pid > 0 && pid in s.procs then Some(pid) else None
    case _ => None
  }

  datatype Verdict = Disowned | Held | Unknown

  /** Whether postmaster.pid may be dropped: never when a postgres process answers to it. */
  function PidFileVerdict(owner: Option<int>, seen: Inspection): Verdict {
    if owner.None? then Disowned
    else match seen
      case NotFound => Disowned
      case Failed => Unknown
      case Identity(_, _, executable) => if IsPostmasterExecutable(executable) then Held else Disowned
  }

  /**
   PostgreSQL's own check before a postmaster takes the cluster: a lock file naming a
   live process, or one it cannot read, aborts the start.
   */
  predicate CanLaunch(s: State, r: Root, m: Mark) {
    r in s.roots && m.pid > 0 && m.pid !in s.procs && m !in s.used
    && match s.roots[r].pidFile
       case Absent => true
       case Unreadable => false
       case Names(pid) => pid !in s.procs
  }

  // ---------- labels ----------

  /** What the rest of the machine does. */
  datatype World =
    | Spawn(born: Mark, executable: string)
    | StartAgent(starting: Mark)
    | Exit(pid: int, orderly: bool)
    | LateLaunch(on: Root, late: Mark)
    | LoseRecord(of: Root)

  /** What one agent does. */
  datatype Act =
    | BeginAcquire(into: Root, service: Service)
    | BeginCollect(other: Root)
    | BeginRelease
    | PruneOne(holder: Service, read: bool, agentSeen: Inspection, runSeen: Inspection)
    | PruneDone
    | GiveUp(fileSeen: Inspection)
    | AttachServer(seen: Inspection)
    | Disown(seen: Inspection, fileSeen: Inspection)
    | RemoveStale
    | Launch(born: Mark)
    | LaunchReported
    | LaunchFailed(late: bool)
    | RecordPostmaster(seen: Inspection)
    | AcquireFailed
    | Register(run: Option<Mark>)
    | StopNothing(seen: Inspection)
    | ConfirmStop(seen: Inspection)
    | Signal(seen: Inspection)
    | SignalRefused(seen: Inspection, forget: bool)
    | WaitOver(seen: Inspection)
    | WaitTimedOut
    | Forget
    | Sweep

  datatype Label = Of(world: World) | By(agent: Mark, act: Act)

  /** The root whose lock a phase holds. */
  function Holding(p: Phase): Option<Root> {
    if p.Idle? || p.Attached? then None else Some(p.root)
  }

  // ---------- the rest of the machine ----------

  predicate WorldEnabled(s: State, w: World) {
    match w
    case Spawn(m, _) => m.pid > 0 && m.pid !in s.procs && m !in s.used
    case StartAgent(a) => Lives(s, a) && s.procs[a.pid].program.Other? && a !in s.agents
    case Exit(pid, _) => pid in s.procs
    case LateLaunch(r, m) => CanLaunch(s, r, m) && s.roots[r].lateLaunches > 0
    case LoseRecord(r) => r in s.roots
  }

  /** A postmaster takes the cluster: it runs, and the lock file names it. */
  function Born(s: State, r: Root, m: Mark, rs: RootState): State {
    s.(procs := s.procs[m.pid := Process(m.start, m.boot, Postmaster(r))],
       used := s.used + {m},
       roots := s.roots[r := rs.(pidFile := Names(m.pid))])
  }

  /** A crashed agent's flock is dropped by the kernel; a pg_ctl it was running may go on. */
  function Dropped(rs: RootState, p: Phase): RootState {
    rs.(lock := None, lateLaunches := rs.lateLaunches + if p.Launching? then 1 else 0)
  }

  /** A process ends: a postmaster's orderly exit removes its lock file, a killed one's stays. */
  function Ended(s: State, pid: int, orderly: bool): State
    requires pid in s.procs
  {
    var m := MarkAt(s, pid);
    var rest := s.(procs := s.procs - {pid});
    match s.procs[pid].program
    case Postmaster(r) =>
      if orderly && r in s.roots then rest.(roots := s.roots[r := s.roots[r].(pidFile := Absent)]) else rest
    case Other(_) =>
      if m !in s.agents then rest
      else
        var p := s.agents[m];
        var gone := rest.(agents := s.agents - {m});
        if Holding(p).Some? && p.root in s.roots
        then gone.(roots := s.roots[p.root := Dropped(s.roots[p.root], p)])
        else gone
  }

  function ApplyWorld(s: State, w: World): State
    requires WorldEnabled(s, w)
  {
    match w
    case Spawn(m, executable) =>
      s.(procs := s.procs[m.pid := Process(m.start, m.boot, Other(executable))], used := s.used + {m})
    case StartAgent(a) => s.(agents := s.agents[a := Idle])
    case Exit(pid, orderly) => Ended(s, pid, orderly)
    case LateLaunch(r, m) => Born(s, r, m, s.roots[r].(lateLaunches := s.roots[r].lateLaunches - 1))
    case LoseRecord(r) => s.(roots := s.roots[r := s.roots[r].(record := None)])
  }

  // ---------- one agent ----------

  /** The root an act is about. */
  function Target(p: Phase, act: Act): Option<Root> {
    match act
    case BeginAcquire(r, _) => Some(r)
    case BeginCollect(r) => Some(r)
    case _ => if p.Idle? then None else Some(p.root)
  }

  /** Whether the phase p of an agent, and what it sees of its root, allow an act. */
  predicate Allowed(s: State, p: Phase, r: Root, act: Act)
    requires r in s.roots
  {
    var rs := s.roots[r];
    var record := rs.record;
    match act
    case BeginAcquire(_, _) => p.Idle? && rs.lock.None?
    case BeginCollect(_) => p.Idle? && rs.lock.None?
    case BeginRelease => p.Attached? && rs.lock.None?
    case PruneOne(sv, _, agentSeen, runSeen) =>
      p.Pruning? && sv in p.pending && sv in rs.holders
      && Honest(s, rs.holders[sv].agent.pid, agentSeen)
      && (rs.holders[sv].run.Some? ==> Honest(s, rs.holders[sv].run.value.pid, runSeen))
    case PruneDone => p.Pruning? && p.pending == {}
    case GiveUp(fileSeen) =>
      p.Pruning? || p.Clearing?
      || (p.Examining?
          && var owner := PidFileOwner(s, r);
             owner.Some? && Honest(s, owner.value, fileSeen) && !PidFileVerdict(owner, fileSeen).Disowned?)
    case AttachServer(seen) =>
      p.Examining? && record.Some? && record.value.hasSocket
      && Honest(s, record.value.postmaster.pid, seen) && Alive(record.value.postmaster, seen)
    case Disown(seen, fileSeen) =>
      p.Examining?
      && (record.Some? && record.value.hasSocket ==>
            Honest(s, record.value.postmaster.pid, seen) && !Alive(record.value.postmaster, seen))
      && var owner := PidFileOwner(s, r);
         (owner.Some? ==> Honest(s, owner.value, fileSeen)) && PidFileVerdict(owner, fileSeen).Disowned?
    case RemoveStale => p.Clearing?
    case Launch(m) => p.Launching? && CanLaunch(s, r, m)
    case LaunchReported => p.Launching?
    case LaunchFailed(_) => p.Launching?
    case RecordPostmaster(seen) =>
      p.Recording?
      && var owner := PidFileOwner(s, r);
         owner.Some? && Honest(s, owner.value, seen) && seen.Identity?
    case AcquireFailed => p.Recording? || p.Joining?
    case Register(run) => p.Joining? && (run.Some? ==> Lives(s, run.value))
    case StopNothing(seen) =>
      p.Stopping?
      && (record.Some? ==>
            Honest(s, record.value.postmaster.pid, seen) && !Confirmed(record.value.postmaster, seen))
    case ConfirmStop(seen) =>
      p.Stopping? && record.Some?
      && Honest(s, record.value.postmaster.pid, seen) && Confirmed(record.value.postmaster, seen)
    case Signal(seen) =>
      (p.Signalling? || p.Waiting?)
      && Honest(s, p.record.postmaster.pid, seen) && Confirmed(p.record.postmaster, seen)
    case SignalRefused(seen, forget) =>
      p.Signalling?
      && Honest(s, p.record.postmaster.pid, seen) && (forget ==> !Confirmed(p.record.postmaster, seen))
    case WaitOver(seen) =>
      p.Waiting?
      && Honest(s, p.record.postmaster.pid, seen) && !Confirmed(p.record.postmaster, seen)
    case WaitTimedOut => p.Waiting?
    case Forget => p.Forgetting?
    case Sweep => p.Sweeping?
  }

  /** A failed acquire stops the server it tried to start unless a live holder remains. */
  function FailedStart(r: Root, live: nat): Phase {
    if live == 0 then Stopping(r) else Idle
  }

  predicate Kept(rs: RootState, act: Act)
    requires act.PruneOne? && act.holder in rs.holders
  {
    act.read && HolderAlive(rs.holders[act.holder], act.agentSeen, act.runSeen)
  }

  function NextPhase(s: State, p: Phase, r: Root, act: Act): Phase
    requires r in s.roots && Allowed(s, p, r, act)
  {
    var rs := s.roots[r];
    match act
    case BeginAcquire(_, sv) => Pruning(r, ForAcquire(sv), rs.holders.Keys, 0)
    case BeginCollect(_) => Pruning(r, ForCollect, rs.holders.Keys, 0)
    case BeginRelease => Pruning(r, ForRelease, rs.holders.Keys - {p.service}, 0)
    case PruneOne(sv, _, _, _) =>
      p.(pending := p.pending - {sv}, live := p.live + if Kept(rs, act) then 1 else 0)
    case PruneDone =>
      if p.purpose.ForAcquire? then Examining(r, p.purpose.service, p.live)
      else if p.live > 0 then Idle
      else Stopping(r)
    case GiveUp(_) => Idle
    case AttachServer(_) => Joining(r, p.service, p.live, false)
    case Disown(_, _) => Clearing(r, p.service, p.live)
    case RemoveStale => Launching(r, p.service, p.live)
    case Launch(_) => p
    case LaunchReported => Recording(r, p.service, p.live)
    case LaunchFailed(_) => FailedStart(r, p.live)
    case RecordPostmaster(_) => Joining(r, p.service, p.live, true)
    case AcquireFailed => if p.Joining? && !p.started then Idle else FailedStart(r, p.live)
    case Register(run) => Attached(r, p.service, run)
    case StopNothing(_) => Idle
    case ConfirmStop(_) => Signalling(r, rs.record.value)
    case Signal(_) => Waiting(r, p.record)
    case SignalRefused(_, _) => Idle
    case WaitOver(_) => Forgetting(r)
    case WaitTimedOut => Idle
    case Forget => Sweeping(r)
    case Sweep => Idle
  }

  /** What a recording writes down: the process the lock file names right now, and its socket directory. */
  function Recorded(s: State, r: Root, act: Act): Record
    requires r in s.roots && act.RecordPostmaster? && act.seen.Identity? && PidFileOwner(s, r).Some?
  {
    Record(Mark(PidFileOwner(s, r).value, act.seen.start, act.seen.boot), true)
  }

  /** What an act does to the files of its root; the lock follows the agent's phase. */
  function NextFiles(s: State, a: Mark, p: Phase, r: Root, act: Act): RootState
    requires r in s.roots && Allowed(s, p, r, act)
  {
    var rs := s.roots[r];
    match act
    case BeginRelease => rs.(holders := rs.holders - {p.service})
    case PruneOne(sv, _, _, _) => if Kept(rs, act) then rs else rs.(holders := rs.holders - {sv})
    case RemoveStale => rs.(pidFile := Absent)
    case Launch(m) => rs.(pidFile := Names(m.pid))
    case LaunchFailed(late) => rs.(lateLaunches := rs.lateLaunches + if late then 1 else 0)
    case RecordPostmaster(_) => rs.(record := Some(Recorded(s, r, act)))
    case Register(run) => rs.(holders := rs.holders[p.service := Holder(a, run)])
    case StopNothing(_) => rs.(record := None)
    case SignalRefused(_, forget) => if forget then rs.(record := None) else rs
    case Forget => rs.(record := None)
    case Sweep => rs.(pidFile := Absent)
    case _ => rs
  }

  predicate ActEnabled(s: State, a: Mark, act: Act) {
    && a in s.agents
    && Target(s.agents[a], act).Some?
    && Target(s.agents[a], act).value in s.roots
    && Allowed(s, s.agents[a], Target(s.agents[a], act).value, act)
  }

  function ApplyAct(s: State, a: Mark, act: Act): State
    requires ActEnabled(s, a, act)
  {
    var r := Target(s.agents[a], act).value;
    var next := NextPhase(s, s.agents[a], r, act);
    var files := NextFiles(s, a, s.agents[a], r, act);
    State(
      if act.Launch? then s.procs[act.born.pid := Process(act.born.start, act.born.boot, Postmaster(r))] else s.procs,
      if act.Launch? then s.used + {act.born} else s.used,
      s.agents[a := next],
      s.roots[r := files.(lock := if Holding(next).Some? then Some(a) else None)],
      if act.RecordPostmaster? then s.recorded + {(r, Recorded(s, r, act).postmaster)} else s.recorded)
  }

  predicate Enabled(s: State, l: Label) {
    match l
    case Of(w) => WorldEnabled(s, w)
    case By(a, act) => ActEnabled(s, a, act)
  }

  function Apply(s: State, l: Label): State
    requires Enabled(s, l)
  {
    match l
    case Of(w) => ApplyWorld(s, w)
    case By(a, act) => ApplyAct(s, a, act)
  }

  // ---------- runs ----------

  ghost predicate IsRun(s: State, ls: seq<Label>)
    decreases |ls|
  {
    ls == [] || (Enabled(s, ls[0]) && IsRun(Apply(s, ls[0]), ls[1..]))
  }

  ghost function After(s: State, ls: seq<Label>): State
    requires IsRun(s, ls)
    decreases |ls|
  {
    if ls == [] then s else After(Apply(s, ls[0]), ls[1..])
  }

  /**
   A machine before any agent runs. Earlier runs may have left servers, records and
   holder files behind; a live postmaster is named by its cluster's lock file, and a
   recorded process that still lives is that cluster's postmaster.
   */
  ghost predicate Init(s: State) {
    && s.agents == map[]
    && (forall r :: r in s.roots ==> s.roots[r].lock.None?)
    && (forall pid :: pid in s.procs ==> pid > 0 && MarkAt(s, pid) in s.used)
    && (forall r :: r in s.roots && s.roots[r].record.Some? ==> (r, s.roots[r].record.value.postmaster) in s.recorded)
    && (forall r, m :: (r, m) in s.recorded ==>
          m in s.used && r in s.roots && s.roots[r].record.Some? && s.roots[r].record.value.postmaster == m)
    && (forall r, pid :: LivePostmaster(s, r, pid) ==> r in s.roots && s.roots[r].pidFile == Names(pid))
    && (forall r :: r in s.roots && s.roots[r].record.Some? && Lives(s, s.roots[r].record.value.postmaster) ==>
          LivePostmaster(s, r, s.roots[r].record.value.postmaster.pid))
  }
}
