/**
 The socket forwarder: one accepting routine, one routine per forwarded connection with
 two copying routines of its own, and any number of calls of Close, interleaved at every
 critical section, every connection change and every wait-group change.
 */
module Forwarder {
  type Conn = nat

  /** Where serve is. Tracked is before wg.Add, Spawning before the go statement. */
  datatype Serve =
    | Accepting
    | Accepted(client: Conn)
    | Refused(client: Conn)
    | Tracked(client: Conn)
    | Spawning(client: Conn)
    | Leaving
    | Gone

  /** Where one pipe is; copying counts its copy routines that still run. */
  datatype Pipe =
    | Dialing
    | Dialed(server: Conn)
    | ServerRefused(server: Conn)
    | FirstWait(server: Conn, copying: nat)
    | SecondWait(server: Conn, copying: nat)
    | UntrackServer(server: Conn)
    | UntrackClient
    | Finishing

  datatype Closing = Waiting | Returned

  datatype State = State(
    closed: bool,
    listening: bool,
    conns: set<Conn>,
    open: set<Conn>,
    used: set<Conn>,
    wait: int,
    serve: Serve,
    pipes: map<Conn, Pipe>,
    closers: map<nat, Closing>)

  datatype Step =
    | Accept(conn: Conn)
    | AcceptFails
    | TrackClient
    | CloseRefused
    | AddPipe
    | GoPipe
    | ServeDone
    | DialOk(client: Conn, server: Conn)
    | DialFails(client: Conn)
    | TrackServer(client: Conn)
    | CloseServer(client: Conn)
    | CopyEnds(client: Conn)
    | EndSession(client: Conn)
    | Drained(client: Conn)
    | ForgetServer(client: Conn)
    | ForgetClient(client: Conn)
    | PipeDone(client: Conn)
    | BeginClose(closer: nat)
    | EndClose(closer: nat)

  /** forwardToSocket: the listener is up, serve is counted and about to accept. */
  function Init(): State {
    State(false, true, {}, {}, {}, 1, Accepting, map[], map[])
  }

  predicate Enabled(s: State, step: Step) {
    match step
    case Accept(c) => s.serve.Accepting? && s.listening && c !in s.used
    case AcceptFails => s.serve.Accepting?
    case TrackClient => s.serve.Accepted?
    case CloseRefused => s.serve.Refused?
    case AddPipe => s.serve.Tracked?
    case GoPipe => s.serve.Spawning?
    case ServeDone => s.serve.Leaving?
    case DialOk(c, server) => c in s.pipes && s.pipes[c].Dialing? && server !in s.used
    case DialFails(c) => c in s.pipes && s.pipes[c].Dialing?
    case TrackServer(c) => c in s.pipes && s.pipes[c].Dialed?
    case CloseServer(c) => c in s.pipes && s.pipes[c].ServerRefused?
    case CopyEnds(c) => c in s.pipes && (s.pipes[c].FirstWait? || s.pipes[c].SecondWait?) && s.pipes[c].copying > 0
    case EndSession(c) => c in s.pipes && s.pipes[c].FirstWait? && s.pipes[c].copying < 2
    case Drained(c) => c in s.pipes && s.pipes[c].SecondWait? && s.pipes[c].copying == 0
    case ForgetServer(c) => c in s.pipes && s.pipes[c].UntrackServer?
    case ForgetClient(c) => c in s.pipes && s.pipes[c].UntrackClient?
    case PipeDone(c) => c in s.pipes && s.pipes[c].Finishing?
    case BeginClose(k) => k !in s.closers
    case EndClose(k) => k in s.closers && s.closers[k].Waiting? && s.wait == 0
  }

  function Put(s: State, c: Conn, p: Pipe): State {
    s.(pipes := s.pipes[c := p])
  }

  function Apply(s: State, step: Step): State
    requires Enabled(s, step)
  {
    match step
    case Accept(c) => s.(serve := Accepted(c), open := s.open + {c}, used := s.used + {c})
    case AcceptFails => s.(serve := Leaving)
    case TrackClient =>
      var c := s.serve.client;
      if s.closed then s.(serve := Refused(c)) else s.(serve := Tracked(c), conns := s.conns + {c})
    case CloseRefused => s.(serve := Leaving, open := s.open - {s.serve.client})
    case AddPipe => s.(serve := Spawning(s.serve.client), wait := s.wait + 1)
    case GoPipe => Put(s, s.serve.client, Dialing).(serve := Accepting)
    case ServeDone => s.(serve := Gone, wait := s.wait - 1)
    case DialOk(c, server) => Put(s, c, Dialed(server)).(open := s.open + {server}, used := s.used + {server})
    case DialFails(c) => Put(s, c, UntrackClient)
    case TrackServer(c) =>
      var server := s.pipes[c].server;
      if s.closed then Put(s, c, ServerRefused(server))
      else Put(s, c, FirstWait(server, 2)).(conns := s.conns + {server})
    case CloseServer(c) => Put(s, c, UntrackClient).(open := s.open - {s.pipes[c].server})
    case CopyEnds(c) => Put(s, c, s.pipes[c].(copying := s.pipes[c].copying - 1))
    case EndSession(c) =>
      var server := s.pipes[c].server;
      Put(s, c, SecondWait(server, s.pipes[c].copying)).(open := s.open - {c, server})
    case Drained(c) => Put(s, c, UntrackServer(s.pipes[c].server))
    case ForgetServer(c) =>
      var server := s.pipes[c].server;
      Put(s, c, UntrackClient).(conns := s.conns - {server}, open := s.open - {server})
    case ForgetClient(c) => Put(s, c, Finishing).(conns := s.conns - {c}, open := s.open - {c})
    case PipeDone(c) => s.(pipes := s.pipes - {c}, wait := s.wait - 1)
    case BeginClose(k) =>
      s.(closed := true, listening := false, open := s.open - s.conns, closers := s.closers[k := Waiting])
    case EndClose(k) => s.(closers := s.closers[k := Returned])
  }

  // ---------- the invariant ----------

  /** Live serve plus live pipes, plus the pipe wg.Add has announced but go has not started. */
  function Routines(s: State): nat {
    (if s.serve.Gone? then 0 else 1) + |s.pipes| + (if s.serve.Spawning? then 1 else 0)
  }

  /** Pipe c has just created connection x and not yet tracked or closed it. */
  predicate HeldBy(s: State, x: Conn, c: Conn) {
    c in s.pipes && (s.pipes[c].Dialed? || s.pipes[c].ServerRefused?) && s.pipes[c].server == x
  }

  /** x was just created and the routine that created it has not yet tracked or closed it. */
  ghost predicate Held(s: State, x: Conn) {
    ((s.serve.Accepted? || s.serve.Refused?) && s.serve.client == x) || (exists c :: HeldBy(s, x, c))
  }

  /** Pipe c will untrack connection x. */
  predicate MindedBy(s: State, x: Conn, c: Conn) {
    c in s.pipes
    && ((x == c && !s.pipes[c].Finishing?)
        || ((s.pipes[c].FirstWait? || s.pipes[c].SecondWait? || s.pipes[c].UntrackServer?) && s.pipes[c].server == x))
  }

  /** A live routine will untrack x. */
  ghost predicate Minded(s: State, x: Conn) {
    ((s.serve.Tracked? || s.serve.Spawning?) && s.serve.client == x) || (exists c :: MindedBy(s, x, c))
  }

  predicate HasServer(p: Pipe) {
    !p.Dialing? && !p.UntrackClient? && !p.Finishing?
  }

  ghost predicate OpenKnown(s: State, x: Conn) {
    x in s.open ==> x in s.used && (x in s.conns || Held(s, x))
  }

  ghost predicate TrackedKnown(s: State, x: Conn) {
    x in s.conns ==> x in s.used && Minded(s, x)
  }

  /** A pipe's client stays tracked until the pipe untracks it, and is nobody's server. */
  ghost predicate ClientKnown(s: State, c: Conn) {
    && (c in s.pipes && !s.pipes[c].Finishing? ==> c in s.conns)
    && ((s.serve.Tracked? || s.serve.Spawning?) && s.serve.client == c ==> c in s.conns)
    && (c in s.pipes && HasServer(s.pipes[c]) ==>
          s.pipes[c].server !in s.pipes
          && (s.serve.Accepted? || s.serve.Refused? || s.serve.Tracked? || s.serve.Spawning? ==>
                s.pipes[c].server != s.serve.client))
  }

  ghost predicate Inv(s: State) {
    && s.wait == Routines(s)
    && (forall x :: OpenKnown(s, x))
    && (forall x :: TrackedKnown(s, x))
    && (forall c :: c in s.pipes ==> c in s.used && (HasServer(s.pipes[c]) ==> s.pipes[c].server in s.used))
    && (s.serve.Accepted? || s.serve.Refused? || s.serve.Tracked? || s.serve.Spawning? ==>
          s.serve.client in s.used && s.serve.client !in s.pipes)
    && (forall c :: ClientKnown(s, c))
    && (s.closed ==> s.open !! s.conns && !s.listening)
    && (forall k :: k in s.closers ==> s.closed)
    && (forall k :: k in s.closers && s.closers[k].Returned? ==> s.serve.Gone? && s.pipes == map[])
  }

  lemma OpenKnownStep(s: State, step: Step, x: Conn)
    requires Inv(s) && Enabled(s, step)
    ensures OpenKnown(Apply(s, step), x)
  {
    var t := Apply(s, step);
    assert OpenKnown(s, x);
    if step.DialOk? { assert HeldBy(t, step.server, step.client); }
    if c :| HeldBy(s, x, c) {
      assert HeldBy(t, x, c) || (step.TrackServer? && x in t.conns) || (step.CloseServer? && x !in t.open);
    }
  }

  lemma TrackedKnownStep(s: State, step: Step, x: Conn)
    requires Inv(s) && Enabled(s, step)
    ensures TrackedKnown(Apply(s, step), x)
  {
    var t := Apply(s, step);
    assert TrackedKnown(s, x);
    if step.GoPipe? { assert MindedBy(t, s.serve.client, s.serve.client); }
    if step.TrackServer? {
      assert s.closed || MindedBy(t, s.pipes[step.client].server, step.client);
    }
    if c :| MindedBy(s, x, c) {
      assert MindedBy(t, x, c) || x !in t.conns;
    }
  }

  lemma InvStep(s: State, step: Step)
    requires Inv(s) && Enabled(s, step)
    ensures Inv(Apply(s, step))
  {
    var t := Apply(s, step);
    forall x ensures OpenKnown(t, x) && TrackedKnown(t, x) {
      OpenKnownStep(s, step, x);
      TrackedKnownStep(s, step, x);
    }
    forall c ensures ClientKnown(t, c) {
      ClientKnownStep(s, step, c);
    }
    CountStep(s, step);
    ClosedStep(s, step);
  }

  lemma ClientKnownStep(s: State, step: Step, c: Conn)
    requires Inv(s) && Enabled(s, step)
    ensures ClientKnown(Apply(s, step), c)
  {
    assert ClientKnown(s, c);
    if step.ForgetServer? { assert ClientKnown(s, step.client); }
  }

  lemma PipeKeys(s: State, step: Step)
    requires Enabled(s, step)
    ensures step.GoPipe? ==> Apply(s, step).pipes.Keys == s.pipes.Keys + {s.serve.client}
    ensures step.PipeDone? ==> Apply(s, step).pipes.Keys == s.pipes.Keys - {step.client}
    ensures !step.GoPipe? && !step.PipeDone? ==> Apply(s, step).pipes.Keys == s.pipes.Keys
  {
  }

  /** The wait count follows the routines through every step. */
  lemma CountStep(s: State, step: Step)
    requires s.wait == Routines(s) && Enabled(s, step)
    requires s.serve.Spawning? ==> s.serve.client !in s.pipes
    ensures Apply(s, step).wait == Routines(Apply(s, step))
  {
    PipeKeys(s, step);
    Sizes(s.pipes);
    Sizes(Apply(s, step).pipes);
  }

  lemma Sizes(m: map<Conn, Pipe>)
    ensures |m| == |m.Keys|
  {
  }

  /** Once closed, nothing tracked is open and nothing new is tracked. */
  lemma ClosedStep(s: State, step: Step)
    requires Inv(s) && Enabled(s, step)
    ensures var t := Apply(s, step);
            (t.closed ==> t.open !! t.conns && !t.listening)
            && (forall k :: k in t.closers && t.closers[k].Returned? ==> t.serve.Gone? && t.pipes == map[])
  {
    if step.DialOk? { assert TrackedKnown(s, step.server); }
    if step.EndClose? { assert Routines(s) == 0; }
  }

  // ---------- whole runs ----------

  ghost predicate IsRun(s: State, steps: seq<Step>)
    decreases |steps|
  {
    steps == [] || (Enabled(s, steps[0]) && IsRun(Apply(s, steps[0]), steps[1..]))
  }

  ghost function After(s: State, steps: seq<Step>): State
    requires IsRun(s, steps)
    decreases |steps|
  {
    if steps == [] then s else After(Apply(s, steps[0]), steps[1..])
  }

  lemma {:induction false} InvAlways(s: State, steps: seq<Step>)
    requires Inv(s) && IsRun(s, steps)
    ensures Inv(After(s, steps))
    decreases |steps|
  {
    if steps != [] {
      InvStep(s, steps[0]);
      InvAlways(Apply(s, steps[0]), steps[1..]);
    }
  }

  /** However accept, dial and close interleave: the wait count is the live routines, and no open connection is lost. */
  lemma CountsAndKeepsConnections(steps: seq<Step>)
    requires IsRun(Init(), steps)
    ensures var s := After(Init(), steps);
            && s.wait == Routines(s)
            && (forall x :: x in s.open ==> x in s.conns || Held(s, x))
            && (s.closed ==> forall x :: x in s.conns ==> x !in s.open)
  {
    InvAlways(Init(), steps);
    var s := After(Init(), steps);
    forall x | x in s.open ensures x in s.conns || Held(s, x) {
      assert OpenKnown(s, x);
    }
  }

  /** wg.Add never raises the count from zero, so it never races with Wait. */
  lemma AddIsNeverFromZero(steps: seq<Step>)
    requires IsRun(Init(), steps) && Enabled(After(Init(), steps), AddPipe)
    ensures After(Init(), steps).wait > 0
  {
    InvAlways(Init(), steps);
  }

  /** When any Close has returned, nothing is open, nothing is tracked and no routine runs. */
  lemma ClosedMeansGone(steps: seq<Step>, k: nat)
    requires IsRun(Init(), steps)
    requires k in After(Init(), steps).closers && After(Init(), steps).closers[k].Returned?
    ensures var s := After(Init(), steps); s.open == {} && s.conns == {} && s.serve.Gone? && s.pipes == map[]
  {
    InvAlways(Init(), steps);
    var s := After(Init(), steps);
    forall x ensures x !in s.conns && x !in s.open {
      assert TrackedKnown(s, x) && OpenKnown(s, x);
    }
  }

  // ---------- a session ends on both sides ----------

  /** Once a pipe's session has ended neither of its connections is open, and a finishing pipe's client is not. */
  ghost predicate Shut(s: State, c: Conn) {
    c in s.pipes ==>
      && (s.pipes[c].SecondWait? || s.pipes[c].UntrackServer? ==> c !in s.open && s.pipes[c].server !in s.open)
      && (s.pipes[c].Finishing? ==> c !in s.open)
  }

  lemma ShutStep(s: State, step: Step, c: Conn)
    requires Inv(s) && Enabled(s, step) && Shut(s, c)
    ensures Shut(Apply(s, step), c)
  {
  }

  lemma {:induction false} ShutAlways(s: State, steps: seq<Step>, c: Conn)
    requires Inv(s) && IsRun(s, steps) && Shut(s, c)
    ensures Shut(After(s, steps), c)
    decreases |steps|
  {
    if steps != [] {
      InvStep(s, steps[0]);
      ShutStep(s, steps[0], c);
      ShutAlways(Apply(s, steps[0]), steps[1..], c);
    }
  }

  /** In every run: when either side of a session ends, both connections are closed, before anything waits for the other. */
  lemma SessionsEndOnBothSides(steps: seq<Step>, c: Conn)
    requires IsRun(Init(), steps)
    ensures Shut(After(Init(), steps), c)
  {
    ShutAlways(Init(), steps, c);
  }

  // ---------- a session carries both ways ----------

  /** How many copy routines of pipe c have ended. */
  function CopiesEnded(steps: seq<Step>, c: Conn): nat {
    if steps == [] then 0 else (if steps[0] == CopyEnds(c) then 1 else 0) + CopiesEnded(steps[1..], c)
  }

  /** n copy routines of c have ended: none before its session begins, and two run from then on. */
  predicate Carries(s: State, c: Conn, n: nat) {
    && (c !in s.used ==> n == 0)
    && (!s.serve.Accepting? && !s.serve.Leaving? && !s.serve.Gone? && s.serve.client == c ==> n == 0)
    && (c in s.pipes && (s.pipes[c].Dialing? || s.pipes[c].Dialed?) ==> n == 0)
    && (c in s.pipes && (s.pipes[c].FirstWait? || s.pipes[c].SecondWait?) ==> s.pipes[c].copying + n == 2)
  }

  lemma CarriesStep(s: State, step: Step, c: Conn, n: nat)
    requires Inv(s) && Enabled(s, step) && Carries(s, c, n)
    ensures Carries(Apply(s, step), c, n + if step == CopyEnds(c) then 1 else 0)
  {
  }

  lemma {:induction false} CarriesAlways(s: State, steps: seq<Step>, c: Conn, n: nat)
    requires Inv(s) && IsRun(s, steps) && Carries(s, c, n)
    ensures Carries(After(s, steps), c, n + CopiesEnded(steps, c))
    decreases |steps|
  {
    if steps != [] {
      InvStep(s, steps[0]);
      CarriesStep(s, steps[0], c, n);
      CarriesAlways(Apply(s, steps[0]), steps[1..], c, n + if steps[0] == CopyEnds(c) then 1 else 0);
    }
  }

  /** In every run a session is ended only once one of its directions has, and waited out until both have. */
  lemma EndsOnlyAfterACopy(steps: seq<Step>, c: Conn)
    requires IsRun(Init(), steps)
    ensures Enabled(After(Init(), steps), EndSession(c)) <==>
            c in After(Init(), steps).pipes && After(Init(), steps).pipes[c].FirstWait? && CopiesEnded(steps, c) > 0
    ensures Enabled(After(Init(), steps), Drained(c)) <==>
            c in After(Init(), steps).pipes && After(Init(), steps).pipes[c].SecondWait? && CopiesEnded(steps, c) == 2
  {
    hide Apply, After, Enabled, CopiesEnded;
    CarriesAlways(Init(), steps, c, 0);
    CarriesTells(After(Init(), steps), c, CopiesEnded(steps, c));
  }

  lemma CarriesTells(s: State, c: Conn, n: nat)
    requires Carries(s, c, n)
    ensures Enabled(s, EndSession(c)) <==> c in s.pipes && s.pipes[c].FirstWait? && n > 0
    ensures Enabled(s, Drained(c)) <==> c in s.pipes && s.pipes[c].SecondWait? && n == 2
  {
  }

  // ---------- Close returns ----------

  function ServeRank(v: Serve): nat {
    match v
    case Accepting => 2
    case Accepted(_) => 9
    case Refused(_) => 2
    case Tracked(_) => 9
    case Spawning(_) => 8
    case Leaving => 1
    case Gone => 0
  }

  function PipeRank(p: Pipe): nat {
    match p
    case Dialing => 5
    case Dialed(_) => 4
    case ServerRefused(_) => 3
    case FirstWait(_, copying) => 5 + copying
    case SecondWait(_, copying) => 4 + copying
    case UntrackServer(_) => 3
    case UntrackClient => 2
    case Finishing => 1
  }

  ghost function PipesRank(m: map<Conn, Pipe>, keys: set<Conn>): nat
    requires keys <= m.Keys
    decreases |keys|
  {
    if keys == {} then 0 else
      var c := Pick(keys);
      PipeRank(m[c]) + PipesRank(m, keys - {c})
  }

  ghost function Pick(keys: set<Conn>): (c: Conn)
    requires keys != {}
    ensures c in keys
  {
    var c :| c in keys; c
  }

  /** The rank is a sum: one key can be taken out, whatever the order. */
  lemma {:induction false} TakeOut(m: map<Conn, Pipe>, keys: set<Conn>, c: Conn)
    requires keys <= m.Keys && c in keys
    ensures PipesRank(m, keys) == PipeRank(m[c]) + PipesRank(m, keys - {c})
    decreases |keys|
  {
    var d := Pick(keys);
    if c != d {
      TakeOut(m, keys - {d}, c);
      assert keys - {d} - {c} == keys - {c} - {d};
      TakeOut(m, keys - {c}, d);
    }
  }

  lemma {:induction false} SameElsewhere(m: map<Conn, Pipe>, n: map<Conn, Pipe>, keys: set<Conn>)
    requires keys <= m.Keys && keys <= n.Keys && forall c :: c in keys ==> m[c] == n[c]
    ensures PipesRank(m, keys) == PipesRank(n, keys)
    decreases |keys|
  {
    if keys != {} { SameElsewhere(m, n, keys - {Pick(keys)}); }
  }

  ghost function Rank(s: State): nat {
    ServeRank(s.serve) + PipesRank(s.pipes, s.pipes.Keys)
  }

  /** The steps that need nobody outside the forwarder once it is closed. */
  predicate Forced(s: State, step: Step) {
    && Enabled(s, step) && !step.BeginClose? && !step.EndClose?
    && (step.CopyEnds? ==> step.client !in s.open)
    && (step.AcceptFails? ==> !s.listening)
  }

  lemma PipeMoves(s: State, t: State, c: Conn)
    requires c in s.pipes && t.serve == s.serve
    requires (t.pipes == s.pipes - {c}) || (c in t.pipes && t.pipes == s.pipes[c := t.pipes[c]])
    requires c in t.pipes ==> PipeRank(t.pipes[c]) < PipeRank(s.pipes[c])
    ensures Rank(t) < Rank(s)
  {
    TakeOut(s.pipes, s.pipes.Keys, c);
    SameElsewhere(s.pipes, t.pipes, s.pipes.Keys - {c});
    if c in t.pipes {
      TakeOut(t.pipes, t.pipes.Keys, c);
      assert t.pipes.Keys - {c} == s.pipes.Keys - {c};
    } else {
      assert t.pipes.Keys == s.pipes.Keys - {c};
    }
  }

  /** After Close, every step of a routine brings the end nearer. */
  lemma RankFalls(s: State, step: Step)
    requires Inv(s) && s.closed && Enabled(s, step) && !step.BeginClose? && !step.EndClose?
    ensures Rank(Apply(s, step)) < Rank(s)
  {
    if OfPipe(step) {
      PipeFalls(s, step);
      PipeMoves(s, Apply(s, step), step.client);
    } else {
      ServeFalls(s, step);
    }
  }

  predicate OfPipe(step: Step) {
    step.DialOk? || step.DialFails? || step.TrackServer? || step.CloseServer? || step.CopyEnds?
    || step.EndSession? || step.Drained? || step.ForgetServer? || step.ForgetClient? || step.PipeDone?
  }

  lemma PipeFalls(s: State, step: Step)
    requires s.closed && Enabled(s, step) && OfPipe(step)
    ensures var t, c := Apply(s, step), step.client;
            && c in s.pipes && t.serve == s.serve
            && ((t.pipes == s.pipes - {c}) || (c in t.pipes && t.pipes == s.pipes[c := t.pipes[c]]))
            && (c in t.pipes ==> PipeRank(t.pipes[c]) < PipeRank(s.pipes[c]))
  {
  }

  lemma ServeFalls(s: State, step: Step)
    requires Inv(s) && s.closed && Enabled(s, step) && !OfPipe(step) && !step.BeginClose? && !step.EndClose?
    ensures Rank(Apply(s, step)) < Rank(s)
  {
    if step.GoPipe? { SpawnFalls(s); }
  }

  lemma SpawnFalls(s: State)
    requires Inv(s) && Enabled(s, GoPipe)
    ensures Rank(Apply(s, GoPipe)) < Rank(s)
  {
    var t, c := Apply(s, GoPipe), s.serve.client;
    TakeOut(t.pipes, t.pipes.Keys, c);
    assert t.pipes.Keys - {c} == s.pipes.Keys;
    SameElsewhere(s.pipes, t.pipes, s.pipes.Keys);
  }

  /** After Close, some routine can always move until none is left, and then Close can return. */
  lemma NeverStuck(s: State, k: nat) returns (step: Step)
    requires Inv(s) && s.closed && k in s.closers && s.closers[k].Waiting?
    ensures Forced(s, step) || (s.wait == 0 && step == EndClose(k) && Enabled(s, step))
  {
    if s.pipes != map[] {
      var c :| c in s.pipes;
      step := PipeNext(s, c);
    } else if s.serve.Gone? {
      step := EndClose(k);
    } else {
      step := ServeNext(s);
    }
  }

  lemma PipeNext(s: State, c: Conn) returns (step: Step)
    requires Inv(s) && s.closed && c in s.pipes
    ensures Forced(s, step)
  {
    assert ClientKnown(s, c);
    match s.pipes[c]
    case Dialing => step := DialFails(c);
    case Dialed(_) => step := TrackServer(c);
    case ServerRefused(_) => step := CloseServer(c);
    case FirstWait(_, copying) => step := if copying < 2 then EndSession(c) else CopyEnds(c);
    case SecondWait(_, copying) => step := if copying == 0 then Drained(c) else CopyEnds(c);
    case UntrackServer(_) => step := ForgetServer(c);
    case UntrackClient => step := ForgetClient(c);
    case Finishing => step := PipeDone(c);
  }

  lemma ServeNext(s: State) returns (step: Step)
    requires Inv(s) && s.closed && !s.serve.Gone?
    ensures Forced(s, step)
  {
    match s.serve
    case Accepting => step := AcceptFails;
    case Accepted(_) => step := TrackClient;
    case Refused(_) => step := CloseRefused;
    case Tracked(_) => step := AddPipe;
    case Spawning(_) => step := GoPipe;
    case Leaving => step := ServeDone;
  }
}
