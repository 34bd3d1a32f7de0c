/**
 * Any number of provisioning calls on one server, one at a time under the run's lock, each
 * statement its own step, with the migrations of attached services working in between.
 */
module ProvisionRuns {
  import opened Options
  import opened Provision

  datatype Stage = CreatingRole | ConfiguringRole | CreatingDatabase | Claiming | Owning | Closing

  /** A call under way: what its look-ups found, and the statement it is at. */
  datatype Pending = Pending(call: Call, absent: bool, claimed: bool, at: Stage)

  datatype State = State(cluster: Cluster, pending: Option<Pending>)

  datatype Event =
    | Start(call: Call)                        // take the lock and look up; a refused call ends here
    | Next                                     // the next statement succeeds
    | Abandon                                  // it fails, or the agent dies
    | MakeRole(name: string, maker: string)       // a migration creates a role, granted back to its creator
    | MakeDatabase(name: string, maker: string)   // a migration creates a database it owns
    | Remark(name: string, maker: string, text: Option<string>)  // and comments on one it owns

  function FirstStage(c: Cluster, call: Call): Stage {
    if call.owner in c.roles then ConfiguringRole else CreatingRole
  }

  function StatementAt(p: Pending): Statement {
    match p.at
    case CreatingRole => CreateRole(p.call.owner)
    case ConfiguringRole => ConfigureRole(p.call.owner, p.call.password)
    case CreatingDatabase => CreateDatabase(p.call.database, p.call.owner)
    case Claiming => Claim(p.call.database, p.call.service)
    case Owning => OwnerTo(p.call.database, p.call.owner)
    case Closing => CloseToPublic(p.call.database)
  }

  /** The stage after this one, or none when the call has succeeded. */
  function StageAfter(p: Pending): Option<Stage> {
    match p.at
    case CreatingRole => Some(ConfiguringRole)
    case ConfiguringRole => Some(if p.absent then CreatingDatabase else if p.claimed then Owning else Claiming)
    case CreatingDatabase => Some(if p.claimed then Owning else Claiming)
    case Claiming => Some(Owning)
    case Owning => Some(Closing)
    case Closing => None
  }

  predicate Enabled(s: State, e: Event) {
    match e
    case Start(_) => s.pending.None?
    case Next => s.pending.Some? && Executable(s.cluster, StatementAt(s.pending.value))
    case Abandon => s.pending.Some?
    case MakeRole(name, maker) => maker in s.cluster.roles && name !in s.cluster.roles
    case MakeDatabase(name, maker) => maker in s.cluster.roles && name !in s.cluster.databases
    case Remark(name, maker, _) => name in s.cluster.databases && s.cluster.databases[name].owner == maker
  }

  function Apply(s: State, e: Event): State
    requires Enabled(s, e)
  {
    var c := s.cluster;
    match e
    case Start(call) =>
      if Refuses(c, call) then s
      else s.(pending := Some(Pending(call, call.database !in c.databases, Claimed(c, call), FirstStage(c, call))))
    case Next =>
      var p := s.pending.value;
      State(Execute(c, StatementAt(p)), if StageAfter(p).Some? then Some(p.(at := StageAfter(p).value)) else None)
    case Abandon => s.(pending := None)
    case MakeRole(name, _) => s.(cluster := c.(roles := c.roles[name := None], granted := c.granted + {name}))
    case MakeDatabase(name, maker) => s.(cluster := c.(databases := c.databases[name := Database(maker, None, true)]))
    case Remark(name, _, text) => s.(cluster := c.(databases := c.databases[name := c.databases[name].(claim := text)]))
  }

  /** The step that ends a call in success. */
  predicate Succeeds(s: State, e: Event, call: Call) {
    e.Next? && s.pending.Some? && s.pending.value.call == call && s.pending.value.at == Closing
  }

  // ---------- a call's statements are its plan ----------

  function Remaining(p: Pending): seq<Statement>
    decreases match p.at case CreatingRole => 5 case ConfiguringRole => 4 case CreatingDatabase => 3 case Claiming => 2 case Owning => 1 case Closing => 0
  {
    [StatementAt(p)] + if StageAfter(p).Some? then Remaining(p.(at := StageAfter(p).value)) else []
  }

  /** Left alone, a started call runs exactly the plan of its look-ups. */
  lemma StartsItsPlan(s: State, call: Call)
    requires Enabled(s, Start(call)) && !Refuses(s.cluster, call)
    ensures Remaining(Apply(s, Start(call)).pending.value) == Plan(s.cluster, call)
  {
    var p := Apply(s, Start(call)).pending.value;
    var last := [OwnerTo(call.database, call.owner), CloseToPublic(call.database)];
    assert Remaining(p.(at := Closing)) == [CloseToPublic(call.database)];
    assert Remaining(p.(at := Owning)) == last;
    assert Remaining(p.(at := Claiming)) == [Claim(call.database, call.service)] + last;
    assert Remaining(p.(at := ConfiguringRole))
        == [ConfigureRole(call.owner, call.password)] + DatabasePart(p.absent, p.claimed, call);
  }

  // ---------- hypotheses ----------

  /** Each database has a migration owner named after it; calls name it. */
  predicate Named(ownerOf: string -> string, e: Event) {
    && (e.Start? ==> e.call.owner == ownerOf(e.call.database))
    && (e.Remark? ==> e.maker != ownerOf(e.name))   // an owner leaves the claim on its own database
  }

  // ---------- what every step keeps ----------

  /** What a call may rely on at its stage. */
  predicate OnCourse(ownerOf: string -> string, c: Cluster, p: Pending) {
    var d, o := p.call.database, p.call.owner;
    && o == ownerOf(d)
    && (p.claimed ==> !p.absent)
    && (p.at != CreatingRole ==> o in c.roles && o !in c.granted)
    && (!p.at.CreatingRole? && !p.at.ConfiguringRole? ==> c.roles[o] == Some(p.call.password))
    && (p.at == CreatingDatabase ==> p.absent)
    && (!p.absent || p.at in {Claiming, Owning, Closing} ==>
          d in c.databases && c.databases[d].owner == o && c.databases[d].claim in {None, Some(p.call.service)})
    && (p.absent && p.at in {Claiming, Owning, Closing} ==> d in c.databases && c.databases[d].open)
    && (p.claimed || p.at in {Owning, Closing} ==> d in c.databases && c.databases[d].claim == Some(p.call.service))
  }

  predicate Inv(ownerOf: string -> string, s: State) {
    && s.cluster.granted <= s.cluster.roles.Keys
    && (s.pending.Some? ==> OnCourse(ownerOf, s.cluster, s.pending.value))
  }

  lemma InvStep(ownerOf: string -> string, s: State, e: Event)
    requires Inv(ownerOf, s) && Enabled(s, e) && Named(ownerOf, e)
    ensures Inv(ownerOf, Apply(s, e))
  {
  }

  /** A success leaves everything in place, owned by a role no migration created. */
  lemma SuccessIsComplete(ownerOf: string -> string, s: State, e: Event, call: Call)
    requires Inv(ownerOf, s) && Enabled(s, e) && Succeeds(s, e, call)
    ensures Completed(Apply(s, e).cluster, call) && call.owner !in Apply(s, e).cluster.granted
    ensures Apply(s, e).pending == None
  {
  }

  // ---------- what others do refuses nobody ----------

  /** An event that touches neither the call's owner role nor its database. */
  predicate Elsewhere(s: State, e: Event, call: Call) {
    match e
    case MakeRole(name, _) => name != call.owner
    case MakeDatabase(name, _) => name != call.database
    case Remark(name, _, _) => name != call.database
    case Next => s.pending.Some? ==> s.pending.value.call.database != call.database
    case _ => true
  }

  ghost predicate RunElsewhere(ownerOf: string -> string, s: State, es: seq<Event>, call: Call)
    requires IsRun(ownerOf, s, es)
    decreases |es|
  {
    es == [] || (Elsewhere(s, es[0], call) && RunElsewhere(ownerOf, Apply(s, es[0]), es[1..], call))
  }

  /** Whatever other services provision and migrate, a call is refused after it exactly when it was before. */
  lemma {:induction false} OthersNeverRefuse(ownerOf: string -> string, s: State, es: seq<Event>, call: Call)
    requires IsRun(ownerOf, s, es) && RunElsewhere(ownerOf, s, es, call)
    ensures Refuses(StateAt(ownerOf, s, es, |es|).cluster, call) <==> Refuses(s.cluster, call)
    decreases |es|
  {
    if es != [] {
      RefusalIsLocal(s.cluster, Apply(s, es[0]).cluster, call);
      OthersNeverRefuse(ownerOf, Apply(s, es[0]), es[1..], call);
    }
  }

  // ---------- one service per database ----------

  /** The database is the service's: its claim says so and nobody else's call is under way on it. */
  predicate Belongs(ownerOf: string -> string, s: State, d: string, service: string) {
    && d in s.cluster.databases && s.cluster.databases[d].owner == ownerOf(d)
    && s.cluster.databases[d].claim == Some(service)
    && (s.pending.Some? && s.pending.value.call.database == d ==> s.pending.value.call.service == service)
  }

  lemma BelongsStep(ownerOf: string -> string, s: State, e: Event, d: string, service: string)
    requires Inv(ownerOf, s) && Enabled(s, e) && Named(ownerOf, e) && Belongs(ownerOf, s, d, service)
    ensures Belongs(ownerOf, Apply(s, e), d, service)
  {
  }

  ghost predicate IsRun(ownerOf: string -> string, s: State, es: seq<Event>)
    decreases |es|
  {
    es == [] || (Enabled(s, es[0]) && Named(ownerOf, es[0]) && IsRun(ownerOf, Apply(s, es[0]), es[1..]))
  }

  ghost function StateAt(ownerOf: string -> string, s: State, es: seq<Event>, i: nat): State
    requires IsRun(ownerOf, s, es) && i <= |es|
    decreases i
  {
    if i == 0 then s else StateAt(ownerOf, Apply(s, es[0]), es[1..], i - 1)
  }

  lemma {:induction false} InvAlways(ownerOf: string -> string, s: State, es: seq<Event>, i: nat)
    requires Inv(ownerOf, s) && IsRun(ownerOf, s, es) && i <= |es|
    ensures Inv(ownerOf, StateAt(ownerOf, s, es, i))
    ensures i < |es| ==> Enabled(StateAt(ownerOf, s, es, i), es[i]) && Named(ownerOf, es[i])
    decreases i
  {
    if i > 0 {
      InvStep(ownerOf, s, es[0]);
      InvAlways(ownerOf, Apply(s, es[0]), es[1..], i - 1);
    }
  }

  lemma {:induction false} StepAt(ownerOf: string -> string, s: State, es: seq<Event>, i: nat)
    requires IsRun(ownerOf, s, es) && i < |es|
    ensures Enabled(StateAt(ownerOf, s, es, i), es[i])
    ensures StateAt(ownerOf, s, es, i + 1) == Apply(StateAt(ownerOf, s, es, i), es[i])
    decreases i
  {
    if i > 0 {
      StepAt(ownerOf, Apply(s, es[0]), es[1..], i - 1);
    }
  }

  lemma {:induction false} BelongsFrom(ownerOf: string -> string, s: State, es: seq<Event>, i: nat, j: nat, d: string, service: string)
    requires Inv(ownerOf, s) && IsRun(ownerOf, s, es) && i <= j <= |es|
    requires Belongs(ownerOf, StateAt(ownerOf, s, es, i), d, service)
    ensures Belongs(ownerOf, StateAt(ownerOf, s, es, j), d, service)
    decreases j
  {
    if i < j {
      BelongsFrom(ownerOf, s, es, i, j - 1, d, service);
      InvAlways(ownerOf, s, es, j - 1);
      StepAt(ownerOf, s, es, j - 1);
      BelongsStep(ownerOf, StateAt(ownerOf, s, es, j - 1), es[j - 1], d, service);
    }
  }

  /** Once a service's call has succeeded on a database, every later success on it is that service's. */
  lemma OneServicePerDatabase(ownerOf: string -> string, c: Cluster, es: seq<Event>, i: nat, j: nat, a: Call, b: Call)
    requires c.granted <= c.roles.Keys
    requires IsRun(ownerOf, State(c, None), es) && i < j < |es| && a.database == b.database
    requires Succeeds(StateAt(ownerOf, State(c, None), es, i), es[i], a)
    requires Succeeds(StateAt(ownerOf, State(c, None), es, j), es[j], b)
    ensures a.service == b.service
  {
    var s := State(c, None);
    InvAlways(ownerOf, s, es, i);
    StepAt(ownerOf, s, es, i);
    SuccessIsComplete(ownerOf, StateAt(ownerOf, s, es, i), es[i], a);
    BelongsFrom(ownerOf, s, es, i + 1, j, a.database, a.service);
  }

  // ---------- nothing a migration made is adopted ----------

  /** A database a migration of another service made, or a role it made under this database's owner's name. */
  predicate Foreign(ownerOf: string -> string, s: State, d: string) {
    || (&& d in s.cluster.databases && s.cluster.databases[d].owner != ownerOf(d)
        && (s.pending.Some? && s.pending.value.call.database == d ==>
              s.pending.value.absent && s.pending.value.at in {CreatingRole, ConfiguringRole, CreatingDatabase}))
    || (&& ownerOf(d) in s.cluster.roles && ownerOf(d) in s.cluster.granted
        && (s.pending.Some? && s.pending.value.call.database == d ==> s.pending.value.at == CreatingRole))
  }

  lemma ForeignStep(ownerOf: string -> string, s: State, e: Event, d: string)
    requires Inv(ownerOf, s) && Enabled(s, e) && Named(ownerOf, e) && Foreign(ownerOf, s, d)
    ensures Foreign(ownerOf, Apply(s, e), d)
  {
  }

  /** Such a database never sees a success: not now, and not after any run. */
  lemma {:induction false} ForeignIsNeverAdopted(ownerOf: string -> string, s: State, es: seq<Event>, d: string, i: nat, call: Call)
    requires Inv(ownerOf, s) && IsRun(ownerOf, s, es) && Foreign(ownerOf, s, d) && i < |es| && call.database == d
    ensures !Succeeds(StateAt(ownerOf, s, es, i), es[i], call)
    decreases i
  {
    if i > 0 {
      InvStep(ownerOf, s, es[0]);
      ForeignStep(ownerOf, s, es[0], d);
      ForeignIsNeverAdopted(ownerOf, Apply(s, es[0]), es[1..], d, i - 1, call);
    }
  }

  /** A migration's own creation is foreign from the start, whatever call is under way. */
  lemma MadeByMigrationIsForeign(ownerOf: string -> string, s: State, e: Event, d: string)
    requires Inv(ownerOf, s) && Enabled(s, e)
    requires (e.MakeDatabase? && e.name == d && e.maker != ownerOf(d)) || (e.MakeRole? && e.name == ownerOf(d))
    ensures Foreign(ownerOf, Apply(s, e), d)
  {
  }
}
