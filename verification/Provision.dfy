/**
 * Giving a service its database on the run's server (provisionDatabase in nixpg.go): a series of
 * statements with no transaction around them, cut off anywhere, while the migrations of other
 * services go on creating roles and databases of their own.
 */
module Provision {
  import opened Options

  /** open: roles other than the owner may connect. The claim names a service. */
  datatype Database = Database(owner: string, claim: Option<string>, open: bool)

  /** roles: each role's password, once configured. granted: the roles that carry a membership. */
  datatype Cluster = Cluster(databases: map<string, Database>, roles: map<string, Option<string>>, granted: set<string>)

  datatype Call = Call(service: string, database: string, owner: string, password: string)

  datatype Statement = CreateRole(role: string)
                     | ConfigureRole(role: string, password: string)
                     | CreateDatabase(name: string, owner: string)
                     | Claim(name: string, service: string)
                     | OwnerTo(name: string, owner: string)
                     | CloseToPublic(name: string)

  predicate Executable(c: Cluster, st: Statement) {
    match st
    case CreateRole(r) => r !in c.roles
    case ConfigureRole(r, _) => r in c.roles
    case CreateDatabase(d, o) => d !in c.databases && o in c.roles
    case Claim(d, _) => d in c.databases
    case OwnerTo(d, o) => d in c.databases && o in c.roles
    case CloseToPublic(d) => d in c.databases
  }

  function Execute(c: Cluster, st: Statement): Cluster
    requires Executable(c, st)
  {
    match st
    case CreateRole(r) => c.(roles := c.roles[r := None])
    case ConfigureRole(r, p) => c.(roles := c.roles[r := Some(p)])
    case CreateDatabase(d, o) => c.(databases := c.databases[d := Database(o, None, true)])
    case Claim(d, s) => c.(databases := c.databases[d := c.databases[d].(claim := Some(s))])
    case OwnerTo(d, o) => c.(databases := c.databases[d := c.databases[d].(owner := o)])
    case CloseToPublic(d) => c.(databases := c.databases[d := c.databases[d].(open := false)])
  }

  /** The ownership, claim and membership checks. */
  predicate Refuses(c: Cluster, call: Call) {
    || (call.database in c.databases && c.databases[call.database].owner != call.owner)
    || (call.database in c.databases && c.databases[call.database].claim !in {None, Some(call.service)})
    || call.owner in c.granted
  }

  /** The caller's own affairs are in order: its owner carries no membership, its database is nobody else's. */
  predicate InOrder(c: Cluster, call: Call) {
    && call.owner !in c.granted
    && (call.database in c.databases ==>
          c.databases[call.database].owner == call.owner
          && (c.databases[call.database].claim == None || c.databases[call.database].claim == Some(call.service)))
  }

  /** Nothing else on the server has a say: clusters alike in these two things refuse alike. */
  lemma RefusalIsLocal(c: Cluster, d: Cluster, call: Call)
    requires call.owner in c.granted <==> call.owner in d.granted
    requires call.database in c.databases <==> call.database in d.databases
    requires call.database in c.databases ==> c.databases[call.database] == d.databases[call.database]
    ensures Refuses(c, call) <==> Refuses(d, call)
  {
  }

  function RolePart(missing: bool, call: Call): seq<Statement> {
    (if missing then [CreateRole(call.owner)] else []) + [ConfigureRole(call.owner, call.password)]
  }

  function DatabasePart(absent: bool, claimed: bool, call: Call): seq<Statement> {
    (if absent then [CreateDatabase(call.database, call.owner)] else [])
    + (if claimed then [] else [Claim(call.database, call.service)])
    + [OwnerTo(call.database, call.owner), CloseToPublic(call.database)]
  }

  predicate Claimed(c: Cluster, call: Call) {
    call.database in c.databases && c.databases[call.database].claim.Some?
  }

  /** The statements a call has ahead of it, from what its look-ups found. */
  function Plan(c: Cluster, call: Call): seq<Statement> {
    RolePart(call.owner !in c.roles, call) + DatabasePart(call.database !in c.databases, Claimed(c, call), call)
  }

  /** What a successful call leaves. */
  predicate Completed(c: Cluster, call: Call) {
    && call.owner in c.roles && c.roles[call.owner] == Some(call.password)
    && call.database in c.databases && c.databases[call.database] == Database(call.owner, Some(call.service), false)
  }

  // ---------- one call, as the source runs it ----------

  datatype Outcome = Done | Refused | Cut

  ghost predicate Runs(c: Cluster, sts: seq<Statement>)
    decreases |sts|
  {
    sts == [] || (Executable(c, sts[0]) && Runs(Execute(c, sts[0]), sts[1..]))
  }

  ghost function After(c: Cluster, sts: seq<Statement>): Cluster
    requires Runs(c, sts)
    decreases |sts|
  {
    if sts == [] then c else After(Execute(c, sts[0]), sts[1..])
  }

  class Session {
    var cluster: Cluster

    constructor (cluster: Cluster)
      ensures this.cluster == cluster
    {
      this.cluster := cluster;
    }

    method Exec(st: Statement) returns (ok: bool)
      modifies this
      ensures ok ==> Executable(old(cluster), st) && cluster == Execute(old(cluster), st)
      ensures !ok ==> cluster == old(cluster)
    {
      ok := *;
      if !ok || !Executable(cluster, st) {
        return false;
      }
      cluster := Execute(cluster, st);
    }

    method ConfigureOwner(missing: bool, call: Call) returns (ok: bool)
      modifies this
      ensures Partly(old(cluster), RolePart(missing, call), cluster)
      ensures ok ==> Wholly(old(cluster), RolePart(missing, call), cluster)
    {
      ghost var start, plan, k := cluster, RolePart(missing, call), 0;
      Begin(start, plan);
      if missing {
        ok := Exec(CreateRole(call.owner));
        if !ok { return; }
        Advance(start, plan, k, cluster);
        k := k + 1;
      }
      ok := Exec(ConfigureRole(call.owner, call.password));
      if !ok { return; }
      Advance(start, plan, k, cluster);
    }

    method SetUpDatabase(absent: bool, claimed: bool, call: Call) returns (ok: bool)
      modifies this
      ensures Partly(old(cluster), DatabasePart(absent, claimed, call), cluster)
      ensures ok ==> Wholly(old(cluster), DatabasePart(absent, claimed, call), cluster)
    {
      ghost var start, plan, k := cluster, DatabasePart(absent, claimed, call), 0;
      Begin(start, plan);
      if absent {
        ok := Exec(CreateDatabase(call.database, call.owner));
        if !ok { return; }
        Advance(start, plan, k, cluster);
        k := k + 1;
      }
      if !claimed {
        ok := Exec(Claim(call.database, call.service));
        if !ok { return; }
        Advance(start, plan, k, cluster);
        k := k + 1;
      }
      ok := Exec(OwnerTo(call.database, call.owner));
      if !ok { return; }
      Advance(start, plan, k, cluster);
      k := k + 1;
      ok := Exec(CloseToPublic(call.database));
      if !ok { return; }
      Advance(start, plan, k, cluster);
    }

    /** Refused calls change nothing; a cut one ran a prefix of its plan, a done one all of it. */
    method ProvisionDatabase(call: Call) returns (r: Outcome)
      modifies this
      ensures r == Refused <==> Refuses(old(cluster), call)
      ensures r != Refused <==> InOrder(old(cluster), call)
      ensures r == Refused ==> cluster == old(cluster)
      ensures r == Cut ==> Partly(old(cluster), Plan(old(cluster), call), cluster)
      ensures r == Done ==> Wholly(old(cluster), Plan(old(cluster), call), cluster)
    {
      var absent := call.database !in cluster.databases;
      var claimed := !absent && cluster.databases[call.database].claim.Some?;
      if !absent && cluster.databases[call.database].owner != call.owner {
        return Refused;
      }
      if claimed && cluster.databases[call.database].claim != Some(call.service) {
        return Refused;
      }
      if call.owner in cluster.granted {
        return Refused;
      }
      ghost var start := cluster;
      var missing := call.owner !in cluster.roles;
      var ok := ConfigureOwner(missing, call);
      if !ok {
        PartFirst(start, RolePart(missing, call), DatabasePart(absent, claimed, call), cluster);
        return Cut;
      }
      ghost var between := cluster;
      ok := SetUpDatabase(absent, claimed, call);
      Compose(start, RolePart(missing, call), between, DatabasePart(absent, claimed, call), cluster);
      r := if ok then Done else Cut;
    }
  }

  /** now is reached from start by a prefix of the statements. */
  ghost predicate Partly(start: Cluster, plan: seq<Statement>, now: Cluster) {
    exists k :: 0 <= k <= |plan| && Reached(start, plan, k, now)
  }

  ghost predicate Reached(start: Cluster, plan: seq<Statement>, k: nat, now: Cluster)
    requires k <= |plan|
  {
    Runs(start, plan[..k]) && now == After(start, plan[..k])
  }

  ghost predicate Wholly(start: Cluster, plan: seq<Statement>, now: Cluster) {
    Runs(start, plan) && now == After(start, plan)
  }

  lemma Begin(start: Cluster, plan: seq<Statement>)
    ensures Reached(start, plan, 0, start)
  {
  }

  /** One more statement of the plan. */
  lemma Advance(start: Cluster, plan: seq<Statement>, k: nat, now: Cluster)
    requires k < |plan| && Runs(start, plan[..k]) && Executable(After(start, plan[..k]), plan[k])
    requires now == Execute(After(start, plan[..k]), plan[k])
    ensures Reached(start, plan, k + 1, now)
    ensures k + 1 == |plan| ==> Wholly(start, plan, now)
  {
    Snoc(start, plan[..k], plan[k]);
    assert plan[..k + 1] == plan[..k] + [plan[k]];
    assert k + 1 == |plan| ==> plan[..k + 1] == plan;
  }

  lemma PartFirst(start: Cluster, a: seq<Statement>, b: seq<Statement>, now: Cluster)
    requires Partly(start, a, now)
    ensures Partly(start, a + b, now)
  {
    var k :| 0 <= k <= |a| && Reached(start, a, k, now);
    assert (a + b)[..k] == a[..k];
    assert Reached(start, a + b, k, now);
  }

  lemma Compose(start: Cluster, a: seq<Statement>, between: Cluster, b: seq<Statement>, now: Cluster)
    requires Wholly(start, a, between) && Partly(between, b, now)
    ensures Partly(start, a + b, now)
    ensures Wholly(between, b, now) ==> Wholly(start, a + b, now)
  {
    var k :| 0 <= k <= |b| && Reached(between, b, k, now);
    Concat(start, a, b[..k]);
    assert (a + b)[..|a| + k] == a + b[..k];
    assert Reached(start, a + b, |a| + k, now);
    if Wholly(between, b, now) { Concat(start, a, b); }
  }

  lemma {:induction false} Concat(c: Cluster, a: seq<Statement>, b: seq<Statement>)
    requires Runs(c, a) && Runs(After(c, a), b)
    ensures Runs(c, a + b) && After(c, a + b) == After(After(c, a), b)
    decreases |a|
  {
    if a == [] {
      assert a + b == b;
    } else {
      Concat(Execute(c, a[0]), a[1..], b);
      assert (a + b)[1..] == a[1..] + b;
    }
  }

  lemma {:induction false} Snoc(c: Cluster, sts: seq<Statement>, st: Statement)
    requires Runs(c, sts) && Executable(After(c, sts), st)
    ensures Runs(c, sts + [st]) && After(c, sts + [st]) == Execute(After(c, sts), st)
    decreases |sts|
  {
    if sts == [] {
      assert [] + [st] == [st] && [st][1..] == [];
    } else {
      Snoc(Execute(c, sts[0]), sts[1..], st);
      assert (sts + [st])[1..] == sts[1..] + [st];
    }
  }

  // ---------- what a whole plan does, and a retry after a cut ----------

  /** The state after the role part. */
  function RoleDone(c: Cluster, call: Call): Cluster {
    c.(roles := c.roles[call.owner := Some(call.password)])
  }

  function AllDone(c: Cluster, call: Call): Cluster {
    RoleDone(c, call).(databases := c.databases[call.database := Database(call.owner, Some(call.service), false)])
  }

  lemma OneRuns(c: Cluster, x: Statement)
    requires Executable(c, x)
    ensures Wholly(c, [x], Execute(c, x))
  {
    assert [x][1..] == [];
  }

  lemma TwoRun(c: Cluster, x: Statement, y: Statement)
    requires Executable(c, x) && Executable(Execute(c, x), y)
    ensures Wholly(c, [x, y], Execute(Execute(c, x), y))
  {
    assert [x, y][1..] == [y];
    OneRuns(Execute(c, x), y);
  }

  lemma RolePartRuns(c: Cluster, call: Call)
    ensures Wholly(c, RolePart(call.owner !in c.roles, call), RoleDone(c, call))
  {
    var create, configure := CreateRole(call.owner), ConfigureRole(call.owner, call.password);
    if call.owner !in c.roles {
      TwoRun(c, create, configure);
      assert c.roles[call.owner := None][call.owner := Some(call.password)] == c.roles[call.owner := Some(call.password)];
      assert RolePart(true, call) == [create, configure];
    } else {
      OneRuns(c, configure);
      assert RolePart(false, call) == [configure];
    }
  }

  lemma Tail(c: Cluster, call: Call)
    requires call.owner in c.roles && call.database in c.databases && c.databases[call.database].claim == Some(call.service)
    ensures Wholly(c, [OwnerTo(call.database, call.owner), CloseToPublic(call.database)],
                   c.(databases := c.databases[call.database := Database(call.owner, Some(call.service), false)]))
  {
    var d, to, close := call.database, OwnerTo(call.database, call.owner), CloseToPublic(call.database);
    TwoRun(c, to, close);
    var owned := c.databases[d].(owner := call.owner);
    assert c.databases[d := owned][d := owned.(open := false)] == c.databases[d := owned.(open := false)];
  }

  lemma DatabasePartRuns(c: Cluster, call: Call)
    requires call.owner in c.roles
    requires call.database in c.databases ==> c.databases[call.database].claim in {None, Some(call.service)}
    ensures Wholly(c, DatabasePart(call.database !in c.databases, Claimed(c, call), call),
                   c.(databases := c.databases[call.database := Database(call.owner, Some(call.service), false)]))
  {
    var d := call.database;
    var last := [OwnerTo(d, call.owner), CloseToPublic(d)];
    var made := if d in c.databases then c else Execute(c, CreateDatabase(d, call.owner));
    var named := if made.databases[d].claim.Some? then made else Execute(made, Claim(d, call.service));
    Tail(named, call);
    var rest := (if Claimed(c, call) then [] else [Claim(d, call.service)]) + last;
    assert Wholly(made, rest, After(named, last)) by {
      if Claimed(c, call) { assert rest == last; } else { assert rest[1..] == last; }
    }
    var plan := DatabasePart(d !in c.databases, Claimed(c, call), call);
    if d in c.databases { assert plan == rest; } else { assert plan[1..] == rest; }
    assert named.databases[d := Database(call.owner, Some(call.service), false)]
        == c.databases[d := Database(call.owner, Some(call.service), false)];
  }

  /** A call that is not refused can always run to its end, and ends complete. */
  lemma PlanCompletes(c: Cluster, call: Call)
    requires !Refuses(c, call)
    ensures Wholly(c, Plan(c, call), AllDone(c, call)) && Completed(AllDone(c, call), call)
  {
    RolePartRuns(c, call);
    var between := RoleDone(c, call);
    DatabasePartRuns(between, call);
    Concat(c, RolePart(call.owner !in c.roles, call), DatabasePart(call.database !in c.databases, Claimed(c, call), call));
  }

  /** How far a call has come matters to nothing but its own role and database. */
  ghost predicate OnTheWay(c: Cluster, call: Call, t: Cluster) {
    && t.granted == c.granted
    && t.roles - {call.owner} == c.roles - {call.owner} && t.databases - {call.database} == c.databases - {call.database}
    && (call.database in t.databases ==> t.databases[call.database].owner == call.owner
                                         && t.databases[call.database].claim in {None, Some(call.service)})
  }

  lemma StaysOnTheWay(c: Cluster, call: Call, t: Cluster, st: Statement)
    requires OnTheWay(c, call, t) && Executable(t, st) && st in Statements(call)
    ensures OnTheWay(c, call, Execute(t, st))
  {
    var u := Execute(t, st);
    assert u.roles - {call.owner} == t.roles - {call.owner};
    assert u.databases - {call.database} == t.databases - {call.database};
  }

  function Statements(call: Call): set<Statement> {
    { CreateRole(call.owner), ConfigureRole(call.owner, call.password), CreateDatabase(call.database, call.owner),
      Claim(call.database, call.service), OwnerTo(call.database, call.owner), CloseToPublic(call.database) }
  }

  lemma {:induction false} PrefixOnTheWay(c: Cluster, call: Call, t: Cluster, sts: seq<Statement>)
    requires OnTheWay(c, call, t) && Runs(t, sts) && forall i :: 0 <= i < |sts| ==> sts[i] in Statements(call)
    ensures OnTheWay(c, call, After(t, sts))
    decreases |sts|
  {
    if sts != [] {
      StaysOnTheWay(c, call, t, sts[0]);
      PrefixOnTheWay(c, call, Execute(t, sts[0]), sts[1..]);
    }
  }

  /** Cut anywhere, a call is not refused when retried, and the retry ends where an uncut call would have. */
  lemma RetryResumes(c: Cluster, call: Call, cut: Cluster)
    requires !Refuses(c, call) && Partly(c, Plan(c, call), cut)
    ensures !Refuses(cut, call)
    ensures Wholly(cut, Plan(cut, call), AllDone(c, call))
  {
    var k :| 0 <= k <= |Plan(c, call)| && Reached(c, Plan(c, call), k, cut);
    PlanStatements(c, call);
    PrefixOnTheWay(c, call, c, Plan(c, call)[..k]);
    PlanCompletes(cut, call);
    assert (cut.roles - {call.owner})[call.owner := Some(call.password)] == cut.roles[call.owner := Some(call.password)];
    assert (c.roles - {call.owner})[call.owner := Some(call.password)] == c.roles[call.owner := Some(call.password)];
    var done := Database(call.owner, Some(call.service), false);
    assert (cut.databases - {call.database})[call.database := done] == cut.databases[call.database := done];
    assert (c.databases - {call.database})[call.database := done] == c.databases[call.database := done];
  }

  lemma PlanStatements(c: Cluster, call: Call)
    ensures forall i :: 0 <= i < |Plan(c, call)| ==> Plan(c, call)[i] in Statements(call)
  {
  }
}
