/** One transaction that reconciles every login of a database (runtime_access.go). */
module RuntimeLogins {
  import opened Options
  import opened Names
  import opened Catalog
  import opened RuntimeAccess
  import RoleNames

  /** The database server, as committed transactions leave it. */
  class Server {
    var db: Db
    const superuser: bool
    var fault: bool         // a statement or a commit failed for a reason of the server's own

    constructor (db: Db, superuser: bool)
      ensures this.db == db && this.superuser == superuser && !fault
    {
      this.db, this.superuser, this.fault := db, superuser, false;
    }
  }

  datatype Settings = Settings(
    database: string, owner: string, prefix: string,
    schemas: seq<string>, readWriteRoles: seq<string>, logins: seq<RoleNames.Declared>,
    externalIdentity: bool, externalInstances: bool,
    readOnlyPassword: string, readWritePassword: string, loginPassword: string -> string)

  /** A login principal with the delegated roles that are exclusively its own. */
  datatype Principal = Principal(role: string, password: string, roles: seq<string>)

  const LOGIN := Attributes(true, false, false, false, false, false, false)

  function Reader(s: Settings): string { s.prefix + RoleNames.READER }
  function Writer(s: Settings): string { s.prefix + RoleNames.WRITER }

  function Schemas(s: Settings): seq<string> {
    RoleNames.RuntimeSchemas(s.schemas)
  }

  function AccessOf(s: Settings, p: Principal): Access {
    Access(s.database, s.owner, Reader(s), p.role, Schemas(s), p.roles, [], false, true, Password, [], [])
  }

  function Managed(s: Settings): Principal {
    Principal(Writer(s), s.readWritePassword, RoleNames.FirstMentions(s.readWriteRoles))
  }

  function DeclaredPrincipal(s: Settings, d: RoleNames.Declared): Principal {
    Principal(RoleNames.LoginRole(s.prefix, d.name), s.loginPassword(d.name), RoleNames.FirstMentions(d.readWriteRoles))
  }

  /** The managed writer, then the declared logins in order. */
  function Principals(s: Settings): seq<Principal> {
    [Managed(s)] + seq(|s.logins|, i requires 0 <= i < |s.logins| => DeclaredPrincipal(s, s.logins[i]))
  }

  // ---------- one login role ----------

  ghost predicate LoginDone(role: string, password: string, readOnly: bool, before: Db, after: Db) {
    after == before.(
      roles := before.roles[role := LOGIN],
      passwords := before.passwords[role := password],
      readOnlySession := if readOnly then before.readOnlySession + {role} else before.readOnlySession - {role})
  }

  /** Create the login when it is missing; clear only the elevated attributes it holds. */
  method EnsureLoginRole(tx: Transaction, role: string, password: string, readOnly: bool) returns (ok: bool)
    modifies tx
    ensures ok ==> LoginDone(role, password, readOnly, old(tx.db), tx.db)
    ensures tx.denied && !old(tx.denied) ==> !tx.superuser && Protected(old(tx.db.roles), role)
    ensures old(tx.fault) ==> tx.fault
    ensures ok ==> tx.fault == old(tx.fault) && (tx.superuser || !Protected(old(tx.db.roles), role))
    ensures !ok ==> tx.fault || (!tx.superuser && Protected(old(tx.db.roles), role))
  {
    if role !in tx.db.roles {
      ok := tx.CreateRole(role);
      if !ok {
        return;
      }
    }
    var elevated := Held(tx.db.roles[role]) - {LoginFlag, InheritFlag};
    ok := tx.AlterLogin(role, elevated, password);
    if !ok {
      return;
    }
    ok := tx.SetReadOnly(role, readOnly);
  }

  // ---------- one pass ----------

  function DefaultRole(roles: seq<string>): Option<string> {
    if roles == [] then None else Some(roles[0])
  }

  function WithDefault(m: map<string, string>, p: Principal): map<string, string> {
    if p.roles == [] then m - {p.role} else m[p.role := p.roles[0]]
  }

  /** What the three steps for one principal do to the catalog. */
  ghost predicate Pass(s: Settings, p: Principal, before: Db, after: Db) {
    && AclDone(AccessOf(s, p), before.objects, |Schemas(s)|, before.acl, after.acl)
    && after == before.(
         acl := after.acl,
         roles := before.roles[p.role := LOGIN],
         edges := MemberOf(before.edges, p.role, p.roles),
         passwords := before.passwords[p.role := p.password],
         readOnlySession := before.readOnlySession - {p.role},
         defaultRole := WithDefault(before.defaultRole, p))
  }

  /** All that can stop a principal's pass besides the server itself, given the roles there are. */
  ghost predicate Blocked(s: Settings, superuser: bool, roles: map<string, Attributes>, p: Principal) {
    || (!superuser && Protected(roles, p.role))
    || !ValidAccess(AccessOf(s, p))
    || Reader(s) !in roles
    || !Delegable(roles[p.role := LOGIN], p.roles)
  }

  /** Declared logins have no reader roles, so nothing is checked about them. */
  const NO_READER_CHECK: ReaderCheck := (_, _) => true

  method ReconcilePrincipal(tx: Transaction, s: Settings, p: Principal) returns (ok: bool)
    modifies tx
    ensures ok ==> Pass(s, p, old(tx.db), tx.db) && Reader(s) != p.role
    ensures old(tx.fault) ==> tx.fault
    ensures !old(tx.fault) ==> (ok <==> !tx.fault && !Blocked(s, tx.superuser, old(tx.db.roles), p))
  {
    ok := EnsureLoginRole(tx, p.role, p.password, false);
    if !ok {
      return;
    }
    ok := ReconcileRuntimeAccess(tx, AccessOf(s, p), NO_READER_CHECK);
    if !ok {
      return;
    }
    ok := tx.SetDefaultRole(p.role, DefaultRole(p.roles));
  }

  // ---------- what each principal ends with ----------

  /** A schema access is granted on: a configured one, trimmed, or the default where none is. */
  ghost predicate OnSchema(s: Settings, schema: string) {
    if s.schemas == [] then schema == "public"
    else exists i :: 0 <= i < |s.schemas| && RoleNames.TrimSpace(s.schemas[i]) == schema
  }

  /** A table that exists in such a schema, or the tables the owner has yet to make there. */
  ghost predicate TableOf(s: Settings, objects: set<Object>, o: Object) {
    match o
    case Table(schema, _) => o in objects && OnSchema(s, schema)
    case DefaultTables(owner, schema) => owner == s.owner && OnSchema(s, schema)
    case _ => false
  }

  ghost predicate SequenceOf(s: Settings, objects: set<Object>, o: Object) {
    match o
    case Sequence(schema, _) => o in objects && OnSchema(s, schema)
    case DefaultSequences(owner, schema) => owner == s.owner && OnSchema(s, schema)
    case _ => false
  }

  lemma SchemasAre(s: Settings, schema: string)
    ensures schema in Schemas(s) <==> OnSchema(s, schema)
  {
    RoleNames.FirstMentionsAre(s.schemas);
  }

  /** A principal's own state: its attributes, settings, memberships and privileges. */
  ghost predicate Settled(s: Settings, p: Principal, db: Db) {
    && p.role in db.roles && db.roles[p.role] == LOGIN
    && p.role in db.passwords && db.passwords[p.role] == p.password
    && p.role !in db.readOnlySession
    && (forall r :: Edge(r, p.role) in db.edges <==> r in p.roles)
    && DefaultIsMembership(p, db)
    && (forall o, x :: DirectPrivilege(s, p, db, o, x))
  }

  /** The default role is the first configured one, and a membership; with none configured it is cleared. */
  ghost predicate DefaultIsMembership(p: Principal, db: Db) {
    if p.roles == [] then p.role !in db.defaultRole
    else p.role in db.defaultRole && db.defaultRole[p.role] == p.roles[0] && Edge(p.roles[0], p.role) in db.edges
  }

  /** Direct DML on listed schemas exists only for a principal with no delegated role. */
  ghost predicate DirectPrivilege(s: Settings, p: Principal, db: Db, o: Object, x: Privilege) {
    var held := Grant(o, Role(p.role), x) in db.acl;
    && (o == Database(s.database) ==> (held <==> x == Connect))
    && (o.Schema? && OnSchema(s, o.schema) ==> (held <==> x == Usage))
    && (TableOf(s, db.objects, o) ==> (held <==> p.roles == [] && x in {Select, Insert, Update, Delete}))
    && (SequenceOf(s, db.objects, o) ==> (held <==> p.roles == [] && x in {Usage, Select, Update}))
  }

  /** The reader: a read-only login with SELECT alone. */
  ghost predicate ReaderSettled(s: Settings, db: Db) {
    && Reader(s) in db.roles && db.roles[Reader(s)] == LOGIN
    && Reader(s) in db.passwords && db.passwords[Reader(s)] == s.readOnlyPassword
    && Reader(s) in db.readOnlySession
    && forall o, x :: ReaderPrivilege(s, db, o, x)
  }

  ghost predicate ReaderPrivilege(s: Settings, db: Db, o: Object, x: Privilege) {
    var held := Grant(o, Role(Reader(s)), x) in db.acl;
    && (o == Database(s.database) ==> (held <==> x == Connect))
    && (o.Schema? && OnSchema(s, o.schema) ==> (held <==> x == Usage))
    && (TableOf(s, db.objects, o) ==> (held <==> x == Select))
    && (SequenceOf(s, db.objects, o) ==> !held)
  }

  /** Everything that belongs to a role outside the given ones is as it was. */
  ghost predicate OthersUntouched(s: Settings, touched: set<string>, before: Db, after: Db) {
    && after.objects == before.objects
    && (forall e: Edge :: e.member !in touched ==> (e in after.edges <==> e in before.edges))
    && (forall r :: r !in touched ==> RoleUntouched(r, before, after))
    && (forall o, x :: Grant(o, Public, x) in after.acl ==> Grant(o, Public, x) in before.acl)
    && (forall o, x :: Grant(o, Public, x) in before.acl && !(o.Schema? && OnSchema(s, o.schema) && x == Create)
          ==> Grant(o, Public, x) in after.acl)
  }

  ghost predicate RoleUntouched(r: string, before: Db, after: Db) {
    && (r in after.roles <==> r in before.roles) && (r in before.roles ==> after.roles[r] == before.roles[r])
    && (r in after.passwords <==> r in before.passwords) && (r in before.passwords ==> after.passwords[r] == before.passwords[r])
    && (r in after.readOnlySession <==> r in before.readOnlySession)
    && (r in after.defaultRole <==> r in before.defaultRole)
    && (r in before.defaultRole ==> after.defaultRole[r] == before.defaultRole[r])
    && (forall o, x :: Grant(o, Role(r), x) in after.acl <==> Grant(o, Role(r), x) in before.acl)
  }

  /** One grant of the principal, of the reader, of PUBLIC or of another role after a pass. */
  lemma PassPrivilege(s: Settings, p: Principal, before: Db, after: Db, role: string, o: Object, x: Privilege)
    requires Pass(s, p, before, after) && p.role != Reader(s)
    ensures DirectPrivilege(s, p, after, o, x) && ReaderPrivilege(s, after, o, x)
    ensures role != p.role && role != Reader(s) ==> (Grant(o, Role(role), x) in after.acl <==> Grant(o, Role(role), x) in before.acl)
    ensures Grant(o, Public, x) in after.acl <==>
            Grant(o, Public, x) in before.acl && !(o.Schema? && OnSchema(s, o.schema) && x == Create)
  {
    match o {
      case Schema(sc) => SchemasAre(s, sc);
      case Table(sc, _) => SchemasAre(s, sc);
      case Sequence(sc, _) => SchemasAre(s, sc);
      case DefaultTables(_, sc) => SchemasAre(s, sc);
      case DefaultSequences(_, sc) => SchemasAre(s, sc);
      case Database(_) =>
    }
    ExactPrivileges(AccessOf(s, p), before.objects, before.acl, after.acl, role, o, x);
    ExactPrivileges(AccessOf(s, p), before.objects, before.acl, after.acl, p.role, o, x);
    ExactPrivileges(AccessOf(s, p), before.objects, before.acl, after.acl, Reader(s), o, x);
  }

  lemma Settles(s: Settings, p: Principal, before: Db, after: Db)
    requires Pass(s, p, before, after) && p.role != Reader(s)
    ensures Settled(s, p, after)
  {
    forall o, x ensures DirectPrivilege(s, p, after, o, x) {
      PassPrivilege(s, p, before, after, p.role, o, x);
    }
    forall r ensures Edge(r, p.role) in after.edges <==> r in p.roles {
    }
  }

  /** Reconciling one principal leaves another exactly as it was. */
  lemma StaysSettled(s: Settings, q: Principal, p: Principal, before: Db, after: Db)
    requires Settled(s, q, before) && Pass(s, p, before, after)
    requires p.role != Reader(s) && q.role != Reader(s) && q.role != p.role
    ensures Settled(s, q, after)
  {
    forall o, x ensures DirectPrivilege(s, q, after, o, x) {
      PassPrivilege(s, p, before, after, q.role, o, x);
      assert DirectPrivilege(s, q, before, o, x);
    }
    forall r ensures Edge(r, q.role) in after.edges <==> r in q.roles {
      assert Edge(r, q.role) in before.edges <==> r in q.roles;
    }
  }

  lemma ReaderStays(s: Settings, p: Principal, before: Db, after: Db)
    requires Pass(s, p, before, after) && p.role != Reader(s)
    requires Reader(s) in before.roles && before.roles[Reader(s)] == LOGIN
    requires Reader(s) in before.passwords && before.passwords[Reader(s)] == s.readOnlyPassword
    requires Reader(s) in before.readOnlySession
    ensures ReaderSettled(s, after)
  {
    forall o, x ensures ReaderPrivilege(s, after, o, x) {
      PassPrivilege(s, p, before, after, p.role, o, x);
    }
  }

  lemma PassTouches(s: Settings, p: Principal, touched: set<string>, origin: Db, before: Db, after: Db)
    requires OthersUntouched(s, touched, origin, before) && Pass(s, p, before, after) && Reader(s) in touched
    requires p.role != Reader(s)
    ensures OthersUntouched(s, touched + {p.role}, origin, after)
  {
    var now := touched + {p.role};
    forall r | r !in now ensures RoleUntouched(r, origin, after) {
      assert RoleUntouched(r, origin, before);
      forall o, x ensures Grant(o, Role(r), x) in after.acl <==> Grant(o, Role(r), x) in origin.acl {
        PassPrivilege(s, p, before, after, r, o, x);
      }
    }
    forall o, x ensures Grant(o, Public, x) in after.acl <==>
                        Grant(o, Public, x) in before.acl && !(o.Schema? && OnSchema(s, o.schema) && x == Create) {
      PassPrivilege(s, p, before, after, p.role, o, x);
    }
  }

  // ---------- the whole transaction ----------

  ghost function RolesUpTo(s: Settings, n: nat): set<string>
    requires n <= |Principals(s)|
  {
    {Reader(s)} + set i | 0 <= i < n :: Principals(s)[i].role
  }

  /** The outcome for the managed writer, every declared login, the reader and everybody else. */
  ghost predicate AccessExact(s: Settings, before: Db, after: Db) {
    && ReaderSettled(s, after)
    && (forall i :: 0 <= i < |Principals(s)| ==> Settled(s, Principals(s)[i], after))
    && OthersUntouched(s, RolesUpTo(s, |Principals(s)|), before, after)
    && (forall r :: Edge(r, Reader(s)) in after.edges <==> Edge(r, Reader(s)) in before.edges)
  }

  /** A login that may do nothing but log in. */
  predicate BareLogin(x: Attributes) {
    x.login && !x.superuser && !x.createDb && !x.createRole && !x.inherit && !x.replication && !x.bypassRls
  }

  /** A role logs in with this password and belongs to exactly these roles, trimmed, starting as the first. */
  ghost predicate LogsInAs(db: Db, role: string, password: string, configured: seq<string>) {
    && role in db.roles && BareLogin(db.roles[role])
    && role in db.passwords && db.passwords[role] == password && role !in db.readOnlySession
    && (forall r :: Edge(r, role) in db.edges <==> exists i :: 0 <= i < |configured| && RoleNames.TrimSpace(configured[i]) == r)
    && (if configured == [] then role !in db.defaultRole
        else role in db.defaultRole && db.defaultRole[role] == RoleNames.TrimSpace(configured[0]))
  }

  /** The outcome in terms of the settings: the reader, the writer and each declared login by name. */
  lemma OutcomeSpelled(s: Settings, before: Db, after: Db)
    requires AccessExact(s, before, after)
    ensures var reader := s.prefix + "_ro";
            && reader in after.roles && BareLogin(after.roles[reader])
            && reader in after.passwords && after.passwords[reader] == s.readOnlyPassword && reader in after.readOnlySession
    ensures LogsInAs(after, s.prefix + "_rw", s.readWritePassword, s.readWriteRoles)
    ensures forall i :: 0 <= i < |s.logins| ==>
              LogsInAs(after, s.prefix + "_" + RoleNames.Underscored(s.logins[i].name), s.loginPassword(s.logins[i].name),
                       s.logins[i].readWriteRoles)
  {
    SettledSpelled(s, 0, s.readWriteRoles, after);
    forall i | 0 <= i < |s.logins|
      ensures LogsInAs(after, s.prefix + "_" + RoleNames.Underscored(s.logins[i].name), s.loginPassword(s.logins[i].name),
                       s.logins[i].readWriteRoles)
    {
      SettledSpelled(s, i + 1, s.logins[i].readWriteRoles, after);
    }
  }

  lemma SettledSpelled(s: Settings, k: nat, configured: seq<string>, db: Db)
    requires k < |Principals(s)| && Settled(s, Principals(s)[k], db)
    requires Principals(s)[k].roles == RoleNames.FirstMentions(configured)
    ensures LogsInAs(db, Principals(s)[k].role, Principals(s)[k].password, configured)
  {
    hide RoleNames.TrimSpace;
    RoleNames.FirstMentionsAre(configured);
  }

  ghost predicate RolesDistinct(s: Settings) {
    && (forall i, j :: 0 <= i < j < |Principals(s)| ==> Principals(s)[i].role != Principals(s)[j].role)
    && (forall i :: 0 <= i < |Principals(s)| ==> Principals(s)[i].role != Reader(s))
  }

  /** The state once the first n principals are done. */
  ghost predicate DoneUpTo(s: Settings, n: nat, before: Db, now: Db)
    requires n <= |Principals(s)|
  {
    && (n > 0 ==> ReaderSettled(s, now))
    && (forall i :: 0 <= i < n ==> Settled(s, Principals(s)[i], now))
    && OthersUntouched(s, RolesUpTo(s, n), before, now)
    && (forall r :: Edge(r, Reader(s)) in now.edges <==> Edge(r, Reader(s)) in before.edges)
  }

  lemma OneMore(s: Settings, n: nat, before: Db, was: Db, now: Db)
    requires n < |Principals(s)| && DoneUpTo(s, n, before, was) && Pass(s, Principals(s)[n], was, now)
    requires RolesDistinct(s)
    requires Reader(s) in was.roles && was.roles[Reader(s)] == LOGIN
    requires Reader(s) in was.passwords && was.passwords[Reader(s)] == s.readOnlyPassword
    requires Reader(s) in was.readOnlySession
    ensures DoneUpTo(s, n + 1, before, now)
  {
    var p := Principals(s)[n];
    Settles(s, p, was, now);
    ReaderStays(s, p, was, now);
    forall i | 0 <= i < n ensures Settled(s, Principals(s)[i], now) {
      StaysSettled(s, Principals(s)[i], p, was, now);
    }
    PassTouches(s, p, RolesUpTo(s, n), before, was, now);
    assert RolesUpTo(s, n + 1) == RolesUpTo(s, n) + {p.role};
  }

  lemma PrincipalsApart(s: Settings)
    requires s.logins == [] || RoleNames.NamesDistinct(s.logins)
    requires forall i :: 0 <= i < |s.logins| ==> RoleNames.Resolvable(s.prefix, s.logins[i])
    ensures RolesDistinct(s)
  {
    var resolved := seq(|s.logins|, i requires 0 <= i < |s.logins| => RoleNames.Resolved(s.prefix, s.logins[i]));
    RoleNames.AcceptedLoginsApart(s.prefix, s.logins, resolved);
    RoleNames.ManagedRolesApart(s.prefix);
    forall i | 0 <= i < |s.logins| ensures Principals(s)[i + 1].role == resolved[i].role {
    }
    forall i, j | 0 <= i < j < |Principals(s)| ensures Principals(s)[i].role != Principals(s)[j].role {
      assert Principals(s)[j].role == resolved[j - 1].role;
      if i > 0 { assert Principals(s)[i].role == resolved[i - 1].role; }
    }
    forall i | 0 <= i < |Principals(s)| ensures Principals(s)[i].role != Reader(s) {
      if i > 0 { assert Principals(s)[i].role == resolved[i - 1].role; }
    }
  }

  /** The reader in place, nothing else touched. */
  lemma ReaderFirst(s: Settings, before: Db, now: Db)
    requires LoginDone(Reader(s), s.readOnlyPassword, true, before, now)
    ensures DoneUpTo(s, 0, before, now)
    ensures Reader(s) in now.roles && now.roles[Reader(s)] == LOGIN
    ensures Reader(s) in now.passwords && now.passwords[Reader(s)] == s.readOnlyPassword
    ensures Reader(s) in now.readOnlySession
  {
  }

  /** The roles once the reader and the first n principals are logins. */
  ghost function RolesAt(s: Settings, n: nat, roles: map<string, Attributes>): map<string, Attributes>
    requires n <= |Principals(s)|
  {
    if n == 0 then roles[Reader(s) := LOGIN] else RolesAt(s, n - 1, roles)[Principals(s)[n - 1].role := LOGIN]
  }

  /** The pass of a declared login, which follows the managed writer's. */
  lemma OneLogin(s: Settings, n: nat, before: Db, was: Db, now: Db)
    requires 0 < n < |Principals(s)| && DoneUpTo(s, n, before, was) && Pass(s, Principals(s)[n], was, now)
    requires RolesDistinct(s) && was.roles == RolesAt(s, n, before.roles)
    ensures DoneUpTo(s, n + 1, before, now) && now.roles == RolesAt(s, n + 1, before.roles)
  {
    OneMore(s, n, before, was, now);
  }

  /** A principal from the n-th on is stopped at its turn. */
  ghost predicate BlockedFrom(s: Settings, superuser: bool, n: nat, roles: map<string, Attributes>) {
    exists i :: n <= i < |Principals(s)| && Blocked(s, superuser, RolesAt(s, i, roles), Principals(s)[i])
  }

  /** The n-th principal's turn, a declared login. */
  method ReconcileLogin(tx: Transaction, s: Settings, p: Principal, ghost n: nat, ghost origin: Db) returns (ok: bool)
    requires RolesDistinct(s) && 0 < n < |Principals(s)| && p == Principals(s)[n]
    requires DoneUpTo(s, n, origin, tx.db) && tx.db.roles == RolesAt(s, n, origin.roles)
    modifies tx
    ensures ok ==> DoneUpTo(s, n + 1, origin, tx.db) && tx.db.roles == RolesAt(s, n + 1, origin.roles)
    ensures old(tx.fault) ==> tx.fault
    ensures !old(tx.fault) ==> (ok <==> !tx.fault && !Blocked(s, tx.superuser, RolesAt(s, n, origin.roles), p))
  {
    hide DoneUpTo, Pass, Blocked, RolesDistinct, RolesAt;
    ghost var was := tx.db;
    ok := ReconcilePrincipal(tx, s, p);
    if ok {
      OneLogin(s, n, origin, was, tx.db);
    }
  }

  /** Each declared login in turn, after the managed writer. */
  method ReconcileLogins(tx: Transaction, s: Settings, logins: seq<RoleNames.Login>, ghost origin: Db) returns (ok: bool)
    requires RolesDistinct(s) && DoneUpTo(s, 1, origin, tx.db) && |logins| == |s.logins|
    requires forall i :: 0 <= i < |logins| ==> logins[i] == RoleNames.Resolved(s.prefix, s.logins[i])
    requires tx.db.roles == RolesAt(s, 1, origin.roles)
    modifies tx
    ensures ok ==> DoneUpTo(s, |Principals(s)|, origin, tx.db)
    ensures old(tx.fault) ==> tx.fault
    ensures !old(tx.fault) ==> (ok <==> !tx.fault && !BlockedFrom(s, tx.superuser, 1, origin.roles))
  {
    hide DoneUpTo, Blocked, RolesDistinct, RolesAt, RoleNames.FirstMentions;
    var i := 0;
    while i < |logins|
      invariant 0 <= i <= |logins|
      invariant DoneUpTo(s, i + 1, origin, tx.db) && tx.db.roles == RolesAt(s, i + 1, origin.roles)
      invariant old(tx.fault) ==> tx.fault
      invariant !old(tx.fault) ==> !tx.fault
      invariant !old(tx.fault) ==> forall j :: 1 <= j <= i ==> !Blocked(s, tx.superuser, RolesAt(s, j, origin.roles), Principals(s)[j])
    {
      var p := Principal(logins[i].role, s.loginPassword(logins[i].name), logins[i].readWriteRoles);
      assert Principals(s)[i + 1] == p;
      ok := ReconcileLogin(tx, s, p, i + 1, origin);
      if !ok {
        return;
      }
      i := i + 1;
    }
    ok := true;
  }

  /** The declared logins resolve. */
  ghost predicate LoginsAccepted(s: Settings) {
    s.logins == [] || (!s.externalIdentity && !s.externalInstances && RoleNames.NamesDistinct(s.logins)
                       && forall i :: 0 <= i < |s.logins| ==> RoleNames.Resolvable(s.prefix, s.logins[i]))
  }

  /** The reader or a principal holds a protected attribute, or a principal is stopped at its turn. */
  ghost predicate Obstructed(s: Settings, superuser: bool, roles: map<string, Attributes>) {
    (!superuser && Protected(roles, Reader(s))) || BlockedFrom(s, superuser, 0, roles)
  }

  /** The body of the transaction: the reader, the managed writer, the declared logins. */
  method ReconcileAll(tx: Transaction, s: Settings) returns (ok: bool)
    modifies tx
    ensures ok ==> AccessExact(s, old(tx.db), tx.db)
    ensures old(tx.fault) ==> tx.fault
    ensures !old(tx.fault) ==> (ok <==> !tx.fault && LoginsAccepted(s) && !Obstructed(s, tx.superuser, old(tx.db.roles)))
  {
    ghost var origin := tx.db;
    ok := EnsureLoginRole(tx, Reader(s), s.readOnlyPassword, true);
    if !ok {
      return;
    }
    ReaderFirst(s, origin, tx.db);
    ghost var first := tx.db;
    assert Principals(s)[0] == Managed(s) && first.roles == RolesAt(s, 0, origin.roles);
    ok := ReconcilePrincipal(tx, s, Managed(s));
    if !ok {
      return;
    }
    var logins := RoleNames.ResolveRuntimeLogins(s.prefix, s.logins, s.externalIdentity, s.externalInstances);
    if logins.None? {
      return false;
    }
    PrincipalsApart(s);
    OneMore(s, 0, origin, first, tx.db);
    ok := ReconcileLogins(tx, s, logins.value, origin);
  }

  /** The settings themselves are in order. */
  ghost predicate Configured(s: Settings) {
    && !s.externalIdentity
    && RoleNames.RolesAccepted(s.schemas, {})
    && RoleNames.RolesAccepted(s.readWriteRoles, {Reader(s), Writer(s)})
    && LoginsAccepted(s)
  }

  /**
   * Committed, the whole outcome holds; on any error the server is as it was. It commits exactly
   * when the settings are in order, no role stands in the way and the server does not fail.
   */
  method EnsureRuntimeAccess(server: Server, s: Settings) returns (ok: bool)
    modifies server
    ensures !old(server.fault) ==>
              (ok <==> !server.fault && Configured(s) && !Obstructed(s, server.superuser, old(server.db.roles)))
    ensures !ok ==> server.db == old(server.db)
    ensures ok ==> !s.externalIdentity && AccessExact(s, old(server.db), server.db)
  {
    if s.externalIdentity {
      return false;
    }
    var schemas := RoleNames.NormalizedReadWriteRoles(s.schemas, {});
    var roles := RoleNames.NormalizedReadWriteRoles(s.readWriteRoles, {Reader(s), Writer(s)});
    if schemas.None? || roles.None? {
      return false;
    }
    var tx := new Transaction(server.db, server.superuser);
    ok := ReconcileAll(tx, s);
    server.fault := server.fault || tx.fault;
    if !ok {
      return;
    }
    var committed: bool := *;
    if !committed {
      server.fault := true;
      return false;
    }
    server.db := tx.db;
  }
}
