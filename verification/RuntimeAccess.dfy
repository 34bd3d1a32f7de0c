/** Reconciling the least-privilege roles of one database (libs/go/controlplane/access.go). */
module RuntimeAccess {
  import opened Names
  import opened Catalog

  datatype AuthMode = Password | ExternalIdentity | Unsupported(name: string)

  datatype Access = Access(
    database: string, owner: string, reader: string, writer: string,
    schemas: seq<string>, readWriteRoles: seq<string>, readOnlyRoles: seq<string>,
    reconcileReadOnly: bool, reconcileReadWrite: bool, mode: AuthMode,
    readOnlyPrincipals: seq<string>, readWritePrincipals: seq<string>)

  // ---------- validation ----------

  predicate RoleName(role: string) {
    role != "" && Trimmed(role) && Bytes(role) <= IDENTIFIER_BYTES && !HasNul(role)
  }

  lemma RoleNameMeans(role: string)
    ensures RoleName(role) <==>
            && role != "" && !Space(role[0]) && !Space(role[|role| - 1]) && Bytes(role) <= 63
            && forall i :: 0 <= i < |role| ==> role[i] != '\0'
  {
  }

  /** The roles a reader role must differ from. */
  ghost function Taken(a: Access): set<string> {
    {a.owner, a.reader, a.writer} + (set r | r in a.readWriteRoles) + (set r | r in a.readOnlyPrincipals)
    + (set r | r in a.readWritePrincipals)
  }

  ghost predicate ValidAccess(a: Access) {
    && !Blank(a.database) && !Blank(a.owner) && !Blank(a.reader) && !Blank(a.writer)
    && a.reader != a.writer
    && a.schemas != []
    && (a.readWriteRoles != [] ==> a.reconcileReadWrite)
    && (a.readOnlyRoles != [] ==> a.reconcileReadOnly)
    && Distinct(a.readOnlyRoles)
    && (forall r :: r in a.readOnlyRoles ==> RoleName(r) && r !in Taken(a))
    && (forall s :: s in a.schemas ==> !Blank(s))
    && match a.mode {
         case Password => a.readOnlyPrincipals == [] && a.readWritePrincipals == []
         case ExternalIdentity => NoBlank(a.readOnlyPrincipals) && NoBlank(a.readWritePrincipals)
         case Unsupported(_) => false
       }
  }

  ghost predicate NoBlank(names: seq<string>) {
    forall n :: n in names ==> !Blank(n)
  }

  method AllNonBlank(names: seq<string>) returns (ok: bool)
    ensures ok <==> NoBlank(names)
  {
    for i := 0 to |names|
      invariant forall j :: 0 <= j < i ==> !Blank(names[j])
    {
      if Blank(names[i]) {
        return false;
      }
    }
    ok := true;
  }

  method Mark(names: seq<string>, seen: set<string>) returns (seen': set<string>)
    ensures seen' == seen + set n | n in names
  {
    seen' := seen;
    for i := 0 to |names|
      invariant seen' == seen + set n | n in names[..i]
    {
      assert names[..i + 1] == names[..i] + [names[i]];
      seen' := seen' + {names[i]};
    }
    assert names[..|names|] == names;
  }

  method ValidateRuntimeAccess(a: Access) returns (ok: bool)
    ensures ok <==> ValidAccess(a)
  {
    if Blank(a.database) || Blank(a.owner) || Blank(a.reader) || Blank(a.writer) {
      return false;
    }
    if a.reader == a.writer || a.schemas == [] {
      return false;
    }
    if (a.readWriteRoles != [] && !a.reconcileReadWrite) || (a.readOnlyRoles != [] && !a.reconcileReadOnly) {
      return false;
    }
    var seen := Mark(a.readWriteRoles, {a.owner, a.reader, a.writer});
    seen := Mark(a.readOnlyPrincipals, seen);
    seen := Mark(a.readWritePrincipals, seen);
    assert seen == Taken(a);
    for i := 0 to |a.readOnlyRoles|
      invariant seen == Taken(a) + set j | 0 <= j < i :: a.readOnlyRoles[j]
      invariant forall j :: 0 <= j < i ==> RoleName(a.readOnlyRoles[j]) && a.readOnlyRoles[j] !in Taken(a)
      invariant forall j, k :: 0 <= j < k < i ==> a.readOnlyRoles[j] != a.readOnlyRoles[k]
    {
      var role := a.readOnlyRoles[i];
      if !RoleName(role) || role in seen {
        return false;
      }
      seen := seen + {role};
    }
    var named := AllNonBlank(a.schemas);
    if !named {
      return false;
    }
    match a.mode {
      case Password =>
        ok := a.readOnlyPrincipals == [] && a.readWritePrincipals == [];
      case ExternalIdentity =>
        ok := AllNonBlank(a.readOnlyPrincipals);
        if ok {
          ok := AllNonBlank(a.readWritePrincipals);
        }
      case Unsupported(_) =>
        ok := false;
    }
  }

  // ---------- what reconciliation is to achieve ----------

  const DML := {Select, Insert, Update, Delete}
  const COUNTING := {Usage, Select, Update}

  /** A grant one listed schema decides. */
  predicate DecidedBySchema(a: Access, objects: set<Object>, schema: string, g: Grant) {
    || g == Grant(Schema(schema), Public, Create)
    || ((g.grantee == Role(a.reader) || g.grantee == Role(a.writer))
        && (g.target == Schema(schema)
            || (g.target in objects && (g.target.Table? || g.target.Sequence?) && g.target.schema == schema)
            || g.target == DefaultTables(a.owner, schema)
            || g.target == DefaultSequences(a.owner, schema)))
  }

  predicate DecidedByDatabase(a: Access, g: Grant) {
    (g.grantee == Role(a.reader) || g.grantee == Role(a.writer)) && g.target == Database(a.database)
  }

  /** The privileges the reader and the writer are to have, and nobody else is. */
  predicate Due(a: Access, g: Grant) {
    match g.target
    case Database(_) => g.grantee != Public && g.privilege == Connect
    case Schema(_) => g.grantee != Public && g.privilege == Usage
    case Table(_, _) => TableDue(a, g)
    case DefaultTables(_, _) => TableDue(a, g)
    case Sequence(_, _) => SequenceDue(a, g)
    case DefaultSequences(_, _) => SequenceDue(a, g)
  }

  predicate TableDue(a: Access, g: Grant) {
    || (g.grantee == Role(a.reader) && !a.reconcileReadOnly && g.privilege == Select)
    || (g.grantee == Role(a.writer) && a.readWriteRoles == [] && g.privilege in DML)
  }

  predicate SequenceDue(a: Access, g: Grant) {
    g.grantee == Role(a.writer) && a.readWriteRoles == [] && g.privilege in COUNTING
  }

  ghost predicate Decided(a: Access, objects: set<Object>, n: nat, g: Grant)
    requires n <= |a.schemas|
  {
    DecidedByDatabase(a, g) || exists i :: 0 <= i < n && DecidedBySchema(a, objects, a.schemas[i], g)
  }

  /** The privileges once the database and the first n schemas are done. */
  ghost predicate AclDone(a: Access, objects: set<Object>, n: nat, before: set<Grant>, after: set<Grant>)
    requires n <= |a.schemas|
  {
    forall g :: g in after <==> if Decided(a, objects, n, g) then Due(a, g) else g in before
  }

  /** The edges of one member, replaced by grants of exactly these roles. */
  ghost function MemberOf(edges: set<Edge>, member: string, roles: seq<string>): set<Edge> {
    (set e | e in edges && e.member != member) + set r | r in roles :: Edge(r, member)
  }

  /** The edges of one role, replaced by grants to exactly these members. */
  ghost function MembersAre(edges: set<Edge>, role: string, members: seq<string>): set<Edge> {
    (set e | e in edges && e.role != role) + set m | m in members :: Edge(role, m)
  }

  /** The edges after the passes that delegate roles to the reader and the writer. */
  ghost function Delegated(a: Access, edges: set<Edge>): set<Edge> {
    var one := if a.reconcileReadOnly then MemberOf(edges, a.reader, a.readOnlyRoles) else edges;
    if a.reconcileReadWrite then MemberOf(one, a.writer, a.readWriteRoles) else one
  }

  /** The four passes over the one edge relation, in their order. */
  ghost function EdgesDone(a: Access, edges: set<Edge>): set<Edge> {
    if a.mode == ExternalIdentity then
      MembersAre(MembersAre(Delegated(a, edges), a.reader, a.readOnlyPrincipals), a.writer, a.readWritePrincipals)
    else Delegated(a, edges)
  }

  const GROUP := Attributes(false, false, false, false, false, false, false)

  ghost function RolesDone(a: Access, roles: map<string, Attributes>): map<string, Attributes> {
    if a.mode == ExternalIdentity then roles[a.reader := GROUP][a.writer := GROUP] else roles
  }

  ghost predicate Reconciled(a: Access, before: Db, after: Db) {
    && AclDone(a, before.objects, |a.schemas|, before.acl, after.acl)
    && after == before.(acl := after.acl, edges := EdgesDone(a, before.edges), roles := RolesDone(a, before.roles))
    && (a.reconcileReadWrite ==> Delegable(after.roles, a.readWriteRoles))
    && (a.reconcileReadOnly ==> Delegable(after.roles, a.readOnlyRoles))
  }

  /** Every delegated role exists, without login and without authority of its own. */
  ghost predicate Delegable(roles: map<string, Attributes>, names: seq<string>) {
    forall r :: r in names ==> r in roles && Harmless(roles[r])
  }

  predicate Harmless(x: Attributes) {
    !x.login && !x.superuser && !x.createDb && !x.createRole
  }

  /** What delegation never hands out: a role that may log in, or holds authority of its own. */
  ghost predicate NoneElevated(roles: map<string, Attributes>, names: seq<string>) {
    forall r :: r in names ==>
      r in roles && roles[r].login == false && roles[r].superuser == false && roles[r].createDb == false && roles[r].createRole == false
  }

  // ---------- the statements ----------

  function DatabaseStatements(a: Access): seq<Statement> {
    [ RevokeAll(OnDatabase(a.database), a.reader),
      RevokeAll(OnDatabase(a.database), a.writer),
      GrantTo(OnDatabase(a.database), {Connect}, a.reader),
      GrantTo(OnDatabase(a.database), {Connect}, a.writer) ]
  }

  function SchemaStatements(a: Access, s: string): seq<Statement> {
    [ RevokeCreateFromPublic(s),
      RevokeAll(OnSchema(s), a.reader),
      RevokeAll(OnSchema(s), a.writer),
      GrantTo(OnSchema(s), {Usage}, a.reader),
      GrantTo(OnSchema(s), {Usage}, a.writer) ]
  }

  function ObjectStatements(a: Access, s: string): seq<Statement> {
    [ RevokeAll(OnAllTables(s), a.reader),
      RevokeAll(OnAllTables(s), a.writer),
      RevokeAll(OnAllSequences(s), a.reader),
      RevokeAll(OnAllSequences(s), a.writer) ]
  }

  function DefaultStatements(a: Access, s: string): seq<Statement> {
    [ RevokeAll(OnDefaultTables(a.owner, s), a.reader),
      RevokeAll(OnDefaultTables(a.owner, s), a.writer),
      RevokeAll(OnDefaultSequences(a.owner, s), a.reader),
      RevokeAll(OnDefaultSequences(a.owner, s), a.writer) ]
  }

  function ReaderStatements(a: Access, s: string): seq<Statement> {
    [ GrantTo(OnAllTables(s), {Select}, a.reader),
      GrantTo(OnDefaultTables(a.owner, s), {Select}, a.reader) ]
  }

  function WriterStatements(a: Access, s: string): seq<Statement> {
    [ GrantTo(OnAllTables(s), DML, a.writer),
      GrantTo(OnAllSequences(s), COUNTING, a.writer),
      GrantTo(OnDefaultTables(a.owner, s), DML, a.writer),
      GrantTo(OnDefaultSequences(a.owner, s), COUNTING, a.writer) ]
  }

  /** Whether a grant is held after the first n statements. */
  ghost predicate Net(objects: set<Object>, sts: seq<Statement>, n: nat, g: Grant, held: bool)
    requires n <= |sts|
    decreases n
  {
    if n == 0 then held else After(objects, sts[n - 1], g, Net(objects, sts, n - 1, g, held))
  }

  ghost predicate AllRun(objects: set<Object>, sts: seq<Statement>, n: nat, before: set<Grant>, after: set<Grant>)
    requires n <= |sts|
  {
    forall g :: g in after <==> Net(objects, sts, n, g, g in before)
  }

  /** Every role the statements name exists. */
  ghost predicate RolesExist(sts: seq<Statement>, roles: map<string, Attributes>) {
    forall st :: st in sts ==> st.RevokeCreateFromPublic? || st.role in roles
  }

  method Run(tx: Transaction, sts: seq<Statement>) returns (ok: bool)
    modifies tx
    ensures ok ==> tx.db == old(tx.db).(acl := tx.db.acl)
    ensures ok ==> AllRun(tx.db.objects, sts, |sts|, old(tx.db.acl), tx.db.acl)
    ensures tx.denied == old(tx.denied) && (old(tx.fault) ==> tx.fault)
    ensures ok ==> tx.fault == old(tx.fault) && RolesExist(sts, old(tx.db.roles))
    ensures !ok ==> tx.fault || !RolesExist(sts, old(tx.db.roles))
  {
    ghost var before := tx.db.acl;
    var i := 0;
    while i < |sts|
      invariant 0 <= i <= |sts|
      invariant tx.db == old(tx.db).(acl := tx.db.acl)
      invariant AllRun(tx.db.objects, sts, i, before, tx.db.acl)
      invariant tx.denied == old(tx.denied) && tx.fault == old(tx.fault) && RolesExist(sts[..i], tx.db.roles)
    {
      ghost var was := tx.db.acl;
      ok := tx.Execute(sts[i]);
      if !ok {
        return;
      }
      forall g ensures g in tx.db.acl <==> Net(tx.db.objects, sts, i + 1, g, g in before) {
        assert g in was <==> Net(tx.db.objects, sts, i, g, g in before);
      }
      assert sts[..i + 1] == sts[..i] + [sts[i]];
      i := i + 1;
    }
    assert sts[..i] == sts;
    ok := true;
  }

  lemma DatabaseNet(a: Access, objects: set<Object>, g: Grant, held: bool)
    ensures Net(objects, DatabaseStatements(a), 4, g, held)
            <==> if DecidedByDatabase(a, g) then Due(a, g) else held
  {
  }

  lemma SchemaNet(a: Access, objects: set<Object>, s: string, g: Grant, held: bool)
    ensures Net(objects, SchemaStatements(a, s), 5, g, held)
            <==> if DecidedBySchema(a, objects, s, g) && g.target == Schema(s) then Due(a, g) else held
  {
  }

  lemma ObjectNet(a: Access, objects: set<Object>, s: string, g: Grant, held: bool)
    ensures Net(objects, ObjectStatements(a, s), 4, g, held)
            <==> held && !(DecidedBySchema(a, objects, s, g) && (g.target.Table? || g.target.Sequence?))
  {
  }

  lemma DefaultNet(a: Access, objects: set<Object>, s: string, g: Grant, held: bool)
    ensures Net(objects, DefaultStatements(a, s), 4, g, held)
            <==> held && !(DecidedBySchema(a, objects, s, g) && (g.target.DefaultTables? || g.target.DefaultSequences?))
  {
  }

  lemma ReaderNet(a: Access, objects: set<Object>, s: string, g: Grant, held: bool)
    ensures Net(objects, ReaderStatements(a, s), 2, g, held)
            <==> held || (DecidedBySchema(a, objects, s, g) && g.grantee == Role(a.reader) && g.privilege == Select
                          && (g.target.Table? || g.target.DefaultTables?))
  {
  }

  lemma WriterNet(a: Access, objects: set<Object>, s: string, g: Grant, held: bool)
    ensures Net(objects, WriterStatements(a, s), 4, g, held)
            <==> held || (DecidedBySchema(a, objects, s, g) && g.grantee == Role(a.writer)
                          && (((g.target.Table? || g.target.DefaultTables?) && g.privilege in DML)
                              || ((g.target.Sequence? || g.target.DefaultSequences?) && g.privilege in COUNTING)))
  {
  }

  /** The statements of one schema, as appended case by case. */
  function Statements(a: Access, s: string): seq<Statement> {
    SchemaStatements(a, s) + ObjectStatements(a, s) + DefaultStatements(a, s)
    + (if !a.reconcileReadOnly then ReaderStatements(a, s) else [])
    + (if a.readWriteRoles == [] then WriterStatements(a, s) else [])
  }

  lemma {:induction false} NetConcat(objects: set<Object>, x: seq<Statement>, y: seq<Statement>, n: nat, g: Grant, held: bool)
    requires n <= |y|
    ensures Net(objects, x + y, |x| + n, g, held) == Net(objects, y, n, g, Net(objects, x, |x|, g, held))
    decreases n
  {
    if n == 0 {
      NetPrefix(objects, x, y, |x|, g, held);
    } else {
      NetConcat(objects, x, y, n - 1, g, held);
      assert (x + y)[|x| + n - 1] == y[n - 1];
    }
  }

  lemma {:induction false} NetPrefix(objects: set<Object>, x: seq<Statement>, y: seq<Statement>, n: nat, g: Grant, held: bool)
    requires n <= |x|
    ensures Net(objects, x + y, n, g, held) == Net(objects, x, n, g, held)
    decreases n
  {
    if n > 0 {
      NetPrefix(objects, x, y, n - 1, g, held);
      assert (x + y)[n - 1] == x[n - 1];
    }
  }

  lemma ResetNet(a: Access, objects: set<Object>, s: string, g: Grant, held: bool)
    ensures Net(objects, SchemaStatements(a, s) + ObjectStatements(a, s) + DefaultStatements(a, s), 13, g, held)
            <==> if DecidedBySchema(a, objects, s, g) then g.target == Schema(s) && Due(a, g) else held
  {
    var one := SchemaStatements(a, s);
    var two := one + ObjectStatements(a, s);
    SchemaNet(a, objects, s, g, held);
    NetConcat(objects, one, ObjectStatements(a, s), 4, g, held);
    ObjectNet(a, objects, s, g, Net(objects, one, 5, g, held));
    NetConcat(objects, two, DefaultStatements(a, s), 4, g, held);
    DefaultNet(a, objects, s, g, Net(objects, two, 9, g, held));
  }

  /** The statements of a schema settle what it decides, and leave everything else. */
  lemma StatementsNet(a: Access, objects: set<Object>, s: string, g: Grant, held: bool)
    ensures Net(objects, Statements(a, s), |Statements(a, s)|, g, held)
            <==> if DecidedBySchema(a, objects, s, g) then Due(a, g) else held
  {
    var reset := SchemaStatements(a, s) + ObjectStatements(a, s) + DefaultStatements(a, s);
    var reader := if !a.reconcileReadOnly then ReaderStatements(a, s) else [];
    var writer := if a.readWriteRoles == [] then WriterStatements(a, s) else [];
    ResetNet(a, objects, s, g, held);
    var was := Net(objects, reset, 13, g, held);
    NetConcat(objects, reset, reader, |reader|, g, held);
    ReaderNet(a, objects, s, g, was);
    NetConcat(objects, reset + reader, writer, |writer|, g, held);
    WriterNet(a, objects, s, g, Net(objects, reset + reader, 13 + |reader|, g, held));
  }

  // ---------- privileges ----------

  lemma SchemaDone(a: Access, objects: set<Object>, i: nat, before: set<Grant>, was: set<Grant>, now: set<Grant>)
    requires i < |a.schemas| && AclDone(a, objects, i, before, was)
    requires AllRun(objects, Statements(a, a.schemas[i]), |Statements(a, a.schemas[i])|, was, now)
    ensures AclDone(a, objects, i + 1, before, now)
  {
    forall g ensures g in now <==> if Decided(a, objects, i + 1, g) then Due(a, g) else g in before {
      StatementsNet(a, objects, a.schemas[i], g, g in was);
      assert g in was <==> if Decided(a, objects, i, g) then Due(a, g) else g in before;
    }
  }

  lemma DatabaseDone(a: Access, objects: set<Object>, before: set<Grant>, now: set<Grant>)
    requires AllRun(objects, DatabaseStatements(a), 4, before, now)
    ensures AclDone(a, objects, 0, before, now)
  {
    forall g ensures g in now <==> if Decided(a, objects, 0, g) then Due(a, g) else g in before {
      DatabaseNet(a, objects, g, g in before);
    }
  }

  lemma StatementRoles(a: Access, s: string, roles: map<string, Attributes>)
    ensures a.reader in roles && a.writer in roles ==> RolesExist(Statements(a, s), roles)
  {
  }

  /** Succeeds unless the server fails or one of the two roles is missing. */
  method ReconcilePrivileges(tx: Transaction, a: Access) returns (ok: bool)
    modifies tx
    ensures tx.denied == old(tx.denied) && (old(tx.fault) ==> tx.fault)
    ensures ok ==> tx.fault == old(tx.fault) && a.reader in old(tx.db.roles) && a.writer in old(tx.db.roles)
    ensures !ok ==> tx.fault || a.reader !in old(tx.db.roles) || a.writer !in old(tx.db.roles)
    ensures ok ==> tx.db == old(tx.db).(acl := tx.db.acl)
    ensures ok ==> AclDone(a, old(tx.db.objects), |a.schemas|, old(tx.db.acl), tx.db.acl)
  {
    ok := Run(tx, DatabaseStatements(a));
    if !ok {
      return;
    }
    assert DatabaseStatements(a)[0].role == a.reader && DatabaseStatements(a)[1].role == a.writer;
    DatabaseDone(a, tx.db.objects, old(tx.db.acl), tx.db.acl);
    var i := 0;
    while i < |a.schemas|
      invariant 0 <= i <= |a.schemas|
      invariant tx.db == old(tx.db).(acl := tx.db.acl)
      invariant AclDone(a, tx.db.objects, i, old(tx.db.acl), tx.db.acl)
      invariant tx.denied == old(tx.denied) && tx.fault == old(tx.fault)
    {
      ghost var was := tx.db.acl;
      StatementRoles(a, a.schemas[i], tx.db.roles);
      ok := Run(tx, Statements(a, a.schemas[i]));
      if !ok {
        return;
      }
      SchemaDone(a, tx.db.objects, i, old(tx.db.acl), was, tx.db.acl);
      i := i + 1;
    }
    ok := true;
  }

  // ---------- roles ----------

  /** The role holds an attribute that only a superuser may change. */
  predicate Protected(roles: map<string, Attributes>, role: string) {
    role in roles && (roles[role].superuser || roles[role].replication || roles[role].bypassRls)
  }

  /**
   * Create the group when it is missing; then clear the attributes it has. A session that is
   * no superuser is refused exactly when the group holds a protected one.
   */
  method EnsureGroupRole(tx: Transaction, role: string) returns (ok: bool)
    modifies tx
    ensures ok ==> tx.db == old(tx.db).(roles := old(tx.db.roles)[role := GROUP])
    ensures tx.denied && !old(tx.denied) ==> !tx.superuser && Protected(old(tx.db.roles), role)
    ensures old(tx.fault) ==> tx.fault
    ensures ok ==> tx.fault == old(tx.fault) && (tx.superuser || !Protected(old(tx.db.roles), role))
    ensures !ok ==> tx.fault || (!tx.superuser && Protected(old(tx.db.roles), role))
  {
    ok := true;
    if role !in tx.db.roles {
      ok := tx.CreateRole(role);
      if !ok {
        return;
      }
    }
    var x := tx.db.roles[role];
    var changes := Held(x);
    if changes == {} {
      assert tx.db.roles == tx.db.roles[role := GROUP];
      return;
    }
    ok := tx.AlterRole(role, changes);
  }

  // ---------- memberships ----------

  method ReconcileRoleMemberships(tx: Transaction, member: string, configured: seq<string>) returns (ok: bool)
    modifies tx
    ensures ok ==> tx.db == old(tx.db).(edges := MemberOf(old(tx.db.edges), member, configured))
    ensures ok ==> Delegable(tx.db.roles, configured) && NoneElevated(tx.db.roles, configured)
    ensures tx.denied == old(tx.denied) && (old(tx.fault) ==> tx.fault)
    ensures ok ==> tx.fault == old(tx.fault)
    ensures !ok ==> tx.fault || member !in old(tx.db.roles) || !NoneElevated(old(tx.db.roles), configured)
  {
    ghost var before := tx.db.edges;
    var current: seq<string>;
    ok, current := tx.RolesOf(member);
    if !ok {
      return;
    }
    var i := 0;
    while i < |current|
      invariant 0 <= i <= |current|
      invariant tx.db == old(tx.db).(edges := tx.db.edges) && tx.denied == old(tx.denied) && tx.fault == old(tx.fault)
      invariant forall e :: e in tx.db.edges <==> e in before && !(e.member == member && e.role in current[..i])
    {
      ok := tx.RevokeRole(current[i], member);
      if !ok {
        return;
      }
      assert current[..i + 1] == current[..i] + [current[i]];
      i := i + 1;
    }
    assert current[..i] == current;
    assert MemberOf(before, member, configured[..0]) == tx.db.edges;
    i := 0;
    while i < |configured|
      invariant 0 <= i <= |configured|
      invariant tx.db == old(tx.db).(edges := MemberOf(before, member, configured[..i]))
      invariant tx.denied == old(tx.denied) && tx.fault == old(tx.fault)
      invariant Delegable(tx.db.roles, configured[..i])
    {
      var role := configured[i];
      if role !in tx.db.roles {
        return false;
      }
      var x := tx.db.roles[role];
      if x.login || x.superuser || x.createDb || x.createRole {
        return false;
      }
      ok := tx.GrantRole(role, member);
      if !ok {
        return;
      }
      assert configured[..i + 1] == configured[..i] + [role];
      i := i + 1;
    }
    assert configured[..i] == configured;
    ok := true;
  }

  /** The revoking half: members of the group that are not wanted lose it. */
  method RevokeStale(tx: Transaction, group: string, desired: set<string>) returns (ok: bool, current: set<string>)
    modifies tx
    ensures ok ==> tx.db == old(tx.db).(edges := tx.db.edges)
    ensures ok ==> forall m :: m in current <==> Edge(group, m) in old(tx.db.edges)
    ensures ok ==> forall e :: e in tx.db.edges <==> e in old(tx.db.edges) && (e.role == group ==> e.member in desired)
    ensures tx.denied == old(tx.denied) && (old(tx.fault) ==> tx.fault) && (ok ==> tx.fault == old(tx.fault)) && (!ok ==> tx.fault)
  {
    ok, current := tx.MembersOf(group);
    if !ok {
      return;
    }
    var left := current;
    while left != {}
      invariant left <= current
      invariant tx.db == old(tx.db).(edges := tx.db.edges) && tx.denied == old(tx.denied) && tx.fault == old(tx.fault)
      invariant forall e :: e in tx.db.edges <==>
                            e in old(tx.db.edges) && (e.role == group ==> e.member in left || e.member in desired)
      decreases |left|
    {
      var member :| member in left;
      left := left - {member};
      if member in desired {
        continue;
      }
      ok := tx.RevokeRole(group, member);
      if !ok {
        return;
      }
    }
  }

  /** A principal neither exists nor is a member already. */
  ghost predicate Missing(roles: map<string, Attributes>, edges: set<Edge>, group: string, principals: seq<string>) {
    exists p :: p in principals && p !in roles && Edge(group, p) !in edges
  }

  method ReconcileExternalPrincipals(tx: Transaction, group: string, principals: seq<string>) returns (ok: bool)
    modifies tx
    ensures ok ==> tx.db == old(tx.db).(edges := MembersAre(old(tx.db.edges), group, principals))
    ensures tx.denied == old(tx.denied) && (old(tx.fault) ==> tx.fault)
    ensures ok ==> tx.fault == old(tx.fault) && !Missing(old(tx.db.roles), old(tx.db.edges), group, principals)
    ensures !ok ==> tx.fault || group !in old(tx.db.roles) || Missing(old(tx.db.roles), old(tx.db.edges), group, principals)
  {
    ghost var before := tx.db.edges;
    var desired := Mark(principals, {});
    var current: set<string>;
    ok, current := RevokeStale(tx, group, desired);
    if !ok {
      return;
    }
    ghost var found := current;
    var i := 0;
    while i < |principals|
      invariant 0 <= i <= |principals|
      invariant current == found + set p | p in principals[..i]
      invariant tx.db == old(tx.db).(edges := tx.db.edges) && tx.denied == old(tx.denied) && tx.fault == old(tx.fault)
      invariant forall e :: e in tx.db.edges <==>
                            if e.role == group then e.member in desired && e.member in current else e in before
      invariant forall p :: p in principals[..i] && p !in found ==> p in tx.db.roles
    {
      var principal := principals[i];
      assert principals[..i + 1] == principals[..i] + [principal];
      if principal !in current {
        if principal !in tx.db.roles {
          return false;
        }
        ok := tx.GrantRole(group, principal);
        if !ok {
          return;
        }
        current := current + {principal};
      }
      i := i + 1;
    }
    assert principals[..i] == principals;
    assert tx.db.edges == MembersAre(before, group, principals);
    ok := true;
  }

  // ---------- the whole reconciliation ----------

  /** What the catalog queries on reader roles answer; their text is not part of this model. */
  type ReaderCheck = (Access, Db) -> bool

  /** What stops the passes over the edges, once privileges are done. */
  ghost predicate EdgeObstacle(a: Access, check: ReaderCheck, db: Db) {
    || (a.reconcileReadOnly && (!check(a, db) || !Delegable(db.roles, a.readOnlyRoles)))
    || (a.reconcileReadWrite && !Delegable(db.roles, a.readWriteRoles))
    || (a.mode == ExternalIdentity
        && (Missing(db.roles, Delegated(a, db.edges), a.reader, a.readOnlyPrincipals)
            || Missing(db.roles, MembersAre(Delegated(a, db.edges), a.reader, a.readOnlyPrincipals), a.writer, a.readWritePrincipals)))
  }

  /** The catalog once groups and privileges are done. */
  ghost predicate Privileged(a: Access, before: Db, now: Db) {
    && now == before.(acl := now.acl, roles := RolesDone(a, before.roles))
    && AclDone(a, before.objects, |a.schemas|, before.acl, now.acl)
  }

  /**
   * All that can stop a reconciliation besides the server itself: a group with a protected
   * attribute, a role or a principal that is missing, a role that may not be delegated, a reader
   * role the check refuses.
   */
  ghost predicate Obstacle(a: Access, superuser: bool, check: ReaderCheck, before: Db) {
    || (a.mode == ExternalIdentity && !superuser && (Protected(before.roles, a.reader) || Protected(before.roles, a.writer)))
    || (a.mode != ExternalIdentity && (a.reader !in before.roles || a.writer !in before.roles))
    || exists now :: Privileged(a, before, now) && EdgeObstacle(a, check, now)
  }

  lemma PrivilegedIsOne(a: Access, before: Db, x: Db, y: Db)
    requires Privileged(a, before, x) && Privileged(a, before, y)
    ensures x == y
  {
    assert x.acl == y.acl;
  }

  /**
   * On success the catalog is exactly what the access record asks for; and a valid record succeeds
   * exactly when the server does not fail and nothing stands in the way.
   */
  method ReconcileRuntimeAccess(tx: Transaction, a: Access, check: ReaderCheck) returns (ok: bool)
    modifies tx
    ensures ok ==> ValidAccess(a) && Reconciled(a, old(tx.db), tx.db)
    ensures ok ==> (a.reconcileReadWrite ==> NoneElevated(tx.db.roles, a.readWriteRoles))
    ensures ok ==> (a.reconcileReadOnly ==> NoneElevated(tx.db.roles, a.readOnlyRoles))
    ensures !ValidAccess(a) ==> !ok && tx.db == old(tx.db) && tx.fault == old(tx.fault)
    ensures old(tx.fault) ==> tx.fault
    ensures ValidAccess(a) && !old(tx.fault) ==> (ok <==> !tx.fault && !Obstacle(a, tx.superuser, check, old(tx.db)))
  {
    ok := ValidateRuntimeAccess(a);
    if !ok {
      return;
    }
    ghost var before := tx.db;
    ok := EnsureGroups(tx, a);
    if !ok {
      return;
    }
    ok := ReconcilePrivileges(tx, a);
    if !ok {
      return;
    }
    ghost var now := tx.db;
    assert Privileged(a, before, now);
    ok := ReconcileEdges(tx, a, check);
    if !EdgeObstacle(a, check, now) {
      forall other | Privileged(a, before, other) ensures !EdgeObstacle(a, check, other) {
        PrivilegedIsOne(a, before, now, other);
      }
    }
  }

  /** Under external identity the two groups are made and stripped first. */
  method EnsureGroups(tx: Transaction, a: Access) returns (ok: bool)
    requires a.reader != a.writer
    modifies tx
    ensures ok ==> tx.db == old(tx.db).(roles := RolesDone(a, old(tx.db.roles)))
    ensures old(tx.fault) ==> tx.fault
    ensures ok ==> tx.fault == old(tx.fault)
    ensures ok && a.mode == ExternalIdentity && !tx.superuser ==>
              !Protected(old(tx.db.roles), a.reader) && !Protected(old(tx.db.roles), a.writer)
    ensures !ok ==> tx.fault || (a.mode == ExternalIdentity && !tx.superuser
                                 && (Protected(old(tx.db.roles), a.reader) || Protected(old(tx.db.roles), a.writer)))
  {
    ok := true;
    if a.mode == ExternalIdentity {
      ok := EnsureGroupRole(tx, a.reader);
      if !ok {
        return;
      }
      ok := EnsureGroupRole(tx, a.writer);
    }
  }

  method ReconcileEdges(tx: Transaction, a: Access, check: ReaderCheck) returns (ok: bool)
    requires a.reader in tx.db.roles && a.writer in tx.db.roles
    modifies tx
    ensures ok ==> tx.db == old(tx.db).(edges := EdgesDone(a, old(tx.db.edges)))
    ensures ok ==> a.reconcileReadWrite ==> Delegable(tx.db.roles, a.readWriteRoles)
    ensures ok ==> a.reconcileReadOnly ==> Delegable(tx.db.roles, a.readOnlyRoles)
    ensures tx.denied == old(tx.denied) && (old(tx.fault) ==> tx.fault)
    ensures ok ==> tx.fault == old(tx.fault) && !EdgeObstacle(a, check, old(tx.db))
    ensures !ok ==> tx.fault || EdgeObstacle(a, check, old(tx.db))
  {
    ok := true;
    if a.reconcileReadOnly {
      var fails := tx.Fails();
      if fails || !check(a, tx.db) {
        return false;
      }
      ok := ReconcileRoleMemberships(tx, a.reader, a.readOnlyRoles);
      if !ok {
        return;
      }
    }
    if a.reconcileReadWrite {
      ok := ReconcileRoleMemberships(tx, a.writer, a.readWriteRoles);
      if !ok {
        return;
      }
    }
    if a.mode == ExternalIdentity {
      ok := ReconcileExternalPrincipals(tx, a.reader, a.readOnlyPrincipals);
      if !ok {
        return;
      }
      ok := ReconcileExternalPrincipals(tx, a.writer, a.readWritePrincipals);
    }
  }

  // ---------- what it means ----------

  /** Reconciling a reconciled catalog changes nothing. */
  lemma SecondRunChangesNothing(a: Access, before: Db, once: Db, twice: Db)
    requires Reconciled(a, before, once) && Reconciled(a, once, twice)
    ensures twice == once
  {
    assert twice.acl == once.acl;
    assert twice.edges == once.edges by {
      EdgesSettled(a, before.edges);
    }
    assert RolesDone(a, once.roles) == once.roles;
  }

  lemma EdgesSettled(a: Access, edges: set<Edge>)
    ensures EdgesDone(a, EdgesDone(a, edges)) == EdgesDone(a, edges)
  {
    forall e ensures e in EdgesDone(a, EdgesDone(a, edges)) <==> e in EdgesDone(a, edges) {
    }
  }

  /** Exactly the specified privileges on everything listed, and nobody else's changed but PUBLIC's CREATE. */
  lemma ExactPrivileges(a: Access, objects: set<Object>, before: set<Grant>, after: set<Grant>,
                        role: string, o: Object, p: Privilege)
    requires AclDone(a, objects, |a.schemas|, before, after) && a.reader != a.writer
    ensures role != a.reader && role != a.writer ==> (Grant(o, Role(role), p) in after <==> Grant(o, Role(role), p) in before)
    ensures Grant(o, Public, p) in after <==>
            Grant(o, Public, p) in before && !(o.Schema? && o.schema in a.schemas && p == Create)
    ensures o == Database(a.database) && (role == a.reader || role == a.writer) ==>
              (Grant(o, Role(role), p) in after <==> p == Connect)
    ensures o.Schema? && o.schema in a.schemas && (role == a.reader || role == a.writer) ==>
              (Grant(o, Role(role), p) in after <==> p == Usage)
    ensures Listed(a, objects, o) && (o.Table? || o.DefaultTables?) ==>
              && (Grant(o, Role(a.reader), p) in after <==> !a.reconcileReadOnly && p == Select)
              && (Grant(o, Role(a.writer), p) in after <==> a.readWriteRoles == [] && p in {Select, Insert, Update, Delete})
    ensures Listed(a, objects, o) && (o.Sequence? || o.DefaultSequences?) ==>
              && Grant(o, Role(a.reader), p) !in after
              && (Grant(o, Role(a.writer), p) in after <==> a.readWriteRoles == [] && p in {Usage, Select, Update})
    ensures !Listed(a, objects, o) && !(o.Schema? && o.schema in a.schemas) && o != Database(a.database) ==>
              forall x, q :: Grant(o, x, q) in after <==> Grant(o, x, q) in before
  {
    if (o.Schema? && o.schema in a.schemas) || Listed(a, objects, o) {
      var i :| 0 <= i < |a.schemas| && a.schemas[i] == o.schema;
      assert forall g: Grant :: g.target == o && DecidedBySchema(a, objects, a.schemas[i], g) ==> Decided(a, objects, |a.schemas|, g);
    }
  }

  /**
   * A valid record under password authentication leaves nobody short: both groups may connect and use
   * some schema, and the writer either writes itself or belongs to every role it was given.
   */
  lemma NobodyLeftShort(a: Access, before: Db, after: Db)
    requires ValidAccess(a) && Reconciled(a, before, after) && a.mode == Password
    ensures Grant(Database(a.database), Role(a.reader), Connect) in after.acl && Grant(Database(a.database), Role(a.writer), Connect) in after.acl
    ensures exists s :: s in a.schemas && Grant(Schema(s), Role(a.reader), Usage) in after.acl && Grant(Schema(s), Role(a.writer), Usage) in after.acl
    ensures if a.readWriteRoles == []
            then forall s :: s in a.schemas ==> Grant(DefaultTables(a.owner, s), Role(a.writer), Insert) in after.acl
            else forall r :: r in a.readWriteRoles ==> Edge(r, a.writer) in after.edges
    ensures forall r :: r in a.readOnlyRoles ==> Edge(r, a.reader) in after.edges
  {
    ExactPrivileges(a, before.objects, before.acl, after.acl, a.reader, Database(a.database), Connect);
    ExactPrivileges(a, before.objects, before.acl, after.acl, a.writer, Database(a.database), Connect);
    var s := a.schemas[0];
    assert s in a.schemas;
    ExactPrivileges(a, before.objects, before.acl, after.acl, a.reader, Schema(s), Usage);
    ExactPrivileges(a, before.objects, before.acl, after.acl, a.writer, Schema(s), Usage);
    forall x | x in a.schemas && a.readWriteRoles == []
      ensures Grant(DefaultTables(a.owner, x), Role(a.writer), Insert) in after.acl
    {
      ExactPrivileges(a, before.objects, before.acl, after.acl, a.writer, DefaultTables(a.owner, x), Insert);
    }
  }

  /**
   * A valid record hands the reader no authority: what it becomes a member of is a reader role, which
   * is neither the owner, whose tables these are, nor a group, nor anything a writer or a principal
   * acts under; or a group that names the reader as its principal.
   */
  lemma ReaderGainsNothing(a: Access, before: Db, after: Db, r: string)
    requires ValidAccess(a) && Reconciled(a, before, after) && a.reconcileReadOnly && Edge(r, a.reader) in after.edges
    ensures r in a.readOnlyRoles
            || (r == a.reader && a.reader in a.readOnlyPrincipals) || (r == a.writer && a.reader in a.readWritePrincipals)
    ensures r in a.readOnlyRoles ==>
              && r != a.owner && r != a.writer && r != a.reader
              && r !in a.readWriteRoles && r !in a.readOnlyPrincipals && r !in a.readWritePrincipals
  {
    if r in a.readOnlyRoles { assert r !in Taken(a); }
  }

  /** Each reader role of a valid record is a name as it stands, listed once. */
  lemma ReaderRolesAreProper(a: Access)
    requires ValidAccess(a)
    ensures forall r :: r in a.readOnlyRoles ==> r != "" && !Space(r[0]) && !Space(r[|r| - 1]) && Bytes(r) <= 63 && '\0' !in r
    ensures forall i, j :: 0 <= i < j < |a.readOnlyRoles| ==> a.readOnlyRoles[i] != a.readOnlyRoles[j]
  {
  }

  /** A table or sequence that exists in a listed schema, or the owner's defaults there. */
  predicate Listed(a: Access, objects: set<Object>, o: Object) {
    match o
    case Table(s, _) => o in objects && s in a.schemas
    case Sequence(s, _) => o in objects && s in a.schemas
    case DefaultTables(owner, s) => owner == a.owner && s in a.schemas
    case DefaultSequences(owner, s) => owner == a.owner && s in a.schemas
    case _ => false
  }
}
