/**
 * The part of a PostgreSQL catalog that runtime access is made of: role attributes, role
 * memberships, privileges and default privileges, and the per-role session settings.
 */
module Catalog {
  import opened Options

  datatype Attributes = Attributes(login: bool, superuser: bool, createDb: bool, createRole: bool,
                                   inherit: bool, replication: bool, bypassRls: bool)

  datatype Flag = LoginFlag | SuperuserFlag | CreateDbFlag | CreateRoleFlag | InheritFlag | ReplicationFlag | BypassRlsFlag

  /** The attributes only a superuser may even restate. */
  const PROTECTED := {SuperuserFlag, ReplicationFlag, BypassRlsFlag}

  function Held(x: Attributes): set<Flag> {
    (if x.login then {LoginFlag} else {}) + (if x.superuser then {SuperuserFlag} else {})
    + (if x.createDb then {CreateDbFlag} else {}) + (if x.createRole then {CreateRoleFlag} else {})
    + (if x.inherit then {InheritFlag} else {}) + (if x.replication then {ReplicationFlag} else {})
    + (if x.bypassRls then {BypassRlsFlag} else {})
  }

  function Clear(x: Attributes, flags: set<Flag>): Attributes {
    Attributes(x.login && LoginFlag !in flags, x.superuser && SuperuserFlag !in flags,
               x.createDb && CreateDbFlag !in flags, x.createRole && CreateRoleFlag !in flags,
               x.inherit && InheritFlag !in flags, x.replication && ReplicationFlag !in flags,
               x.bypassRls && BypassRlsFlag !in flags)
  }

  /** What CREATE ROLE without options makes. */
  const CREATED := Attributes(false, false, false, false, true, false, false)

  datatype Privilege = Connect | Temporary | Create | Usage | Select | Insert | Update | Delete
                     | Truncate | References | Trigger | Maintain

  datatype Grantee = Public | Role(name: string)

  /** What can carry privileges; the last two are default privileges for objects yet to be made. */
  datatype Object = Database(database: string)
                  | Schema(schema: string)
                  | Table(schema: string, name: string)
                  | Sequence(schema: string, name: string)
                  | DefaultTables(owner: string, schema: string)
                  | DefaultSequences(owner: string, schema: string)

  datatype Grant = Grant(target: Object, grantee: Grantee, privilege: Privilege)

  /** A membership: role is granted to member. */
  datatype Edge = Edge(role: string, member: string)

  datatype Db = Db(
    roles: map<string, Attributes>,
    edges: set<Edge>,
    acl: set<Grant>,
    objects: set<Object>,                 // schemas, tables and sequences that exist
    passwords: map<string, string>,
    readOnlySession: set<string>,         // roles whose transactions default to read only
    defaultRole: map<string, string>)     // the role a login's session starts as

  datatype Scope = OnDatabase(database: string)
                 | OnSchema(schema: string)
                 | OnAllTables(schema: string)
                 | OnAllSequences(schema: string)
                 | OnDefaultTables(owner: string, schema: string)
                 | OnDefaultSequences(owner: string, schema: string)

  datatype Statement = RevokeAll(scope: Scope, role: string)
                     | RevokeCreateFromPublic(schema: string)
                     | GrantTo(scope: Scope, privileges: set<Privilege>, role: string)

  predicate Covers(objects: set<Object>, scope: Scope, target: Object) {
    match scope
    case OnDatabase(d) => target == Database(d)
    case OnSchema(s) => target == Schema(s)
    case OnAllTables(s) => target in objects && target.Table? && target.schema == s
    case OnAllSequences(s) => target in objects && target.Sequence? && target.schema == s
    case OnDefaultTables(o, s) => target == DefaultTables(o, s)
    case OnDefaultSequences(o, s) => target == DefaultSequences(o, s)
  }

  /** Whether a grant is held after a statement, given whether it was before. */
  predicate After(objects: set<Object>, st: Statement, g: Grant, held: bool) {
    match st
    case RevokeAll(scope, role) => held && !(g.grantee == Role(role) && Covers(objects, scope, g.target))
    case RevokeCreateFromPublic(s) => held && g != Grant(Schema(s), Public, Create)
    case GrantTo(scope, privileges, role) =>
      held || (g.grantee == Role(role) && g.privilege in privileges && Covers(objects, scope, g.target))
  }

  /** The objects a statement's scope names, of those that exist or need not. */
  function Named(objects: set<Object>, scope: Scope): set<Object> {
    match scope
    case OnDatabase(d) => {Database(d)}
    case OnSchema(s) => {Schema(s)}
    case OnAllTables(s) => set o | o in objects && o.Table? && o.schema == s
    case OnAllSequences(s) => set o | o in objects && o.Sequence? && o.schema == s
    case OnDefaultTables(o, s) => {DefaultTables(o, s)}
    case OnDefaultSequences(o, s) => {DefaultSequences(o, s)}
  }

  /**
   * An open transaction. Any statement may fail, for reasons the server keeps to itself, and
   * that is noted; one that names a missing role always does, and so does one that restates a protected attribute
   * for a session that is no superuser.
   */
  class Transaction {
    var db: Db
    const superuser: bool
    var denied: bool        // a statement was refused for want of superuser authority
    var fault: bool         // a statement failed for a reason of the server's own

    constructor (db: Db, superuser: bool)
      ensures this.db == db && this.superuser == superuser && !denied && !fault
    {
      this.db, this.superuser, this.denied, this.fault := db, superuser, false, false;
    }

    /** Whether the next statement fails on the server's account. */
    method Fails() returns (fails: bool)
      modifies this`fault
      ensures fault <==> old(fault) || fails
    {
      fails := *;
      fault := fault || fails;
    }

    method Execute(st: Statement) returns (ok: bool)
      modifies this
      ensures denied == old(denied) && (old(fault) ==> fault)
      ensures ok ==> fault == old(fault) && (st.RevokeCreateFromPublic? || st.role in db.roles)
      ensures !ok ==> fault || (!st.RevokeCreateFromPublic? && st.role !in db.roles)
      ensures ok ==> forall g :: g in db.acl <==> After(db.objects, st, g, g in old(db.acl))
      ensures db == old(db).(acl := db.acl)
    {
      var fails := Fails();
      if fails || (!st.RevokeCreateFromPublic? && st.role !in db.roles) {
        return false;
      }
      match st {
      case RevokeAll(scope, role) =>
        db := db.(acl := set g | g in db.acl && !(g.grantee == Role(role) && Covers(db.objects, scope, g.target)));
      case RevokeCreateFromPublic(s) =>
        db := db.(acl := db.acl - {Grant(Schema(s), Public, Create)});
      case GrantTo(scope, privileges, role) =>
        db := db.(acl := db.acl + set o, p | o in Named(db.objects, scope) && p in privileges :: Grant(o, Role(role), p));
      }
      ok := true;
    }

    method GrantRole(role: string, member: string) returns (ok: bool)
      modifies this
      ensures denied == old(denied) && (old(fault) ==> fault)
      ensures ok ==> db == old(db).(edges := old(db.edges) + {Edge(role, member)})
      ensures ok ==> role in db.roles && member in db.roles && fault == old(fault)
      ensures !ok ==> fault || role !in old(db.roles) || member !in old(db.roles)
    {
      var fails := Fails();
      if fails || role !in db.roles || member !in db.roles {
        return false;
      }
      db := db.(edges := db.edges + {Edge(role, member)});
      ok := true;
    }

    method RevokeRole(role: string, member: string) returns (ok: bool)
      modifies this
      ensures denied == old(denied) && (old(fault) ==> fault)
      ensures ok ==> db == old(db).(edges := old(db.edges) - {Edge(role, member)}) && fault == old(fault)
      ensures !ok ==> fault
    {
      var fails := Fails();
      if fails {
        return false;
      }
      db := db.(edges := db.edges - {Edge(role, member)});
      ok := true;
    }

    method CreateRole(role: string) returns (ok: bool)
      modifies this
      ensures denied == old(denied) && (old(fault) ==> fault)
      ensures ok ==> fault == old(fault)
      ensures !ok ==> fault || role in old(db.roles)
      ensures ok ==> role !in old(db.roles) && db == old(db).(roles := old(db.roles)[role := CREATED])
    {
      var fails := Fails();
      if fails || role in db.roles {
        return false;
      }
      db := db.(roles := db.roles[role := CREATED]);
      ok := true;
    }

    method AlterRole(role: string, clear: set<Flag>) returns (ok: bool)
      modifies this
      ensures ok ==> role in old(db.roles)
      ensures ok ==> db == old(db).(roles := old(db.roles)[role := Clear(old(db.roles)[role], clear)])
      ensures denied <==> old(denied) || (!superuser && clear * PROTECTED != {})
      ensures ok ==> (superuser || clear * PROTECTED == {}) && fault == old(fault)
      ensures !ok ==> fault || (!superuser && clear * PROTECTED != {}) || role !in old(db.roles)
      ensures old(fault) ==> fault
    {
      if !superuser && clear * PROTECTED != {} {
        denied := true;
        return false;
      }
      var fails := Fails();
      if fails || role !in db.roles {
        return false;
      }
      db := db.(roles := db.roles[role := Clear(db.roles[role], clear)]);
      ok := true;
    }

    /** ALTER ROLE … WITH LOGIN NOINHERIT …, clearing these flags, and the password. */
    method AlterLogin(role: string, clear: set<Flag>, password: string) returns (ok: bool)
      modifies this
      ensures ok ==> role in old(db.roles)
      ensures ok ==> db == old(db).(
        roles := old(db.roles)[role := Clear(old(db.roles)[role], clear).(login := true, inherit := false)],
        passwords := old(db.passwords)[role := password])
      ensures denied <==> old(denied) || (!superuser && clear * PROTECTED != {})
      ensures ok ==> (superuser || clear * PROTECTED == {}) && fault == old(fault)
      ensures !ok ==> fault || (!superuser && clear * PROTECTED != {}) || role !in old(db.roles)
      ensures old(fault) ==> fault
    {
      if !superuser && clear * PROTECTED != {} {
        denied := true;
        return false;
      }
      var fails := Fails();
      if fails || role !in db.roles {
        return false;
      }
      db := db.(roles := db.roles[role := Clear(db.roles[role], clear).(login := true, inherit := false)],
                passwords := db.passwords[role := password]);
      ok := true;
    }

    method SetReadOnly(role: string, on: bool) returns (ok: bool)
      modifies this
      ensures denied == old(denied) && (old(fault) ==> fault)
      ensures ok ==> fault == old(fault)
      ensures !ok ==> fault || role !in old(db.roles)
      ensures ok ==> db == old(db).(readOnlySession := old(db.readOnlySession) + (if on then {role} else {})
                                                                               - (if on then {} else {role}))
    {
      var fails := Fails();
      if fails || role !in db.roles {
        return false;
      }
      if on {
        db := db.(readOnlySession := db.readOnlySession + {role});
      } else {
        db := db.(readOnlySession := db.readOnlySession - {role});
      }
      ok := true;
    }

    method SetDefaultRole(role: string, value: Option<string>) returns (ok: bool)
      modifies this
      ensures denied == old(denied) && (old(fault) ==> fault)
      ensures ok ==> fault == old(fault)
      ensures !ok ==> fault || role !in old(db.roles)
      ensures ok ==> db == old(db).(defaultRole := if value.Some? then old(db.defaultRole)[role := value.value]
                                                   else old(db.defaultRole) - {role})
    {
      var fails := Fails();
      if fails || role !in db.roles {
        return false;
      }
      db := db.(defaultRole := if value.Some? then db.defaultRole[role := value.value] else db.defaultRole - {role});
      ok := true;
    }

    /** The rows of a membership query, in whatever order the server returns them. */
    method RolesOf(member: string) returns (ok: bool, roles: seq<string>)
      modifies this`fault
      ensures (old(fault) ==> fault) && (ok ==> fault == old(fault)) && (!ok ==> fault)
      ensures ok ==> forall r :: r in roles <==> Edge(r, member) in db.edges
    {
      var fails := Fails();
      ok, roles := !fails, [];
      var left := db.edges;
      while left != {}
        invariant left <= db.edges
        invariant forall r :: r in roles <==> Edge(r, member) in db.edges - left
        decreases |left|
      {
        var e :| e in left;
        left := left - {e};
        if e.member == member {
          roles := roles + [e.role];
        }
      }
    }

    method MembersOf(role: string) returns (ok: bool, members: set<string>)
      modifies this`fault
      ensures (old(fault) ==> fault) && (ok ==> fault == old(fault)) && (!ok ==> fault)
      ensures ok ==> forall m :: m in members <==> Edge(role, m) in db.edges
    {
      var fails := Fails();
      ok, members := !fails, {};
      var left := db.edges;
      while left != {}
        invariant left <= db.edges
        invariant forall m :: m in members <==> Edge(role, m) in db.edges - left
        decreases |left|
      {
        var e :| e in left;
        left := left - {e};
        if e.role == role {
          members := members + {e.member};
        }
      }
    }
  }
}
