/** The deployment binding of a schema package (libs/go/bootstrap/package.go) and what its check buys. */
module ManagedBinding {
  import opened Names
  import opened Catalog
  import opened RuntimeAccess
  import opened Sorting

  datatype Binding = Binding(owner: string, readOnlyPrincipals: seq<string>, readWritePrincipals: seq<string>)

  datatype Bound = Bound(database: string, reader: string, writer: string, schemas: seq<string>,
                         readWriteRoles: seq<string>, readOnlyRoles: seq<string>)

  predicate Identifier(s: string) {
    !Blank(s) && Bytes(s) <= IDENTIFIER_BYTES && !HasNul(s)
  }

  lemma IdentifierMeans(s: string)
    ensures Identifier(s) <==>
            (exists i :: 0 <= i < |s| && !Space(s[i])) && Bytes(s) <= 63 && forall i :: 0 <= i < |s| ==> s[i] != '\0'
  {
  }

  /** Every role a plan and its binding name, in the order they are checked. */
  function Roles(p: Bound, b: Binding): seq<string> {
    [b.owner, p.reader, p.writer] + Delegated(p, b)
  }

  function Delegated(p: Bound, b: Binding): seq<string> {
    p.readOnlyRoles + p.readWriteRoles + b.readOnlyPrincipals + b.readWritePrincipals
  }

  ghost predicate AllIdentifiers(names: seq<string>) {
    forall i :: 0 <= i < |names| ==> Identifier(names[i])
  }

  ghost predicate Acceptable(p: Bound, b: Binding) {
    && Identifier(p.database)
    && AllIdentifiers(Roles(p, b)) && Distinct(Roles(p, b))
    && b.readOnlyPrincipals != [] && b.readWritePrincipals != []
    && p.schemas != [] && AllIdentifiers(p.schemas) && Distinct(p.schemas)
  }

  /** One list of roles, each valid and not seen before. */
  method CheckRoles(roles: seq<string>, ghost before: seq<string>, seen: set<string>) returns (ok: bool, seen': set<string>)
    requires Distinct(before) && AllIdentifiers(before) && forall x :: x in seen <==> x in before
    ensures ok <==> Distinct(before + roles) && AllIdentifiers(before + roles)
    ensures ok ==> forall x :: x in seen' <==> x in before + roles
  {
    seen' := seen;
    var i := 0;
    assert before + roles[..0] == before;
    while i < |roles|
      invariant 0 <= i <= |roles|
      invariant Distinct(before + roles[..i]) && AllIdentifiers(before + roles[..i])
      invariant forall x :: x in seen' <==> x in before + roles[..i]
    {
      var r := roles[i];
      assert (before + roles)[|before| + i] == r;
      if !Identifier(r) {
        return false, seen';
      }
      if r in seen' {
        ghost var k :| 0 <= k < |before + roles[..i]| && (before + roles[..i])[k] == r;
        assert (before + roles)[k] == r;
        return false, seen';
      }
      seen' := seen' + {r};
      assert before + roles[..i + 1] == before + roles[..i] + [r];
      i := i + 1;
    }
    assert roles[..i] == roles;
    ok := true;
  }

  method CheckSchemas(names: seq<string>) returns (ok: bool)
    ensures ok <==> AllIdentifiers(names) && Distinct(names)
  {
    var schemas := SortStrings(names);
    SortOrders(names);
    SortKeepsDistinct(names);
    NeighboursTell(schemas);
    var i := 0;
    while i < |schemas|
      invariant 0 <= i <= |schemas|
      invariant forall j :: 0 <= j < i ==> Identifier(schemas[j]) && (j > 0 ==> schemas[j - 1] != schemas[j])
    {
      if !Identifier(schemas[i]) || (i > 0 && schemas[i] == schemas[i - 1]) {
        assert schemas[i] in names;
        return false;
      }
      i := i + 1;
    }
    forall j | 0 <= j < |names| ensures Identifier(names[j]) {
      assert names[j] in schemas;
    }
    ok := true;
  }

  method ValidateBinding(p: Bound, b: Binding) returns (ok: bool)
    ensures ok <==> Acceptable(p, b)
  {
    var groups := [b.owner, p.reader, p.writer];
    assert Roles(p, b)[0] == b.owner && Roles(p, b)[1] == p.reader && Roles(p, b)[2] == p.writer;
    if !Identifier(p.database) || !Identifier(b.owner) || !Identifier(p.reader) || !Identifier(p.writer) || p.schemas == [] {
      return false;
    }
    if p.reader == b.owner || p.writer in {b.owner, p.reader} {
      return false;
    }
    ok := CheckDelegated(p, b, groups);
    if !ok || b.readOnlyPrincipals == [] || b.readWritePrincipals == [] {
      return false;
    }
    ok := CheckSchemas(p.schemas);
  }

  method CheckDelegated(p: Bound, b: Binding, groups: seq<string>) returns (ok: bool)
    requires groups == [b.owner, p.reader, p.writer] && Distinct(groups) && AllIdentifiers(groups)
    ensures ok <==> Distinct(Roles(p, b)) && AllIdentifiers(Roles(p, b))
  {
    var seen := {b.owner, p.reader, p.writer};
    var lists := [p.readOnlyRoles, p.readWriteRoles, b.readOnlyPrincipals, b.readWritePrincipals];
    ghost var all := [groups, groups + lists[0], groups + lists[0] + lists[1], groups + lists[0] + lists[1] + lists[2], Roles(p, b)];
    assert all[4] == all[3] + lists[3];
    var i := 0;
    while i < 4
      invariant 0 <= i <= 4
      invariant Distinct(all[i]) && AllIdentifiers(all[i])
      invariant forall x :: x in seen <==> x in all[i]
    {
      assert all[i + 1] == all[i] + lists[i];
      ok, seen := CheckRoles(lists[i], all[i], seen);
      if !ok {
        Fails(all[i + 1], Roles(p, b));
        return;
      }
      i := i + 1;
    }
    ok := true;
  }

  lemma Fails(part: seq<string>, whole: seq<string>)
    requires part <= whole
    ensures !Distinct(part) ==> !Distinct(whole)
    ensures !AllIdentifiers(part) ==> !AllIdentifiers(whole)
  {
  }

  // ---------- what distinctness buys ----------

  /** The access record the managed bootstrap reconciles; reader roles only under the second contract. */
  function ManagedAccess(p: Bound, b: Binding, secondContract: bool): Access {
    Access(p.database, b.owner, p.reader, p.writer, p.schemas, p.readWriteRoles, p.readOnlyRoles,
           secondContract, true, ExternalIdentity, b.readOnlyPrincipals, b.readWritePrincipals)
  }

  lemma Parts(x: seq<string>, y: seq<string>)
    requires Distinct(x + y) && AllIdentifiers(x + y)
    ensures Distinct(x) && Distinct(y) && AllIdentifiers(x) && AllIdentifiers(y)
    ensures forall r :: r in x ==> r !in y
  {
    assert forall i :: 0 <= i < |x| ==> (x + y)[i] == x[i];
    assert forall i :: 0 <= i < |y| ==> (x + y)[|x| + i] == y[i];
  }

  /** The lists of an accepted binding: reader roles apart from everything, nothing blank. */
  lemma ListsApart(p: Bound, b: Binding)
    requires Acceptable(p, b)
    ensures p.reader != p.writer && !Blank(b.owner) && !Blank(p.reader) && !Blank(p.writer)
    ensures Distinct(p.readOnlyRoles) && AllIdentifiers(p.readOnlyRoles)
    ensures forall r :: r in p.readOnlyRoles ==> r !in {b.owner, p.reader, p.writer}
    ensures forall r :: r in p.readOnlyRoles ==> r !in p.readWriteRoles && r !in b.readOnlyPrincipals && r !in b.readWritePrincipals
    ensures NoBlank(b.readOnlyPrincipals) && NoBlank(b.readWritePrincipals)
  {
    hide Identifier;
    var groups := [b.owner, p.reader, p.writer];
    Parts(groups, Delegated(p, b));
    var others := p.readWriteRoles + b.readOnlyPrincipals + b.readWritePrincipals;
    assert Delegated(p, b) == p.readOnlyRoles + others;
    Parts(p.readOnlyRoles, others);
    assert groups[0] == b.owner && groups[1] == p.reader && groups[2] == p.writer;
    forall r | r in p.readOnlyRoles ensures r !in {b.owner, p.reader, p.writer} {
      assert r in Delegated(p, b);
      assert r !in groups;
    }
    assert others == p.readWriteRoles + (b.readOnlyPrincipals + b.readWritePrincipals);
    Parts(p.readWriteRoles, b.readOnlyPrincipals + b.readWritePrincipals);
    Parts(b.readOnlyPrincipals, b.readWritePrincipals);
    NotBlank(groups);
    NotBlank(b.readOnlyPrincipals);
    NotBlank(b.readWritePrincipals);
  }

  lemma NotBlank(names: seq<string>)
    requires AllIdentifiers(names)
    ensures forall i :: 0 <= i < |names| ==> !Blank(names[i])
    ensures NoBlank(names)
  {
  }

  /**
   * An accepted binding makes an access record that the engine accepts too, exactly when no reader
   * role has space around it: the binding check does not ask for that, and the engine does. Reader
   * roles come with the second contract only.
   */
  lemma AcceptedRecordIsValidExactly(p: Bound, b: Binding, secondContract: bool)
    requires Acceptable(p, b) && (!secondContract ==> p.readOnlyRoles == [])
    ensures ValidAccess(ManagedAccess(p, b, secondContract)) <==> forall r :: r in p.readOnlyRoles ==> Trimmed(r)
  {
    hide Trimmed, Bytes, HasNul, Blank;
    ListsApart(p, b);
    NotBlank(p.schemas);
    NotBlank([p.database]);
    assert [p.database][0] == p.database;
    forall r | r in p.readOnlyRoles ensures RoleName(r) <==> Trimmed(r) {
      ProperName(r);
    }
  }

  lemma ProperName(r: string)
    requires Identifier(r)
    ensures RoleName(r) <==> Trimmed(r)
  {
  }

  /** A reader role with a space before it is bound, and refused once the migrations have run. */
  lemma PaddedReaderRole() returns (p: Bound, b: Binding)
    ensures Acceptable(p, b) && !ValidAccess(ManagedAccess(p, b, true))
  {
    hide ValidAccess, Identifier;
    p := Bound("d", "r", "w", ["s"], [], [" a"]);
    b := Binding("o", ["x"], ["y"]);
    assert Roles(p, b) == ["o", "r", "w", " a", "x", "y"];
    OneLetter('d');
    OneLetter('r');
    OneLetter('w');
    OneLetter('s');
    OneLetter('o');
    OneLetter('x');
    OneLetter('y');
    PaddedIsIdentifier();
    assert " a" in p.readOnlyRoles && !Trimmed(" a");
    AcceptedRecordIsValidExactly(p, b, true);
  }

  lemma OneLetter(c: char)
    requires 'a' <= c <= 'z'
    ensures Identifier([c])
  {
    assert [c][1..] == "" && !Space([c][0]);
  }

  lemma PaddedIsIdentifier()
    ensures Identifier(" a")
  {
    assert !Space(" a"[1]) && Bytes(" a") == 1 + Bytes("a") && " a"[1..] == "a";
  }

  /** The four memberships the passes are after. */
  ghost predicate MembersExact(edges: set<Edge>, role: string, members: seq<string>) {
    forall m :: Edge(role, m) in edges <==> m in members
  }

  ghost predicate MembershipsExact(edges: set<Edge>, member: string, roles: seq<string>) {
    forall r :: Edge(r, member) in edges <==> r in roles
  }

  /**
   * The passes over one edge relation meet exactly at four edges between the two groups. The
   * members of both groups always end exact; the memberships do if and only if those edges agree.
   */
  lemma PassesAgreeExactly(a: Access, edges: set<Edge>)
    requires a.mode == ExternalIdentity && a.reader != a.writer && a.reconcileReadWrite
    ensures MembersExact(EdgesDone(a, edges), a.reader, a.readOnlyPrincipals)
    ensures MembersExact(EdgesDone(a, edges), a.writer, a.readWritePrincipals)
    ensures MembershipsExact(EdgesDone(a, edges), a.writer, a.readWriteRoles) <==>
            && (a.reader in a.readWriteRoles <==> a.writer in a.readOnlyPrincipals)
            && (a.writer in a.readWriteRoles <==> a.writer in a.readWritePrincipals)
    ensures a.reconcileReadOnly ==>
              (MembershipsExact(EdgesDone(a, edges), a.reader, a.readOnlyRoles) <==>
               && (a.reader in a.readOnlyRoles <==> a.reader in a.readOnlyPrincipals)
               && (a.writer in a.readOnlyRoles <==> a.reader in a.readWritePrincipals))
    ensures !a.reconcileReadOnly ==>
              forall r :: r != a.reader && r != a.writer ==> (Edge(r, a.reader) in EdgesDone(a, edges) <==> Edge(r, a.reader) in edges)
  {
    var done := EdgesDone(a, edges);
    assert Edge(a.reader, a.writer) in done <==> a.writer in a.readOnlyPrincipals;
    assert Edge(a.writer, a.writer) in done <==> a.writer in a.readWritePrincipals;
    assert Edge(a.reader, a.reader) in done <==> a.reader in a.readOnlyPrincipals;
    assert Edge(a.writer, a.reader) in done <==> a.reader in a.readWritePrincipals;
    forall r | r != a.reader && r != a.writer
      ensures Edge(r, a.writer) in done <==> r in a.readWriteRoles
      ensures a.reconcileReadOnly ==> (Edge(r, a.reader) in done <==> r in a.readOnlyRoles)
    {
    }
  }

  /** An accepted binding reconciles to exactly its members and exactly its delegated roles. */
  lemma AcceptedBindingIsExact(p: Bound, b: Binding, secondContract: bool, before: Db, after: Db)
    requires Acceptable(p, b) && Reconciled(ManagedAccess(p, b, secondContract), before, after)
    ensures MembersExact(after.edges, p.reader, b.readOnlyPrincipals)
    ensures MembersExact(after.edges, p.writer, b.readWritePrincipals)
    ensures MembershipsExact(after.edges, p.writer, p.readWriteRoles)
    ensures secondContract ==> MembershipsExact(after.edges, p.reader, p.readOnlyRoles)
    ensures (exists m :: Edge(p.reader, m) in after.edges) && (exists m :: Edge(p.writer, m) in after.edges)
    ensures Edge(b.owner, p.writer) !in after.edges && (secondContract ==> Edge(b.owner, p.reader) !in after.edges)
    ensures Edge(p.reader, b.owner) !in after.edges && Edge(p.writer, b.owner) !in after.edges
  {
    GroupsApart(p, b);
    PassesAgreeExactly(ManagedAccess(p, b, secondContract), before.edges);
    assert b.readOnlyPrincipals[0] in b.readOnlyPrincipals && b.readWritePrincipals[0] in b.readWritePrincipals;
  }

  lemma GroupsApart(p: Bound, b: Binding)
    requires Distinct(Roles(p, b))
    ensures p.reader != p.writer
    ensures forall x :: x in Delegated(p, b) ==> x != p.reader && x != p.writer && x != b.owner
    ensures forall x :: x in p.readOnlyRoles || x in p.readWriteRoles || x in b.readOnlyPrincipals || x in b.readWritePrincipals
                        ==> x in Delegated(p, b)
  {
    var all := Roles(p, b);
    assert all[0] == b.owner && all[1] == p.reader && all[2] == p.writer;
    forall x | x in Delegated(p, b) ensures x != p.reader && x != p.writer && x != b.owner {
      var k :| 0 <= k < |Delegated(p, b)| && Delegated(p, b)[k] == x;
      assert all[k + 3] == x;
    }
  }

  /** With overlapping names the passes undo one another: the writer's delegated role is lost. */
  lemma OverlapLosesARole(a: Access, edges: set<Edge>)
    requires a.mode == ExternalIdentity && a.reader != a.writer && a.reconcileReadWrite
    requires a.reader in a.readWriteRoles && a.writer !in a.readOnlyPrincipals
    ensures Edge(a.reader, a.writer) !in EdgesDone(a, edges)
    ensures !MembershipsExact(EdgesDone(a, edges), a.writer, a.readWriteRoles)
  {
    PassesAgreeExactly(a, edges);
  }
}
