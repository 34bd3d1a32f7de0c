/** Packaging migration sources (schemaplan.go, schema.go, builder.go) and when the verifier accepts the result. */
module SchemaPackage {
  import opened Options
  import opened Names
  import opened Sorting
  import opened MigrationNames
  import opened SchemaDigest
  import opened SchemaSnapshot
  import RoleNames

  /** What a source directory holds. A link is followed only while its target stays inside. */
  datatype Kind = Plain(bytes: string) | Folder | LinkInside(target: Option<string>) | LinkAstray | Special

  datatype Entry = Entry(name: string, kind: Kind)

  /** A lineage to package; the service's own has no name. */
  datatype Source = Source(name: string, entries: seq<Entry>)

  // ---------- declared sources ----------

  const LEDGER := "schema_migrations"
  const LEDGER_PREFIX := "schema_migrations_"

  predicate SourceName(name: string) {
    && name != "" && (forall i :: 0 <= i < |name| ==> WordChar(name[i]))
    && |LEDGER_PREFIX| + |name| <= 63
  }

  /** A name of letters, digits and underscores whose ledger's name PostgreSQL does not cut off. */
  lemma SourceNameSpelled(name: string)
    ensures SourceName(name) <==>
            && 1 <= |name| <= 45
            && forall i :: 0 <= i < |name| ==>
                 var c := name[i]; 'a' <= c <= 'z' || 'A' <= c <= 'Z' || '0' <= c <= '9' || c == '_'
  {
    assert |LEDGER_PREFIX| == 18;
    forall i | 0 <= i < |name|
      ensures WordChar(name[i]) <==> var c := name[i]; 'a' <= c <= 'z' || 'A' <= c <= 'Z' || '0' <= c <= '9' || c == '_'
    {
    }
  }

  method DeclaredSources(declared: seq<string>) returns (names: Option<seq<string>>)
    ensures names.Some? <==>
            && (forall i :: 0 <= i < |declared| ==> SourceName(RoleNames.TrimSpace(declared[i])))
            && (forall i, j :: 0 <= i < j < |declared| ==> RoleNames.TrimSpace(declared[i]) != RoleNames.TrimSpace(declared[j]))
    ensures names.Some? ==> |names.value| == |declared|
    ensures names.Some? ==> forall i :: 0 <= i < |declared| ==> names.value[i] == RoleNames.TrimSpace(declared[i])
  {
    hide RoleNames.TrimSpace, SourceName;
    var declaring: map<string, string> := map[];
    var found: seq<string> := [];
    var i := 0;
    while i < |declared|
      invariant 0 <= i <= |declared| && |found| == i
      invariant forall j :: 0 <= j < i ==> found[j] == RoleNames.TrimSpace(declared[j]) && SourceName(found[j])
      invariant forall j, k :: 0 <= j < k < i ==> found[j] != found[k]
      invariant forall t :: t in declaring <==> exists j :: 0 <= j < i && LEDGER_PREFIX + found[j] == t
    {
      var name := RoleNames.TrimSpace(declared[i]);
      if !SourceName(name) {
        return None;
      }
      var table := LEDGER_PREFIX + name;
      if table in declaring {
        ghost var j :| 0 <= j < i && LEDGER_PREFIX + found[j] == table;
        Drop(LEDGER_PREFIX, found[j], name);
        return None;
      }
      declaring := declaring[table := name];
      found := found + [name];
      i := i + 1;
    }
    names := Some(found);
  }

  lemma Drop(before: string, a: string, b: string)
    requires before + a == before + b
    ensures a == b
  {
    assert a == (before + a)[|before|..] && b == (before + b)[|before|..];
  }

  // ---------- staging ----------

  predicate Stageable(e: Entry) {
    !e.kind.Folder? && Match(e.name).Some?
  }

  /** A staged file must be a regular one, or a link to one inside the source. */
  predicate Refuses(e: Entry) {
    Stageable(e) && (e.kind.LinkAstray? || e.kind.Special?)
  }

  predicate Staged(e: Entry) {
    Stageable(e) && (e.kind.Plain? || (e.kind.LinkInside? && e.kind.target.Some?))
  }

  function Content(e: Entry): string {
    match e.kind
    case Plain(b) => b
    case LinkInside(Some(b)) => b
    case _ => ""
  }

  function StagedNames(entries: seq<Entry>): seq<string> {
    if entries == [] then [] else
      var e := entries[|entries| - 1];
      StagedNames(entries[..|entries| - 1]) + (if Staged(e) then [e.name] else [])
  }

  ghost predicate NamesUnique(entries: seq<Entry>) {
    forall i, j :: 0 <= i < j < |entries| ==> entries[i].name != entries[j].name
  }

  method StagedFiles(entries: seq<Entry>) returns (names: Option<seq<string>>)
    ensures names.Some? <==> forall i :: 0 <= i < |entries| ==> !Refuses(entries[i])
    ensures names.None? <==>
            exists i :: 0 <= i < |entries| && Match(entries[i].name).Some? && (entries[i].kind.LinkAstray? || entries[i].kind.Special?)
    ensures names.Some? ==> names.value == SortStrings(StagedNames(entries))
  {
    hide Match, SortStrings;
    var files: seq<string> := [];
    var i := 0;
    while i < |entries|
      invariant 0 <= i <= |entries|
      invariant files == StagedNames(entries[..i])
      invariant forall j :: 0 <= j < i ==> !Refuses(entries[j])
    {
      var e := entries[i];
      assert entries[..i + 1][..i] == entries[..i];
      i := i + 1;
      if e.kind.Folder? || Match(e.name).None? {
        continue;
      }
      if e.kind.LinkAstray? {
        return None;
      }
      if e.kind.LinkInside? {
        if e.kind.target.None? {
          continue;
        }
      } else if !e.kind.Plain? {
        return None;
      }
      files := files + [e.name];
    }
    assert entries[..i] == entries;
    names := Some(SortStrings(files));
  }

  /** The staged names are distinct when the directory's are, and are exactly those of staged entries. */
  lemma {:induction false} StagedNamesAre(entries: seq<Entry>)
    requires NamesUnique(entries)
    ensures Distinct(StagedNames(entries))
    ensures forall n :: n in StagedNames(entries) <==> exists i :: 0 <= i < |entries| && Staged(entries[i]) && entries[i].name == n
    decreases |entries|
  {
    hide Staged;
    if entries != [] {
      var last := |entries| - 1;
      var front := entries[..last];
      StagedNamesAre(front);
      forall n | n in StagedNames(front) ensures n != entries[last].name {
        var i :| 0 <= i < |front| && Staged(front[i]) && front[i].name == n;
        assert front[i] == entries[i];
      }
      DistinctSnoc(StagedNames(front), entries[last].name);
      forall n ensures n in StagedNames(entries) <==> exists i :: 0 <= i < |entries| && Staged(entries[i]) && entries[i].name == n {
        if i :| 0 <= i < |entries| && Staged(entries[i]) && entries[i].name == n {
          assert i < last ==> front[i] == entries[i];
        }
        if n in StagedNames(front) {
          var i :| 0 <= i < |front| && Staged(front[i]) && front[i].name == n;
          assert entries[i] == front[i];
        }
      }
    }
  }

  // ---------- the artifact ----------

  function Title(s: Source): string { if s.name == "" then "store" else s.name }
  function Ledger(s: Source): string { if s.name == "" then LEDGER else LEDGER_PREFIX + s.name }
  function Stage(n: nat, s: Source): string { TwoDigits(n) + "-" + Title(s) }

  /** The directory the build stages: each staged name with its content. */
  function StageDir(entries: seq<Entry>): Dir {
    if entries == [] then map[] else
      var e, before := entries[|entries| - 1], StageDir(entries[..|entries| - 1]);
      if Staged(e) then before[e.name := Regular(Content(e))] else before
  }

  lemma {:induction false} StageDirHolds(entries: seq<Entry>)
    ensures StageDir(entries).Keys == set n | n in StagedNames(entries)
    ensures forall n :: n in StageDir(entries) ==> StageDir(entries)[n].Regular?
    ensures NamesUnique(entries) ==>
              forall i :: 0 <= i < |entries| && Staged(entries[i]) ==>
                entries[i].name in StageDir(entries) && StageDir(entries)[entries[i].name] == Regular(Content(entries[i]))
    decreases |entries|
  {
    hide Staged, Content;
    if entries != [] {
      var last := |entries| - 1;
      var front := entries[..last];
      StageDirHolds(front);
      if NamesUnique(entries) {
        forall i | 0 <= i < |entries| && Staged(entries[i])
          ensures entries[i].name in StageDir(entries) && StageDir(entries)[entries[i].name] == Regular(Content(entries[i]))
        {
          if i < last { assert front[i] == entries[i]; }
        }
      }
    }
  }

  /** The bytes an entry of a directory is staged with: its own, or those behind a link that stays inside. */
  function StagedBytes(e: Entry): Option<string> {
    if Match(e.name).None? then None
    else match e.kind
      case Plain(b) => Some(b)
      case LinkInside(target) => target
      case _ => None
  }

  /** What is staged from a directory is exactly its migrations, with these bytes. */
  lemma StagedExactly(entries: seq<Entry>)
    requires NamesUnique(entries)
    ensures forall n :: n in StagedNames(entries) <==> exists i :: 0 <= i < |entries| && entries[i].name == n && StagedBytes(entries[i]).Some?
    ensures forall i :: 0 <= i < |entries| && StagedBytes(entries[i]).Some? ==>
              entries[i].name in StageDir(entries) && StageDir(entries)[entries[i].name] == Regular(StagedBytes(entries[i]).value)
  {
    hide Match;
    forall e: Entry
      ensures Staged(e) <==> StagedBytes(e).Some?
      ensures Staged(e) ==> StagedBytes(e) == Some(Content(e))
    {
    }
    StagedNamesAre(entries);
    StageDirHolds(entries);
  }

  lemma DistinctSnoc(xs: seq<string>, x: string)
    requires Distinct(xs) && x !in xs
    ensures Distinct(xs + [x])
  {
  }

  function FileNames(s: Source): seq<string> {
    SortStrings(StagedNames(s.entries))
  }

  function FileWithDigest(sum: string -> string, name: string, dir: Dir): File
    requires name in dir && dir[name].Regular?
  {
    File(name, SchemaDigest.Named(sum, dir[name].bytes))
  }

  /** One lineage as planned, before any content is read. */
  function Planned(n: nat, s: Source): Lineage {
    Lineage(Title(s), Ledger(s), Stage(n, s), "", seq(|FileNames(s)|, i requires 0 <= i < |FileNames(s)| => File(FileNames(s)[i], "")))
  }

  /** A lineage goes by its source's name, its ledger by that and its stage by its place and that. */
  lemma PlannedSpelled(n: nat, s: Source)
    ensures var l := Planned(n, s);
            && l.title == (if s.name == "" then "store" else s.name)
            && l.ledger == (if s.name == "" then "schema_migrations" else "schema_migrations_" + s.name)
            && exists d :: |d| >= 2 && (forall i :: 0 <= i < |d| ==> Digit(d[i])) && Value(d) == n && l.stage == d + "-" + l.title
  {
    TwoDigitsValue(n);
    assert |TwoDigits(n)| >= 2 by { if n >= 10 { assert |Decimal(n / 10)| >= 1; } }
  }

  /** The lineage with the identity of every file, and its own. */
  ghost predicate IsAttested(sum: string -> string, l: Lineage, planned: Lineage, dir: Dir) {
    && l.title == planned.title && l.ledger == planned.ledger && l.stage == planned.stage
    && |l.files| == |planned.files|
    && (forall i :: 0 <= i < |l.files| ==>
          && planned.files[i].name in dir && dir[planned.files[i].name].Regular?
          && l.files[i] == FileWithDigest(sum, planned.files[i].name, dir))
    && l.digest == LineageDigest(sum, l)
  }

  /** The settings that decide a plan's access; prefix is the stem of the database's roles. */
  datatype AccessSettings = AccessSettings(prefix: string, schemas: seq<string>, readWriteRoles: seq<string>)

  datatype BuiltPlan = BuiltPlan(access: Access, lineages: seq<Lineage>)

  ghost predicate AccessResolves(x: AccessSettings) {
    && RoleNames.RolesAccepted(x.schemas, {})
    && RoleNames.RolesAccepted(x.readWriteRoles, {x.prefix + RoleNames.READER, x.prefix + RoleNames.WRITER})
  }

  /** The two group roles, and the schemas and delegated roles at their first mentions; no reader roles. */
  function ResolvedAccess(x: AccessSettings): Access {
    Access(x.prefix + RoleNames.READER, x.prefix + RoleNames.WRITER, RoleNames.RuntimeSchemas(x.schemas),
           RoleNames.FirstMentions(x.readWriteRoles), None)
  }

  method ResolveSchemaAccess(x: AccessSettings) returns (access: Option<Access>)
    ensures access.Some? <==> AccessResolves(x)
    ensures access.Some? ==> access.value == ResolvedAccess(x)
    ensures access.None? <==>
            || (exists i :: 0 <= i < |x.schemas| && RoleNames.Unfit(RoleNames.TrimSpace(x.schemas[i]), {}))
            || (exists i :: 0 <= i < |x.readWriteRoles|
                            && RoleNames.Unfit(RoleNames.TrimSpace(x.readWriteRoles[i]), {x.prefix + "_ro", x.prefix + "_rw"}))
    ensures access.Some? ==> access.value.reader == x.prefix + "_ro" && access.value.writer == x.prefix + "_rw"
    ensures access.Some? ==> access.value.readOnlyRoles == None && (x.schemas == [] ==> access.value.schemas == ["public"])
  {
    hide RoleNames.Unfit, RoleNames.TrimSpace;
    var reader, writer := x.prefix + RoleNames.READER, x.prefix + RoleNames.WRITER;
    var schemas := RoleNames.NormalizedReadWriteRoles(x.schemas, {});
    if schemas.None? {
      return None;
    }
    var roles := RoleNames.NormalizedReadWriteRoles(x.readWriteRoles, {reader, writer});
    if roles.None? {
      return None;
    }
    access := Some(Access(reader, writer, if x.schemas == [] then ["public"] else schemas.value, roles.value, None));
  }

  /** Access is resolved first, and refused whether or not there is anything to migrate. */
  method BuildSchemaPlan(settings: AccessSettings, sources: seq<Source>, noMigration: bool) returns (plan: Option<BuiltPlan>)
    ensures plan.Some? <==>
            && AccessResolves(settings)
            && (noMigration || forall i, j :: 0 <= i < |sources| && 0 <= j < |sources[i].entries| ==> !Refuses(sources[i].entries[j]))
    ensures plan.Some? ==> plan.value.access == ResolvedAccess(settings)
    ensures plan.Some? ==> |plan.value.lineages| == if noMigration then 0 else |sources|
    ensures plan.Some? && !noMigration ==> forall i :: 0 <= i < |sources| ==> plan.value.lineages[i] == Planned(i, sources[i])
  {
    hide Refuses, Planned, AccessResolves, ResolvedAccess;
    var access := ResolveSchemaAccess(settings);
    if access.None? {
      return None;
    }
    if noMigration {
      return Some(BuiltPlan(access.value, []));
    }
    var planned: seq<Lineage> := [];
    var i := 0;
    while i < |sources|
      invariant 0 <= i <= |sources| && |planned| == i
      invariant forall k, j :: 0 <= k < i && 0 <= j < |sources[k].entries| ==> !Refuses(sources[k].entries[j])
      invariant forall k :: 0 <= k < i ==> planned[k] == Planned(k, sources[k])
    {
      var names := StagedFiles(sources[i].entries);
      if names.None? {
        return None;
      }
      planned := planned + [PlannedAs(i, sources[i], names.value)];
      i := i + 1;
    }
    plan := Some(BuiltPlan(access.value, planned));
  }

  function PlannedAs(n: nat, s: Source, names: seq<string>): (l: Lineage)
    requires names == FileNames(s)
    ensures l == Planned(n, s)
  {
    Lineage(Title(s), Ledger(s), Stage(n, s), "", seq(|names|, i requires 0 <= i < |names| => File(names[i], "")))
  }

  /** Digests file by file, then the lineage's own. */
  method AttestLineage(sum: string -> string, planned: Lineage, dir: Dir) returns (l: Lineage)
    requires forall i :: 0 <= i < |planned.files| ==> planned.files[i].name in dir && dir[planned.files[i].name].Regular?
    ensures IsAttested(sum, l, planned, dir)
  {
    hide LineageDigest;
    l := planned;
    var j := 0;
    while j < |l.files|
      invariant 0 <= j <= |l.files| == |planned.files|
      invariant l == planned.(files := l.files)
      invariant forall i :: 0 <= i < j ==> l.files[i] == FileWithDigest(sum, planned.files[i].name, dir)
      invariant forall i :: j <= i < |l.files| ==> l.files[i] == planned.files[i]
    {
      l := l.(files := l.files[j := FileWithDigest(sum, l.files[j].name, dir)]);
      j := j + 1;
    }
    var identity := LineageContentDigest(sum, l);
    DigestIgnoresItself(sum, l, identity);
    l := l.(digest := identity);
  }

  lemma DigestIgnoresItself(sum: string -> string, l: Lineage, d: string)
    ensures LineageDigest(sum, l.(digest := d)) == LineageDigest(sum, l)
  {
  }

  // ---------- names that pass the verifier ----------

  ghost predicate Resolved(sources: seq<Source>) {
    && (forall i :: 0 <= i < |sources| ==> sources[i].name == "" || SourceName(sources[i].name))
    && (forall i, j :: 0 <= i < j < |sources| ==> sources[i].name != sources[j].name)
  }

  lemma LedgersPass(s: Source)
    requires s.name == "" || SourceName(s.name)
    ensures LedgerName(Ledger(s)) && Component(Title(s))
  {
    if s.name == "" {
      assert Title(s) == "store" && Ledger(s) == "schema_migrations";
    } else {
      assert WordChar(s.name[0]);
      assert forall i :: 0 <= i < |s.name| ==> WordChar(s.name[i]);
    }
  }

  lemma LedgersApart(s: Source, t: Source)
    requires s.name != t.name
    ensures Ledger(s) != Ledger(t)
  {
    assert s.name != "" ==> |Ledger(s)| > |LEDGER|;
    assert t.name != "" ==> |Ledger(t)| > |LEDGER|;
    if s.name != "" && t.name != "" && Ledger(s) == Ledger(t) {
      Drop(LEDGER_PREFIX, s.name, t.name);
    }
  }

  lemma StagePasses(n: nat, s: Source)
    requires Component(Title(s))
    ensures Component(Stage(n, s))
  {
    var d := TwoDigits(n);
    assert |d| >= 1 && Digit(Stage(n, s)[0]);
    assert forall i :: 0 <= i < |d| ==> Digit(d[i]);
    assert forall i :: |d| < i < |Stage(n, s)| ==> Stage(n, s)[i] == Title(s)[i - |d| - 1];
    forall c | c in Stage(n, s) ensures c in d || c == '-' || c in Title(s) {
    }
  }

  /** The ordinal keeps staged locations apart whatever follows it. */
  lemma StagesApart(m: nat, s: Source, n: nat, t: Source)
    requires m != n
    ensures Stage(m, s) != Stage(n, t)
  {
    TwoDigitsValue(m);
    TwoDigitsValue(n);
    var x, y := TwoDigits(m), TwoDigits(n);
    if Stage(m, s) == Stage(n, t) {
      FirstDash(x, Title(s), y, Title(t));
    }
  }

  lemma FirstDash(x: string, u: string, y: string, v: string)
    requires (forall i :: 0 <= i < |x| ==> Digit(x[i])) && (forall i :: 0 <= i < |y| ==> Digit(y[i]))
    requires x + "-" + u == y + "-" + v
    ensures x == y
  {
    var s := x + "-" + u;
    assert s[|x|] == '-' && s[|y|] == '-';
    assert forall i :: 0 <= i < |x| ==> s[i] == x[i] && Digit(s[i]);
    assert forall i :: 0 <= i < |y| ==> s[i] == y[i] && Digit(s[i]);
    assert |x| == |y|;
    assert x == s[..|x|] && y == s[..|y|];
  }

  // ---------- when the package is accepted ----------

  /**
   * What a source must meet for its lineage to be accepted: some staged file, names that are
   * plain path components, versions that fit 64 bits, and no version and direction twice.
   */
  ghost predicate Packageable(s: Source) {
    && (exists i :: 0 <= i < |s.entries| && Staged(s.entries[i]))
    && (forall i :: 0 <= i < |s.entries| && Staged(s.entries[i]) ==> Nameable(s.entries[i].name))
    && (forall i, j :: 0 <= i < |s.entries| && 0 <= j < |s.entries| && i != j && Staged(s.entries[i]) && Staged(s.entries[j])
          ==> Claim(s.entries[i].name) != Claim(s.entries[j].name))
  }

  predicate Nameable(name: string) {
    Component(name) && Version(name).Some?
  }

  lemma NamesSorted(s: Source)
    requires NamesUnique(s.entries)
    ensures forall i, j :: 0 <= i < j < |FileNames(s)| ==> Lt(FileNames(s)[i], FileNames(s)[j])
    ensures forall n :: n in FileNames(s) <==> exists i :: 0 <= i < |s.entries| && Staged(s.entries[i]) && s.entries[i].name == n
    ensures StageDir(s.entries).Keys == set n | n in FileNames(s)
    ensures forall n :: n in FileNames(s) ==> n in StageDir(s.entries) && StageDir(s.entries)[n].Regular?
  {
    hide Staged, Le;
    StagedNamesAre(s.entries);
    SortOrders(StagedNames(s.entries));
    SortKeepsDistinct(StagedNames(s.entries));
    StageDirHolds(s.entries);
  }

  /** The staged directory has as many files as the lineage lists. */
  lemma CountsMatch(sum: string -> string, n: nat, s: Source, l: Lineage)
    requires NamesUnique(s.entries) && IsAttested(sum, l, Planned(n, s), StageDir(s.entries))
    ensures |StageDir(s.entries)| == |l.files|
    ensures forall i :: 0 <= i < |l.files| ==> l.files[i].name == FileNames(s)[i]
  {
    hide Staged, Le, LineageDigest, SchemaDigest.Named;
    NamesSorted(s);
    var dir := StageDir(s.entries);
    assert |l.files| == |FileNames(s)|;
    forall i, j | 0 <= i < j < |l.files| ensures l.files[i].name != l.files[j].name {
      assert Lt(FileNames(s)[i], FileNames(s)[j]);
    }
    CountNames(l.files);
    assert dir.Keys == set f | f in l.files :: f.name by {
      forall n | n in dir.Keys ensures exists f :: f in l.files && f.name == n {
        var i :| 0 <= i < |FileNames(s)| && FileNames(s)[i] == n;
        assert l.files[i] in l.files;
      }
    }
    assert |dir| == |dir.Keys|;
  }

  /** The claims the verifier compares, seen on the source's entries. */
  lemma ClaimsMatch(s: Source)
    requires NamesUnique(s.entries)
    ensures (forall i, j :: 0 <= i < j < |FileNames(s)| ==> Claim(FileNames(s)[i]) != Claim(FileNames(s)[j]))
        <==> (forall i, j :: 0 <= i < |s.entries| && 0 <= j < |s.entries| && i != j && Staged(s.entries[i]) && Staged(s.entries[j])
                ==> Claim(s.entries[i].name) != Claim(s.entries[j].name))
  {
    hide Staged, Claim, Le;
    NamesSorted(s);
    var ns := FileNames(s);
    if i, j :| 0 <= i < j < |ns| && Claim(ns[i]) == Claim(ns[j]) {
      assert ns[i] in ns && ns[j] in ns && Lt(ns[i], ns[j]);
      var k :| 0 <= k < |s.entries| && Staged(s.entries[k]) && s.entries[k].name == ns[i];
      var m :| 0 <= m < |s.entries| && Staged(s.entries[m]) && s.entries[m].name == ns[j];
      assert k != m;
    }
    if k, m :| 0 <= k < |s.entries| && 0 <= m < |s.entries| && k != m && Staged(s.entries[k]) && Staged(s.entries[m])
               && Claim(s.entries[k].name) == Claim(s.entries[m].name) {
      assert s.entries[k].name in ns && s.entries[m].name in ns;
      var i :| 0 <= i < |ns| && ns[i] == s.entries[k].name;
      var j :| 0 <= j < |ns| && ns[j] == s.entries[m].name;
      assert i != j;
      assert i < j || j < i;
    }
  }

  lemma LineageAcceptedExactly(sum: string -> string, n: nat, s: Source, l: Lineage, root: map<string, Dir>)
    requires NamesUnique(s.entries) && (s.name == "" || SourceName(s.name))
    requires IsAttested(sum, l, Planned(n, s), StageDir(s.entries))
    requires l.stage in root && root[l.stage] == StageDir(s.entries)
    ensures LineageOk(sum, l, root) <==> Packageable(s)
  {
    hide Staged, Component, Version, Claim, Le, LineageDigest, LedgerName, SourceName, Title, Ledger, Stage;
    LedgersPass(s);
    StagePasses(n, s);
    NamesSorted(s);
    CountsMatch(sum, n, s, l);
    ClaimsMatch(s);
    FilesAgree(sum, n, s, l);
    assert l.files != [] <==> exists i :: 0 <= i < |s.entries| && Staged(s.entries[i]) by {
      if l.files != [] { assert FileNames(s)[0] in FileNames(s); }
      if i :| 0 <= i < |s.entries| && Staged(s.entries[i]) { assert s.entries[i].name in FileNames(s); }
    }
  }

  lemma NamesNameable(s: Source)
    requires NamesUnique(s.entries)
    ensures (forall i :: 0 <= i < |FileNames(s)| ==> Nameable(FileNames(s)[i]))
        <==> (forall i :: 0 <= i < |s.entries| && Staged(s.entries[i]) ==> Nameable(s.entries[i].name))
  {
    hide Staged, Nameable, Le;
    NamesSorted(s);
    if i :| 0 <= i < |FileNames(s)| && !Nameable(FileNames(s)[i]) {
      assert FileNames(s)[i] in FileNames(s);
    }
    if i :| 0 <= i < |s.entries| && Staged(s.entries[i]) && !Nameable(s.entries[i].name) {
      assert s.entries[i].name in FileNames(s);
      var k :| 0 <= k < |FileNames(s)| && FileNames(s)[k] == s.entries[i].name;
    }
  }

  lemma FilesAgree(sum: string -> string, n: nat, s: Source, l: Lineage)
    requires NamesUnique(s.entries) && IsAttested(sum, l, Planned(n, s), StageDir(s.entries))
    ensures FilesOk(sum, l.files, StageDir(s.entries)) <==>
            && (forall i :: 0 <= i < |s.entries| && Staged(s.entries[i]) ==> Nameable(s.entries[i].name))
            && (forall i, j :: 0 <= i < j < |FileNames(s)| ==> Claim(FileNames(s)[i]) != Claim(FileNames(s)[j]))
  {
    hide Staged, Component, Version, Claim, Le, LineageDigest, StageDir, FileNames;
    NamesSorted(s);
    CountsMatch(sum, n, s, l);
    NamesNameable(s);
    forall i | 0 <= i < |l.files| ensures FileOk(sum, l.files[i], StageDir(s.entries)) <==> Nameable(FileNames(s)[i]) {
      assert FileNames(s)[i] in FileNames(s);
    }
  }

  /**
   * The round trip: what the builder plans, attests and stages passes every lineage check of the
   * verifier if and only if each source is packageable.
   */
  lemma BuiltPackageAcceptedExactly(sum: string -> string, sources: seq<Source>, ls: seq<Lineage>, root: map<string, Dir>)
    requires Resolved(sources) && |ls| == |sources|
    requires forall i :: 0 <= i < |sources| ==> NamesUnique(sources[i].entries)
    requires forall i :: 0 <= i < |sources| ==> IsAttested(sum, ls[i], Planned(i, sources[i]), StageDir(sources[i].entries))
    requires forall i :: 0 <= i < |sources| ==> ls[i].stage in root && root[ls[i].stage] == StageDir(sources[i].entries)
    ensures LineagesOk(sum, ls, root) <==> forall i :: 0 <= i < |sources| ==> Packageable(sources[i])
  {
    hide LineageOk, Packageable, SourceName, Stage, Ledger;
    forall i | 0 <= i < |sources| ensures LineageOk(sum, ls[i], root) <==> Packageable(sources[i]) {
      LineageAcceptedExactly(sum, i, sources[i], ls[i], root);
    }
    forall i, j | 0 <= i < j < |sources| ensures ls[i].stage != ls[j].stage && ls[i].ledger != ls[j].ledger {
      StagesApart(i, sources[i], j, sources[j]);
      LedgersApart(sources[i], sources[j]);
    }
  }

  /** The private copy of an accepted package holds each source's staged files and bytes, and nothing else. */
  lemma CopyHoldsTheSource(copy: map<string, string>, s: Source)
    requires NamesUnique(s.entries) && CopyOf(copy, StageDir(s.entries))
    ensures forall name :: name in copy <==> exists i :: 0 <= i < |s.entries| && Staged(s.entries[i]) && s.entries[i].name == name
    ensures forall i :: 0 <= i < |s.entries| && Staged(s.entries[i]) ==> copy[s.entries[i].name] == Content(s.entries[i])
  {
    hide Staged, Content, Le;
    StageDirHolds(s.entries);
    NamesSorted(s);
    assert copy.Keys == StageDir(s.entries).Keys;
    forall i | 0 <= i < |s.entries| && Staged(s.entries[i]) ensures copy[s.entries[i].name] == Content(s.entries[i]) {
      assert StageDir(s.entries)[s.entries[i].name] == Regular(Content(s.entries[i]));
    }
  }

  /** A file name Unix allows and the staging pattern takes, which the verifier then refuses. */
  lemma BackslashIsStagedThenRefused()
    ensures var s := Source("", [Entry("1_a\\b.up.sql", Plain("select 1"))]);
            NamesUnique(s.entries) && Staged(s.entries[0]) && !Packageable(s)
  {
    var name := "1_a\\b.up.sql";
    var e := Entry(name, Plain("select 1"));
    BackslashName();
    assert Staged(e) && !Component(name);
    hide Component, Version, Match, Claim;
    var s := Source("", [e]);
    assert s.entries[0] == e && !Nameable(name);
  }

  lemma BackslashName()
    ensures Match("1_a\\b.up.sql").Some? && !Component("1_a\\b.up.sql")
  {
    assert Splits("1_a\\b.up.sql", "1", "a\\b", "up", "sql");
    MeansMatch("1_a\\b.up.sql", "1", "a\\b", "up", "sql");
    assert "1_a\\b.up.sql"[3] == '\\';
  }

  /** The plan the builder publishes: first contract, no reader roles, its own identity. */
  function Artifact(sum: string -> string, database: string, extensions: seq<Extension>, ls: seq<Lineage>, access: Access): Plan {
    var p := Plan(FIRST, database, extensions, ls, access.(readOnlyRoles := None), "");
    p.(digest := PlanDigest(sum, p))
  }

  /** A published package passes all of the verifier's checks exactly when its declarations do. */
  lemma PublishedPlanAcceptedExactly(sum: string -> string, database: string, extensions: seq<Extension>, access: Access,
                                     sources: seq<Source>, ls: seq<Lineage>, root: map<string, Dir>, bound: string)
    requires Resolved(sources) && |ls| == |sources|
    requires forall i :: 0 <= i < |sources| ==> NamesUnique(sources[i].entries)
    requires forall i :: 0 <= i < |sources| ==> IsAttested(sum, ls[i], Planned(i, sources[i]), StageDir(sources[i].entries))
    requires forall i :: 0 <= i < |sources| ==> ls[i].stage in root && root[ls[i].stage] == StageDir(sources[i].entries)
    ensures SnapshotOk(sum, Artifact(sum, database, extensions, ls, access), bound, root) <==>
            && (forall i :: 0 <= i < |sources| ==> Packageable(sources[i]))
            && ExtensionsOk(extensions)
            && bound == Artifact(sum, database, extensions, ls, access).digest
  {
    hide Packageable, LineagesOk, ExtensionsOk, IsAttested, Planned, StageDir, Encode;
    BuiltPackageAcceptedExactly(sum, sources, ls, root);
    var p := Artifact(sum, database, extensions, ls, access);
    assert PlanTokens(p) == PlanTokens(p.(digest := ""));
  }

  /** The runtime's own conflict check over a lineage's file names; a version that does not fit is passed over. */
  method CheckConflicts(names: seq<string>) returns (ok: bool)
    ensures ok <==> forall i, j :: 0 <= i < j < |names| && Version(names[i]).Some? && Version(names[j]).Some? ==>
                      Claim(names[i]) != Claim(names[j])
  {
    hide Version, Claim;
    var claimed: map<(Option<nat>, string), string> := map[];
    var i := 0;
    while i < |names|
      invariant 0 <= i <= |names|
      invariant forall j, k :: 0 <= j < k < i && Version(names[j]).Some? && Version(names[k]).Some? ==>
        Claim(names[j]) != Claim(names[k])
      invariant forall c :: c in claimed <==> exists j :: 0 <= j < i && Version(names[j]).Some? && Claim(names[j]) == c
    {
      if Version(names[i]).Some? {
        if Claim(names[i]) in claimed {
          return false;
        }
        claimed := claimed[Claim(names[i]) := names[i]];
      }
      i := i + 1;
    }
    ok := true;
  }

  /** Names that pass the runtime's check, with versions that fit, are free of conflicts for the verifier too. */
  lemma ConflictFreeAlike(s: Source, names: seq<string>)
    requires NamesUnique(s.entries) && names == FileNames(s) && forall i :: 0 <= i < |names| ==> Version(names[i]).Some?
    ensures (forall i, j :: 0 <= i < j < |names| && Version(names[i]).Some? && Version(names[j]).Some? ==>
               Claim(names[i]) != Claim(names[j]))
        <==> (forall i, j :: 0 <= i < |s.entries| && 0 <= j < |s.entries| && i != j && Staged(s.entries[i]) && Staged(s.entries[j])
                ==> Claim(s.entries[i].name) != Claim(s.entries[j].name))
  {
    hide Version, Claim, Staged, Le;
    ClaimsMatch(s);
  }
}
