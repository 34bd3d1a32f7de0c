/** Verifying a schema package before anything connects (snapshot in libs/go/bootstrap/package.go). */
module SchemaSnapshot {
  import opened Options
  import opened Names
  import opened Sorting
  import opened MigrationNames
  import opened SchemaDigest

  /** A directory entry of the package; what is no regular file is refused whatever it is. */
  datatype Node = Regular(bytes: string) | NotRegular

  type Dir = map<string, Node>

  predicate Component(s: string) {
    s != "" && s != "." && s != ".." && '/' !in s && '\\' !in s && '\0' !in s
  }

  predicate WordChar(c: char) {
    c == '_' || AlphaNumeric(c)
  }

  /** The pattern ^[A-Za-z_][A-Za-z0-9_]{0,62}$. */
  predicate LedgerName(s: string) {
    0 < |s| <= 63 && !Digit(s[0]) && forall i :: 0 <= i < |s| ==> WordChar(s[i])
  }

  /** The three kinds of names, character by character. */
  lemma NamesAre(s: string)
    ensures Component(s) <==>
            && s !in {"", ".", ".."} && forall i :: 0 <= i < |s| ==> s[i] != '/' && s[i] != '\\' && s[i] != '\0'
    ensures LedgerName(s) <==>
            && 1 <= |s| <= 63 && !('0' <= s[0] <= '9')
            && forall i :: 0 <= i < |s| ==> var c := s[i]; 'a' <= c <= 'z' || 'A' <= c <= 'Z' || '0' <= c <= '9' || c == '_'
    ensures ExtensionName(s) <==>
            (exists i :: 0 <= i < |s| && !Space(s[i])) && Bytes(s) <= 63 && forall i :: 0 <= i < |s| ==> s[i] != '\0'
  {
    hide Space, Bytes;
    forall i | 0 <= i < |s|
      ensures WordChar(s[i]) <==> var c := s[i]; 'a' <= c <= 'z' || 'A' <= c <= 'Z' || '0' <= c <= '9' || c == '_'
    {
    }
  }

  /** What a migration lays claim to: its version and direction. */
  function Claim(name: string): (Option<nat>, string) {
    (Version(name), if Match(name).Some? then Match(name).value.direction else "")
  }

  ghost predicate FileOk(sum: string -> string, f: File, dir: Dir) {
    && Component(f.name) && Version(f.name).Some?
    && f.name in dir && dir[f.name].Regular? && f.digest == SchemaDigest.Named(sum, dir[f.name].bytes)
  }

  ghost predicate FilesOk(sum: string -> string, files: seq<File>, dir: Dir) {
    && (forall i :: 0 <= i < |files| ==> FileOk(sum, files[i], dir))
    && (forall i, j :: 0 <= i < j < |files| ==> Apart(files[i].name, files[j].name))
  }

  /** Increasing names, different claims. */
  predicate Apart(a: string, b: string) {
    Lt(a, b) && Claim(a) != Claim(b)
  }

  ghost predicate LineageOk(sum: string -> string, l: Lineage, root: map<string, Dir>) {
    && Component(l.stage) && Component(l.title) && LedgerName(l.ledger)
    && l.files != [] && l.digest == LineageDigest(sum, l)
    && l.stage in root && |root[l.stage]| == |l.files| && FilesOk(sum, l.files, root[l.stage])
  }

  ghost predicate LineagesOk(sum: string -> string, ls: seq<Lineage>, root: map<string, Dir>) {
    && (forall i :: 0 <= i < |ls| ==> LineageOk(sum, ls[i], root))
    && (forall i, j :: 0 <= i < j < |ls| ==> Separate(ls[i], ls[j]))
  }

  /** Lineages share neither a staged location nor a ledger. */
  predicate Separate(a: Lineage, b: Lineage) {
    a.stage != b.stage && a.ledger != b.ledger
  }

  predicate ExtensionName(name: string) {
    !Blank(name) && Bytes(name) <= IDENTIFIER_BYTES && !HasNul(name)
  }

  ghost predicate ExtensionsOk(xs: seq<Extension>) {
    && (forall i :: 0 <= i < |xs| ==> ExtensionName(xs[i].name))
    && (forall i, j :: 0 <= i < j < |xs| ==> xs[i].name != xs[j].name)
  }

  /** The identity checks; a plan of the first contract carries no list of reader roles, not even an empty one. */
  ghost predicate IdentityOk(sum: string -> string, p: Plan, bound: string) {
    && p.contract in {FIRST, SECOND} && (p.contract == FIRST ==> p.access.readOnlyRoles.None?)
    && p.digest == PlanDigest(sum, p) && p.digest == bound
  }

  ghost predicate SnapshotOk(sum: string -> string, p: Plan, bound: string, root: map<string, Dir>) {
    IdentityOk(sum, p, bound) && LineagesOk(sum, p.lineages, root) && ExtensionsOk(p.extensions)
  }

  /** The private copy holds these files with these bytes, and nothing else. */
  ghost predicate CopyOf(copy: map<string, string>, dir: Dir) {
    && copy.Keys == dir.Keys
    && forall name :: name in dir ==> dir[name] == Regular(copy[name])
  }

  // ---------- the files of one lineage ----------

  lemma NextInOrder(files: seq<File>, i: nat, previous: string)
    requires 0 < i < |files| && previous == files[i - 1].name && !Le(files[i].name, previous)
    requires forall j, k :: 0 <= j < k < i ==> Lt(files[j].name, files[k].name)
    ensures forall j :: 0 <= j < i ==> Lt(files[j].name, files[i].name)
  {
    LeTotal(files[i].name, previous);
    LeTotal(previous, previous);
    forall j | 0 <= j < i - 1 ensures Lt(files[j].name, files[i].name) {
      assert Lt(files[j].name, previous);
      LeTransitive(files[j].name, previous, files[i].name);
      NotBoth(files[j].name, previous);
    }
  }

  lemma NotBoth(a: string, b: string)
    requires Lt(a, b)
    ensures !Le(b, a)
  {
    if Le(b, a) { LeAntisymmetric(a, b); }
  }

  lemma NamesFill(files: seq<File>, copy: map<string, string>, dir: Dir)
    requires |dir| == |files| && copy.Keys == set f | f in files :: f.name
    requires forall i, j :: 0 <= i < j < |files| ==> files[i].name != files[j].name
    requires forall name :: name in copy ==> name in dir && dir[name] == Regular(copy[name])
    ensures CopyOf(copy, dir)
  {
    CountNames(files);
    SameSize(copy.Keys, dir.Keys);
  }

  lemma {:induction false} CountNames(files: seq<File>)
    requires forall i, j :: 0 <= i < j < |files| ==> files[i].name != files[j].name
    ensures |set f | f in files :: f.name| == |files|
    decreases |files|
  {
    var all := set f | f in files :: f.name;
    if files == [] {
      assert all == {};
    } else {
      var rest := files[1..];
      CountNames(rest);
      var others := set f | f in rest :: f.name;
      assert files == [files[0]] + rest;
      assert all == {files[0].name} + others;
      assert files[0].name !in others;
    }
  }

  lemma SameSize(a: set<string>, b: set<string>)
    requires a <= b && |a| == |b|
    ensures a == b
  {
    if x :| x in b && x !in a {
      assert a <= b - {x};
      SmallerSize(a, b - {x});
      assert false;
    }
  }

  lemma {:induction false} SmallerSize(a: set<string>, b: set<string>)
    requires a <= b
    ensures |a| <= |b|
    decreases |a|
  {
    if x :| x in a {
      SmallerSize(a - {x}, b - {x});
    }
  }

  method CheckFile(sum: string -> string, f: File, previous: string, dir: Dir) returns (ok: bool)
    ensures ok <==> FileOk(sum, f, dir) && !Le(f.name, previous)
    ensures ok ==> f.name in dir && dir[f.name].Regular?
  {
    if !Component(f.name) || Match(f.name).None? || Le(f.name, previous) || Version(f.name).None? {
      return false;
    }
    ok := f.name in dir && dir[f.name].Regular? && SchemaDigest.Named(sum, dir[f.name].bytes) == f.digest;
  }

  /** The state of the scan after n files: what is verified, claimed and copied. */
  ghost predicate Scanned(sum: string -> string, files: seq<File>, n: nat, dir: Dir,
                          claims: set<(Option<nat>, string)>, written: map<string, string>)
    requires n <= |files|
  {
    && (forall j :: 0 <= j < n ==> FileOk(sum, files[j], dir))
    && (forall j, k :: 0 <= j < k < n ==> Apart(files[j].name, files[k].name))
    && (forall c :: c in claims <==> exists j :: 0 <= j < n && Claim(files[j].name) == c)
    && written.Keys == (set f | f in files[..n] :: f.name)
    && (forall name :: name in written ==> name in dir && dir[name] == Regular(written[name]))
  }

  lemma ScanOne(sum: string -> string, files: seq<File>, i: nat, previous: string, dir: Dir,
                claims: set<(Option<nat>, string)>, written: map<string, string>)
    requires i < |files| && Scanned(sum, files, i, dir, claims, written)
    requires previous == if i == 0 then "" else files[i - 1].name
    requires FileOk(sum, files[i], dir) && !Le(files[i].name, previous) && Claim(files[i].name) !in claims
    requires files[i].name in dir && dir[files[i].name].Regular?
    ensures Scanned(sum, files, i + 1, dir, claims + {Claim(files[i].name)}, written[files[i].name := dir[files[i].name].bytes])
  {
    hide FileOk, Claim, Le;
    if i > 0 { NextInOrder(files, i, previous); }
    assert files[..i + 1] == files[..i] + [files[i]];
    forall j | 0 <= j < i ensures Apart(files[j].name, files[i].name) {
      assert Claim(files[j].name) in claims;
    }
  }

  method SnapshotFiles(sum: string -> string, files: seq<File>, dir: Dir) returns (copy: Option<map<string, string>>)
    ensures copy.Some? <==> |dir| == |files| && FilesOk(sum, files, dir)
    ensures copy.Some? ==> CopyOf(copy.value, dir)
  {
    hide FileOk, Claim, Le, Match, Version;
    if |dir| != |files| {
      return None;
    }
    var written: map<string, string> := map[];
    var claims: set<(Option<nat>, string)> := {};
    var previous := "";
    var i := 0;
    while i < |files|
      invariant 0 <= i <= |files|
      invariant previous == if i == 0 then "" else files[i - 1].name
      invariant Scanned(sum, files, i, dir, claims, written)
    {
      var f := files[i];
      var ok := CheckFile(sum, f, previous, dir);
      if !ok {
        Refused(sum, files, i, previous, dir);
        return None;
      }
      if Claim(f.name) in claims {
        ghost var j :| 0 <= j < i && Claim(files[j].name) == Claim(f.name);
        assert !Apart(files[j].name, files[i].name);
        return None;
      }
      ScanOne(sum, files, i, previous, dir, claims, written);
      claims := claims + {Claim(f.name)};
      written := written[f.name := dir[f.name].bytes];
      previous := f.name;
      i := i + 1;
    }
    assert files[..i] == files;
    NamesFill(files, written, dir);
    copy := Some(written);
  }

  lemma Refused(sum: string -> string, files: seq<File>, i: nat, previous: string, dir: Dir)
    requires i < |files| && !(FileOk(sum, files[i], dir) && !Le(files[i].name, previous))
    requires previous == if i == 0 then "" else files[i - 1].name
    ensures !FilesOk(sum, files, dir)
  {
    if i > 0 && Apart(files[i - 1].name, files[i].name) {
      NotBoth(files[i - 1].name, files[i].name);
    }
  }

  // ---------- the package ----------

  method SnapshotLineage(sum: string -> string, l: Lineage, root: map<string, Dir>) returns (copy: Option<map<string, string>>)
    ensures copy.Some? <==> LineageOk(sum, l, root)
    ensures copy.Some? ==> l.stage in root
    ensures copy.Some? ==> CopyOf(copy.value, root[l.stage])
  {
    var identity := LineageContentDigest(sum, l);
    if !Component(l.stage) || !Component(l.title) || !LedgerName(l.ledger) || l.files == [] || l.digest != identity
       || l.stage !in root {
      return None;
    }
    copy := SnapshotFiles(sum, l.files, root[l.stage]);
  }

  method SnapshotLineages(sum: string -> string, ls: seq<Lineage>, root: map<string, Dir>)
    returns (copy: Option<map<string, map<string, string>>>)
    ensures copy.Some? <==> LineagesOk(sum, ls, root)
    ensures copy.Some? ==> Copied(sum, ls, |ls|, root, copy.value)
  {
    hide LineageOk, CopyOf, Separate, Copied, Ledgers;
    NothingCopied(sum, ls, root);
    var copies: map<string, map<string, string>> := map[];
    var ledgers: set<string> := {};
    var i := 0;
    while i < |ls|
      invariant 0 <= i <= |ls|
      invariant Copied(sum, ls, i, root, copies)
      invariant Ledgers(ls, i, ledgers)
      invariant forall j, k :: 0 <= j < k < i ==> Separate(ls[j], ls[k])
    {
      var l := ls[i];
      TakenMeans(sum, ls, i, root, copies, ledgers);
      if l.stage in copies || l.ledger in ledgers {
        return None;
      }
      var files := SnapshotLineage(sum, l, root);
      if files.None? {
        assert !LineageOk(sum, ls[i], root);
        return None;
      }
      CopyOne(sum, ls, i, root, copies, files.value);
      copies := copies[l.stage := files.value];
      MoreLedgers(ls, i, ledgers);
      ledgers := ledgers + {l.ledger};
      i := i + 1;
    }
    AllVerified(sum, ls, root, copies);
    copy := Some(copies);
  }

  lemma NothingCopied(sum: string -> string, ls: seq<Lineage>, root: map<string, Dir>)
    ensures Copied(sum, ls, 0, root, map[]) && Ledgers(ls, 0, {})
  {
  }

  lemma AllVerified(sum: string -> string, ls: seq<Lineage>, root: map<string, Dir>, copies: map<string, map<string, string>>)
    requires Copied(sum, ls, |ls|, root, copies)
    ensures forall i :: 0 <= i < |ls| ==> LineageOk(sum, ls[i], root)
  {
  }

  ghost predicate Ledgers(ls: seq<Lineage>, n: nat, ledgers: set<string>)
    requires n <= |ls|
  {
    forall x :: x in ledgers <==> exists j :: 0 <= j < n && ls[j].ledger == x
  }

  lemma MoreLedgers(ls: seq<Lineage>, i: nat, ledgers: set<string>)
    requires i < |ls| && Ledgers(ls, i, ledgers)
    ensures Ledgers(ls, i + 1, ledgers + {ls[i].ledger})
  {
  }

  /** A location or ledger already seen is exactly one shared with an earlier lineage. */
  lemma TakenMeans(sum: string -> string, ls: seq<Lineage>, i: nat, root: map<string, Dir>,
                   copies: map<string, map<string, string>>, ledgers: set<string>)
    requires i < |ls| && Copied(sum, ls, i, root, copies) && Ledgers(ls, i, ledgers)
    ensures ls[i].stage in copies || ls[i].ledger in ledgers <==> exists j :: 0 <= j < i && !Separate(ls[j], ls[i])
  {
    hide LineageOk, CopyOf;
    if ls[i].stage in copies {
      var j :| 0 <= j < i && ls[j].stage == ls[i].stage;
      assert !Separate(ls[j], ls[i]);
    }
    if ls[i].ledger in ledgers {
      var j :| 0 <= j < i && ls[j].ledger == ls[i].ledger;
      assert !Separate(ls[j], ls[i]);
    }
  }

  /** The first n lineages are verified, and the copies are theirs. */
  ghost predicate Copied(sum: string -> string, ls: seq<Lineage>, n: nat, root: map<string, Dir>,
                         copies: map<string, map<string, string>>)
    requires n <= |ls|
  {
    && (forall x :: x in copies <==> exists j :: 0 <= j < n && ls[j].stage == x)
    && (forall j :: 0 <= j < n ==> LineageOk(sum, ls[j], root))
    && (forall j :: 0 <= j < n ==> ls[j].stage in root && ls[j].stage in copies && CopyOf(copies[ls[j].stage], root[ls[j].stage]))
  }

  lemma CopyOne(sum: string -> string, ls: seq<Lineage>, i: nat, root: map<string, Dir>,
                copies: map<string, map<string, string>>, files: map<string, string>)
    requires i < |ls| && Copied(sum, ls, i, root, copies) && ls[i].stage !in copies
    requires LineageOk(sum, ls[i], root) && ls[i].stage in root && CopyOf(files, root[ls[i].stage])
    ensures Copied(sum, ls, i + 1, root, copies[ls[i].stage := files])
  {
    hide LineageOk, CopyOf;
  }

  /** Accepted exactly when everything attested is there; the copy is then exactly what was attested. */
  method Snapshot(sum: string -> string, p: Plan, bound: string, root: map<string, Dir>)
    returns (copy: Option<map<string, map<string, string>>>)
    ensures copy.Some? <==> SnapshotOk(sum, p, bound, root)
    ensures copy.Some? ==> forall x :: x in copy.value <==> exists i :: 0 <= i < |p.lineages| && p.lineages[i].stage == x
    ensures copy.Some? ==> forall i :: 0 <= i < |p.lineages| ==>
              CopyOf(copy.value[p.lineages[i].stage], root[p.lineages[i].stage])
  {
    var digest := ContentDigest(sum, p);
    if p.contract !in {FIRST, SECOND} || (p.contract == FIRST && p.access.readOnlyRoles.Some?)
       || p.digest != digest || p.digest != bound {
      return None;
    }
    copy := SnapshotLineages(sum, p.lineages, root);
    var declared := CheckExtensions(p.extensions);
    if !declared {
      return None;
    }
  }

  method CheckExtensions(xs: seq<Extension>) returns (ok: bool)
    ensures ok <==> ExtensionsOk(xs)
  {
    var names: set<string> := {};
    var i := 0;
    while i < |xs|
      invariant 0 <= i <= |xs|
      invariant forall j :: 0 <= j < i ==> ExtensionName(xs[j].name)
      invariant forall j, k :: 0 <= j < k < i ==> xs[j].name != xs[k].name
      invariant forall x :: x in names <==> exists j :: 0 <= j < i && xs[j].name == x
    {
      if !ExtensionName(xs[i].name) || xs[i].name in names {
        return false;
      }
      names := names + {xs[i].name};
      i := i + 1;
    }
    ok := true;
  }

  // ---------- what acceptance attests ----------

  /** A single path element that leads nowhere else. */
  predicate StaysInside(s: string) {
    s != "" && s != "." && s != ".." && forall k :: 0 <= k < |s| ==> s[k] != '/' && s[k] != '\\' && s[k] != '\0'
  }

  /** A verified lineage: its place, its ledger, its own digest, and every file of its directory with that file's digest. */
  ghost predicate Attested(sum: string -> string, l: Lineage, root: map<string, Dir>) {
    && StaysInside(l.stage) && StaysInside(l.title)
    && 0 < |l.ledger| <= 63 && l.files != []
    && l.digest == "sha256:" + sum(Encode(OneLineage(l)))
    && l.stage in root && (forall name :: name in root[l.stage] <==> exists j :: 0 <= j < |l.files| && l.files[j].name == name)
    && (forall j :: 0 <= j < |l.files| ==> AttestedFile(sum, l.files[j], root[l.stage]))
  }

  ghost predicate AttestedFile(sum: string -> string, f: File, dir: Dir) {
    && StaysInside(f.name) && Version(f.name).Some?
    && f.name in dir && dir[f.name].Regular? && f.digest == "sha256:" + sum(dir[f.name].bytes)
  }

  /** A directory with as many entries as distinct verified files lists exactly those. */
  lemma NothingUnlisted(files: seq<File>, dir: Dir)
    requires |dir| == |files| && forall i, j :: 0 <= i < j < |files| ==> files[i].name != files[j].name
    requires forall i :: 0 <= i < |files| ==> files[i].name in dir
    ensures forall name :: name in dir <==> exists j :: 0 <= j < |files| && files[j].name == name
  {
    CountNames(files);
    var names := set f | f in files :: f.name;
    forall name | name in names ensures name in dir {
      var f :| f in files && f.name == name;
    }
    assert |dir| == |dir.Keys|;
    SameSize(names, dir.Keys);
    forall name | name in dir ensures exists j :: 0 <= j < |files| && files[j].name == name {
      assert name in names;
      var f :| f in files && f.name == name;
    }
  }

  lemma LineageAttests(sum: string -> string, l: Lineage, root: map<string, Dir>)
    requires LineageOk(sum, l, root)
    ensures Attested(sum, l, root)
  {
    hide Version, Claim, Le, Encode, OneLineage;
    NothingUnlisted(l.files, root[l.stage]);
  }

  /**
   * Acceptance attests everything that is going to be read: the plan's digest is the bound one and
   * its own, no name leads out of the package, every file has the digest the plan gives for it and
   * none is unlisted, versions and directions, places and ledgers are not used twice, and extensions
   * have names PostgreSQL can take.
   */
  lemma AcceptanceAttests(sum: string -> string, p: Plan, bound: string, root: map<string, Dir>)
    requires SnapshotOk(sum, p, bound, root)
    ensures p.digest == bound && bound == "sha256:" + sum(Encode(PlanTokens(p)))
    ensures p.contract in {"codefly.dev/postgres-schema-plan/v1", "codefly.dev/postgres-schema-plan/v2"}
    ensures forall i :: 0 <= i < |p.lineages| ==> Attested(sum, p.lineages[i], root)
    ensures forall i, j :: 0 <= i < j < |p.lineages| ==>
              p.lineages[i].stage != p.lineages[j].stage && p.lineages[i].ledger != p.lineages[j].ledger
    ensures forall i, j, k :: 0 <= i < |p.lineages| && 0 <= j < k < |p.lineages[i].files| ==>
              ClaimsApart(p.lineages[i].files[j].name, p.lineages[i].files[k].name)
    ensures forall i :: 0 <= i < |p.extensions| ==>
              !Blank(p.extensions[i].name) && Bytes(p.extensions[i].name) <= 63 && '\0' !in p.extensions[i].name
    ensures forall i, j :: 0 <= i < j < |p.extensions| ==> p.extensions[i].name != p.extensions[j].name
  {
    hide LineageOk, Attested, Encode, PlanTokens, ClaimsApart;
    forall i | 0 <= i < |p.lineages| ensures Attested(sum, p.lineages[i], root) {
      LineageAttests(sum, p.lineages[i], root);
    }
    forall i, j, k | 0 <= i < |p.lineages| && 0 <= j < k < |p.lineages[i].files|
      ensures ClaimsApart(p.lineages[i].files[j].name, p.lineages[i].files[k].name)
    {
      FilesApart(sum, p.lineages[i], root, j, k);
    }
  }

  /** Two migrations lay no claim to the same version in the same direction. */
  predicate ClaimsApart(a: string, b: string) {
    !(Match(a).Some? && Match(b).Some? && Version(a) == Version(b) && Match(a).value.direction == Match(b).value.direction)
  }

  lemma FilesApart(sum: string -> string, l: Lineage, root: map<string, Dir>, j: nat, k: nat)
    requires LineageOk(sum, l, root) && j < k < |l.files|
    ensures ClaimsApart(l.files[j].name, l.files[k].name)
  {
    hide Le, Version, Match, Encode;
    assert Apart(l.files[j].name, l.files[k].name);
  }

  /** One version may come once up and once down. */
  lemma UpAndDownCoexist(a: string, b: string)
    requires Match(a).Some? && Match(b).Some? && Match(a).value.direction != Match(b).value.direction
    ensures Claim(a) != Claim(b)
  {
    hide Match, Version;
  }

  /**
   * Under a hash without collisions the bound digest fixes every byte: two packages accepted for one
   * binding, with those counts, hold the same lineages and the same files with the same contents.
   */
  lemma BoundDigestFixesBytes(sum: string -> string, p: Plan, q: Plan, bound: string, root: map<string, Dir>, root': map<string, Dir>)
    requires forall x, y :: sum(x) == sum(y) ==> x == y
    requires SnapshotOk(sum, p, bound, root) && SnapshotOk(sum, q, bound, root') && CountsAgree(p, q)
    requires NulFree(PlanTokens(p)) && NulFree(PlanTokens(q))
    requires forall l :: l in p.lineages || l in q.lineages ==> NulFree(OneLineage(l))
    ensures p.lineages == q.lineages
    ensures forall i :: 0 <= i < |p.lineages| ==>
              p.lineages[i].stage in root && p.lineages[i].stage in root' && root[p.lineages[i].stage] == root'[p.lineages[i].stage]
  {
    hide Attested, Encode, PlanTokens, OneLineage, NulFree;
    AcceptanceAttests(sum, p, bound, root);
    AcceptanceAttests(sum, q, bound, root');
    forall l | l in p.lineages || l in q.lineages ensures l.digest == LineageDigest(sum, l) {
      if l in p.lineages { assert LineageOk(sum, l, root); } else { assert LineageOk(sum, l, root'); }
    }
    IdentityFixesContent(sum, p, q);
    forall i | 0 <= i < |p.lineages|
      ensures p.lineages[i].stage in root && p.lineages[i].stage in root' && root[p.lineages[i].stage] == root'[p.lineages[i].stage]
    {
      SameDirectory(sum, p.lineages[i], root, root');
    }
  }

  lemma SameDirectory(sum: string -> string, l: Lineage, root: map<string, Dir>, root': map<string, Dir>)
    requires forall x, y :: sum(x) == sum(y) ==> x == y
    requires Attested(sum, l, root) && Attested(sum, l, root')
    ensures l.stage in root && l.stage in root' && root[l.stage] == root'[l.stage]
  {
    hide Version, Encode, OneLineage, StaysInside;
    var a, b := root[l.stage], root'[l.stage];
    forall name ensures name in a <==> name in b {}
    forall name | name in a ensures a[name] == b[name] {
      var j :| 0 <= j < |l.files| && l.files[j].name == name;
      assert AttestedFile(sum, l.files[j], a) && AttestedFile(sum, l.files[j], b);
      SameTail("sha256:", sum(a[name].bytes), sum(b[name].bytes));
    }
  }

  lemma SameTail(head: string, x: string, y: string)
    requires head + x == head + y
    ensures x == y
  {
    assert x == (head + x)[|head|..] && y == (head + y)[|head|..];
  }
}
