/** The names runtime_access.go and runtime_native.go derive from a database and its declared logins. */
module RoleNames {
  import opened Options
  import opened Names

  // ---------- the prefix of a database's roles ----------

  /** The character tables of the language the service is written in. */
  datatype Unicode = Unicode(lower: char -> char, letter: char -> bool, digit: char -> bool)

  predicate HexDigits(s: string) {
    |s| == 8 && forall i :: 0 <= i < 8 ==> '0' <= s[i] <= '9' || 'a' <= s[i] <= 'f'
  }

  /** The first four bytes of a hash, in hexadecimal. */
  type Hex8 = s: string | HexDigits(s) witness "00000000"

  const BASE_LENGTH := 24

  /** The slug of lowered text, one character at a time. */
  function Slug(u: Unicode, s: string): (slug: string)
    ensures Ascii(slug) && |slug| <= |s|
  {
    if s == "" then "" else
      var c, before := s[|s| - 1], Slug(u, s[..|s| - 1]);
      if u.letter(c) || u.digit(c) then
        if c <= '\U{7F}' then before + [c] else before
      else if before != "" && before[|before| - 1] != '_' then before + "_"
      else before
  }

  predicate Ascii(s: string) {
    forall i :: 0 <= i < |s| ==> s[i] <= '\U{7F}'
  }

  function TrimLeft(s: string): (t: string)
    ensures Ascii(s) ==> Ascii(t)
  {
    if s != "" && s[0] == '_' then TrimLeft(s[1..]) else s
  }

  function TrimRight(s: string): (t: string)
    ensures Ascii(s) ==> Ascii(t)
  {
    if s != "" && s[|s| - 1] == '_' then TrimRight(s[..|s| - 1]) else s
  }

  function Base(slug: string): (base: string)
    requires Ascii(slug)
    ensures Ascii(base) && 0 < |base| <= BASE_LENGTH
  {
    var trimmed := TrimRight(TrimLeft(slug));
    var named := if trimmed == "" then "database" else trimmed;
    if |named| > BASE_LENGTH then named[..BASE_LENGTH] else named
  }

  function Lowered(u: Unicode, s: string): string {
    seq(|s|, i requires 0 <= i < |s| => u.lower(s[i]))
  }

  function RolePrefix(u: Unicode, sum: string -> Hex8, database: string): string {
    "codefly_" + Base(Slug(u, Lowered(u, database))) + "_" + sum(database)
  }

  method RuntimeRolePrefix(u: Unicode, sum: string -> Hex8, database: string) returns (prefix: string)
    ensures prefix == RolePrefix(u, sum, database)
  {
    var lowered := Lowered(u, database);
    var slug := "";
    var i := 0;
    while i < |lowered|
      invariant 0 <= i <= |lowered|
      invariant slug == Slug(u, lowered[..i])
    {
      var r := lowered[i];
      assert lowered[..i + 1][..i] == lowered[..i];
      i := i + 1;
      if u.letter(r) || u.digit(r) {
        if r <= '\U{7F}' {
          slug := slug + [r];
        }
        continue;
      }
      if |slug| > 0 && slug[|slug| - 1] != '_' {
        slug := slug + "_";
      }
    }
    assert lowered[..i] == lowered;
    var base := TrimRight(TrimLeft(slug));
    if base == "" {
      base := "database";
    }
    if |base| > BASE_LENGTH {
      base := base[..BASE_LENGTH];
    }
    prefix := "codefly_" + base + "_" + sum(database);
  }

  lemma {:induction false} AsciiBytes(s: string)
    requires Ascii(s)
    ensures Bytes(s) == |s|
    decreases |s|
  {
    if s != "" { AsciiBytes(s[1..]); }
  }

  const READER := "_ro"
  const WRITER := "_rw"
  const OWNER := "_owner"

  lemma PrefixFits(u: Unicode, sum: string -> Hex8, database: string)
    ensures Ascii(RolePrefix(u, sum, database)) && Bytes(RolePrefix(u, sum, database)) <= 41
  {
    var p := RolePrefix(u, sum, database);
    var base := Base(Slug(u, Lowered(u, database)));
    assert Ascii(p) by {
      assert Ascii("codefly_" + base + "_");
    }
    AsciiBytes(p);
  }

  // ---------- what the prefix is ----------

  predicate AsciiAlphaNumeric(c: char) {
    'a' <= c <= 'z' || 'A' <= c <= 'Z' || '0' <= c <= '9'
  }

  /** On ASCII the character tables know exactly the letters and the digits. */
  ghost predicate KnowsAscii(u: Unicode) {
    forall c: char :: c <= '\U{7F}' ==> (u.letter(c) || u.digit(c) <==> AsciiAlphaNumeric(c))
  }

  /** The ASCII letters and digits of a text, in order. */
  function Kept(s: string): string {
    if s == "" then "" else Kept(s[..|s| - 1]) + (if AsciiAlphaNumeric(s[|s| - 1]) then [s[|s| - 1]] else "")
  }

  lemma {:induction false} KeptJoin(a: string, b: string)
    ensures Kept(a + b) == Kept(a) + Kept(b)
    decreases |b|
  {
    if b == "" {
      assert a + b == a;
    } else {
      var last := |b| - 1;
      KeptJoin(a, b[..last]);
      assert (a + b)[..|a + b| - 1] == a + b[..last];
    }
  }

  /** Words of ASCII letters and digits, joined by single underscores, a word first. */
  ghost predicate Words(s: string) {
    && (forall i :: 0 <= i < |s| ==> AsciiAlphaNumeric(s[i]) || s[i] == '_')
    && (s != "" ==> s[0] != '_')
    && (forall i :: 0 < i < |s| ==> !(s[i - 1] == '_' && s[i] == '_'))
  }

  lemma {:induction false} SlugIsWords(u: Unicode, s: string)
    requires KnowsAscii(u)
    ensures Words(Slug(u, s)) && Kept(Slug(u, s)) == Kept(s)
    decreases |s|
  {
    if s != "" {
      var c, before := s[|s| - 1], Slug(u, s[..|s| - 1]);
      SlugIsWords(u, s[..|s| - 1]);
      assert (before + [c])[..|before|] == before && (before + "_")[..|before|] == before;
    }
  }

  lemma TrimmedWords(s: string)
    requires Words(s)
    ensures TrimLeft(s) == s && TrimRight(s) <= s && Words(TrimRight(s)) && Kept(TrimRight(s)) == Kept(s)
    ensures TrimRight(s) == "" <==> Kept(s) == ""
  {
    if s != "" && s[|s| - 1] == '_' {
      var t := s[..|s| - 1];
      assert s == t + "_";
      KeptJoin(t, "_");
      assert t == "" || t[|t| - 1] != '_';
      assert TrimRight(t) == t;
      LastKept(t);
    } else {
      LastKept(s);
    }
  }

  lemma LastKept(s: string)
    requires Words(s) && (s == "" || s[|s| - 1] != '_')
    ensures Kept(s) == "" <==> s == ""
  {
  }

  lemma {:induction false} KeptPrefix(s: string, n: nat)
    requires n <= |s|
    ensures Kept(s[..n]) <= Kept(s)
  {
    hide Kept;
    assert s[..n] + s[n..] == s;
    KeptJoin(s[..n], s[n..]);
  }

  /**
   * Between the fixed start and the hash lie 1 to 24 characters: words of ASCII letters and digits
   * with single underscores between them, which begin with the ones of the lowered name, all of them
   * where there is room; "database" where the name has none.
   */
  lemma PrefixSpelled(u: Unicode, sum: string -> Hex8, database: string)
    requires KnowsAscii(u)
    ensures var p := RolePrefix(u, sum, database);
            var kept := Kept(Lowered(u, database));
            && |p| > 17 && p[..8] == "codefly_" && p[|p| - 9..] == "_" + sum(database)
            && var base := p[8..|p| - 9];
               && 1 <= |base| <= 24 && Words(base)
               && (kept == "" ==> base == "database")
               && (kept != "" ==> Kept(base) <= kept && Kept(base) != "")
               && (kept != "" && |base| < 24 ==> Kept(base) == kept)
  {
    hide Slug, TrimLeft, TrimRight, Kept;
    var slug := Slug(u, Lowered(u, database));
    var base := Base(slug);
    var p := RolePrefix(u, sum, database);
    assert p[8..|p| - 9] == base && p[|p| - 9..] == "_" + sum(database);
    SlugIsWords(u, Lowered(u, database));
    TrimmedWords(slug);
    DatabaseIsWords();
    var trimmed := TrimRight(slug);
    if trimmed != "" {
      KeptPrefix(trimmed, |base|);
      assert base == trimmed[..|base|];
      FirstKept(base);
    }
  }

  lemma FirstKept(s: string)
    requires Words(s) && s != ""
    ensures Kept(s) != ""
  {
    assert s == s[..1] + s[1..];
    KeptJoin(s[..1], s[1..]);
    assert s[..1][..0] == "" && Kept(s[..1]) == s[..1];
  }

  lemma DatabaseIsWords()
    ensures Words("database")
  {
  }

  /** Every derived role is a safe identifier itself. */
  lemma DerivedRolesAreIdentifiers(u: Unicode, sum: string -> Hex8, database: string, name: string)
    requires KnowsAscii(u) && ValidName(name)
    ensures SqlIdentifier(RolePrefix(u, sum, database) + READER) && SqlIdentifier(RolePrefix(u, sum, database) + WRITER)
    ensures SqlIdentifier(LoginRole(RolePrefix(u, sum, database), name))
  {
    hide RolePrefix;
    PrefixSpelled(u, sum, database);
    var p := RolePrefix(u, sum, database);
    forall i | 0 <= i < |p| ensures SqlChar(p[i]) {
      if i < 8 { assert p[i] == p[..8][i] == "codefly_"[i]; }
      else if i < |p| - 9 { assert p[i] == p[8..|p| - 9][i - 8]; }
      else { assert p[i] == p[|p| - 9..][i - (|p| - 9)] == ("_" + sum(database))[i - (|p| - 9)]; }
    }
    forall i | 0 <= i < |name| ensures SqlChar(Underscored(name)[i]) { assert NameChar(name[i]); }
  }

  /** Lowering leaves no ASCII capital. */
  ghost predicate LowersAscii(u: Unicode) {
    forall c: char :: !('A' <= u.lower(c) <= 'Z')
  }

  predicate NoCapital(s: string) {
    forall i :: 0 <= i < |s| ==> !('A' <= s[i] <= 'Z')
  }

  lemma {:induction false} SlugKeepsLow(u: Unicode, s: string)
    requires NoCapital(s)
    ensures NoCapital(Slug(u, s))
    decreases |s|
  {
    if s != "" { SlugKeepsLow(u, s[..|s| - 1]); }
  }

  lemma NoCapitalThroughout(a: string, b: string, c: string)
    requires NoCapital(a) && NoCapital(b) && NoCapital(c)
    ensures NoCapital(a + b + c)
  {
  }

  /** The prefix is of small letters, digits and underscores, so no role needs quoting to keep its case. */
  lemma PrefixIsLower(u: Unicode, sum: string -> Hex8, database: string)
    requires KnowsAscii(u) && LowersAscii(u)
    ensures forall i :: 0 <= i < |RolePrefix(u, sum, database)| ==>
              var c := RolePrefix(u, sum, database)[i]; 'a' <= c <= 'z' || '0' <= c <= '9' || c == '_'
  {
    hide RolePrefix;
    var p := RolePrefix(u, sum, database);
    PrefixHasNoCapital(u, sum, database);
    DerivedRolesAreIdentifiers(u, sum, database, "a");
    forall i | 0 <= i < |p| ensures SqlChar(p[i]) {
      assert (p + READER)[i] == p[i];
    }
  }

  lemma PrefixHasNoCapital(u: Unicode, sum: string -> Hex8, database: string)
    requires KnowsAscii(u) && LowersAscii(u)
    ensures NoCapital(RolePrefix(u, sum, database))
  {
    hide Slug, TrimLeft, TrimRight, Kept;
    var slug := Slug(u, Lowered(u, database));
    SlugIsWords(u, Lowered(u, database));
    SlugKeepsLow(u, Lowered(u, database));
    TrimmedWords(slug);
    assert NoCapital(Base(slug));
    NoCapitalThroughout("codefly_", Base(slug), "_");
    NoCapitalThroughout("codefly_" + Base(slug) + "_", sum(database), "");
    assert "codefly_" + Base(slug) + "_" + sum(database) + "" == RolePrefix(u, sum, database);
  }

  /** Databases whose hashes differ have different roles, whatever their names are shortened to. */
  lemma PrefixTellsApart(u: Unicode, sum: string -> Hex8, a: string, b: string, end: string)
    requires sum(a) != sum(b)
    ensures RolePrefix(u, sum, a) + end != RolePrefix(u, sum, b) + end
  {
    var p, q := RolePrefix(u, sum, a), RolePrefix(u, sum, b);
    assert p[|p| - 8..] == sum(a) && q[|q| - 8..] == sum(b);
    if p + end == q + end {
      assert p == (p + end)[..|p|] && q == (q + end)[..|q|];
    }
  }

  // ---------- declared logins ----------

  datatype Declared = Declared(name: string, readWriteRoles: seq<string>)

  datatype Login = Login(name: string, role: string, passwordKey: string, connectionKey: string, readWriteRoles: seq<string>)

  const MAX_NAME := 16
  const RESERVED := {"owner", "read-only", "read-write"}

  predicate NameChar(c: char) {
    'a' <= c <= 'z' || '0' <= c <= '9' || c == '-'
  }

  predicate ValidName(name: string) {
    && name != "" && |name| <= MAX_NAME && 'a' <= name[0] <= 'z' && name[|name| - 1] != '-'
    && forall i :: 0 <= i < |name| ==> NameChar(name[i])
  }

  function Underscored(name: string): string {
    seq(|name|, i requires 0 <= i < |name| => if name[i] == '-' then '_' else name[i])
  }

  function Upper(c: char): char {
    if 'a' <= c <= 'z' then ((c as int) - 32) as char else c
  }

  function Uppered(s: string): string {
    seq(|s|, i requires 0 <= i < |s| => Upper(s[i]))
  }

  function LoginRole(prefix: string, name: string): string { prefix + "_" + Underscored(name) }
  function PasswordKey(name: string): string { "POSTGRES_" + Uppered(Underscored(name)) + "_PASSWORD" }
  function ConnectionKey(name: string): string { name + "-connection" }

  // ---------- delegated roles ----------

  predicate SqlChar(c: char) {
    c == '_' || 'a' <= c <= 'z' || 'A' <= c <= 'Z' || '0' <= c <= '9'
  }

  predicate SqlIdentifier(s: string) {
    s != "" && forall i :: 0 <= i < |s| ==> SqlChar(s[i])
  }

  function TrimSpace(s: string): string {
    if s != "" && Space(s[0]) then TrimSpace(s[1..])
    else if s != "" && Space(s[|s| - 1]) then TrimSpace(s[..|s| - 1])
    else s
  }

  /** What is trimmed is space at both ends, and all of it. */
  lemma {:induction false} TrimSpaceIs(s: string) returns (before: string, after: string)
    ensures s == before + TrimSpace(s) + after && Blank(before) && Blank(after) && Trimmed(TrimSpace(s))
    decreases |s|
  {
    before, after := "", "";
    if s != "" && Space(s[0]) {
      before, after := TrimSpaceIs(s[1..]);
      assert s == [s[0]] + s[1..];
      assert [s[0]] + (before + TrimSpace(s) + after) == ([s[0]] + before) + TrimSpace(s) + after;
      before := [s[0]] + before;
    } else if s != "" && Space(s[|s| - 1]) {
      var last := |s| - 1;
      before, after := TrimSpaceIs(s[..last]);
      assert s == s[..last] + [s[last]];
      assert (before + TrimSpace(s) + after) + [s[last]] == before + TrimSpace(s) + (after + [s[last]]);
      after := after + [s[last]];
    }
  }

  predicate RolesAccepted(configured: seq<string>, managed: set<string>) {
    forall i :: 0 <= i < |configured| ==> RoleAccepted(configured[i], managed)
  }

  predicate RoleAccepted(raw: string, managed: set<string>) {
    SqlIdentifier(TrimSpace(raw)) && TrimSpace(raw) !in managed
  }

  /** A delegated role is refused for being empty, for any character but ASCII letters, digits and underscore, or as a managed one. */
  ghost predicate Unfit(role: string, managed: set<string>) {
    || role == "" || role in managed
    || exists i :: 0 <= i < |role| && var c := role[i]; !('a' <= c <= 'z') && !('A' <= c <= 'Z') && !('0' <= c <= '9') && c != '_'
  }

  /** The trimmed roles, each at its first mention. */
  function FirstMentions(configured: seq<string>): seq<string> {
    if configured == [] then [] else
      var rest, role := FirstMentions(configured[..|configured| - 1]), TrimSpace(configured[|configured| - 1]);
      if role in rest then rest else rest + [role]
  }

  /** The schemas access is granted on; without any configured, the default one. */
  function RuntimeSchemas(configured: seq<string>): seq<string> {
    if configured == [] then ["public"] else FirstMentions(configured)
  }

  method NormalizedReadWriteRoles(configured: seq<string>, managed: set<string>) returns (r: Option<seq<string>>)
    ensures r.Some? <==> RolesAccepted(configured, managed)
    ensures r.None? <==> exists i :: 0 <= i < |configured| && Unfit(TrimSpace(configured[i]), managed)
    ensures r.Some? ==> r.value == FirstMentions(configured)
  {
    var seen: set<string> := {};
    var roles := [];
    var i := 0;
    while i < |configured|
      invariant 0 <= i <= |configured|
      invariant roles == FirstMentions(configured[..i])
      invariant forall x :: x in seen <==> x in roles
      invariant forall j :: 0 <= j < i ==> RoleAccepted(configured[j], managed)
    {
      var role := TrimSpace(configured[i]);
      assert configured[..i + 1][..i] == configured[..i];
      if !SqlIdentifier(role) || role in managed {
        assert !RoleAccepted(configured[i], managed);
        return None;
      }
      i := i + 1;
      if role in seen {
        continue;
      }
      seen := seen + {role};
      roles := roles + [role];
    }
    assert configured[..i] == configured;
    r := Some(roles);
  }

  /** The normalized list is the configured one as a set, without repetition, and keeps its first role. */
  lemma {:induction false} FirstMentionsAre(configured: seq<string>)
    ensures Distinct(FirstMentions(configured))
    ensures forall x :: x in FirstMentions(configured) <==> exists i :: 0 <= i < |configured| && TrimSpace(configured[i]) == x
    ensures configured != [] ==> FirstMentions(configured) != [] && FirstMentions(configured)[0] == TrimSpace(configured[0])
    decreases |configured|
  {
    if configured != [] {
      var last := |configured| - 1;
      var front := configured[..last];
      FirstMentionsAre(front);
      forall x ensures x in FirstMentions(configured) <==> exists i :: 0 <= i < |configured| && TrimSpace(configured[i]) == x {
        if i :| 0 <= i < |configured| && TrimSpace(configured[i]) == x {
          if i < last { assert front[i] == configured[i]; }
        }
        if x in FirstMentions(front) {
          var i :| 0 <= i < |front| && TrimSpace(front[i]) == x;
          assert configured[i] == front[i];
        }
      }
    }
  }

  /** a is mentioned somewhere before any mention of b. */
  ghost predicate MentionedBefore(configured: seq<string>, a: string, b: string) {
    exists k :: 0 <= k < |configured| && TrimSpace(configured[k]) == a && forall l :: 0 <= l <= k ==> TrimSpace(configured[l]) != b
  }

  /** The list keeps the order of first mention. */
  lemma {:induction false} FirstMentionsInOrder(configured: seq<string>, i: nat, j: nat)
    requires i < j < |FirstMentions(configured)|
    ensures MentionedBefore(configured, FirstMentions(configured)[i], FirstMentions(configured)[j])
    decreases |configured|
  {
    hide TrimSpace;
    var last := |configured| - 1;
    var front, all := configured[..last], FirstMentions(configured);
    var was := FirstMentions(front);
    FirstMentionsAre(front);
    if j < |was| {
      FirstMentionsInOrder(front, i, j);
      var k :| 0 <= k < |front| && TrimSpace(front[k]) == all[i] && forall l :: 0 <= l <= k ==> TrimSpace(front[l]) != all[j];
      assert forall l :: 0 <= l <= k ==> front[l] == configured[l];
    } else {
      assert all[i] in was;
      var k :| 0 <= k < |front| && TrimSpace(front[k]) == all[i];
      assert forall l :: 0 <= l <= k ==> front[l] == configured[l] && TrimSpace(front[l]) in was;
    }
  }

  // ---------- resolution ----------

  /** All that a declaration by itself can be refused for. */
  ghost predicate Faulty(prefix: string, d: Declared) {
    || |d.name| < 1 || |d.name| > 16 || !('a' <= d.name[0] <= 'z') || d.name[|d.name| - 1] == '-'
    || (exists i :: 0 <= i < |d.name| && var c := d.name[i]; !('a' <= c <= 'z') && !('0' <= c <= '9') && c != '-')
    || d.name in {"owner", "read-only", "read-write"}
    || prefix + "_" + Underscored(d.name) in {prefix + "_ro", prefix + "_rw"}
    || d.readWriteRoles == []
    || exists i :: 0 <= i < |d.readWriteRoles|
                   && Unfit(TrimSpace(d.readWriteRoles[i]), {prefix + "_ro", prefix + "_rw", prefix + "_" + Underscored(d.name)})
  }

  lemma ResolvableExactly(prefix: string, d: Declared)
    ensures Resolvable(prefix, d) <==> !Faulty(prefix, d)
  {
    hide TrimSpace, Unfit, SqlIdentifier;
    var managed := {prefix + READER, prefix + WRITER, LoginRole(prefix, d.name)};
    assert managed == {prefix + "_ro", prefix + "_rw", prefix + "_" + Underscored(d.name)};
    forall i | 0 <= i < |d.readWriteRoles|
      ensures RoleAccepted(d.readWriteRoles[i], managed) <==> !Unfit(TrimSpace(d.readWriteRoles[i]), managed)
    {
      UnfitMeans(TrimSpace(d.readWriteRoles[i]), managed);
    }
    ValidNameMeans(d.name);
  }

  lemma UnfitMeans(role: string, managed: set<string>)
    ensures Unfit(role, managed) <==> !SqlIdentifier(role) || role in managed
  {
    forall i | 0 <= i < |role|
      ensures SqlChar(role[i]) <==> var c := role[i]; 'a' <= c <= 'z' || 'A' <= c <= 'Z' || '0' <= c <= '9' || c == '_'
    {
    }
  }

  lemma ValidNameMeans(name: string)
    ensures ValidName(name) <==>
            && 1 <= |name| <= 16 && 'a' <= name[0] <= 'z' && name[|name| - 1] != '-'
            && forall i :: 0 <= i < |name| ==> var c := name[i]; 'a' <= c <= 'z' || '0' <= c <= '9' || c == '-'
  {
    forall i | 0 <= i < |name| ensures NameChar(name[i]) <==> var c := name[i]; 'a' <= c <= 'z' || '0' <= c <= '9' || c == '-' {
    }
  }

  /** What one declaration must meet, given the prefix. */
  predicate Resolvable(prefix: string, d: Declared) {
    && ValidName(d.name)
    && d.name !in RESERVED
    && LoginRole(prefix, d.name) != prefix + READER
    && LoginRole(prefix, d.name) != prefix + WRITER
    && RolesAccepted(d.readWriteRoles, {prefix + READER, prefix + WRITER, LoginRole(prefix, d.name)})
    && d.readWriteRoles != []
  }

  ghost predicate NamesDistinct(declared: seq<Declared>) {
    forall i, j :: 0 <= i < j < |declared| ==> declared[i].name != declared[j].name
  }

  function Resolved(prefix: string, d: Declared): Login {
    Login(d.name, LoginRole(prefix, d.name), PasswordKey(d.name), ConnectionKey(d.name), FirstMentions(d.readWriteRoles))
  }

  method ResolveRuntimeLogins(prefix: string, declared: seq<Declared>, externalIdentity: bool, externalInstances: bool)
    returns (r: Option<seq<Login>>)
    ensures r.Some? <==>
            declared == [] || (!externalIdentity && !externalInstances && NamesDistinct(declared)
                               && forall i :: 0 <= i < |declared| ==> Resolvable(prefix, declared[i]))
    ensures r.None? <==>
            declared != [] && (externalIdentity || externalInstances || !NamesDistinct(declared)
                               || exists i :: 0 <= i < |declared| && Faulty(prefix, declared[i]))
    ensures r.Some? ==> |r.value| == |declared| && forall i :: 0 <= i < |declared| ==> r.value[i] == Resolved(prefix, declared[i])
    ensures r.Some? ==> forall i :: 0 <= i < |r.value| ==>
              r.value[i].name == declared[i].name && r.value[i].role == prefix + "_" + Underscored(declared[i].name)
              && r.value[i].readWriteRoles != []
  {
    hide Faulty;
    forall i | 0 <= i < |declared| ensures Resolvable(prefix, declared[i]) <==> !Faulty(prefix, declared[i]) {
      ResolvableExactly(prefix, declared[i]);
    }
    if declared == [] {
      return Some([]);
    }
    if externalIdentity || externalInstances {
      return None;
    }
    var readOnlyRole, readWriteRole := prefix + READER, prefix + WRITER;
    var seen: set<string> := {};
    var logins: seq<Login> := [];
    var i := 0;
    while i < |declared|
      invariant 0 <= i <= |declared| && |logins| == i
      invariant forall j :: 0 <= j < i ==> logins[j] == Resolved(prefix, declared[j]) && Resolvable(prefix, declared[j])
      invariant forall x :: x in seen <==> exists j :: 0 <= j < i && declared[j].name == x
      invariant forall j, k :: 0 <= j < k < i ==> declared[j].name != declared[k].name
    {
      var d := declared[i];
      var role := LoginRole(prefix, d.name);
      if !ValidName(d.name) || d.name in RESERVED {
        assert !Resolvable(prefix, declared[i]);
        return None;
      }
      if d.name in seen {
        return None;
      }
      seen := seen + {d.name};
      if role == readOnlyRole || role == readWriteRole {
        assert !Resolvable(prefix, declared[i]);
        return None;
      }
      var roles := NormalizedReadWriteRoles(d.readWriteRoles, {readOnlyRole, readWriteRole, role});
      FirstMentionsAre(d.readWriteRoles);
      if roles == None || roles.value == [] {
        assert !Resolvable(prefix, declared[i]);
        return None;
      }
      logins := logins + [Login(d.name, role, PasswordKey(d.name), ConnectionKey(d.name), roles.value)];
      i := i + 1;
    }
    r := Some(logins);
  }

  // ---------- no two names collide ----------

  lemma NamesKeepApart(a: string, b: string)
    requires ValidName(a) && ValidName(b) && a != b
    ensures Underscored(a) != Underscored(b) && Uppered(Underscored(a)) != Uppered(Underscored(b))
  {
    if |a| == |b| {
      var i :| 0 <= i < |a| && a[i] != b[i];
      assert NameChar(a[i]) && NameChar(b[i]);
      assert Underscored(a)[i] != Underscored(b)[i];
      assert Uppered(Underscored(a))[i] != Uppered(Underscored(b))[i];
    }
  }

  lemma Unglue(before: string, a: string, b: string, after: string)
    ensures before + a + after == before + b + after ==> a == b
  {
    var x, y := before + a + after, before + b + after;
    assert a == x[|before|..|x| - |after|];
    assert b == y[|before|..|y| - |after|];
  }

  /** The roles one database's logins and managed principals go by. */
  ghost predicate RolesApart(prefix: string, logins: seq<Login>) {
    && (forall i, j :: 0 <= i < j < |logins| ==> logins[i].role != logins[j].role)
    && (forall i :: 0 <= i < |logins| ==> logins[i].role !in {prefix + READER, prefix + WRITER, prefix + OWNER})
    && prefix + READER != prefix + WRITER && prefix + READER != prefix + OWNER && prefix + WRITER != prefix + OWNER
  }

  const PASSWORD_KEYS := {"POSTGRES_PASSWORD", "POSTGRES_READ_ONLY_PASSWORD", "POSTGRES_READ_WRITE_PASSWORD"}
  const CONNECTION_KEYS := {"owner-connection", "read-only-connection", "read-write-connection"}

  ghost predicate KeysApart(logins: seq<Login>) {
    && (forall i, j :: 0 <= i < j < |logins| ==> logins[i].passwordKey != logins[j].passwordKey)
    && (forall i, j :: 0 <= i < j < |logins| ==> logins[i].connectionKey != logins[j].connectionKey)
    && (forall i :: 0 <= i < |logins| ==> logins[i].passwordKey !in PASSWORD_KEYS)
    && (forall i :: 0 <= i < |logins| ==> logins[i].connectionKey !in CONNECTION_KEYS)
  }

  lemma PairApart(prefix: string, a: string, b: string)
    requires ValidName(a) && ValidName(b) && a != b
    ensures LoginRole(prefix, a) != LoginRole(prefix, b)
    ensures PasswordKey(a) != PasswordKey(b)
    ensures ConnectionKey(a) != ConnectionKey(b)
  {
    NamesKeepApart(a, b);
    Unglue(prefix + "_", Underscored(a), Underscored(b), "");
    Unglue("POSTGRES_", Uppered(Underscored(a)), Uppered(Underscored(b)), "_PASSWORD");
    Unglue("", a, b, "-connection");
    assert LoginRole(prefix, a) == prefix + "_" + Underscored(a) + "";
    assert LoginRole(prefix, b) == prefix + "_" + Underscored(b) + "";
    assert ConnectionKey(a) == "" + a + "-connection" && ConnectionKey(b) == "" + b + "-connection";
  }

  lemma ManagedApart(prefix: string, name: string)
    requires ValidName(name) && name !in RESERVED
    ensures LoginRole(prefix, name) != prefix + OWNER
    ensures PasswordKey(name) !in PASSWORD_KEYS && ConnectionKey(name) !in CONNECTION_KEYS
  {
    PairApart(prefix, name, "owner");
    PairApart(prefix, name, "read-only");
    PairApart(prefix, name, "read-write");
    OwnerSpelled(prefix);
    ReaderKeySpelled();
    WriterKeySpelled();
    ConnectionKeysSpelled();
    assert |PasswordKey(name)| > |"POSTGRES_PASSWORD"|;
  }

  lemma OwnerSpelled(prefix: string)
    ensures LoginRole(prefix, "owner") == prefix + OWNER
  {
    assert Underscored("owner") == "owner";
  }

  lemma ReaderKeySpelled()
    ensures PasswordKey("read-only") == "POSTGRES_READ_ONLY_PASSWORD"
  {
    assert Underscored("read-only") == "read_only" && Uppered("read_only") == "READ_ONLY";
  }

  lemma WriterKeySpelled()
    ensures PasswordKey("read-write") == "POSTGRES_READ_WRITE_PASSWORD"
  {
    assert Underscored("read-write") == "read_write" && Uppered("read_write") == "READ_WRITE";
  }

  lemma ConnectionKeysSpelled()
    ensures ConnectionKey("owner") == "owner-connection"
    ensures ConnectionKey("read-only") == "read-only-connection"
    ensures ConnectionKey("read-write") == "read-write-connection"
  {
  }

  lemma ManagedRolesApart(prefix: string)
    ensures prefix + READER != prefix + WRITER && prefix + READER != prefix + OWNER && prefix + WRITER != prefix + OWNER
  {
    assert (prefix + READER)[|prefix| + 2] == 'o' && (prefix + WRITER)[|prefix| + 2] == 'w';
    assert |prefix + OWNER| > |prefix + READER| == |prefix + WRITER|;
  }

  /** Every accepted list of logins has roles and keys apart from one another and from the managed ones. */
  lemma AcceptedLoginsApart(prefix: string, declared: seq<Declared>, logins: seq<Login>)
    requires NamesDistinct(declared) && |logins| == |declared|
    requires forall i :: 0 <= i < |declared| ==> Resolvable(prefix, declared[i]) && logins[i] == Resolved(prefix, declared[i])
    ensures RolesApart(prefix, logins) && KeysApart(logins)
  {
    ManagedRolesApart(prefix);
    forall i | 0 <= i < |logins|
      ensures logins[i].role != prefix + OWNER && logins[i].passwordKey !in PASSWORD_KEYS && logins[i].connectionKey !in CONNECTION_KEYS
    {
      ManagedApart(prefix, declared[i].name);
    }
    forall i, j | 0 <= i < j < |logins|
      ensures logins[i].role != logins[j].role && logins[i].passwordKey != logins[j].passwordKey
              && logins[i].connectionKey != logins[j].connectionKey
    {
      PairApart(prefix, declared[i].name, declared[j].name);
    }
  }

  /** Every role of a database fits a PostgreSQL identifier: a login's in 58 bytes. */
  lemma RolesFit(u: Unicode, sum: string -> Hex8, database: string, d: Declared)
    requires ValidName(d.name)
    ensures Bytes(LoginRole(RolePrefix(u, sum, database), d.name)) <= 58
    ensures Bytes(RolePrefix(u, sum, database) + OWNER) <= 47
    ensures Bytes(RolePrefix(u, sum, database) + READER) <= 44 && Bytes(RolePrefix(u, sum, database) + WRITER) <= 44
  {
    hide RolePrefix;
    var p := RolePrefix(u, sum, database);
    PrefixFits(u, sum, database);
    forall i | 0 <= i < |d.name| ensures Underscored(d.name)[i] <= '\U{7F}' {
      assert NameChar(d.name[i]);
    }
    BytesJoin(p, "_" + Underscored(d.name));
    assert LoginRole(p, d.name) == p + ("_" + Underscored(d.name));
    BytesJoin(p, OWNER);
    BytesJoin(p, READER);
    BytesJoin(p, WRITER);
  }

  lemma BytesJoin(p: string, tail: string)
    requires Ascii(p) && Ascii(tail)
    ensures Bytes(p + tail) == Bytes(p) + |tail|
  {
    AsciiBytes(p);
    AsciiBytes(p + tail);
  }
}
