/** The content identities of libs/go/schemaplan/plan.go: what is hashed, and what equal hashes tell. */
module SchemaDigest {
  import opened Options
  import opened Names
  import opened MigrationNames

  datatype File = File(name: string, digest: string)
  datatype Extension = Extension(name: string, required: bool)
  datatype Lineage = Lineage(title: string, ledger: string, stage: string, digest: string, files: seq<File>)
  datatype Access = Access(reader: string, writer: string, schemas: seq<string>, readWriteRoles: seq<string>,
                           readOnlyRoles: Option<seq<string>>)
  datatype Plan = Plan(contract: string, database: string, extensions: seq<Extension>, lineages: seq<Lineage>,
                       access: Access, digest: string)

  const FIRST := "codefly.dev/postgres-schema-plan/v1"
  const SECOND := "codefly.dev/postgres-schema-plan/v2"

  /** The reader roles; a plan without the list and one with an empty list have none. */
  function Readers(p: Plan): seq<string> {
    match p.access.readOnlyRoles
    case Some(roles) => roles
    case None => []
  }

  // ---------- what is written ----------

  /** Each value followed by a NUL. */
  function Encode(values: seq<string>): string {
    if values == [] then "" else values[0] + "\0" + Encode(values[1..])
  }

  lemma {:induction false} EncodeSnoc(tokens: seq<string>, v: string)
    ensures Encode(tokens + [v]) == Encode(tokens) + v + "\0"
    decreases |tokens|
  {
    if tokens == [] {
      assert [] + [v] == [v] && [v][1..] == [];
    } else {
      EncodeSnoc(tokens[1..], v);
      assert (tokens + [v])[1..] == tokens[1..] + [v];
      Reassociate(tokens[0] + "\0", Encode(tokens[1..]), v, "\0");
    }
  }

  lemma Reassociate(a: string, b: string, c: string, d: string)
    ensures a + (b + c + d) == (a + b) + c + d
  {
  }

  /** The hash has taken these tokens; it takes these too. */
  method Write(written: string, ghost tokens: seq<string>, values: seq<string>) returns (written': string)
    requires written == Encode(tokens)
    ensures written' == Encode(tokens + values)
  {
    written' := written;
    var i := 0;
    assert tokens + values[..0] == tokens;
    while i < |values|
      invariant 0 <= i <= |values|
      invariant written' == Encode(tokens + values[..i])
    {
      EncodeSnoc(tokens + values[..i], values[i]);
      assert tokens + values[..i + 1] == tokens + values[..i] + [values[i]];
      written' := written' + values[i] + "\0";
      i := i + 1;
    }
    assert values[..i] == values;
  }

  function ExtensionTokens(xs: seq<Extension>): (t: seq<string>)
    ensures |t| == 2 * |xs|
    ensures forall i :: 0 <= i < |xs| ==> t[2 * i] == xs[i].name && t[2 * i + 1] == Printed(xs[i].required)
  {
    seq(2 * |xs|, i requires 0 <= i < 2 * |xs| => if i % 2 == 0 then xs[i / 2].name else Printed(xs[i / 2].required))
  }

  function Printed(b: bool): string { if b then "true" else "false" }

  function LineageTokens(ls: seq<Lineage>): (t: seq<string>)
    ensures |t| == 4 * |ls|
    ensures forall i :: 0 <= i < |ls| ==> t[4 * i] == ls[i].title && t[4 * i + 1] == ls[i].ledger
                                          && t[4 * i + 2] == ls[i].stage && t[4 * i + 3] == ls[i].digest
  {
    seq(4 * |ls|, i requires 0 <= i < 4 * |ls| =>
      var l := ls[i / 4];
      if i % 4 == 0 then l.title else if i % 4 == 1 then l.ledger else if i % 4 == 2 then l.stage else l.digest)
  }

  function FileTokens(fs: seq<File>): (t: seq<string>)
    ensures |t| == 2 * |fs|
    ensures forall i :: 0 <= i < |fs| ==> t[2 * i] == fs[i].name && t[2 * i + 1] == fs[i].digest
  {
    seq(2 * |fs|, i requires 0 <= i < 2 * |fs| => if i % 2 == 0 then fs[i / 2].name else fs[i / 2].digest)
  }

  /** The reader roles enter only under the second contract, with their count. */
  function ReaderTokens(p: Plan): seq<string> {
    if p.contract == SECOND then ["read-only-roles", Decimal(|Readers(p)|)] + Readers(p) else []
  }

  function Head(p: Plan): seq<string> { [p.contract, p.database] }
  function Groups(p: Plan): seq<string> { [p.access.reader, p.access.writer] }

  function AccessTokens(p: Plan): seq<string> {
    Head(p) + ExtensionTokens(p.extensions) + Groups(p) + p.access.schemas + p.access.readWriteRoles
  }

  function PlanTokens(p: Plan): seq<string> {
    AccessTokens(p) + ReaderTokens(p) + LineageTokens(p.lineages)
  }

  function OneLineage(l: Lineage): seq<string> {
    [l.title, l.ledger] + FileTokens(l.files)
  }

  /** Where the head, the extensions, the groups and the lists of roles and schemas stand. */
  lemma AccessInOrder(p: Plan)
    ensures var t := AccessTokens(p);
            var x := 2 + 2 * |p.extensions|;
            var y := x + 2 + |p.access.schemas|;
            && |t| == y + |p.access.readWriteRoles| && t[0] == p.contract && t[1] == p.database
            && (forall i :: 0 <= i < |p.extensions| ==>
                  t[2 + 2 * i] == p.extensions[i].name && t[3 + 2 * i] == if p.extensions[i].required then "true" else "false")
            && t[x] == p.access.reader && t[x + 1] == p.access.writer
            && t[x + 2..y] == p.access.schemas && t[y..] == p.access.readWriteRoles
  {
    hide Printed, ExtensionTokens;
    FiveParts(Head(p), ExtensionTokens(p.extensions), Groups(p), p.access.schemas, p.access.readWriteRoles);
    forall i | 0 <= i < |p.extensions|
      ensures AccessTokens(p)[2 + 2 * i] == p.extensions[i].name && AccessTokens(p)[3 + 2 * i] == Printed(p.extensions[i].required)
    {
      Within(AccessTokens(p), 2, ExtensionTokens(p.extensions), 2 * i);
    }
    Within(AccessTokens(p), 0, Head(p), 0);
    Within(AccessTokens(p), 2 + 2 * |p.extensions|, Groups(p), 0);
    PrintedAs();
  }

  lemma PrintedAs()
    ensures Printed(true) == "true" && Printed(false) == "false"
  {
  }

  lemma Within(t: seq<string>, at: nat, part: seq<string>, i: nat)
    requires at + |part| <= |t| && t[at..at + |part|] == part && i + 2 <= |part|
    ensures t[at + i] == part[i] && t[at + i + 1] == part[i + 1]
  {
    assert t[at..at + |part|][i] == part[i] && t[at..at + |part|][i + 1] == part[i + 1];
  }

  lemma FiveParts(a: seq<string>, b: seq<string>, c: seq<string>, d: seq<string>, e: seq<string>)
    ensures var t := a + b + c + d + e;
            var i := |a| + |b|;
            var j := i + |c|;
            && |t| == j + |d| + |e| && t[..|a|] == a && t[|a|..i] == b && t[i..j] == c && t[j..j + |d|] == d && t[j + |d|..] == e
  {
    Middle(a, b, c + d + e);
    Middle(a + b, c, d + e);
    Middle(a + b + c, d, e);
    RightFirst(a + b, c + d, e);
    RightFirst(a + b, c, d);
    RightFirst(a + b + c, d, e);
    assert a + b + c + d + e == a + b + (c + d + e);
  }

  lemma Middle(a: seq<string>, b: seq<string>, c: seq<string>)
    ensures (a + b + c)[..|a|] == a && (a + b + c)[|a|..|a| + |b|] == b && (a + b + c)[|a| + |b|..] == c
  {
  }

  /** After them come the reader roles with their count, under the second contract only, and four tokens a lineage. */
  lemma TokensInOrder(p: Plan)
    ensures var t, head := PlanTokens(p), AccessTokens(p);
            var roles := if p.contract == SECOND then ["read-only-roles", Decimal(|Readers(p)|)] + Readers(p) else [];
            var l := |head| + |roles|;
            && |t| == l + 4 * |p.lineages| && t[..l] == head + roles
            && (forall i :: 0 <= i < |p.lineages| ==>
                  t[l + 4 * i..l + 4 * i + 4]
                    == [p.lineages[i].title, p.lineages[i].ledger, p.lineages[i].stage, p.lineages[i].digest])
  {
    hide AccessTokens, LineageTokens, Decimal;
    AfterThem(AccessTokens(p) + ReaderTokens(p), p.lineages);
  }

  lemma AfterThem(most: seq<string>, ls: seq<Lineage>)
    ensures var t := most + LineageTokens(ls);
            && t[..|most|] == most
            && forall i :: 0 <= i < |ls| ==>
                 t[|most| + 4 * i..|most| + 4 * i + 4] == [ls[i].title, ls[i].ledger, ls[i].stage, ls[i].digest]
  {
    forall i | 0 <= i < |ls|
      ensures (most + LineageTokens(ls))[|most| + 4 * i..|most| + 4 * i + 4]
              == [ls[i].title, ls[i].ledger, ls[i].stage, ls[i].digest]
    {
      FourFrom(most, LineageTokens(ls), 4 * i);
    }
  }

  lemma FourFrom(a: seq<string>, b: seq<string>, i: nat)
    requires i + 4 <= |b|
    ensures (a + b)[|a| + i..|a| + i + 4] == [b[i], b[i + 1], b[i + 2], b[i + 3]]
  {
  }

  /** A lineage is its title and its ledger, then each file's name and digest. */
  lemma LineageInOrder(l: Lineage)
    ensures var t := OneLineage(l);
            && |t| == 2 + 2 * |l.files| && t[0] == l.title && t[1] == l.ledger
            && forall i :: 0 <= i < |l.files| ==> t[2 + 2 * i] == l.files[i].name && t[3 + 2 * i] == l.files[i].digest
  {
    forall i | 0 <= i < |l.files|
      ensures OneLineage(l)[2 + 2 * i] == l.files[i].name && OneLineage(l)[3 + 2 * i] == l.files[i].digest
    {
      TwoFrom([l.title, l.ledger], FileTokens(l.files), 2 * i);
    }
  }

  lemma TwoFrom(a: seq<string>, b: seq<string>, i: nat)
    requires i + 2 <= |b|
    ensures (a + b)[|a| + i] == b[i] && (a + b)[|a| + i + 1] == b[i + 1]
  {
  }

  function Named(sum: string -> string, written: string): string {
    "sha256:" + sum(written)
  }

  function PlanDigest(sum: string -> string, p: Plan): string { Named(sum, Encode(PlanTokens(p))) }
  function LineageDigest(sum: string -> string, l: Lineage): string { Named(sum, Encode(OneLineage(l))) }

  // ---------- the writing loops ----------

  lemma RightFirst(a: seq<string>, b: seq<string>, c: seq<string>)
    ensures (a + b) + c == a + (b + c)
  {
  }

  lemma TwoMore(all: seq<string>, i: nat, x: string, y: string)
    requires 2 * i + 2 <= |all| && all[2 * i] == x && all[2 * i + 1] == y
    ensures all[..2 * (i + 1)] == all[..2 * i] + [x, y]
  {
  }

  method WriteExtensions(h: string, ghost tokens: seq<string>, xs: seq<Extension>) returns (h': string)
    requires h == Encode(tokens)
    ensures h' == Encode(tokens + ExtensionTokens(xs))
  {
    h' := h;
    ghost var all := ExtensionTokens(xs);
    var i := 0;
    assert tokens + all[..0] == tokens;
    while i < |xs|
      invariant 0 <= i <= |xs|
      invariant h' == Encode(tokens + all[..2 * i])
    {
      h' := Write(h', tokens + all[..2 * i], [xs[i].name, Printed(xs[i].required)]);
      TwoMore(all, i, xs[i].name, Printed(xs[i].required));
      RightFirst(tokens, all[..2 * i], [xs[i].name, Printed(xs[i].required)]);
      i := i + 1;
    }
    assert all[..2 * i] == all;
  }

  method WriteLineages(h: string, ghost tokens: seq<string>, ls: seq<Lineage>) returns (h': string)
    requires h == Encode(tokens)
    ensures h' == Encode(tokens + LineageTokens(ls))
  {
    h' := h;
    ghost var all := LineageTokens(ls);
    var i := 0;
    assert tokens + all[..0] == tokens;
    while i < |ls|
      invariant 0 <= i <= |ls|
      invariant h' == Encode(tokens + all[..4 * i])
    {
      var l := ls[i];
      h' := Write(h', tokens + all[..4 * i], [l.title, l.ledger, l.stage, l.digest]);
      FourMore(all, i, l);
      RightFirst(tokens, all[..4 * i], [l.title, l.ledger, l.stage, l.digest]);
      i := i + 1;
    }
    assert all[..4 * i] == all;
  }

  lemma FourMore(all: seq<string>, i: nat, l: Lineage)
    requires 4 * i + 4 <= |all|
    requires all[4 * i] == l.title && all[4 * i + 1] == l.ledger && all[4 * i + 2] == l.stage && all[4 * i + 3] == l.digest
    ensures all[..4 * (i + 1)] == all[..4 * i] + [l.title, l.ledger, l.stage, l.digest]
  {
  }

  method WriteReaders(h: string, ghost tokens: seq<string>, p: Plan) returns (h': string)
    requires h == Encode(tokens)
    ensures h' == Encode(tokens + ReaderTokens(p))
  {
    h' := h;
    if p.contract == SECOND {
      var roles := Readers(p);
      ghost var count := ["read-only-roles", Decimal(|roles|)];
      h' := Write(h', tokens, ["read-only-roles", Decimal(|roles|)]);
      h' := Write(h', tokens + count, roles);
      assert tokens + count + roles == tokens + (count + roles);
    } else {
      assert tokens + [] == tokens;
    }
  }

  method ContentDigest(sum: string -> string, p: Plan) returns (digest: string)
    ensures digest == PlanDigest(sum, p)
  {
    assert [] + Head(p) == Head(p);
    var h := Write("", [], [p.contract, p.database]);
    h := WriteExtensions(h, Head(p), p.extensions);
    ghost var so := Head(p) + ExtensionTokens(p.extensions);
    h := Write(h, so, [p.access.reader, p.access.writer]);
    h := Write(h, so + Groups(p), p.access.schemas);
    h := Write(h, so + Groups(p) + p.access.schemas, p.access.readWriteRoles);
    h := WriteReaders(h, AccessTokens(p), p);
    h := WriteLineages(h, AccessTokens(p) + ReaderTokens(p), p.lineages);
    digest := "sha256:" + sum(h);
  }

  method LineageContentDigest(sum: string -> string, l: Lineage) returns (digest: string)
    ensures digest == LineageDigest(sum, l)
  {
    assert [] + [l.title, l.ledger] == [l.title, l.ledger];
    ghost var start, all := [l.title, l.ledger], FileTokens(l.files);
    var h := Write("", [], [l.title, l.ledger]);
    var i := 0;
    assert start + all[..0] == start;
    while i < |l.files|
      invariant 0 <= i <= |l.files|
      invariant h == Encode(start + all[..2 * i])
    {
      var f := l.files[i];
      h := Write(h, start + all[..2 * i], [f.name, f.digest]);
      TwoMore(all, i, f.name, f.digest);
      RightFirst(start, all[..2 * i], [f.name, f.digest]);
      i := i + 1;
    }
    assert all[..2 * i] == all;
    digest := "sha256:" + sum(h);
  }

  // ---------- what equal identities tell ----------

  ghost predicate NulFree(values: seq<string>) {
    forall i :: 0 <= i < |values| ==> !HasNul(values[i])
  }

  lemma FirstToken(a: string, x: string, b: string, y: string)
    requires !HasNul(a) && !HasNul(b) && a + "\0" + x == b + "\0" + y
    ensures a == b && x == y
  {
    var s := a + "\0" + x;
    assert s[|a|] == '\0' && s[|b|] == '\0';
    assert forall i :: 0 <= i < |a| ==> s[i] == a[i] != '\0';
    assert forall i :: 0 <= i < |b| ==> s[i] == b[i] != '\0';
    assert |a| == |b|;
    assert a == s[..|a|] && b == s[..|b|];
    assert x == s[|a| + 1..] && y == s[|b| + 1..];
  }

  /** Values free of NUL can be read back from what was written. */
  lemma {:induction false} EncodeInjective(a: seq<string>, b: seq<string>)
    requires NulFree(a) && NulFree(b) && Encode(a) == Encode(b)
    ensures a == b
    decreases |a|
  {
    if a != [] && b != [] {
      FirstToken(a[0], Encode(a[1..]), b[0], Encode(b[1..]));
      EncodeInjective(a[1..], b[1..]);
      assert a == [a[0]] + a[1..] && b == [b[0]] + b[1..];
    }
  }

  lemma FilesFromTokens(a: seq<File>, b: seq<File>)
    requires FileTokens(a) == FileTokens(b)
    ensures a == b
  {
    assert |a| == |b|;
    forall i | 0 <= i < |a| ensures a[i] == b[i] {
      assert FileTokens(a)[2 * i] == FileTokens(b)[2 * i] && FileTokens(a)[2 * i + 1] == FileTokens(b)[2 * i + 1];
    }
  }

  /** A lineage's preimage determines its title, its ledger and every file. */
  lemma LineageInjective(a: Lineage, b: Lineage)
    requires NulFree(OneLineage(a)) && NulFree(OneLineage(b)) && Encode(OneLineage(a)) == Encode(OneLineage(b))
    ensures a.title == b.title && a.ledger == b.ledger && a.files == b.files
  {
    EncodeInjective(OneLineage(a), OneLineage(b));
    assert OneLineage(a)[0] == a.title && OneLineage(a)[1] == a.ledger && OneLineage(a)[2..] == FileTokens(a.files);
    assert OneLineage(b)[0] == b.title && OneLineage(b)[1] == b.ledger && OneLineage(b)[2..] == FileTokens(b.files);
    FilesFromTokens(a.files, b.files);
  }

  lemma Split(x: seq<string>, y: seq<string>, u: seq<string>, v: seq<string>)
    requires x + y == u + v && |x| == |u|
    ensures x == u && y == v
  {
    assert x == (x + y)[..|x|] && u == (u + v)[..|u|];
    assert y == (x + y)[|x|..] && v == (u + v)[|u|..];
  }

  lemma ExtensionsFromTokens(a: seq<Extension>, b: seq<Extension>)
    requires ExtensionTokens(a) == ExtensionTokens(b)
    ensures a == b
  {
    assert |a| == |b|;
    forall i | 0 <= i < |a| ensures a[i] == b[i] {
      assert ExtensionTokens(a)[2 * i] == ExtensionTokens(b)[2 * i];
      assert ExtensionTokens(a)[2 * i + 1] == ExtensionTokens(b)[2 * i + 1];
      assert Printed(true)[0] != Printed(false)[0];
    }
  }

  /** The files of a lineage enter the plan's identity only through the lineage's own. */
  ghost predicate SameLineages(a: seq<Lineage>, b: seq<Lineage>) {
    && |a| == |b|
    && forall i :: 0 <= i < |a| ==> a[i].(files := []) == b[i].(files := [])
  }

  lemma LineagesFromTokens(a: seq<Lineage>, b: seq<Lineage>)
    requires LineageTokens(a) == LineageTokens(b)
    ensures SameLineages(a, b)
  {
    assert |a| == |b|;
    forall i | 0 <= i < |a| ensures a[i].(files := []) == b[i].(files := []) {
      assert LineageTokens(a)[4 * i] == LineageTokens(b)[4 * i];
      assert LineageTokens(a)[4 * i + 1] == LineageTokens(b)[4 * i + 1];
      assert LineageTokens(a)[4 * i + 2] == LineageTokens(b)[4 * i + 2];
      assert LineageTokens(a)[4 * i + 3] == LineageTokens(b)[4 * i + 3];
    }
  }

  lemma ReadersFromTokens(p: Plan, q: Plan, rest: seq<string>, rest': seq<string>)
    requires p.contract == q.contract && ReaderTokens(p) + rest == ReaderTokens(q) + rest'
    ensures p.contract == SECOND ==> Readers(p) == Readers(q)
    ensures rest == rest'
  {
    if p.contract == SECOND {
      assert (ReaderTokens(p) + rest)[1] == Decimal(|Readers(p)|);
      assert (ReaderTokens(q) + rest')[1] == Decimal(|Readers(q)|);
      DecimalValue(|Readers(p)|);
      DecimalValue(|Readers(q)|);
      Split(ReaderTokens(p), rest, ReaderTokens(q), rest');
      assert ReaderTokens(p)[2..] == Readers(p) && ReaderTokens(q)[2..] == Readers(q);
    } else {
      assert [] + rest == rest && [] + rest' == rest';
    }
  }

  ghost predicate CountsAgree(p: Plan, q: Plan) {
    && |p.extensions| == |q.extensions|
    && |p.access.schemas| == |q.access.schemas|
    && |p.access.readWriteRoles| == |q.access.readWriteRoles|
  }

  /** Equal in all the identity is meant to cover. */
  ghost predicate SamePlan(p: Plan, q: Plan) {
    && p.contract == q.contract && p.database == q.database && p.extensions == q.extensions
    && p.access.reader == q.access.reader && p.access.writer == q.access.writer
    && p.access.schemas == q.access.schemas && p.access.readWriteRoles == q.access.readWriteRoles
    && (p.contract == SECOND ==> Readers(p) == Readers(q))
    && SameLineages(p.lineages, q.lineages)
  }

  lemma TokensDetermine(p: Plan, q: Plan)
    requires PlanTokens(p) == PlanTokens(q) && CountsAgree(p, q)
    ensures SamePlan(p, q)
  {
    var pe, qe := Head(p) + ExtensionTokens(p.extensions), Head(q) + ExtensionTokens(q.extensions);
    var pg, qg := pe + Groups(p), qe + Groups(q);
    var ps, qs := pg + p.access.schemas, qg + q.access.schemas;
    RightFirst(AccessTokens(p), ReaderTokens(p), LineageTokens(p.lineages));
    RightFirst(AccessTokens(q), ReaderTokens(q), LineageTokens(q.lineages));
    Split(AccessTokens(p), ReaderTokens(p) + LineageTokens(p.lineages), AccessTokens(q), ReaderTokens(q) + LineageTokens(q.lineages));
    Split(ps, p.access.readWriteRoles, qs, q.access.readWriteRoles);
    Split(pg, p.access.schemas, qg, q.access.schemas);
    Split(pe, Groups(p), qe, Groups(q));
    Split(Head(p), ExtensionTokens(p.extensions), Head(q), ExtensionTokens(q.extensions));
    assert Groups(p)[0] == p.access.reader && Groups(p)[1] == p.access.writer;
    assert Groups(q)[0] == q.access.reader && Groups(q)[1] == q.access.writer;
    assert Head(p)[0] == p.contract && Head(p)[1] == p.database && Head(q)[0] == q.contract && Head(q)[1] == q.database;
    ExtensionsFromTokens(p.extensions, q.extensions);
    ReadersFromTokens(p, q, LineageTokens(p.lineages), LineageTokens(q.lineages));
    LineagesFromTokens(p.lineages, q.lineages);
  }

  /** With one preimage, two plans are the same exactly when their three counts agree. */
  lemma PlanInjectiveExactly(p: Plan, q: Plan)
    requires NulFree(PlanTokens(p)) && NulFree(PlanTokens(q)) && Encode(PlanTokens(p)) == Encode(PlanTokens(q))
    ensures SamePlan(p, q) <==> CountsAgree(p, q)
  {
    EncodeInjective(PlanTokens(p), PlanTokens(q));
    if CountsAgree(p, q) { TokensDetermine(p, q); }
  }

  /** Without the counts the encoding is ambiguous: a schema passes for a read-write role. */
  lemma CountsAreNeeded() returns (p: Plan, q: Plan)
    ensures NulFree(PlanTokens(p)) && NulFree(PlanTokens(q))
    ensures Encode(PlanTokens(p)) == Encode(PlanTokens(q)) && p.contract == FIRST && !SamePlan(p, q)
  {
    p := Plan(FIRST, "d", [], [], Access("r", "w", ["a"], ["b"], None), "");
    q := Plan(FIRST, "d", [], [], Access("r", "w", ["a", "b"], [], None), "");
    assert PlanTokens(p) == [FIRST, "d", "r", "w", "a", "b"];
    assert PlanTokens(q) == [FIRST, "d", "r", "w", "a", "b"];
    NoNul();
  }

  lemma NoNul()
    ensures !HasNul(FIRST) && !HasNul("d") && !HasNul("r") && !HasNul("w") && !HasNul("a") && !HasNul("b")
  {
  }

  /** Under a hash without collisions, an attested plan's identity fixes every file of every lineage. */
  lemma IdentityFixesContent(sum: string -> string, p: Plan, q: Plan)
    requires forall x, y :: sum(x) == sum(y) ==> x == y
    requires NulFree(PlanTokens(p)) && NulFree(PlanTokens(q)) && CountsAgree(p, q)
    requires forall l :: l in p.lineages || l in q.lineages ==> l.digest == LineageDigest(sum, l) && NulFree(OneLineage(l))
    requires PlanDigest(sum, p) == PlanDigest(sum, q)
    ensures SamePlan(p, q) && p.lineages == q.lineages
  {
    Prefixed(sum, Encode(PlanTokens(p)), Encode(PlanTokens(q)));
    PlanInjectiveExactly(p, q);
    forall i | 0 <= i < |p.lineages| ensures p.lineages[i] == q.lineages[i] {
      var a, b := p.lineages[i], q.lineages[i];
      assert a in p.lineages && b in q.lineages;
      assert a.(files := []) == b.(files := []);
      Prefixed(sum, Encode(OneLineage(a)), Encode(OneLineage(b)));
      LineageInjective(a, b);
    }
  }

  lemma Prefixed(sum: string -> string, x: string, y: string)
    requires forall u, v :: sum(u) == sum(v) ==> u == v
    requires Named(sum, x) == Named(sum, y)
    ensures x == y
  {
    assert Named(sum, x)[7..] == sum(x) && Named(sum, y)[7..] == sum(y);
  }
}
