/** Merging declared extensions over the defaults (resolveExtensions in schema.go). */
module Extensions {
  import opened Options
  import opened Names
  import RoleNames

  datatype Declaration = Declaration(name: string, optional: bool)
  datatype Request = Request(name: string, required: bool)

  predicate NameOk(name: string) {
    name != "" && forall i :: 0 <= i < |name| ==> RoleNames.SqlChar(name[i]) || name[i] == '-'
  }

  /** Only ASCII letters, digits, underscore and dash are safe, and a name is not empty. */
  ghost predicate Unsafe(name: string) {
    name == "" || exists i :: 0 <= i < |name| && var c := name[i];
      !('a' <= c <= 'z') && !('A' <= c <= 'Z') && !('0' <= c <= '9') && c != '_' && c != '-'
  }

  lemma UnsafeMeans(name: string)
    ensures NameOk(name) <==> !Unsafe(name)
  {
    forall i | 0 <= i < |name|
      ensures RoleNames.SqlChar(name[i]) <==>
              var c := name[i]; 'a' <= c <= 'z' || 'A' <= c <= 'Z' || '0' <= c <= '9' || c == '_'
    {
    }
  }

  /** The last of the first n declarations of a name, if it is declared at all. */
  function LastDeclared(declared: seq<Declaration>, n: nat, name: string): Option<Declaration>
    requires n <= |declared|
  {
    if n == 0 then None
    else if RoleNames.TrimSpace(declared[n - 1].name) == name then Some(declared[n - 1])
    else LastDeclared(declared, n - 1, name)
  }

  /** What is requested of a name after n declarations: the last one decides, a mere default is not required. */
  ghost predicate Asked(defaults: seq<string>, declared: seq<Declaration>, n: nat, name: string, r: Request)
    requires n <= |declared|
  {
    && r.name == name
    && (match LastDeclared(declared, n, name)
        case Some(d) => r.required == !d.optional
        case None => name in defaults && !r.required)
  }

  ghost predicate Merged(defaults: seq<string>, declared: seq<Declaration>, n: nat, requests: seq<Request>)
    requires n <= |declared|
  {
    && (forall i, j :: 0 <= i < j < |requests| ==> requests[i].name != requests[j].name)
    && (forall i :: 0 <= i < |requests| ==> Asked(defaults, declared, n, requests[i].name, requests[i]))
    && (forall x :: x in defaults || LastDeclared(declared, n, x).Some? ==> Requested(requests, x))
  }

  /** a is declared somewhere in the first n before any declaration of b. */
  ghost predicate DeclaredBefore(declared: seq<Declaration>, n: nat, a: string, b: string)
    requires n <= |declared|
  {
    exists k :: 0 <= k < n && RoleNames.TrimSpace(declared[k].name) == a
                && forall l :: 0 <= l <= k ==> RoleNames.TrimSpace(declared[l].name) != b
  }

  /** The defaults in their order, then the declared names in the order of their first declarations. */
  ghost predicate InOrder(defaults: seq<string>, declared: seq<Declaration>, n: nat, requests: seq<Request>)
    requires n <= |declared|
  {
    && |defaults| <= |requests| && (forall i :: 0 <= i < |defaults| ==> requests[i].name == defaults[i])
    && (forall i, j :: |defaults| <= i < j < |requests| ==> DeclaredBefore(declared, n, requests[i].name, requests[j].name))
  }

  ghost predicate Requested(requests: seq<Request>, name: string) {
    exists i :: 0 <= i < |requests| && requests[i].name == name
  }

  ghost predicate Positions(position: map<string, nat>, requests: seq<Request>) {
    && (forall x :: x in position ==> position[x] < |requests| && requests[position[x]].name == x)
    && (forall i :: 0 <= i < |requests| ==> requests[i].name in position && position[requests[i].name] == i)
  }

  lemma Placed(position: map<string, nat>, requests: seq<Request>, name: string)
    requires Positions(position, requests)
    ensures name in position ==> position[name] < |requests| && requests[position[name]].name == name
    ensures name !in position ==> forall i :: 0 <= i < |requests| ==> requests[i].name != name
  {
  }

  /** A declaration of a name already requested replaces what was asked. */
  lemma Replaces(defaults: seq<string>, declared: seq<Declaration>, n: nat, requests: seq<Request>, position: map<string, nat>, name: string)
    requires n < |declared| && Merged(defaults, declared, n, requests) && Positions(position, requests)
    requires name == RoleNames.TrimSpace(declared[n].name) && name in position
    ensures position[name] < |requests|
    ensures var now := requests[position[name] := Request(name, !declared[n].optional)];
            Merged(defaults, declared, n + 1, now) && Positions(position, now)
  {
    hide RoleNames.TrimSpace;
    var now := requests[position[name] := Request(name, !declared[n].optional)];
    forall x | x in defaults || LastDeclared(declared, n + 1, x).Some? ensures Requested(now, x) {
      if x == name {
        assert now[position[name]].name == x;
      } else {
        assert Requested(requests, x);
        var i :| 0 <= i < |requests| && requests[i].name == x;
        assert now[i].name == x;
      }
    }
  }

  /** A declaration of a new name is appended. */
  lemma Appends(defaults: seq<string>, declared: seq<Declaration>, n: nat, requests: seq<Request>, position: map<string, nat>, name: string)
    requires n < |declared| && Merged(defaults, declared, n, requests) && Positions(position, requests)
    requires name == RoleNames.TrimSpace(declared[n].name) && name !in position
    ensures var now := requests + [Request(name, !declared[n].optional)];
            Merged(defaults, declared, n + 1, now) && Positions(position[name := |requests|], now)
  {
    hide RoleNames.TrimSpace;
    var now := requests + [Request(name, !declared[n].optional)];
    assert forall i :: 0 <= i < |requests| ==> now[i] == requests[i] && requests[i].name != name;
    forall x | x in defaults || LastDeclared(declared, n + 1, x).Some? ensures Requested(now, x) {
      if x == name {
        assert now[|requests|].name == x;
      } else {
        assert Requested(requests, x);
        var i :| 0 <= i < |requests| && requests[i].name == x;
        assert now[i].name == x;
      }
    }
  }

  /** An appended name comes after all the declared ones there are. */
  lemma AppendsInOrder(defaults: seq<string>, declared: seq<Declaration>, n: nat, requests: seq<Request>, r: Request)
    requires n < |declared| && Merged(defaults, declared, n, requests) && InOrder(defaults, declared, n, requests)
    requires r.name == RoleNames.TrimSpace(declared[n].name) && forall i :: 0 <= i < |requests| ==> requests[i].name != r.name
    ensures InOrder(defaults, declared, n + 1, requests + [r])
  {
    hide RoleNames.TrimSpace;
    forall l | 0 <= l < n ensures RoleNames.TrimSpace(declared[l].name) != r.name {
      if RoleNames.TrimSpace(declared[l].name) == r.name {
        DeclaredSome(declared, n, l);
        assert false;
      }
    }
    forall i | |defaults| <= i < |requests| ensures DeclaredBefore(declared, n + 1, requests[i].name, r.name) {
      assert Asked(defaults, declared, n, requests[i].name, requests[i]);
      forall k | 0 <= k < |defaults| ensures defaults[k] != requests[i].name {
        assert requests[k].name == defaults[k];
      }
      SomeDeclared(declared, n, requests[i].name);
    }
    forall i, j | |defaults| <= i < j < |requests| ensures DeclaredBefore(declared, n + 1, requests[i].name, requests[j].name) {
      assert DeclaredBefore(declared, n, requests[i].name, requests[j].name);
    }
  }

  lemma {:induction false} DeclaredSome(declared: seq<Declaration>, n: nat, l: nat)
    requires l < n <= |declared|
    ensures LastDeclared(declared, n, RoleNames.TrimSpace(declared[l].name)).Some?
    decreases n
  {
    hide RoleNames.TrimSpace;
    if l < n - 1 { DeclaredSome(declared, n - 1, l); }
  }

  lemma {:induction false} SomeDeclared(declared: seq<Declaration>, n: nat, name: string)
    requires n <= |declared| && LastDeclared(declared, n, name).Some?
    ensures exists k :: 0 <= k < n && RoleNames.TrimSpace(declared[k].name) == name
    decreases n
  {
    hide RoleNames.TrimSpace;
    if RoleNames.TrimSpace(declared[n - 1].name) != name { SomeDeclared(declared, n - 1, name); }
  }

  /** A replaced request keeps its place. */
  lemma ReplacesInOrder(defaults: seq<string>, declared: seq<Declaration>, n: nat, requests: seq<Request>, at: nat, r: Request)
    requires n < |declared| && at < |requests| && requests[at].name == r.name && InOrder(defaults, declared, n, requests)
    ensures InOrder(defaults, declared, n + 1, requests[at := r])
  {
    hide RoleNames.TrimSpace;
    var now := requests[at := r];
    forall i, j | |defaults| <= i < j < |now| ensures DeclaredBefore(declared, n + 1, now[i].name, now[j].name) {
      assert DeclaredBefore(declared, n, requests[i].name, requests[j].name);
    }
  }

  /** Each name once, in the order first seen; a declaration outranks a default, and a later one an earlier. */
  method ResolveExtensions(defaults: seq<string>, declared: seq<Declaration>) returns (r: Option<seq<Request>>)
    requires Distinct(defaults)
    ensures r.Some? <==> forall i :: 0 <= i < |declared| ==> NameOk(RoleNames.TrimSpace(declared[i].name))
    ensures r.Some? ==> Merged(defaults, declared, |declared|, r.value) && InOrder(defaults, declared, |declared|, r.value)
    ensures r.None? <==> exists i :: 0 <= i < |declared| && Unsafe(RoleNames.TrimSpace(declared[i].name))
  {
    hide RoleNames.TrimSpace, NameOk, Merged, Positions, InOrder, Unsafe;
    forall i | 0 <= i < |declared|
      ensures NameOk(RoleNames.TrimSpace(declared[i].name)) <==> !Unsafe(RoleNames.TrimSpace(declared[i].name))
    {
      UnsafeMeans(RoleNames.TrimSpace(declared[i].name));
    }
    var requests: seq<Request>, position: map<string, nat> := Defaults(defaults);
    StartsMerged(defaults, declared, requests);
    var i := 0;
    while i < |declared|
      invariant 0 <= i <= |declared|
      invariant Merged(defaults, declared, i, requests) && Positions(position, requests)
      invariant InOrder(defaults, declared, i, requests)
      invariant forall j :: 0 <= j < i ==> NameOk(RoleNames.TrimSpace(declared[j].name))
      invariant forall x :: x in position ==> position[x] < |requests|
    {
      var name := RoleNames.TrimSpace(declared[i].name);
      if !NameOk(name) {
        return None;
      }
      var request := Request(name, !declared[i].optional);
      if name in position {
        Replaces(defaults, declared, i, requests, position, name);
        Placed(position, requests, name);
        ReplacesInOrder(defaults, declared, i, requests, position[name], request);
        requests := requests[position[name] := request];
      } else {
        Appends(defaults, declared, i, requests, position, name);
        Placed(position, requests, name);
        AppendsInOrder(defaults, declared, i, requests, request);
        position := position[name := |requests|];
        requests := requests + [request];
      }
      i := i + 1;
    }
    r := Some(requests);
  }

  /** The last declaration of a name decides whether it is required; a default nobody declares is not. */
  lemma LastDecides(defaults: seq<string>, declared: seq<Declaration>, requests: seq<Request>, i: nat)
    requires Merged(defaults, declared, |declared|, requests) && i < |declared|
    requires forall j :: i < j < |declared| ==> RoleNames.TrimSpace(declared[j].name) != RoleNames.TrimSpace(declared[i].name)
    ensures declared[i].optional ==> Request(RoleNames.TrimSpace(declared[i].name), false) in requests
    ensures !declared[i].optional ==> Request(RoleNames.TrimSpace(declared[i].name), true) in requests
  {
    hide RoleNames.TrimSpace;
    var name := RoleNames.TrimSpace(declared[i].name);
    LastIs(declared, |declared|, i);
    assert Requested(requests, name);
  }

  lemma {:induction false} LastIs(declared: seq<Declaration>, n: nat, i: nat)
    requires i < n <= |declared|
    requires forall j :: i < j < n ==> RoleNames.TrimSpace(declared[j].name) != RoleNames.TrimSpace(declared[i].name)
    ensures LastDeclared(declared, n, RoleNames.TrimSpace(declared[i].name)) == Some(declared[i])
    decreases n
  {
    hide RoleNames.TrimSpace;
    if i < n - 1 { LastIs(declared, n - 1, i); }
  }

  lemma DefaultsStay(defaults: seq<string>, declared: seq<Declaration>, requests: seq<Request>, name: string)
    requires Merged(defaults, declared, |declared|, requests) && name in defaults
    requires forall j :: 0 <= j < |declared| ==> RoleNames.TrimSpace(declared[j].name) != name
    ensures Request(name, false) in requests
  {
    hide RoleNames.TrimSpace;
    NeverDeclared(declared, |declared|, name);
    assert Requested(requests, name);
  }

  lemma {:induction false} NeverDeclared(declared: seq<Declaration>, n: nat, name: string)
    requires n <= |declared| && forall j :: 0 <= j < n ==> RoleNames.TrimSpace(declared[j].name) != name
    ensures LastDeclared(declared, n, name) == None
    decreases n
  {
    hide RoleNames.TrimSpace;
    if n > 0 { NeverDeclared(declared, n - 1, name); }
  }

  method Defaults(defaults: seq<string>) returns (requests: seq<Request>, position: map<string, nat>)
    requires Distinct(defaults)
    ensures |requests| == |defaults| && forall i :: 0 <= i < |defaults| ==> requests[i] == Request(defaults[i], false)
    ensures Positions(position, requests)
    ensures forall x :: x in position ==> position[x] < |requests|
  {
    requests, position := [], map[];
    for i := 0 to |defaults|
      invariant |requests| == i && forall j :: 0 <= j < i ==> requests[j] == Request(defaults[j], false)
      invariant Positions(position, requests)
    {
      position := position[defaults[i] := |requests|];
      requests := requests + [Request(defaults[i], false)];
    }
  }

  lemma StartsMerged(defaults: seq<string>, declared: seq<Declaration>, requests: seq<Request>)
    requires Distinct(defaults) && |requests| == |defaults|
    requires forall i :: 0 <= i < |defaults| ==> requests[i] == Request(defaults[i], false)
    ensures Merged(defaults, declared, 0, requests) && InOrder(defaults, declared, 0, requests)
  {
    forall x | x in defaults ensures Requested(requests, x) {
      var i :| 0 <= i < |defaults| && defaults[i] == x;
      assert requests[i].name == x;
    }
  }
}
