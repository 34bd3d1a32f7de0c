/** Volume mounts of a workload attachment (checkMounts in libs/go/workloadattachment/attachment.go). */
module Mounts {
  datatype Mount = Mount(volume: string, path: string, readOnly: bool)

  const MAX_MOUNTS := 16

  predicate Prefix(a: string, b: string) {
    |a| <= |b| && b[..|a|] == a
  }

  /** The path is the mount point or lies below it. */
  predicate Under(path: string, point: string) {
    path == point || Prefix(point + "/", path)
  }

  predicate Overlap(a: string, b: string) {
    Under(a, b) || Under(b, a)
  }

  /** Below a point means the point, a slash, and anything. */
  lemma UnderMeans(path: string, point: string)
    ensures Under(path, point) <==> path == point || exists rest :: path == point + "/" + rest
  {
    if Prefix(point + "/", path) { assert path == point + "/" + path[|point| + 1..]; }
    if rest :| path == point + "/" + rest { assert path[..|point| + 1] == point + "/"; }
  }

  /** Two points overlap exactly when some path lies under both. */
  lemma OverlapExactly(a: string, b: string)
    ensures Overlap(a, b) <==> exists path :: Under(path, a) && Under(path, b)
  {
    if Overlap(a, b) {
      var path := if Under(a, b) then a else b;
      assert Under(path, a) && Under(path, b);
    }
    if path :| Under(path, a) && Under(path, b) { CommonPathOverlaps(a, b, path); }
  }

  ghost predicate MountsOk(mounts: seq<Mount>, volumes: set<string>, valid: string -> bool, consumer: bool, repeated: bool) {
    && 1 <= |mounts| <= 16
    && (forall i :: 0 <= i < |mounts| ==>
          mounts[i].volume in volumes && valid(mounts[i].path) && (consumer ==> mounts[i].readOnly))
    && (forall i, j :: 0 <= i < j < |mounts| ==> !Overlap(mounts[i].path, mounts[j].path))
    && (!repeated ==> forall i, j :: 0 <= i < j < |mounts| ==> mounts[i].volume != mounts[j].volume)
  }

  method ClearOf(path: string, paths: seq<string>) returns (ok: bool)
    ensures ok <==> forall i :: 0 <= i < |paths| ==> !Overlap(paths[i], path)
  {
    for i := 0 to |paths|
      invariant forall j :: 0 <= j < i ==> !Overlap(paths[j], path)
    {
      if path == paths[i] || Prefix(paths[i] + "/", path) || Prefix(path + "/", paths[i]) {
        return false;
      }
    }
    ok := true;
  }

  method CheckMounts(mounts: seq<Mount>, volumes: set<string>, valid: string -> bool, consumer: bool, repeated: bool)
    returns (ok: bool)
    ensures ok <==> MountsOk(mounts, volumes, valid, consumer, repeated)
  {
    hide Overlap;
    var seen: set<string> := {};
    var paths: seq<string> := [];
    var i := 0;
    while i < |mounts|
      invariant 0 <= i <= |mounts| && |paths| == i
      invariant forall j :: 0 <= j < i ==> paths[j] == mounts[j].path
      invariant forall x :: x in seen <==> exists j :: 0 <= j < i && mounts[j].volume == x
      invariant forall j :: 0 <= j < i ==>
        mounts[j].volume in volumes && valid(mounts[j].path) && (consumer ==> mounts[j].readOnly)
      invariant forall j, k :: 0 <= j < k < i ==> !Overlap(mounts[j].path, mounts[k].path)
      invariant !repeated ==> forall j, k :: 0 <= j < k < i ==> mounts[j].volume != mounts[k].volume
    {
      var m := mounts[i];
      if m.volume !in volumes || (m.volume in seen && !repeated) || !valid(m.path) || (consumer && !m.readOnly) {
        return false;
      }
      seen := seen + {m.volume};
      var apart := ClearOf(m.path, paths);
      if !apart {
        ghost var j :| 0 <= j < i && Overlap(paths[j], m.path);
        assert Overlap(mounts[j].path, mounts[i].path);
        return false;
      }
      paths := paths + [m.path];
      i := i + 1;
    }
    ok := 0 < |mounts| <= MAX_MOUNTS;
  }

  lemma PrefixesNest(a: string, b: string, f: string)
    requires Prefix(a, f) && Prefix(b, f) && |a| <= |b|
    ensures Prefix(a, b)
  {
    assert b[..|a|] == f[..|a|];
  }

  lemma CommonPathOverlaps(a: string, b: string, path: string)
    requires Under(path, a) && Under(path, b)
    ensures Overlap(a, b)
  {
    if path != a && path != b {
      if |a| <= |b| {
        PrefixesNest(a + "/", b + "/", path);
        if |a| < |b| { assert b == (b + "/")[..|b|]; assert (a + "/") == b[..|a| + 1]; }
        else { assert a == (a + "/")[..|a|] && b == (b + "/")[..|b|]; }
      } else {
        PrefixesNest(b + "/", a + "/", path);
        assert a == (a + "/")[..|a|];
        assert (b + "/") == a[..|b| + 1];
      }
    }
  }

  /** Of accepted mounts, no path whatever is reached through two. */
  lemma NoPathUnderTwoMounts(mounts: seq<Mount>, volumes: set<string>, valid: string -> bool, consumer: bool, repeated: bool,
                             path: string, i: nat, j: nat)
    requires MountsOk(mounts, volumes, valid, consumer, repeated) && i < |mounts| && j < |mounts|
    requires Under(path, mounts[i].path) && Under(path, mounts[j].path)
    ensures i == j
  {
    CommonPathOverlaps(mounts[i].path, mounts[j].path, path);
    CommonPathOverlaps(mounts[j].path, mounts[i].path, path);
  }
}
