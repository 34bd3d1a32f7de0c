/** Strings in byte order, which UTF-8 keeps as the order of code points, and their library sort. */
module Sorting {
  import opened Names

  predicate Le(a: string, b: string) {
    a == "" || (b != "" && (a[0] < b[0] || (a[0] == b[0] && Le(a[1..], b[1..]))))
  }

  predicate Lt(a: string, b: string) {
    Le(a, b) && a != b
  }

  lemma {:induction false} LeTotal(a: string, b: string)
    ensures Le(a, b) || Le(b, a)
    decreases |a|
  {
    if a != "" && b != "" { LeTotal(a[1..], b[1..]); }
  }

  lemma {:induction false} LeAntisymmetric(a: string, b: string)
    requires Le(a, b) && Le(b, a)
    ensures a == b
    decreases |a|
  {
    if a != "" && b != "" {
      LeAntisymmetric(a[1..], b[1..]);
      assert a == [a[0]] + a[1..] && b == [b[0]] + b[1..];
    }
  }

  lemma {:induction false} LeTransitive(a: string, b: string, c: string)
    requires Le(a, b) && Le(b, c)
    ensures Le(a, c)
    decreases |a|
  {
    if a != "" && a[0] == b[0] && b[0] == c[0] { LeTransitive(a[1..], b[1..], c[1..]); }
  }

  /** The order: a prefix comes first, and otherwise the smaller character at the first difference. */
  lemma {:induction false} LeByFirstDifference(a: string, b: string)
    ensures Le(a, b) <==> a <= b || exists i :: 0 <= i < |a| && i < |b| && a[..i] == b[..i] && a[i] < b[i]
    decreases |a|
  {
    if a != "" && b != "" && a[0] == b[0] {
      var x, y := a[1..], b[1..];
      LeByFirstDifference(x, y);
      assert a == [a[0]] + x && b == [b[0]] + y;
      if i :| 0 <= i < |x| && i < |y| && x[..i] == y[..i] && x[i] < y[i] {
        assert a[..i + 1] == [a[0]] + x[..i] && b[..i + 1] == [b[0]] + y[..i];
        assert a[i + 1] < b[i + 1];
      }
      if i :| 0 <= i < |a| && i < |b| && a[..i] == b[..i] && a[i] < b[i] {
        assert i > 0 && a[..i][1..] == x[..i - 1] && b[..i][1..] == y[..i - 1];
        assert x[i - 1] < y[i - 1];
      }
    } else if a != "" && b != "" {
      assert a[..0] == b[..0];
      forall i | 0 < i < |a| && i < |b| ensures a[..i] != b[..i] {
        assert a[..i][0] != b[..i][0];
      }
    }
  }

  ghost predicate Ordered(xs: seq<string>) {
    forall i, j :: 0 <= i < j < |xs| ==> Le(xs[i], xs[j])
  }

  function Insert(x: string, xs: seq<string>): seq<string> {
    if xs == [] || Le(x, xs[0]) then [x] + xs else [xs[0]] + Insert(x, xs[1..])
  }

  function SortStrings(xs: seq<string>): seq<string> {
    if xs == [] then [] else Insert(xs[0], SortStrings(xs[1..]))
  }

  lemma {:induction false} InsertOrders(x: string, xs: seq<string>)
    requires Ordered(xs)
    ensures Ordered(Insert(x, xs)) && multiset(Insert(x, xs)) == multiset(xs) + multiset{x}
    decreases |xs|
  {
    if xs != [] {
      LeTotal(x, xs[0]);
      assert xs == [xs[0]] + xs[1..];
      if Le(x, xs[0]) {
        forall j | 0 <= j < |xs| ensures Le(x, xs[j]) {
          if j > 0 { LeTransitive(x, xs[0], xs[j]); }
        }
      } else {
        InsertOrders(x, xs[1..]);
        var rest := Insert(x, xs[1..]);
        forall j | 0 <= j < |rest| ensures Le(xs[0], rest[j]) {
          assert rest[j] in multiset(rest);
          if rest[j] != x { assert rest[j] in xs[1..]; }
        }
      }
    }
  }

  lemma {:induction false} SortOrders(xs: seq<string>)
    ensures Ordered(SortStrings(xs)) && multiset(SortStrings(xs)) == multiset(xs)
    decreases |xs|
  {
    if xs != [] {
      SortOrders(xs[1..]);
      InsertOrders(xs[0], SortStrings(xs[1..]));
      assert xs == [xs[0]] + xs[1..];
    }
  }

  /** Sorting brings equal strings together: no neighbours equal, no two equal. */
  lemma NeighboursTell(xs: seq<string>)
    requires Ordered(xs)
    ensures Distinct(xs) <==> forall i :: 0 < i < |xs| ==> xs[i - 1] != xs[i]
  {
    if (forall i :: 0 < i < |xs| ==> xs[i - 1] != xs[i]) && !Distinct(xs) {
      var i, j :| 0 <= i < j < |xs| && xs[i] == xs[j];
      assert Le(xs[i], xs[j - 1]) && Le(xs[j - 1], xs[j]);
      LeAntisymmetric(xs[j - 1], xs[j]);
      assert false;
    }
  }

  lemma DistinctCons(xs: seq<string>)
    requires xs != []
    ensures Distinct(xs) <==> Distinct(xs[1..]) && xs[0] !in xs[1..]
  {
    assert forall i :: 0 < i < |xs| ==> xs[i] == xs[1..][i - 1];
    if Distinct(xs[1..]) && xs[0] !in xs[1..] {
      forall i, j | 0 <= i < j < |xs| ensures xs[i] != xs[j] {
        assert xs[j] == xs[1..][j - 1] && xs[1..][j - 1] in xs[1..];
      }
    }
  }

  lemma {:induction false} DistinctByCount(xs: seq<string>)
    ensures Distinct(xs) <==> forall x :: multiset(xs)[x] <= 1
    decreases |xs|
  {
    if xs != [] {
      var head, rest := xs[0], xs[1..];
      DistinctByCount(rest);
      DistinctCons(xs);
      assert xs == [head] + rest;
      assert multiset(xs) == multiset{head} + multiset(rest);
      assert head in rest <==> multiset(rest)[head] >= 1;
      forall x ensures multiset(xs)[x] == multiset(rest)[x] + (if x == head then 1 else 0) {
      }
      if Distinct(rest) && head in rest {
        assert multiset(xs)[head] > 1;
      }
      if x :| multiset(rest)[x] > 1 {
        assert multiset(xs)[x] > 1;
      }
    }
  }

  lemma SortKeepsDistinct(xs: seq<string>)
    ensures Distinct(SortStrings(xs)) <==> Distinct(xs)
    ensures forall x :: x in SortStrings(xs) <==> x in xs
  {
    SortOrders(xs);
    DistinctByCount(xs);
    DistinctByCount(SortStrings(xs));
    forall x ensures x in SortStrings(xs) <==> x in xs {
      assert x in SortStrings(xs) <==> x in multiset(SortStrings(xs));
      assert x in xs <==> x in multiset(xs);
    }
  }
}
