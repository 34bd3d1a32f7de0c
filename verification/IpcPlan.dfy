/**
 * Which semaphore sets a recovery pass may name, said without any scan: over the set of
 * candidate rows, so that neither the order of the rows nor the order in which a map is
 * visited can matter.
 */
module IpcPlan {
  import opened IpcRows

  ghost function Candidates(rows: seq<SemRow>, user: string): set<SemRow> {
    set r | r in rows && Eligible(r, user)
  }

  ghost function LiveBases(rows: seq<SharedRow>, user: string, alive: int -> bool): set<Key> {
    set r | r in rows && LiveControl(r, user, alive) :: r.key
  }

  ghost function DeadBases(rows: seq<SharedRow>, user: string, alive: int -> bool): set<Key> {
    set r | r in rows && DeadControl(r, user, alive) :: r.key
  }

  /** The key lies within a live control segment's span. */
  ghost predicate Live(active: set<Key>, k: int) {
    exists b :: b in active && b < k <= b + KEY_SPAN
  }

  ghost predicate HasKey(rows: set<SemRow>, k: int) {
    exists r :: r in rows && r.key == k
  }

  ghost predicate Quiet(rows: set<SemRow>, active: set<Key>, lo: int, hi: int) {
    forall r :: r in rows && lo <= r.key <= hi ==> !Live(active, r.key)
  }

  // ---------- first phase: maximal runs of consecutive keys ----------

  ghost predicate IsRun(rows: set<SemRow>, lo: int, hi: int) {
    && lo <= hi
    && (forall k :: lo <= k <= hi ==> HasKey(rows, k))
    && !HasKey(rows, lo - 1)
    && !HasKey(rows, hi + 1)
  }

  ghost predicate OneCreation(rows: set<SemRow>, lo: int, hi: int) {
    exists when: string :: when != "" && CreatedAt(rows, lo, hi, when)
  }

  ghost predicate CreatedAt(rows: set<SemRow>, lo: int, hi: int, when: string) {
    forall r :: r in rows && lo <= r.key <= hi ==> r.createdAt == when
  }

  ghost predicate RunPicked(rows: set<SemRow>, active: set<Key>, dead: set<Key>, lo: int, hi: int) {
    Quiet(rows, active, lo, hi) && (lo - 1 in dead || (lo < hi && OneCreation(rows, lo, hi)))
  }

  ghost predicate First(rows: set<SemRow>, active: set<Key>, dead: set<Key>, r: SemRow) {
    r in rows && exists lo, hi :: IsRun(rows, lo, hi) && lo <= r.key <= hi && RunPicked(rows, active, dead, lo, hi)
  }

  lemma RunsAgree(rows: set<SemRow>, lo: int, hi: int, lo': int, hi': int, k: int)
    requires IsRun(rows, lo, hi) && IsRun(rows, lo', hi')
    requires lo <= k <= hi && lo' <= k <= hi'
    ensures lo == lo' && hi == hi'
  {
    assert lo < lo' ==> HasKey(rows, lo' - 1);
    assert lo' < lo ==> HasKey(rows, lo - 1);
    assert hi < hi' ==> HasKey(rows, hi + 1);
    assert hi' < hi ==> HasKey(rows, hi' + 1);
  }

  /** One decision for a whole run. */
  lemma RunDecides(rows: set<SemRow>, active: set<Key>, dead: set<Key>, lo: int, hi: int, r: SemRow)
    requires r in rows && IsRun(rows, lo, hi) && lo <= r.key <= hi
    ensures First(rows, active, dead, r) <==> RunPicked(rows, active, dead, lo, hi)
  {
    if First(rows, active, dead, r) {
      var lo', hi' :| IsRun(rows, lo', hi') && lo' <= r.key <= hi' && RunPicked(rows, active, dead, lo', hi');
      RunsAgree(rows, lo, hi, lo', hi', r.key);
    }
  }

  lemma {:induction false} Down(rows: set<SemRow>, k: int) returns (lo: int)
    requires HasKey(rows, k)
    ensures lo <= k && !HasKey(rows, lo - 1) && forall x :: lo <= x <= k ==> HasKey(rows, x)
    decreases k
  {
    assert k >= 0;
    if HasKey(rows, k - 1) { lo := Down(rows, k - 1); } else { lo := k; }
  }

  lemma {:induction false} Up(rows: set<SemRow>, k: int) returns (hi: int)
    requires HasKey(rows, k)
    ensures k <= hi && !HasKey(rows, hi + 1) && forall x :: k <= x <= hi ==> HasKey(rows, x)
    decreases KEYS - k
  {
    assert k < KEYS;
    if HasKey(rows, k + 1) { hi := Up(rows, k + 1); } else { hi := k; }
  }

  /** The runs partition the rows: every row lies in one run and in no other. */
  lemma EveryRowInOneRun(rows: set<SemRow>, r: SemRow) returns (lo: int, hi: int)
    requires r in rows
    ensures IsRun(rows, lo, hi) && lo <= r.key <= hi
    ensures forall lo', hi' :: IsRun(rows, lo', hi') && lo' <= r.key <= hi' ==> lo' == lo && hi' == hi
  {
    assert HasKey(rows, r.key);
    lo := Down(rows, r.key);
    hi := Up(rows, r.key);
    forall lo', hi' | IsRun(rows, lo', hi') && lo' <= r.key <= hi' ensures lo' == lo && hi' == hi {
      RunsAgree(rows, lo, hi, lo', hi', r.key);
    }
  }

  // ---------- second phase: clusters of one creation time ----------

  /** The rows of one creation time that the first phase left. */
  ghost function Left(rows: set<SemRow>, active: set<Key>, dead: set<Key>, when: string): set<SemRow> {
    set r | r in rows && !First(rows, active, dead, r) && r.createdAt == when
  }

  ghost predicate NoKeyBelow(rows: set<SemRow>, k: int) {
    forall r :: r in rows ==> r.key >= k
  }

  ghost predicate NoKeyBetween(rows: set<SemRow>, lo: int, hi: int) {
    forall r :: r in rows && r.key < hi ==> r.key <= lo
  }

  /** The least key, or the least key out of reach of the start before it. */
  ghost predicate ClusterStart(rows: set<SemRow>, k: nat)
    decreases k
  {
    && HasKey(rows, k)
    && (NoKeyBelow(rows, k)
        || exists p: nat :: p < k && ClusterStart(rows, p) && p + KEY_SPAN < k && NoKeyBetween(rows, p + KEY_SPAN, k))
  }

  ghost predicate Accompanied(rows: set<SemRow>, s: int, r: SemRow) {
    exists o :: o in rows && o != r && s <= o.key <= s + KEY_SPAN
  }

  ghost predicate Second(rows: set<SemRow>, active: set<Key>, r: SemRow) {
    r in rows && exists s: nat :: ClusterStart(rows, s) && s <= r.key <= s + KEY_SPAN
                                  && Quiet(rows, active, s, s + KEY_SPAN) && Accompanied(rows, s, r)
  }

  lemma {:induction false} StartsApart(rows: set<SemRow>, s: nat, t: nat)
    requires ClusterStart(rows, s) && ClusterStart(rows, t) && s < t
    ensures s + KEY_SPAN < t
    decreases t
  {
    assert HasKey(rows, s);
    assert !NoKeyBelow(rows, t);
    var p: nat :| p < t && ClusterStart(rows, p) && p + KEY_SPAN < t && NoKeyBetween(rows, p + KEY_SPAN, t);
    if s < p {
      StartsApart(rows, s, p);
    } else if p < s {
      StartsApart(rows, p, s);
    }
  }

  /** One decision for a whole cluster. */
  lemma ClusterDecides(rows: set<SemRow>, active: set<Key>, s: nat, r: SemRow)
    requires r in rows && ClusterStart(rows, s) && s <= r.key <= s + KEY_SPAN
    ensures Second(rows, active, r) <==> Quiet(rows, active, s, s + KEY_SPAN) && Accompanied(rows, s, r)
  {
    if Second(rows, active, r) {
      var t: nat :| ClusterStart(rows, t) && t <= r.key <= t + KEY_SPAN
                    && Quiet(rows, active, t, t + KEY_SPAN) && Accompanied(rows, t, r);
      if s < t { StartsApart(rows, s, t); }
      if t < s { StartsApart(rows, t, s); }
    }
  }

  lemma {:induction false} LatestStart(rows: set<SemRow>, k: nat) returns (s: nat)
    requires exists r :: r in rows && r.key <= k
    ensures ClusterStart(rows, s) && s <= k && NoKeyBetween(rows, s + KEY_SPAN, k + 1)
    decreases k
  {
    if k > 0 && !NoKeyBelow(rows, k) {
      s := LatestStart(rows, k - 1);
      if HasKey(rows, k) && s + KEY_SPAN < k {
        assert ClusterStart(rows, k);
        s := k;
      }
    } else {
      assert HasKey(rows, k);
      s := k;
    }
  }

  /** The clusters partition the rows: every row lies in one cluster and in no other. */
  lemma EveryRowInOneCluster(rows: set<SemRow>, r: SemRow) returns (s: nat)
    requires r in rows
    ensures ClusterStart(rows, s) && s <= r.key <= s + KEY_SPAN
    ensures forall t: nat :: ClusterStart(rows, t) && t <= r.key <= t + KEY_SPAN ==> t == s
  {
    s := LatestStart(rows, r.key);
    forall t: nat | ClusterStart(rows, t) && t <= r.key <= t + KEY_SPAN ensures t == s {
      if s < t { StartsApart(rows, s, t); }
      if t < s { StartsApart(rows, t, s); }
    }
  }

  // ---------- the plan ----------

  ghost predicate Named(rows: set<SemRow>, active: set<Key>, dead: set<Key>, r: SemRow) {
    || First(rows, active, dead, r)
    || Second(Left(rows, active, dead, r.createdAt), active, r)
  }

  ghost predicate Increasing(ids: seq<int>) {
    forall i, j :: 0 <= i < j < |ids| ==> ids[i] < ids[j]
  }

  /** The ids of the sets to remove, each once, in increasing order. */
  ghost predicate IsPlan(ids: seq<int>, semRows: seq<SemRow>, user: string, active: set<Key>, dead: set<Key>) {
    && Increasing(ids)
    && forall x :: x in ids <==> IdNamed(x, Candidates(semRows, user), active, dead)
  }

  ghost predicate IdNamed(x: int, rows: set<SemRow>, active: set<Key>, dead: set<Key>) {
    exists r :: r in rows && r.id == x && Named(rows, active, dead, r)
  }

  /** The dead control segments to remove. */
  ghost predicate IsSharedPlan(ids: seq<int>, sharedRows: seq<SharedRow>, user: string, alive: int -> bool) {
    && Increasing(ids)
    && forall x :: x in ids <==> exists r :: r in sharedRows && r.id == x && DeadControl(r, user, alive)
  }

  lemma {:induction false} IncreasingUnique(a: seq<int>, b: seq<int>)
    requires Increasing(a) && Increasing(b) && forall x :: x in a <==> x in b
    ensures a == b
    decreases |a|
  {
    if a != [] { assert a[0] in a; }
    if b != [] { assert b[0] in b; }
    if a != [] {
      assert a[0] in b && b[0] in a;
      assert a[0] == b[0];
      forall x ensures x in a[1..] <==> x in b[1..] {
        TailOf(a, x);
        TailOf(b, x);
      }
      IncreasingUnique(a[1..], b[1..]);
    }
  }

  lemma TailOf(a: seq<int>, x: int)
    requires Increasing(a) && a != []
    ensures x in a[1..] <==> x in a && x != a[0]
  {
    assert a == [a[0]] + a[1..];
  }

  /** Two listings of the same rows, in any order, have the same plan. */
  lemma PlanIgnoresOrder(a: seq<int>, b: seq<int>, rows: seq<SemRow>, rows': seq<SemRow>,
                         shared: seq<SharedRow>, shared': seq<SharedRow>, user: string, alive: int -> bool)
    requires multiset(rows) == multiset(rows') && multiset(shared) == multiset(shared')
    requires IsPlan(a, rows, user, LiveBases(shared, user, alive), DeadBases(shared, user, alive))
    requires IsPlan(b, rows', user, LiveBases(shared', user, alive), DeadBases(shared', user, alive))
    ensures a == b
  {
    forall r ensures r in rows <==> r in rows' {
      assert r in rows <==> r in multiset(rows);
      assert r in rows' <==> r in multiset(rows');
    }
    forall r ensures r in shared <==> r in shared' {
      assert r in shared <==> r in multiset(shared);
      assert r in shared' <==> r in multiset(shared');
    }
    assert Candidates(rows, user) == Candidates(rows', user);
    assert LiveBases(shared, user, alive) == LiveBases(shared', user, alive);
    assert DeadBases(shared, user, alive) == DeadBases(shared', user, alive);
    IncreasingUnique(a, b);
  }

  lemma SharedPlanIgnoresOrder(a: seq<int>, b: seq<int>, shared: seq<SharedRow>, shared': seq<SharedRow>,
                               user: string, alive: int -> bool)
    requires multiset(shared) == multiset(shared')
    requires IsSharedPlan(a, shared, user, alive) && IsSharedPlan(b, shared', user, alive)
    ensures a == b
  {
    forall r ensures r in shared <==> r in shared' {
      assert r in shared <==> r in multiset(shared);
      assert r in shared' <==> r in multiset(shared');
    }
    IncreasingUnique(a, b);
  }

  // ---------- the shapes on the rows, as the tables print them ----------

  /** A semaphore set as PostgreSQL makes them for this user. */
  predicate SetShape(r: SemRow, user: string) {
    r.key > 0 && r.owner == user && r.mode == "--ra-------" && r.semaphores == 20
  }

  predicate ControlShape(c: SharedRow, user: string) {
    c.owner == user && c.size == 56 && c.creatorPid > 1
  }

  /** A control segment in use guards the 1024 keys after its own. */
  predicate Guards(c: SharedRow, user: string, alive: int -> bool, k: int) {
    ControlShape(c, user) && (c.attachments > 0 || alive(c.creatorPid)) && c.key < k <= c.key + 1024
  }

  predicate Abandoned(c: SharedRow, user: string, alive: int -> bool) {
    ControlShape(c, user) && !(c.attachments > 0) && !alive(c.creatorPid)
  }

  ghost predicate SetAt(rows: seq<SemRow>, user: string, k: int) {
    exists r :: r in rows && SetShape(r, user) && r.key == k
  }

  ghost predicate Unguarded(shared: seq<SharedRow>, user: string, alive: int -> bool, k: int) {
    forall c :: c in shared ==> !Guards(c, user, alive, k)
  }

  /** The user's sets at lo to hi, with none right before or after, all unguarded. */
  ghost predicate Stretch(rows: seq<SemRow>, shared: seq<SharedRow>, user: string, alive: int -> bool, lo: int, hi: int) {
    && (forall k :: lo <= k <= hi ==> SetAt(rows, user, k) && Unguarded(shared, user, alive, k))
    && !SetAt(rows, user, lo - 1) && !SetAt(rows, user, hi + 1)
  }

  lemma CandidateKeys(rows: seq<SemRow>, user: string, k: int)
    ensures HasKey(Candidates(rows, user), k) <==> SetAt(rows, user, k)
  {
    if SetAt(rows, user, k) {
      var r :| r in rows && SetShape(r, user) && r.key == k;
      assert r in Candidates(rows, user);
    }
    if r :| r in Candidates(rows, user) && r.key == k { assert SetShape(r, user); }
  }

  lemma UnguardedIsQuiet(shared: seq<SharedRow>, user: string, alive: int -> bool, k: int)
    requires Unguarded(shared, user, alive, k)
    ensures !Live(LiveBases(shared, user, alive), k)
  {
    if b :| b in LiveBases(shared, user, alive) && b < k <= b + KEY_SPAN {
      var c :| c in shared && LiveControl(c, user, alive) && c.key == b;
      assert Guards(c, user, alive, k);
    }
  }

  lemma StretchIsQuietRun(rows: seq<SemRow>, shared: seq<SharedRow>, user: string, alive: int -> bool, lo: int, hi: int)
    requires lo <= hi && Stretch(rows, shared, user, alive, lo, hi)
    ensures IsRun(Candidates(rows, user), lo, hi)
    ensures Quiet(Candidates(rows, user), LiveBases(shared, user, alive), lo, hi)
  {
    hide Candidates, LiveBases, HasKey, SetAt, Live, Unguarded;
    CandidateKeys(rows, user, lo - 1);
    CandidateKeys(rows, user, hi + 1);
    forall k | lo <= k <= hi
      ensures HasKey(Candidates(rows, user), k) && !Live(LiveBases(shared, user, alive), k)
    {
      CandidateKeys(rows, user, k);
      UnguardedIsQuiet(shared, user, alive, k);
    }
  }

  // ---------- what the plan names ----------

  lemma PickedIsNamed(ids: seq<int>, rows: seq<SemRow>, user: string, active: set<Key>, dead: set<Key>, lo: int, hi: int, r: SemRow)
    requires IsPlan(ids, rows, user, active, dead) && r in rows && SetShape(r, user) && lo <= r.key <= hi
    requires IsRun(Candidates(rows, user), lo, hi) && RunPicked(Candidates(rows, user), active, dead, lo, hi)
    ensures r.id in ids
  {
    assert r in Candidates(rows, user);
    assert Named(Candidates(rows, user), active, dead, r);
    assert IdNamed(r.id, Candidates(rows, user), active, dead);
  }

  /** Every set in a stretch that begins one past an abandoned control segment is named, a single one included. */
  lemma NamedBesideAbandoned(ids: seq<int>, rows: seq<SemRow>, shared: seq<SharedRow>, user: string, alive: int -> bool,
                             c: SharedRow, hi: int, r: SemRow)
    requires IsPlan(ids, rows, user, LiveBases(shared, user, alive), DeadBases(shared, user, alive))
    requires c in shared && Abandoned(c, user, alive) && Stretch(rows, shared, user, alive, c.key + 1, hi)
    requires r in rows && SetShape(r, user) && c.key < r.key <= hi
    ensures r.id in ids
  {
    hide Stretch, IsPlan, LiveBases, Candidates;
    StretchIsQuietRun(rows, shared, user, alive, c.key + 1, hi);
    assert c.key in DeadBases(shared, user, alive);
    PickedIsNamed(ids, rows, user, LiveBases(shared, user, alive), DeadBases(shared, user, alive), c.key + 1, hi, r);
  }

  /** So is every set in a stretch of two or more made at one known time, beside no segment at all. */
  lemma NamedTogether(ids: seq<int>, rows: seq<SemRow>, shared: seq<SharedRow>, user: string, alive: int -> bool,
                      lo: int, hi: int, when: string, r: SemRow)
    requires IsPlan(ids, rows, user, LiveBases(shared, user, alive), DeadBases(shared, user, alive))
    requires lo < hi && Stretch(rows, shared, user, alive, lo, hi) && when != ""
    requires forall o :: o in rows && SetShape(o, user) && lo <= o.key <= hi ==> o.createdAt == when
    requires r in rows && SetShape(r, user) && lo <= r.key <= hi
    ensures r.id in ids
  {
    StretchIsQuietRun(rows, shared, user, alive, lo, hi);
    var all := Candidates(rows, user);
    assert CreatedAt(all, lo, hi, when);
    hide Stretch, IsPlan, LiveBases, Candidates;
    PickedIsNamed(ids, rows, user, LiveBases(shared, user, alive), DeadBases(shared, user, alive), lo, hi, r);
  }

  /** No set of this creation time lies just before lo, and none from there on is guarded. */
  ghost predicate Neighbourhood(rows: seq<SemRow>, shared: seq<SharedRow>, user: string, alive: int -> bool, when: string, lo: int) {
    forall o :: o in rows && SetShape(o, user) && o.createdAt == when && lo - 1024 <= o.key <= lo + 2048 ==>
      o.key >= lo && Unguarded(shared, user, alive, o.key)
  }

  /**
   * Holes do not save a broken run: of the sets of one creation time within 1024 keys, with none of
   * that time just before them and none of them guarded, at most one is not named.
   */
  lemma AtMostOneUnnamed(ids: seq<int>, rows: seq<SemRow>, shared: seq<SharedRow>, user: string, alive: int -> bool,
                         when: string, lo: int, r: SemRow, o: SemRow)
    requires IsPlan(ids, rows, user, LiveBases(shared, user, alive), DeadBases(shared, user, alive))
    requires Neighbourhood(rows, shared, user, alive, when, lo)
    requires r in rows && SetShape(r, user) && r.createdAt == when && lo <= r.key <= lo + 1024
    requires o in rows && SetShape(o, user) && o.createdAt == when && lo <= o.key <= lo + 1024 && o != r
    ensures r.id in ids || o.id in ids
  {
    var all, active, dead := Candidates(rows, user), LiveBases(shared, user, alive), DeadBases(shared, user, alive);
    assert r in all && o in all;
    if !Named(all, active, dead, r) && !Named(all, active, dead, o) {
      LeftTogether(rows, shared, user, alive, when, lo, r, o);
    }
    assert Named(all, active, dead, r) ==> IdNamed(r.id, all, active, dead);
    assert Named(all, active, dead, o) ==> IdNamed(o.id, all, active, dead);
  }

  /** Two sets that the first phase leaves share a cluster of the second. */
  lemma LeftTogether(rows: seq<SemRow>, shared: seq<SharedRow>, user: string, alive: int -> bool,
                     when: string, lo: int, r: SemRow, o: SemRow)
    requires Neighbourhood(rows, shared, user, alive, when, lo) && o != r
    requires r in rows && SetShape(r, user) && r.createdAt == when && lo <= r.key <= lo + 1024
    requires o in rows && SetShape(o, user) && o.createdAt == when && lo <= o.key <= lo + 1024
    ensures var all, active, dead := Candidates(rows, user), LiveBases(shared, user, alive), DeadBases(shared, user, alive);
            Named(all, active, dead, r) || Named(all, active, dead, o)
  {
    var all, active, dead := Candidates(rows, user), LiveBases(shared, user, alive), DeadBases(shared, user, alive);
    assert r in all && o in all;
    if !First(all, active, dead, r) && !First(all, active, dead, o) {
      var left := Left(all, active, dead, when);
      assert r in left && o in left;
      var s := EveryRowInOneCluster(left, r);
      var t := EveryRowInOneCluster(left, o);
      StartsAfter(rows, shared, user, alive, when, lo, left, s);
      StartsAfter(rows, shared, user, alive, when, lo, left, t);
      if s < t { StartsApart(left, s, t); }
      if t < s { StartsApart(left, t, s); }
      QuietFrom(rows, shared, user, alive, when, lo, left, s);
      assert Accompanied(left, s, r);
      assert Second(left, active, r);
    }
  }

  /** A cluster that reaches lo or beyond starts there or beyond. */
  lemma StartsAfter(rows: seq<SemRow>, shared: seq<SharedRow>, user: string, alive: int -> bool,
                    when: string, lo: int, left: set<SemRow>, s: nat)
    requires Neighbourhood(rows, shared, user, alive, when, lo)
    requires forall q :: q in left ==> q in rows && SetShape(q, user) && q.createdAt == when
    requires HasKey(left, s) && lo - 1024 <= s <= lo + 1024
    ensures lo <= s
  {
    var q :| q in left && q.key == s;
  }

  lemma QuietFrom(rows: seq<SemRow>, shared: seq<SharedRow>, user: string, alive: int -> bool,
                  when: string, lo: int, left: set<SemRow>, s: nat)
    requires Neighbourhood(rows, shared, user, alive, when, lo)
    requires forall q :: q in left ==> q in rows && SetShape(q, user) && q.createdAt == when
    requires lo <= s <= lo + 1024
    ensures Quiet(left, LiveBases(shared, user, alive), s, s + KEY_SPAN)
  {
    forall q | q in left && s <= q.key <= s + KEY_SPAN ensures !Live(LiveBases(shared, user, alive), q.key) {
      UnguardedIsQuiet(shared, user, alive, q.key);
    }
  }

  /** Of the shared segments exactly the abandoned control segments are named. */
  lemma SharedPlanExactly(ids: seq<int>, shared: seq<SharedRow>, user: string, alive: int -> bool, x: int)
    requires IsSharedPlan(ids, shared, user, alive)
    ensures x in ids <==> exists c :: c in shared && c.id == x && Abandoned(c, user, alive)
  {
    forall c | c in shared ensures DeadControl(c, user, alive) <==> Abandoned(c, user, alive) {
    }
    if c :| c in shared && c.id == x && Abandoned(c, user, alive) { assert DeadControl(c, user, alive); }
  }

  // ---------- what the plan spares ----------

  /** A named set belongs to a maximal run that starts one past a dead segment's key. */
  ghost predicate BesideDeadSegment(rows: set<SemRow>, dead: set<Key>, r: SemRow) {
    exists lo, hi :: IsRun(rows, lo, hi) && lo <= r.key <= hi && lo - 1 in dead
  }

  ghost predicate Companion(rows: set<SemRow>, active: set<Key>, dead: set<Key>, r: SemRow, o: SemRow) {
    && o in rows && o != r && Named(rows, active, dead, o)
    && o.createdAt == r.createdAt && o.key <= r.key + KEY_SPAN && r.key <= o.key + KEY_SPAN
  }

  lemma FirstIsSafe(rows: set<SemRow>, active: set<Key>, dead: set<Key>, r: SemRow)
    requires First(rows, active, dead, r)
    ensures !Live(active, r.key)
    ensures BesideDeadSegment(rows, dead, r) || exists o :: Companion(rows, active, dead, r, o)
  {
    var lo, hi :| IsRun(rows, lo, hi) && lo <= r.key <= hi && RunPicked(rows, active, dead, lo, hi);
    if lo - 1 !in dead {
      var k := if r.key < hi then r.key + 1 else r.key - 1;
      assert HasKey(rows, k);
      var o :| o in rows && o.key == k;
      RunDecides(rows, active, dead, lo, hi, o);
      var when :| when != "" && CreatedAt(rows, lo, hi, when);
      assert o.createdAt == when && r.createdAt == when;
      assert Companion(rows, active, dead, r, o);
    }
  }

  lemma SecondIsSafe(rows: set<SemRow>, active: set<Key>, dead: set<Key>, r: SemRow)
    requires Second(Left(rows, active, dead, r.createdAt), active, r)
    ensures !Live(active, r.key)
    ensures exists o :: Companion(rows, active, dead, r, o)
  {
    var left := Left(rows, active, dead, r.createdAt);
    var s: nat :| ClusterStart(left, s) && s <= r.key <= s + KEY_SPAN
                  && Quiet(left, active, s, s + KEY_SPAN) && Accompanied(left, s, r);
    var o :| o in left && o != r && s <= o.key <= s + KEY_SPAN;
    assert Accompanied(left, s, o);
    assert Second(left, active, o);
    assert Companion(rows, active, dead, r, o);
  }

  /**
   * Every set a plan names passes the owner, mode and size filter, lies outside the span of
   * every live control segment, and is never alone: it is in a run beside a dead segment or
   * next to another named set of the same creation time.
   */
  lemma PlanIsSafe(ids: seq<int>, semRows: seq<SemRow>, sharedRows: seq<SharedRow>, user: string,
                   alive: int -> bool, x: int) returns (r: SemRow)
    requires IsPlan(ids, semRows, user, LiveBases(sharedRows, user, alive), DeadBases(sharedRows, user, alive))
    requires x in ids
    ensures r in semRows && r.id == x && SetShape(r, user) && Unguarded(sharedRows, user, alive, r.key)
    ensures var rows := Candidates(semRows, user);
            var active, dead := LiveBases(sharedRows, user, alive), DeadBases(sharedRows, user, alive);
            || BesideDeadSegment(rows, dead, r)
            || exists o :: Companion(rows, active, dead, r, o) && o.id in ids
  {
    var rows := Candidates(semRows, user);
    var active, dead := LiveBases(sharedRows, user, alive), DeadBases(sharedRows, user, alive);
    assert IdNamed(x, rows, active, dead);
    r :| r in rows && r.id == x && Named(rows, active, dead, r);
    if First(rows, active, dead, r) {
      FirstIsSafe(rows, active, dead, r);
    } else {
      SecondIsSafe(rows, active, dead, r);
    }
    forall c | c in sharedRows ensures !Guards(c, user, alive, r.key) {
      assert LiveControl(c, user, alive) ==> c.key in active;
    }
    if !BesideDeadSegment(rows, dead, r) {
      var o :| Companion(rows, active, dead, r, o);
      assert IdNamed(o.id, rows, active, dead);
    }
  }

  /**
   * A set of unknown creation time that is in no run beside a dead segment is named only from a
   * span of 1024 keys in which no such set is guarded: being consecutive alone does not help it.
   */
  lemma UnknownTimeNeedsQuiet(semRows: seq<SemRow>, sharedRows: seq<SharedRow>, user: string, alive: int -> bool, r: SemRow)
    returns (s: nat)
    requires var active, dead := LiveBases(sharedRows, user, alive), DeadBases(sharedRows, user, alive);
             && Named(Candidates(semRows, user), active, dead, r) && !BesideDeadSegment(Candidates(semRows, user), dead, r)
    requires r.createdAt == ""
    ensures s <= r.key <= s + 1024
    ensures var rows, dead := Candidates(semRows, user), DeadBases(sharedRows, user, alive);
            forall o :: o in rows && o.createdAt == "" && s <= o.key <= s + 1024 && !BesideDeadSegment(rows, dead, o) ==>
              Unguarded(sharedRows, user, alive, o.key)
  {
    var rows := Candidates(semRows, user);
    var active, dead := LiveBases(sharedRows, user, alive), DeadBases(sharedRows, user, alive);
    if First(rows, active, dead, r) { OnlyBesideDead(rows, active, dead, r); }
    var left := Left(rows, active, dead, "");
    s :| ClusterStart(left, s) && s <= r.key <= s + KEY_SPAN && Quiet(left, active, s, s + KEY_SPAN) && Accompanied(left, s, r);
    forall o | o in rows && o.createdAt == "" && s <= o.key <= s + 1024 && !BesideDeadSegment(rows, dead, o)
      ensures Unguarded(sharedRows, user, alive, o.key)
    {
      if First(rows, active, dead, o) { OnlyBesideDead(rows, active, dead, o); }
      assert o in left;
      forall c | c in sharedRows ensures !Guards(c, user, alive, o.key) {
        assert LiveControl(c, user, alive) ==> c.key in active;
      }
    }
  }

  /** The first phase picks a set of unknown creation time only beside a dead segment. */
  lemma OnlyBesideDead(rows: set<SemRow>, active: set<Key>, dead: set<Key>, r: SemRow)
    requires r.createdAt == "" && First(rows, active, dead, r)
    ensures BesideDeadSegment(rows, dead, r)
  {
    var lo, hi :| IsRun(rows, lo, hi) && lo <= r.key <= hi && RunPicked(rows, active, dead, lo, hi);
    assert IsRun(rows, lo, hi) && lo - 1 in dead;
  }
}
