/**
 * The discipline asked of a bootstrap is exact. A step keeps the lock invariant if and only if it is
 * tight, and from any state in order a step that is not tight can be continued, with nothing else
 * going wrong, to a grants run beside a migration.
 */
module ControlPlaneExact {
  import opened Options
  import opened ControlPlane
  import opened ControlPlaneSafety

  // ---------- the invariant ----------

  lemma LooseBreaks(s: State, l: Label)
    requires Inv(s) && Enabled(s, l) && !Tight(s, l)
    ensures !Inv(Apply(s, l))
  {
    var u := Apply(s, l);
    match l {
      case Boot(b, act) =>
        assert BootOk(s, b);
        if !NoKids(s, b) {
          var y :| y in s.sessions && s.sessions[y].holder == Kid(b);
          assert !SessionOk(u, y);
        } else {
          assert !ChildOk(u, b);
        }
      case Of(w) =>
        var b :| b in s.boots && s.boots[b].x == w.x && NeedsControl(s, b);
        assert BootOk(s, b);
        if !NoKids(s, b) {
          var y :| y in s.sessions && s.sessions[y].holder == Kid(b);
          assert u.sessions[y].holder == Kid(b);
        }
        assert NeedsControl(u, b) && !BootOk(u, b);
    }
  }

  lemma InvExactly(s: State, l: Label)
    requires Inv(s) && Enabled(s, l)
    ensures Inv(Apply(s, l)) <==> Tight(s, l)
  {
    if Tight(s, l) { InvStep(s, l); } else { LooseBreaks(s, l); }
  }

  // ---------- the property itself ----------

  ghost predicate Overlap(s: State) {
    exists x, y :: Works(s, x, Migration) && Works(s, y, Grants)
  }

  ghost predicate Overlaps(s: State, ls: seq<Label>) {
    IsRun(s, ls) && AllTight(s, ls) && Overlap(After(s, ls))
  }

  /** From here a run in which no bootstrap fails again has grants beside a migration. */
  ghost predicate OverlapAhead(s: State) {
    exists ls :: Overlaps(s, ls)
  }

  lemma Prepend(s: State, l: Label, ls: seq<Label>)
    requires Enabled(s, l) && Tight(s, l) && Overlaps(Apply(s, l), ls)
    ensures Overlaps(s, [l] + ls)
  {
    assert ([l] + ls)[1..] == ls;
  }

  lemma Above(xs: set<nat>) returns (n: nat)
    ensures forall x: nat :: x in xs ==> x < n
  {
    n := 0;
    if x :| x in xs {
      var below := Above(xs - {x});
      n := if below > x then below else x + 1;
      assert forall y: nat :: y in xs ==> y == x || y in xs - {x};
    }
  }

  lemma NewAgent(s: State) returns (t: Thread)
    ensures t !in s.threads && t.agent !in s.control
  {
    var agents := set v | v in s.threads :: v.agent;
    var a := Above(agents + s.control.Keys);
    t := Thread(a, 0);
    assert t in s.threads ==> t.agent in agents;
  }

  lemma GrantedBeside(s: State, t: Thread, x: Id) returns (ls: seq<Label>)
    requires t in s.threads && s.threads[t].at.GrantAsking? && s.threads[t].x in s.sessions && s.owner.None?
    requires x != s.threads[t].x && Works(s, x, Migration)
    ensures Overlaps(s, ls)
  {
    var l := By(t, GrantOk);
    assert Works(Apply(s, l), x, Migration) && Works(Apply(s, l), s.threads[t].x, Grants);
    Prepend(s, l, []);
    ls := [l] + [];
  }

  lemma AskedBeside(s: State, t: Thread, x: Id) returns (ls: seq<Label>)
    requires t in s.threads && s.threads[t] == Phase(Between, 0, false, 0) && s.owner.None? && Works(s, x, Migration)
    ensures Overlaps(s, ls)
  {
    var y := Above(s.used.Keys + {x});
    var l := By(t, BeginTx(y));
    ls := GrantedBeside(Apply(s, l), t, x);
    Prepend(s, l, ls);
    ls := [l] + ls;
  }

  /** With the lock free, any agent may run grants beside the migration of session x. */
  lemma FromMigration(s: State, x: Id) returns (ls: seq<Label>)
    requires s.owner.None? && Works(s, x, Migration)
    ensures Overlaps(s, ls)
  {
    var t := NewAgent(s);
    var l := By(t, Acquire(0));
    ls := AskedBeside(Apply(s, l), t, x);
    Prepend(s, l, ls);
    ls := [l] + ls;
  }

  lemma FromChild(s: State, b: nat) returns (ls: seq<Label>)
    requires b in s.children && s.owner.None?
    ensures Overlaps(s, ls)
  {
    var x := Above(s.used.Keys);
    var l := Boot(b, KidOpens(x));
    ls := FromMigration(Apply(s, l), x);
    Prepend(s, l, ls);
    ls := [l] + ls;
  }

  lemma FromLocked(s: State, b: nat) returns (ls: seq<Label>)
    requires b in s.boots && s.boots[b].at.BootLocked? && s.boots[b].left > 0 && s.owner.None?
    ensures Overlaps(s, ls)
  {
    var l := Boot(b, SpawnChild);
    ls := FromChild(Apply(s, l), b);
    Prepend(s, l, ls);
    ls := [l] + ls;
  }

  /** A bootstrap that still needs its control session has the lock on it, and nothing runs there. */
  lemma NeedsItsLock(s: State, b: nat)
    requires Inv(s) && b in s.boots && NeedsControl(s, b)
    ensures s.owner == Some(s.boots[b].x) && s.boots[b].x in s.sessions
    ensures s.sessions[s.boots[b].x].holder == OfBoot(b)
    ensures s.sessions[s.boots[b].x].work.None? && !s.sessions[s.boots[b].x].waiting
  {
    assert BootOk(s, b);
  }

  lemma NeedsOnKids(s: State, b: nat)
    requires Inv(s) && (b in s.children || !NoKids(s, b))
    ensures b in s.boots && NeedsControl(s, b)
  {
    assert ChildOk(s, b) && BootOk(s, b);
    if !NoKids(s, b) {
      var y :| y in s.sessions && s.sessions[y].holder == Kid(b);
      assert SessionOk(s, y);
    }
  }

  /** The lock is let go while a session of the child is at work. */
  lemma LooseKid(s: State, l: Label, b: nat, y: Id) returns (ls: seq<Label>)
    requires Inv(s) && Enabled(s, l) && b in s.boots && y in s.sessions && s.sessions[y].holder == Kid(b)
    requires l == Boot(b, DrainFails) || l == Boot(b, BootDies) || l == Of(SessionEnds(s.boots[b].x))
    ensures Overlaps(Apply(s, l), ls)
  {
    NeedsOnKids(s, b);
    NeedsItsLock(s, b);
    assert SessionOk(s, y);
    ls := FromMigration(Apply(s, l), y);
  }

  /** The lock is let go before the child connects, or before it starts. */
  lemma LooseChild(s: State, l: Label, b: nat) returns (ls: seq<Label>)
    requires Inv(s) && Enabled(s, l) && b in s.boots && NeedsControl(s, b) && NoKids(s, b)
    requires l == Of(SessionEnds(s.boots[b].x)) || (l == Boot(b, BootDies) && b in s.children)
    ensures Overlaps(Apply(s, l), ls)
  {
    NeedsItsLock(s, b);
    assert ChildOk(s, b);
    if b in s.children { ls := FromChild(Apply(s, l), b); } else { ls := FromLocked(Apply(s, l), b); }
  }

  lemma LooseOverlaps(s: State, l: Label)
    requires Inv(s) && Enabled(s, l) && !Tight(s, l)
    ensures OverlapAhead(Apply(s, l))
  {
    var b: nat;
    match l {
      case Boot(c, _) => b := c;
      case Of(w) => b :| b in s.boots && s.boots[b].x == w.x && NeedsControl(s, b);
    }
    var ls;
    if !NoKids(s, b) {
      var y :| y in s.sessions && s.sessions[y].holder == Kid(b);
      ls := LooseKid(s, l, b, y);
    } else {
      if b in s.children { NeedsOnKids(s, b); }
      ls := LooseChild(s, l, b);
    }
  }

  lemma OrderlyNeverOverlaps(s: State)
    requires Inv(s)
    ensures !OverlapAhead(s)
  {
    forall ls | IsRun(s, ls) && AllTight(s, ls)
      ensures !Overlap(After(s, ls))
    {
      InvAlways(s, ls);
      forall x, y
        ensures !(Works(After(s, ls), x, Migration) && Works(After(s, ls), y, Grants))
      {
        if x != y { NeverOverlap(After(s, ls), x, y); }
      }
    }
  }

  /** A step from a state in order is tight exactly when no orderly continuation has grants beside a migration. */
  lemma TightExactly(s: State, l: Label)
    requires Inv(s) && Enabled(s, l)
    ensures Tight(s, l) <==> !OverlapAhead(Apply(s, l))
  {
    hide Tight, OverlapAhead;
    if Tight(s, l) {
      InvStep(s, l);
      OrderlyNeverOverlaps(Apply(s, l));
    } else {
      LooseOverlaps(s, l);
    }
  }

  /** No state along a run has an overlap ahead of it. */
  ghost predicate NeverAhead(s: State, ls: seq<Label>)
    requires IsRun(s, ls)
    decreases |ls|
  {
    !OverlapAhead(s) && (ls == [] || NeverAhead(Apply(s, ls[0]), ls[1..]))
  }

  /** Over whole runs: the discipline is kept exactly when no state on the way has an overlap ahead. */
  lemma {:induction false} TightOverRuns(s: State, ls: seq<Label>)
    requires Inv(s) && IsRun(s, ls)
    ensures AllTight(s, ls) <==> NeverAhead(s, ls)
    decreases |ls|
  {
    hide Inv, Tight, Enabled, Apply, OverlapAhead;
    OrderlyNeverOverlaps(s);
    if ls != [] {
      TightExactly(s, ls[0]);
      if Tight(s, ls[0]) {
        InvStep(s, ls[0]);
        TightOverRuns(Apply(s, ls[0]), ls[1..]);
      }
    }
  }
}
