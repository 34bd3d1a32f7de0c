/** One watched change to a migration file (hotreload.go), and the ledger it may move (migrations.go). */
module HotReload {
  import opened Options
  import opened MigrationNames

  // ---------- a lineage's ledger ----------

  /** A failure comes from the script under way, or from the ledger before the script is started. */
  datatype UpResult = Applied | NoChange | IsDirty(version: Option<nat>) | Failed(underWay: bool)

  ghost predicate Ascending(versions: seq<nat>) {
    forall i, j :: 0 <= i < j < |versions| ==> versions[i] < versions[j]
  }

  /** The versions a lineage has above the one applied. */
  function Pending(available: seq<nat>, current: Option<nat>): seq<nat> {
    if available == [] then []
    else if current.None? || available[0] > current.value then available
    else Pending(available[1..], current)
  }

  lemma {:induction false} PendingIsAbove(available: seq<nat>, current: Option<nat>)
    requires Ascending(available)
    ensures Ascending(Pending(available, current))
    ensures forall v :: v in Pending(available, current) <==> v in available && (current.None? || v > current.value)
    decreases |available|
  {
    if available != [] && !(current.None? || available[0] > current.value) {
      PendingIsAbove(available[1..], current);
      assert available == [available[0]] + available[1..];
    } else {
      forall v | v in available && current.Some? ensures v > current.value {
        var i :| 0 <= i < |available| && available[i] == v;
      }
    }
  }

  /** Moving up by the first n pending versions; dirty exactly where the last one was under way and failed. */
  ghost predicate Climbs(available: seq<nat>, from: Option<nat>, before: seq<nat>, n: nat,
                         version: Option<nat>, dirty: bool, executed: seq<nat>, r: UpResult) {
    var pending := Pending(available, from);
    && n <= |pending| && executed == before + pending[..n]
    && version == (if n == 0 then from else Some(pending[n - 1]))
    && (dirty <==> r.Failed? && r.underWay) && (dirty ==> n > 0)
    && (!r.Failed? ==> n == |pending| && (r.Applied? <==> n > 0))
  }

  /**
   * A lineage and its tracking table, as the migration library moves it: a dirty ledger is left
   * alone, a clean one takes the pending versions one by one, marked dirty while each runs.
   */
  class Lineage {
    const dir: string
    const available: seq<nat>
    var version: Option<nat>
    var dirty: bool
    /** Every version whose script was started. */
    var executed: seq<nat>
    /** A script or the ledger's own statement has failed. */
    var fault: bool

    constructor (dir: string, available: seq<nat>)
      ensures this.dir == dir && this.available == available && version == None && !dirty && executed == [] && !fault
    {
      this.dir, this.available, this.version, this.dirty, this.executed, this.fault := dir, available, None, false, [], false;
    }

    method Up() returns (r: UpResult)
      modifies this
      ensures old(dirty) ==> r == IsDirty(old(version)) && version == old(version) && dirty && executed == old(executed) && fault == old(fault)
      ensures !old(dirty) ==> !r.IsDirty? && exists n :: Climbs(available, old(version), old(executed), n, version, dirty, executed, r)
      ensures fault <==> old(fault) || r.Failed?
    {
      if dirty {
        return IsDirty(version);
      }
      var pending := Pending(available, version);
      ghost var before := executed;
      var k := 0;
      while k < |pending|
        invariant 0 <= k <= |pending| && !dirty && fault == old(fault)
        invariant executed == before + pending[..k]
        invariant version == if k == 0 then old(version) else Some(pending[k - 1])
      {
        var marked: bool := *;
        if !marked {
          fault := true;
          assert Climbs(available, old(version), before, k, version, dirty, executed, Failed(false));
          return Failed(false);
        }
        version, dirty, executed := Some(pending[k]), true, executed + [pending[k]];
        assert before + pending[..k] + [pending[k]] == before + pending[..k + 1];
        k := k + 1;
        var succeeded: bool := *;
        if !succeeded {
          fault := true;
          assert Climbs(available, old(version), before, k, version, dirty, executed, Failed(true));
          return Failed(true);
        }
        dirty := false;
      }
      assert pending[..k] == pending;
      r := if k > 0 then Applied else NoChange;
      assert Climbs(available, old(version), before, k, version, dirty, executed, r);
    }
  }

  // ---------- which lineage a file belongs to ----------

  datatype Ownership = Owner(at: nat) | Nobody | Ambiguous

  method OwningMigrationSource(sources: seq<Lineage>, parent: string) returns (r: Ownership)
    ensures r.Owner? ==> r.at < |sources| && sources[r.at].dir == parent
    ensures r.Owner? ==> forall i :: 0 <= i < |sources| && sources[i].dir == parent ==> i == r.at
    ensures r.Nobody? <==> forall i :: 0 <= i < |sources| ==> sources[i].dir != parent
    ensures r.Ambiguous? <==> exists i, j :: 0 <= i < j < |sources| && sources[i].dir == parent && sources[j].dir == parent
  {
    r := Nobody;
    var i := 0;
    while i < |sources|
      invariant 0 <= i <= |sources| && !r.Ambiguous?
      invariant r.Owner? ==> r.at < i && sources[r.at].dir == parent
      invariant forall j :: 0 <= j < i && sources[j].dir == parent ==> r == Owner(j)
    {
      if sources[i].dir == parent {
        if r.Owner? {
          return Ambiguous;
        }
        r := Owner(i);
      }
      i := i + 1;
    }
  }

  // ---------- one change ----------

  datatype Outcome = Ignored | Refused | Ran(applied: bool)

  /** The only change that may reach a database: an up-file of exactly one lineage, with a version that fits. */
  ghost predicate Eligible(sources: seq<Lineage>, parent: string, name: string, i: nat)
    requires i < |sources|
  {
    && Version(name).Some? && Match(name).value.direction == "up"
    && sources[i].dir == parent
    && forall j :: 0 <= j < |sources| && j != i ==> sources[j].dir != parent
  }

  /**
   * A change outside that touches no ledger at all. One inside moves only its own lineage's, only
   * upwards and in order; a dirty ledger, or one already at the file's version, stays as it is.
   */
  method ApplyMigrationChange(sources: seq<Lineage>, parent: string, name: string) returns (r: Outcome)
    requires forall i, j :: 0 <= i < j < |sources| ==> sources[i] != sources[j]
    requires forall i :: 0 <= i < |sources| ==> Ascending(sources[i].available)
    modifies sources
    ensures (forall i :: 0 <= i < |sources| ==> !Eligible(sources, parent, name, i)) ==>
              !r.Ran? && forall l :: l in sources ==> unchanged(l)
    ensures forall i :: 0 <= i < |sources| && !Eligible(sources, parent, name, i) ==> unchanged(sources[i])
    ensures Match(name).None? || Match(name).value.direction == "down" ==> r == Ignored && forall l :: l in sources ==> unchanged(l)
    ensures forall i :: 0 <= i < |sources| && Eligible(sources, parent, name, i)
                        && (old(sources[i].dirty)
                            || (old(sources[i].version).Some? && old(sources[i].version.value) >= Version(name).value)) ==>
              r == Refused && sources[i].version == old(sources[i].version) && sources[i].dirty == old(sources[i].dirty)
              && sources[i].executed == old(sources[i].executed) && sources[i].fault == old(sources[i].fault)
    ensures forall i :: 0 <= i < |sources| && Eligible(sources, parent, name, i) ==>
              Moved(old(sources[i].version), old(sources[i].dirty), old(sources[i].executed), old(sources[i].fault), sources[i],
                    Version(name).value, r)
  {
    var v := Version(name);
    if v.None? || Match(name).value.direction != "up" {
      return Ignored;
    }
    var owner := OwningMigrationSource(sources, parent);
    match owner {
      case Nobody => r := Ignored;
      case Ambiguous => r := Refused;
      case Owner(at) =>
        assert Eligible(sources, parent, name, at);
        r := Apply(sources[at], v.value);
    }
  }

  /** A ledger that no change to version v may move. */
  predicate AtRest(version: Option<nat>, dirty: bool, v: nat) {
    dirty || (version.Some? && version.value >= v)
  }

  /** What an eligible change to version v does to its lineage, given what the ledger held before. */
  ghost predicate Moved(version: Option<nat>, dirty: bool, executed: seq<nat>, fault: bool, l: Lineage, v: nat, r: Outcome)
    reads l
  {
    && !r.Ignored?
    && (AtRest(version, dirty, v) ==>
          r == Refused && l.version == version && l.dirty == dirty && l.executed == executed && l.fault == fault)
    && (!AtRest(version, dirty, v) ==> exists n, up :: Forward(version, executed, fault, l, n, up, r))
    && executed <= l.executed
    && Ascending(l.executed[|executed|..])
    && (forall w :: w in l.executed[|executed|..] ==> w in l.available && (version.None? || w > version.value))
    && (r == Ran(true) ==> !l.dirty && l.version.Some? && (version.None? || l.version.value > version.value))
    && (r == Ran(false) ==> l.version == version && l.executed == executed)
  }

  /** The forward call ran to its outcome up; it stops short only where something failed. */
  ghost predicate Forward(version: Option<nat>, executed: seq<nat>, fault: bool, l: Lineage, n: nat, up: UpResult, r: Outcome)
    reads l
  {
    && Climbs(l.available, version, executed, n, l.version, l.dirty, l.executed, up)
    && (l.fault <==> fault || up.Failed?)
    && r == if up.Failed? || l.version.None? then Refused else Ran(l.version != version)
  }

  /** What climbing means: new scripts only, above the old version and in order. */
  lemma ClimbsUpwards(available: seq<nat>, from: Option<nat>, before: seq<nat>, n: nat,
                      version: Option<nat>, dirty: bool, executed: seq<nat>, r: UpResult)
    requires Ascending(available) && Climbs(available, from, before, n, version, dirty, executed, r)
    ensures before <= executed && Ascending(executed[|before|..])
    ensures forall w :: w in executed[|before|..] ==> w in available && (from.None? || w > from.value)
    ensures n > 0 ==> version.Some? && (from.None? || version.value > from.value)
    ensures n == 0 ==> version == from && executed == before
  {
    var pending := Pending(available, from);
    PendingIsAbove(available, from);
    assert executed[|before|..] == pending[..n];
    assert forall w :: w in pending[..n] ==> w in pending;
    if n > 0 { assert pending[n - 1] in pending; }
  }

  method Apply(l: Lineage, v: nat) returns (r: Outcome)
    requires Ascending(l.available)
    modifies l
    ensures Moved(old(l.version), old(l.dirty), old(l.executed), old(l.fault), l, v, r)
  {
    var current := l.version;
    if AtRest(current, l.dirty, v) {
      assert l.executed[|l.executed|..] == [];
      return Refused;
    }
    var up := l.Up();
    ghost var n :| Climbs(l.available, current, old(l.executed), n, l.version, l.dirty, l.executed, up);
    ClimbsUpwards(l.available, current, old(l.executed), n, l.version, l.dirty, l.executed, up);
    r := if (!up.Applied? && !up.NoChange?) || l.version.None? then Refused else Ran(!(current.Some? && l.version == current));
    assert Forward(current, old(l.executed), old(l.fault), l, n, up, r);
  }
}
