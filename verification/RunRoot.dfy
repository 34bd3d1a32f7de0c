/**
 * The code of nixpg.go that runs under one root's lock, with the loops it has. The files are
 * fields; the process table goes on changing, so an inspection can answer anything at any time,
 * and what the code did is justified by the answers it was given, in the order it was given them.
 */
module RunRoot {
  import opened Options
  import opened RunServer

  datatype Attachment = Attached(record: Record) | NotRunning | InTheWay

  /**
   * What went on between the code and the process table: an inspection, or an attempt to signal,
   * which may not be delivered, and may be reported as failed though it was.
   */
  datatype Event = Asked(pid: int, seen: Inspection) | Tried(mark: Mark, delivered: bool, reported: bool)

  type Log = seq<Event>

  predicate AliveAt(log: Log, i: nat, m: Mark) {
    i < |log| && log[i].Asked? && log[i].pid == m.pid && Alive(m, log[i].seen)
  }

  predicate GoneAt(log: Log, i: nat, m: Mark) {
    i < |log| && log[i].Asked? && log[i].pid == m.pid && !Alive(m, log[i].seen)
  }

  predicate ConfirmedAt(log: Log, i: nat, m: Mark) {
    i < |log| && log[i].Asked? && log[i].pid == m.pid && Confirmed(m, log[i].seen)
  }

  predicate UnconfirmedAt(log: Log, i: nat, m: Mark) {
    i < |log| && log[i].Asked? && log[i].pid == m.pid && !Confirmed(m, log[i].seen)
  }

  /** Some answer since then showed this birth still there, or could not tell. */
  ghost predicate SeenAlive(log: Log, since: nat, m: Mark) {
    exists i :: since <= i && AliveAt(log, i, m)
  }

  ghost predicate SeenGone(log: Log, since: nat, m: Mark) {
    exists i :: since <= i && GoneAt(log, i, m)
  }

  /** The agent was answered alive, and so was its launching run if it has one. */
  ghost predicate HolderKept(log: Log, since: nat, h: Option<Holder>) {
    h.Some? && SeenAlive(log, since, h.value.agent) && (h.value.run.Some? ==> SeenAlive(log, since, h.value.run.value))
  }

  /** The file could not be read, or the agent or its run was answered gone. */
  ghost predicate HolderDropped(log: Log, since: nat, h: Option<Holder>) {
    h.None? || SeenGone(log, since, h.value.agent) || (h.value.run.Some? && SeenGone(log, since, h.value.run.value))
  }

  /** The births that a signal was tried on, in order. */
  function Signals(log: Log): seq<Mark> {
    if log == [] then [] else
      var before, last := Signals(log[..|log| - 1]), log[|log| - 1];
      if last.Tried? then before + [last.mark] else before
  }

  /** Every signal tried since then was for this birth, each right after an answer that confirmed it. */
  ghost predicate SentOnlyTo(log: Log, since: nat, m: Option<Mark>) {
    forall i :: since <= i < |log| && log[i].Tried? ==>
      i > since && m == Some(log[i].mark) && ConfirmedAt(log, i - 1, log[i].mark)
  }

  /** At k the birth is inspected for a signal, and if the answer confirms it, one is tried next. */
  predicate TriedAt(log: Log, k: nat, m: Mark) {
    || UnconfirmedAt(log, k, m)
    || (ConfirmedAt(log, k, m) && k + 1 < |log| && log[k + 1].Tried? && log[k + 1].mark == m)
  }

  /** The signal tried at k was delivered and reported so. */
  predicate DeliveredAt(log: Log, k: nat, m: Mark) {
    ConfirmedAt(log, k, m) && k + 1 < |log| && log[k + 1] == Tried(m, true, true)
  }

  /**
   * What a stop does from k on: it asks for the birth; if that is confirmed it tries a signal; if the
   * signal went out and the last answer still confirms the birth, it has tried a second one; and it
   * ends with an answer about the birth.
   */
  ghost predicate StopTrace(log: Log, k: nat, m: Mark) {
    && (ConfirmedAt(log, k, m) || (UnconfirmedAt(log, k, m) && |log| == k + 1))
    && (ConfirmedAt(log, k, m) ==> TriedAt(log, k + 1, m))
    && (DeliveredAt(log, k + 1, m) && ConfirmedAt(log, |log| - 1, m) ==> exists j :: k + 2 < j && TriedAt(log, j, m))
    && |log| > k && (ConfirmedAt(log, |log| - 1, m) || UnconfirmedAt(log, |log| - 1, m))
  }

  /** The stop is seen through: its first signal went out, and at last the birth was not confirmed. */
  predicate SeenThrough(log: Log, k: nat, m: Mark) {
    DeliveredAt(log, k + 1, m) && |log| > 0 && UnconfirmedAt(log, |log| - 1, m)
  }

  lemma SignalsSnoc(log: Log, e: Event)
    ensures Signals(log + [e]) == if e.Tried? then Signals(log) + [e.mark] else Signals(log)
  {
    assert (log + [e])[..|log|] == log;
  }

  lemma SentFurther(before: Log, after: Log, since: nat, m: Option<Mark>)
    requires before <= after && since <= |before| && SentOnlyTo(before, since, m) && SentOnlyTo(after, |before|, m)
    ensures SentOnlyTo(after, since, m)
  {
    forall i | since <= i < |after| && after[i].Tried?
      ensures i > since && m == Some(after[i].mark) && ConfirmedAt(after, i - 1, after[i].mark)
    {
      if i < |before| {
        assert before[i] == after[i];
        assert ConfirmedAt(before, i - 1, before[i].mark);
      }
    }
  }

  /** The log only grows, so what it justified stays justified, also seen from further back. */
  lemma Grows(before: Log, after: Log, since: nat, earlier: nat)
    requires before <= after && earlier <= since
    ensures forall m :: SeenAlive(before, since, m) ==> SeenAlive(after, earlier, m)
    ensures forall h :: HolderKept(before, since, h) ==> HolderKept(after, earlier, h)
    ensures forall h :: HolderDropped(before, since, h) ==> HolderDropped(after, earlier, h)
  {
    forall m | SeenAlive(before, since, m) ensures SeenAlive(after, earlier, m) {
      var i :| since <= i && AliveAt(before, i, m);
      assert AliveAt(after, i, m);
    }
    forall m | SeenGone(before, since, m) ensures SeenGone(after, earlier, m) {
      var i :| since <= i && GoneAt(before, i, m);
      assert GoneAt(after, i, m);
    }
  }

  datatype StopResult = Stopped | NothingToStop | StopFailed

  class ServerRoot {
    /** Holder files by service; one that cannot be read or parsed has no holder. */
    var holders: map<Service, Option<Holder>>
    var record: Option<Record>
    var pidFile: PidFile
    /** The socket directory the recorded server was given. */
    var socketDir: bool
    /** Every answer an inspection gave and every signal sent, in order. */
    var log: Log

    constructor (holders: map<Service, Option<Holder>>, record: Option<Record>, pidFile: PidFile, socketDir: bool)
      ensures this.holders == holders && this.record == record && this.pidFile == pidFile && this.socketDir == socketDir
      ensures log == []
    {
      this.holders, this.record, this.pidFile, this.socketDir, this.log := holders, record, pidFile, socketDir, [];
    }

    method Inspect(pid: int) returns (seen: Inspection)
      modifies this`log
      ensures log == old(log) + [Asked(pid, seen)] && Signals(log) == Signals(old(log))
    {
      var start: nat := *;
      var boot: string, executable: string, kind: nat := *, *, *;
      seen := if kind == 0 then NotFound else if kind == 1 then Failed else Identity(start, boot, executable);
      SignalsSnoc(log, Asked(pid, seen));
      log := log + [Asked(pid, seen)];
    }

    method IsAlive(m: Mark) returns (alive: bool)
      modifies this`log
      ensures old(log) <= log && |log| == |old(log)| + 1 && Signals(log) == Signals(old(log))
      ensures if alive then AliveAt(log, |old(log)|, m) else GoneAt(log, |old(log)|, m)
    {
      var seen := Inspect(m.pid);
      alive := Alive(m, seen);
    }

    method IsConfirmed(m: Mark) returns (confirmed: bool)
      modifies this`log
      ensures old(log) <= log && |log| == |old(log)| + 1 && Signals(log) == Signals(old(log))
      ensures SentOnlyTo(log, |old(log)|, None)
      ensures if confirmed then ConfirmedAt(log, |old(log)|, m) else UnconfirmedAt(log, |old(log)|, m)
    {
      var seen := Inspect(m.pid);
      confirmed := Confirmed(m, seen);
    }

    method HolderIsAlive(h: Holder) returns (alive: bool)
      modifies this`log
      ensures old(log) <= log && SentOnlyTo(log, |old(log)|, None) && Signals(log) == Signals(old(log))
      ensures if alive then HolderKept(log, |old(log)|, Some(h)) else HolderDropped(log, |old(log)|, Some(h))
    {
      alive := IsAlive(h.agent);
      if alive && h.run.Some? {
        ghost var known := log;
        alive := IsAlive(h.run.value);
        Grows(known, log, |old(log)|, |old(log)|);
      }
    }

    /** Holder files of agents that are gone go; the rest stay, and are counted. Nobody is signalled. */
    method PruneHolders() returns (live: nat)
      modifies this`holders, this`log
      ensures old(log) <= log && SentOnlyTo(log, |old(log)|, None) && Signals(log) == Signals(old(log))
      ensures live == |holders|
      ensures forall s :: s in holders ==>
                s in old(holders) && holders[s] == old(holders)[s] && HolderKept(log, |old(log)|, holders[s])
      ensures forall s :: s in old(holders) && s !in holders ==> HolderDropped(log, |old(log)|, old(holders)[s])
    {
      hide HolderKept, HolderDropped, Signals, SentOnlyTo;
      ghost var was, start := holders, |log|;
      var entries := holders.Keys;
      live := 0;
      ghost var kept: set<Service> := {};
      NothingSent(log, None);
      while entries != {}
        invariant old(log) <= log && SentOnlyTo(log, start, None) && Signals(log) == Signals(old(log)) && live == |kept|
        invariant forall s :: s in holders <==> s in entries || s in kept
        invariant forall s :: s in kept ==> s !in entries
        invariant forall s :: s in holders ==> s in was && holders[s] == was[s]
        invariant forall s :: s in kept ==> HolderKept(log, start, was[s])
        invariant forall s :: s in was && s !in holders ==> HolderDropped(log, start, was[s])
        decreases |entries|
      {
        var s :| s in entries;
        entries := entries - {s};
        ghost var known := log;
        var alive := PruneOne(s);
        Grows(known, log, start, start);
        Grows(log, log, |known|, start);
        SentFurther(known, log, start, None);
        if alive {
          live := live + 1;
          kept := kept + {s};
        }
      }
      assert holders.Keys == kept;
      assert |holders| == |holders.Keys|;
    }

    /** One holder file: kept when it is alive, removed otherwise. */
    method PruneOne(s: Service) returns (alive: bool)
      requires s in holders
      modifies this`holders, this`log
      ensures old(log) <= log && SentOnlyTo(log, |old(log)|, None) && Signals(log) == Signals(old(log))
      ensures alive ==> holders == old(holders) && HolderKept(log, |old(log)|, old(holders)[s])
      ensures !alive ==> holders == old(holders) - {s} && HolderDropped(log, |old(log)|, old(holders)[s])
    {
      alive := false;
      if holders[s].Some? {
        alive := HolderIsAlive(holders[s].value);
      }
      if !alive {
        holders := holders - {s};
      }
    }

    /**
     * postmaster.pid goes only when it names no live process, or a process that is answered to be
     * no postmaster; otherwise it is left and the caller is refused.
     */
    method ClearDisownedPostmasterPid(probe: int -> bool) returns (ok: bool)
      modifies this`pidFile, this`log
      ensures old(log) <= log && SentOnlyTo(log, |old(log)|, None) && Signals(log) == Signals(old(log))
      ensures pidFile == if ok then Absent else old(pidFile)
      ensures ok <==> Named(old(pidFile), probe).None? || NoPostmasterAt(log, |old(log)|, Named(old(pidFile), probe).value)
      ensures if old(pidFile).Names? && old(pidFile).pid > 0 && probe(old(pidFile).pid)
              then |log| == |old(log)| + 1 && log[|old(log)|].Asked? && log[|old(log)|].pid == old(pidFile).pid
              else ok && log == old(log)
    {
      var owner := Named(pidFile, probe);
      if owner.None? {
        pidFile := Absent;
        return true;
      }
      var seen := Inspect(owner.value);
      match PidFileVerdict(owner, seen) {
        case Disowned =>
          pidFile := Absent;
          ok := true;
        case Unknown => ok := false;
        case Held => ok := false;
      }
    }

    /**
     * The recorded server is attached exactly when its birth is answered alive and it has a socket
     * directory; else the way is cleared, or refused.
     */
    method AttachedPostmaster(probe: int -> bool) returns (r: Attachment)
      modifies this`pidFile, this`log
      ensures old(log) <= log && SentOnlyTo(log, |old(log)|, None) && Signals(log) == Signals(old(log))
      ensures r.Attached? <==>
              record.Some? && record.value.hasSocket && AliveAt(log, |old(log)|, record.value.postmaster)
      ensures record.Some? ==>
                AliveAt(log, |old(log)|, record.value.postmaster) || GoneAt(log, |old(log)|, record.value.postmaster)
      ensures r.Attached? ==> r.record == record.value && pidFile == old(pidFile)
      ensures r.NotRunning? ==> pidFile == Absent
      ensures r.NotRunning? && Named(old(pidFile), probe).Some? ==>
                exists i :: |old(log)| <= i && NoPostmasterAt(log, i, Named(old(pidFile), probe).value)
      ensures r.InTheWay? ==> pidFile == old(pidFile) && pidFile.Names? && pidFile.pid > 0 && probe(pidFile.pid)
      ensures r.InTheWay? ==> log != [] && var last := log[|log| - 1];
                last.Asked? && last.pid == pidFile.pid && !NoPostmaster(last.seen)
    {
      if record.Some? {
        var alive := IsAlive(record.value.postmaster);
        if alive && record.value.hasSocket {
          return Attachment.Attached(record.value);
        }
      }
      ghost var known := log;
      var ok := ClearDisownedPostmasterPid(probe);
      SentFurther(known, log, |old(log)|, None);
      r := if ok then NotRunning else InTheWay;
    }

    /** A signal is tried for a birth exactly when the inspection before it answered with that birth. */
    method SignalPostmaster(m: Mark) returns (ok: bool)
      modifies this`log
      ensures old(log) < log && SentOnlyTo(log, |old(log)|, Some(m)) && TriedAt(log, |old(log)|, m)
      ensures Signals(log) == Signals(old(log)) || Signals(log) == Signals(old(log)) + [m]
      ensures ok <==> DeliveredAt(log, |old(log)|, m)
    {
      var seen := Inspect(m.pid);
      if !Confirmed(m, seen) {
        return false;
      }
      var delivered: bool, reported: bool := *, *;
      SignalsSnoc(log, Tried(m, delivered, reported));
      log := log + [Tried(m, delivered, reported)];
      ok := delivered && reported;
    }

    /** Gone exactly when the last answer no longer confirmed the birth. */
    method WaitGone(m: Mark, polls: nat) returns (gone: bool)
      modifies this`log
      ensures old(log) < log && SentOnlyTo(log, |old(log)|, None) && Signals(log) == Signals(old(log))
      ensures if gone then UnconfirmedAt(log, |log| - 1, m) else ConfirmedAt(log, |log| - 1, m)
    {
      var i := 0;
      while i < polls
        invariant old(log) <= log && SentOnlyTo(log, |old(log)|, None) && Signals(log) == Signals(old(log))
      {
        var confirmed := IsConfirmed(m);
        if !confirmed {
          return true;
        }
        i := i + 1;
      }
      var confirmed := IsConfirmed(m);
      gone := !confirmed;
    }

    /** Whether the last thing that happened was an answer that no longer confirmed the birth. */
    ghost predicate LastUnconfirmed(m: Mark)
      reads this`log
    {
      log != [] && UnconfirmedAt(log, |log| - 1, m)
    }

    /**
     * A recorded birth is asked for, and signalled when it is confirmed; signals go to it and nothing
     * else, at most twice, each right after an answer that confirmed it. The stop fails exactly when
     * the last answer still confirms the birth. The socket directory and the lock file go exactly with
     * a stop seen through, the record with every stop that does not fail.
     */
    method StopServer(polls: nat) returns (r: StopResult)
      modifies this`record, this`pidFile, this`socketDir, this`log
      ensures old(log) <= log && SentOnlyTo(log, |old(log)|, Recipient(old(record)))
      ensures |Signals(log)| <= |Signals(old(log))| + 2
      ensures old(record).None? ==> r.NothingToStop? && log == old(log)
      ensures old(record).Some? ==> StopTrace(log, |old(log)|, old(record).value.postmaster)
      ensures r.Stopped? <==> old(record).Some? && SeenThrough(log, |old(log)|, old(record).value.postmaster)
      ensures r.StopFailed? <==> old(record).Some? && |log| > 0 && ConfirmedAt(log, |log| - 1, old(record).value.postmaster)
      ensures record == if r.StopFailed? then old(record) else None
      ensures pidFile == if r.Stopped? then Absent else old(pidFile)
      ensures socketDir == (old(socketDir) && !(r.Stopped? && old(record).value.hasSocket))
    {
      hide Signals, SentOnlyTo;
      NothingSent(log, Recipient(record));
      if record.None? {
        return NothingToStop;
      }
      var m := record.value.postmaster;
      ghost var start := log;
      var confirmed := IsConfirmed(m);
      SentFurther(start, log, |start|, Some(m));
      if !confirmed {
        record := None;
        return NothingToStop;
      }
      ghost var asked := log;
      var sent := SignalPostmaster(m);
      SentFurther(asked, log, |start|, Some(m));
      if !sent {
        asked := log;
        confirmed := IsConfirmed(m);
        SentFurther(asked, log, |start|, Some(m));
        if !confirmed {
          record := None;
          return NothingToStop;
        }
        return StopFailed;
      }
      asked := log;
      var gone := SeesItGone(m, polls, |start|);
      if !gone {
        return StopFailed;
      }
      if record.value.hasSocket {
        socketDir := false;
      }
      record := None;
      pidFile := Absent;
      r := Stopped;
    }

    /** Waits for a signalled birth to end, and signals it once more when it does not. */
    method SeesItGone(m: Mark, polls: nat, ghost since: nat) returns (gone: bool)
      requires since <= |log| && SentOnlyTo(log, since, Some(m))
      modifies this`log
      ensures old(log) < log && SentOnlyTo(log, since, Some(m))
      ensures |Signals(old(log))| <= |Signals(log)| <= |Signals(old(log))| + 1
      ensures if gone then UnconfirmedAt(log, |log| - 1, m)
              else ConfirmedAt(log, |log| - 1, m) && exists j :: |old(log)| < j && TriedAt(log, j, m)
    {
      hide Signals, SentOnlyTo;
      ghost var known := log;
      gone := WaitGone(m, polls);
      SentFurther(known, log, since, Some(m));
      if !gone {
        known := log;
        var _ := SignalPostmaster(m);
        SentFurther(known, log, since, Some(m));
        ghost var tried := log;
        gone := WaitGone(m, polls);
        SentFurther(tried, log, since, Some(m));
        assert TriedAt(tried, |known|, m) && TriedAt(log, |known|, m);
      }
    }

    /**
     * The last holder to leave stops the recorded server, as StopServer does; while others hold it,
     * nobody is signalled and nothing else is touched.
     */
    method Release(service: Service, polls: nat) returns (stopped: bool)
      modifies this
      ensures old(log) <= log && SentOnlyTo(log, |old(log)|, Recipient(old(record)))
      ensures |Signals(log)| <= |Signals(old(log))| + 2
      ensures service !in holders && holders.Keys <= old(holders).Keys
      ensures forall s :: s in old(holders) && s != service && s !in holders ==> HolderDropped(log, |old(log)|, old(holders)[s])
      ensures forall s :: s in holders ==> holders[s] == old(holders)[s] && HolderKept(log, |old(log)|, holders[s])
      ensures holders != map[] ==> !stopped && Signals(log) == Signals(old(log)) && record == old(record)
      ensures holders == map[] && old(record).None? ==> !stopped && record == None
      ensures holders == map[] && old(record).Some? ==>
                exists k :: |old(log)| <= k && StoppedFrom(log, k, old(record).value.postmaster, stopped, record)
      ensures record.Some? ==> record == old(record)
      ensures pidFile == if stopped then Absent else old(pidFile)
      ensures socketDir == (old(socketDir) && !(stopped && old(record).Some? && old(record).value.hasSocket))
    {
      hide Signals, HolderKept, HolderDropped, SeenThrough, SentOnlyTo;
      holders := holders - {service};
      var live := PruneHolders();
      SentNobody(log, |old(log)|, Recipient(record));
      if live > 0 {
        return false;
      }
      assert holders == map[] by { assert |holders.Keys| == |holders|; }
      ghost var known := log;
      var r := StopServer(polls);
      Grows(known, log, |old(log)|, |old(log)|);
      SentFurther(known, log, |old(log)|, Recipient(old(record)));
      stopped := r.Stopped?;
      assert old(record).Some? ==> StoppedFrom(log, |known|, old(record).value.postmaster, stopped, record);
    }
  }

  /** A stop ran from k to the end of the log, and left this record. */
  ghost predicate StoppedFrom(log: Log, k: nat, m: Mark, stopped: bool, record: Option<Record>) {
    && StopTrace(log, k, m)
    && (stopped <==> SeenThrough(log, k, m))
    && (record.None? <==> UnconfirmedAt(log, |log| - 1, m))
  }

  /** The birth a stop may signal. */
  function Recipient(record: Option<Record>): Option<Mark> {
    if record.Some? then Some(record.value.postmaster) else None
  }

  lemma NothingSent(log: Log, m: Option<Mark>)
    ensures SentOnlyTo(log, |log|, m)
  {
  }

  /** Where nobody was signalled, nobody but any given birth was. */
  lemma SentNobody(log: Log, since: nat, m: Option<Mark>)
    requires SentOnlyTo(log, since, None)
    ensures SentOnlyTo(log, since, m)
  {
  }

  /** The PID postmaster.pid names, when a probe finds the process there. */
  function Named(file: PidFile, probe: int -> bool): Option<int> {
    if file.Names? && file.pid > 0 && probe(file.pid) then Some(file.pid) else None
  }

  predicate NoPostmaster(seen: Inspection) {
    seen.NotFound? || (seen.Identity? && seen.executable != "postgres" && seen.executable != "postmaster")
  }

  /** This answer was about that PID, and showed no postmaster. */
  predicate NoPostmasterAt(log: Log, i: nat, pid: int) {
    i < |log| && log[i].Asked? && log[i].pid == pid && NoPostmaster(log[i].seen)
  }
}
