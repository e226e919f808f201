/** Plans across restarts: whatever journal writes are lost, a later process shows the plan a run
    was given, or none, and never another one. */
module ConsolePlans {
  import opened Keyed
  import opened Resources
  import opened ConsoleRuns
  import opened ConsoleJournal
  import opened ConsoleProtocol
  import opened ConsoleSteps
  import opened ConsoleSafety
  import opened ConsoleGuarantees
  import opened ConsoleDurability

  ghost predicate OnDisk(s: System, j: int) { 0 <= j < |s.console.journal.disk| && s.console.journal.disk[j].Known? }

  function Saved(s: System, j: int): ConsoleRun
    requires OnDisk(s, j)
  {
    s.console.journal.disk[j].run
  }

  /** The snapshots of one run agree on its plan, and a plan on disk is the plan in memory. */
  ghost predicate Agreed(s: System) {
    && (forall i, j :: OnDisk(s, i) && OnDisk(s, j) && Saved(s, i).id == Saved(s, j).id ==> Saved(s, i).plan == Saved(s, j).plan)
    && forall j :: OnDisk(s, j) && Saved(s, j).id in s.console.runs && Saved(s, j).plan.Some? ==>
      s.console.runs[Saved(s, j).id].plan == Saved(s, j).plan
  }

  /** Memory and disk show the plan `p` of the run, or none; and the run is past planning. */
  ghost predicate Holds(s: System, id: string, p: seq<Action>) {
    && id in s.used
    && (id in s.console.runs ==> s.console.runs[id].phase != Planning && (s.console.runs[id].plan.Some? ==> s.console.runs[id].plan.value == p))
    && forall j :: OnDisk(s, j) && Saved(s, j).id == id && Saved(s, j).plan.Some? ==> Saved(s, j).plan.value == p
  }

  lemma ShownIsCurrent(s: System, j: int)
    requires Bookkept(s) && DiskShows(s.console) && OnDisk(s, j)
    ensures Saved(s, j).id in s.console.runs && s.console.runs[Saved(s, j).id] == Saved(s, j)
  {
    assert Shows(s.console.runs, Saved(s, j));
  }

  lemma WrittenAgrees(s: System)
    requires Bookkept(s) && DiskShows(s.console)
    ensures Agreed(s)
  {
    forall j | OnDisk(s, j) ensures Saved(s, j).id in s.console.runs && s.console.runs[Saved(s, j).id] == Saved(s, j) {
      ShownIsCurrent(s, j);
    }
  }

  /** Where nothing was written, the disk is an older view of the runs. */
  lemma UnwrittenAgrees(s: System, s': System, r: ConsoleRun, works: bool)
    requires Bookkept(s) && RunsConsistent(s) && Agreed(s) && Storing(s, s'.console, r, works)
    requires s'.console.journal == s.console.journal
    ensures Agreed(s')
  {
    assert forall j :: OnDisk(s', j) ==> OnDisk(s, j) && Saved(s', j) == Saved(s, j);
    forall j | OnDisk(s', j) && Saved(s', j).id in s'.console.runs && Saved(s', j).plan.Some?
      ensures s'.console.runs[Saved(s', j).id].plan == Saved(s', j).plan
    {
      assert OnDisk(s, j) && Saved(s, j) == Saved(s', j) && Saved(s, j).id in s.used;
      if Saved(s, j).id == r.id {
        assert r.id in s.console.runs;
        assert Consistent(s.console.runs[r.id]);
      }
    }
  }

  lemma EffectAgrees(s: System, s': System, works: bool)
    requires Bookkept(s) && RunsConsistent(s) && Bookkept(s') && Agreed(s) && Effect(s, s', works)
    ensures Agreed(s')
  {
    if Untouching(s.console, s'.console) {
      SameAgrees(s, s');
    } else {
      var r :| Storing(s, s'.console, r, works);
      if s.console.journal.writable && works { WrittenAgrees(s'); } else { UnwrittenAgrees(s, s', r, works); }
    }
  }

  lemma SameAgrees(s: System, s': System)
    requires Agreed(s) && Untouching(s.console, s'.console)
    ensures Agreed(s')
  {
    assert forall j :: OnDisk(s', j) ==> OnDisk(s, j) && Saved(s', j) == Saved(s, j);
  }

  /** A restored run is some snapshot of its ID, moved on. */
  lemma RestoredIsSaved(s: System, e: Event, works: bool, k: string) returns (j: int)
    requires e.Restart? && k in Next(s, e, works).console.runs
    ensures OnDisk(s, j) && Saved(s, j).id == k && Next(s, e, works).console.runs[k] == Restore(Saved(s, j), e.now)
  {
    var disk := s.console.journal.disk;
    var runs := LoadedRuns(disk, e.readable, e.now);
    IndexFacts(runs, RunId);
    RestoredMembers(disk, e.now);
    var r := Next(s, e, works).console.runs[k];
    assert r in runs && RunId(r) == k;
    j :| RestoredFrom(disk, j, r, e.now);
    RestoreSettles(disk[j].run, e.now, e.now);
  }

  lemma RestartAgrees(s: System, e: Event, works: bool)
    requires Agreed(s) && e.Restart?
    ensures Agreed(Next(s, e, works))
  {
    var s' := Next(s, e, works);
    assert s'.console.journal.disk == s.console.journal.disk;
    forall i | OnDisk(s', i) && Saved(s', i).id in s'.console.runs ensures s'.console.runs[Saved(s', i).id].plan == Saved(s', i).plan {
      var j := RestoredIsSaved(s, e, works, Saved(s', i).id);
      RestoreSettles(Saved(s, j), e.now, e.now);
      assert OnDisk(s, i) && Saved(s, i) == Saved(s', i);
    }
    assert forall j :: OnDisk(s', j) ==> OnDisk(s, j) && Saved(s', j) == Saved(s, j);
  }

  lemma {:induction false} EveryDiskAgrees(s0: System, t: Trace, s: System)
    requires Initial(s0) && Reaches(s0, t, s)
    ensures Safe(s) && Agreed(s)
    decreases t
  {
    InitialDurable(s0);
    match t
    case Empty =>
    case Then(before, e, works) =>
      var m :| Reaches(s0, before, m) && Possible(m, e) && s == Next(m, e, works);
      EveryDiskAgrees(s0, before, m);
      NextSafe(m, e, works);
      if e.Restart? {
        RestartAgrees(m, e, works);
      } else {
        NextEffect(m, e, works);
        EffectAgrees(m, s, works);
      }
  }

  lemma MemoryHolds(s: System, s': System, id: string, p: seq<Action>, works: bool)
    requires Bookkept(s) && Bookkept(s') && Holds(s, id, p) && Effect(s, s', works) && id in s'.console.runs
    ensures s'.console.runs[id].phase != Planning && (s'.console.runs[id].plan.Some? ==> s'.console.runs[id].plan.value == p)
  {
    if !Untouching(s.console, s'.console) {
      var r :| Storing(s, s'.console, r, works);
    }
  }

  lemma EffectHolds(s: System, s': System, id: string, p: seq<Action>, works: bool)
    requires Bookkept(s) && Bookkept(s') && Holds(s, id, p) && Effect(s, s', works) && s.used <= s'.used
    ensures Holds(s', id, p)
  {
    if id in s'.console.runs { MemoryHolds(s, s', id, p, works); }
    forall j | OnDisk(s', j) && Saved(s', j).id == id && Saved(s', j).plan.Some? ensures Saved(s', j).plan.value == p {
      if s'.console.journal.disk == s.console.journal.disk {
        assert OnDisk(s, j) && Saved(s, j) == Saved(s', j);
      } else {
        var r :| Storing(s, s'.console, r, works);
        ShownIsCurrent(s', j);
      }
    }
  }

  lemma RestartHolds(s: System, e: Event, works: bool, id: string, p: seq<Action>)
    requires Holds(s, id, p) && e.Restart?
    ensures Holds(Next(s, e, works), id, p)
  {
    var s' := Next(s, e, works);
    if id in s'.console.runs {
      var j := RestoredIsSaved(s, e, works, id);
      RestoreSettles(Saved(s, j), e.now, e.now);
      assert Restore(Saved(s, j), e.now).phase != Planning;
    }
    assert s'.console.journal.disk == s.console.journal.disk;
    assert forall j :: OnDisk(s', j) ==> OnDisk(s, j) && Saved(s', j) == Saved(s, j);
  }

  lemma {:induction false} PlanHolds(s1: System, t: Trace, s2: System, id: string, p: seq<Action>)
    requires Safe(s1) && Holds(s1, id, p) && Reaches(s1, t, s2)
    ensures Safe(s2) && Holds(s2, id, p)
    decreases t
  {
    match t
    case Empty =>
    case Then(before, e, works) =>
      var m :| Reaches(s1, before, m) && Possible(m, e) && s2 == Next(m, e, works);
      PlanHolds(s1, before, m, id, p);
      NextSafe(m, e, works);
      if e.Restart? {
        RestartHolds(m, e, works, id, p);
      } else {
        NextEffect(m, e, works);
        NextStarts(m, e, works);
        EffectHolds(m, s2, id, p, works);
      }
  }

  /** Once a run has a plan, every later state, after any events, lost writes and restarts, shows
      that plan for the run, or no plan, or no run. */
  lemma PlansSurviveRestarts(s0: System, t1: Trace, s1: System, t2: Trace, s2: System, id: string)
    requires Initial(s0) && Reaches(s0, t1, s1) && Reaches(s1, t2, s2)
    requires id in s1.console.runs && s1.console.runs[id].plan.Some?
    ensures id in s2.console.runs && s2.console.runs[id].plan.Some? ==> s2.console.runs[id].plan == s1.console.runs[id].plan
    ensures id in s2.console.runs ==> s2.console.runs[id].phase != Planning
  {
    EveryDiskAgrees(s0, t1, s1);
    assert Consistent(s1.console.runs[id]);
    assert Holds(s1, id, s1.console.runs[id].plan.value);
    PlanHolds(s1, t2, s2, id, s1.console.runs[id].plan.value);
  }
}
