/** What survives a restart: a run is executed at most once in its life if every journal write
    that records the start of an execution takes effect. */
module ConsoleDurability {
  import opened Keyed
  import opened ConsoleRuns
  import opened ConsoleJournal
  import opened ConsoleProtocol
  import opened ConsoleSteps
  import opened ConsoleSafety
  import opened ConsoleGuarantees
  import C = Coordinator

  ghost predicate ExecutedRun(s: System, id: string) {
    exists i :: 0 <= i < |s.executions| && s.executions[i].run.id == id
  }

  ghost predicate SpentOnDisk(s: System) {
    forall j :: 0 <= j < |s.console.journal.disk| && s.console.journal.disk[j].Known? ==>
      ExecutedRun(s, s.console.journal.disk[j].run.id) ==> Spent(s.console.journal.disk[j].run.phase)
  }

  ghost predicate SpentInMemory(s: System) {
    forall k :: k in s.console.runs && ExecutedRun(s, k) ==> Spent(s.console.runs[k].phase)
  }

  /** A journal that may not be written shows no run of this process. */
  ghost predicate Apart(s: System) {
    !s.console.journal.writable ==>
      forall j :: 0 <= j < |s.console.journal.disk| && s.console.journal.disk[j].Known? ==>
        s.console.journal.disk[j].run.id !in s.console.runs
  }

  ghost predicate ExecutedOnce(s: System) {
    forall i, j :: 0 <= i < j < |s.executions| ==> s.executions[i].run.id != s.executions[j].run.id
  }

  ghost predicate Durable(s: System) {
    && SpentOnDisk(s) && SpentInMemory(s) && Apart(s) && ExecutedOnce(s)
    && forall i :: 0 <= i < |s.executions| ==> s.executions[i].run.id in s.used
  }

  /** Every journal write that records the start of an execution takes effect; any other may
      be lost. */
  predicate StartsRecorded(t: Trace) {
    match t
    case Empty => true
    case Then(before, e, works) => (e.BeginApprove? ==> works) && StartsRecorded(before)
  }

  /** The execution an event starts is of a run that was awaiting approval until then. */
  ghost predicate Starts(s: System, s': System) {
    || s'.executions == s.executions
    || exists x :: s'.executions == s.executions + [x] && FromAwaiting(s, s', x)
  }

  ghost predicate FromAwaiting(s: System, s': System, x: Execution) {
    && x.run.id in s.console.runs && s.console.runs[x.run.id].phase == AwaitingApproval
    && x.run.id in s'.console.runs && s'.console.runs[x.run.id].phase == Executing
  }

  lemma ApprovingStarts(s: System, s': System, e: Event, works: bool)
    requires Bookkept(s) && e.BeginApprove? && Approving(s, s', e, works)
    ensures Starts(s, s')
  {
    if s'.executions != s.executions {
      var x := Started(s, e);
      AdvancedRuns(s.console.(pending := s.console.pending - {e.id}), s.console.runs[e.id], Executing, Nothing, e.later, works);
      assert s'.executions == s.executions + [x] && FromAwaiting(s, s', x);
    }
  }

  lemma NextStarts(s: System, e: Event, works: bool)
    requires Possible(s, e) && Bookkept(s) && !e.Restart?
    ensures Starts(s, Next(s, e, works))
    ensures s.used <= Next(s, e, works).used
    ensures !e.BeginApprove? ==> Next(s, e, works).executions == s.executions
  {
    if e.BeginApprove? {
      BeginApproveShape(s, e, works);
      ApprovingStarts(s, Next(s, e, works), e, works);
    }
  }

  lemma EffectDurable(s: System, s': System, works: bool)
    requires Safe(s) && Safe(s') && Durable(s) && Effect(s, s', works) && Starts(s, s') && s.used <= s'.used
    requires s'.executions != s.executions ==> works
    ensures Durable(s')
  {
    forall k | k in s'.console.runs && ExecutedRun(s', k) ensures Spent(s'.console.runs[k].phase) {
      ExecutedStaysSpent(s, s', k, works);
    }
    ExecutedStaysOnce(s, s');
    DiskStaysApart(s, s', works);
    DiskStaysSpent(s, s', works);
  }

  lemma SpentStays(s: System, s': System, k: string, works: bool)
    requires Effect(s, s', works) && k in s.used && k in s'.console.runs
    requires forall j :: j in s.console.runs ==> s.console.runs[j].id == j
    requires k in s.console.runs ==> Spent(s.console.runs[k].phase)
    requires FieldsFit(s'.console.runs[k])
    ensures Spent(s'.console.runs[k].phase)
  {
    if !Untouching(s.console, s'.console) {
      var r :| Storing(s, s'.console, r, works);
      assert k in s.console.runs;
    }
  }

  lemma ExecutedStaysSpent(s: System, s': System, k: string, works: bool)
    requires Bookkept(s) && RunsConsistent(s') && SpentInMemory(s) && Effect(s, s', works) && Starts(s, s')
    requires forall i :: 0 <= i < |s.executions| ==> s.executions[i].run.id in s.used
    requires k in s'.console.runs && ExecutedRun(s', k)
    ensures Spent(s'.console.runs[k].phase)
  {
    var i :| 0 <= i < |s'.executions| && s'.executions[i].run.id == k;
    assert Consistent(s'.console.runs[k]);
    if i < |s.executions| {
      assert s'.executions[i] == s.executions[i];
      assert ExecutedRun(s, k);
      SpentStays(s, s', k, works);
    } else {
      var x :| s'.executions == s.executions + [x] && FromAwaiting(s, s', x);
    }
  }

  lemma ExecutedStaysOnce(s: System, s': System)
    requires Bookkept(s) && SpentInMemory(s) && ExecutedOnce(s) && Starts(s, s') && s.used <= s'.used
    requires forall i :: 0 <= i < |s.executions| ==> s.executions[i].run.id in s.used
    ensures ExecutedOnce(s')
    ensures forall i :: 0 <= i < |s'.executions| ==> s'.executions[i].run.id in s'.used
  {
    if s'.executions != s.executions {
      var x :| s'.executions == s.executions + [x] && FromAwaiting(s, s', x);
      assert !ExecutedRun(s, x.run.id);
    }
  }

  lemma DiskStaysApart(s: System, s': System, works: bool)
    requires Bookkept(s) && RunsConsistent(s) && Apart(s) && Effect(s, s', works)
    ensures Apart(s')
  {
    if !Untouching(s.console, s'.console) {
      var r :| Storing(s, s'.console, r, works);
    }
  }

  lemma DiskStaysSpent(s: System, s': System, works: bool)
    requires Bookkept(s) && Bookkept(s') && SpentOnDisk(s) && SpentInMemory(s') && Apart(s) && Effect(s, s',
        works) && Starts(s, s')
    requires s'.executions != s.executions ==> works
    ensures SpentOnDisk(s')
  {
    var disk := s'.console.journal.disk;
    forall j | 0 <= j < |disk| && disk[j].Known? && ExecutedRun(s', disk[j].run.id) ensures Spent(disk[j].run.phase) {
      if s.console.journal.writable && works && !Untouching(s.console, s'.console) {
        var r :| Storing(s, s'.console, r, works);
        assert Shows(s'.console.runs, disk[j].run);
        var k :| k in s'.console.runs && s'.console.runs[k] == disk[j].run;
        assert k == disk[j].run.id;
      } else {
        assert s'.console.journal == s.console.journal;
        SameDiskSpent(s, s', j);
      }
    }
  }

  lemma SameDiskSpent(s: System, s': System, j: nat)
    requires s'.console.journal == s.console.journal && SpentOnDisk(s) && Apart(s) && Starts(s, s')
    requires s.console.journal.writable ==> s'.executions == s.executions
    requires j < |s.console.journal.disk| && s.console.journal.disk[j].Known?
    requires ExecutedRun(s', s.console.journal.disk[j].run.id)
    ensures Spent(s.console.journal.disk[j].run.phase)
  {
    var id := s.console.journal.disk[j].run.id;
    var i :| 0 <= i < |s'.executions| && s'.executions[i].run.id == id;
    if s'.executions != s.executions {
      var x :| s'.executions == s.executions + [x] && FromAwaiting(s, s', x);
      assert i < |s.executions|;
    }
    assert s'.executions[i] == s.executions[i];
    assert ExecutedRun(s, id);
  }

  /** A run that was executed comes back from disk in a phase that still says so. */
  lemma RestoredSpent(s: System, readable: bool, now: int, r: ConsoleRun)
    requires SpentOnDisk(s) && r in LoadedRuns(s.console.journal.disk, readable, now) && ExecutedRun(s, r.id)
    ensures Spent(r.phase)
  {
    var disk := s.console.journal.disk;
    RestoredMembers(disk, now);
    var i :| RestoredFrom(disk, i, r, now);
    RestoreSettles(disk[i].run, now, now);
    assert ExecutedRun(s, disk[i].run.id);
  }

  lemma RestartInMemory(s: System, s': System, e: Event, works: bool)
    requires SpentOnDisk(s) && e.Restart? && s' == Next(s, e, works)
    ensures SpentInMemory(s')
  {
    var runs := LoadedRuns(s.console.journal.disk, e.readable, e.now);
    IndexFacts(runs, RunId);
    forall k | k in s'.console.runs && ExecutedRun(s', k) ensures Spent(s'.console.runs[k].phase) {
      var i :| 0 <= i < |s'.executions| && s'.executions[i].run.id == k;
      assert s.executions[i].run.id == k;
      RestoredSpent(s, e.readable, e.now, s'.console.runs[k]);
    }
  }

  lemma RestartOnDisk(s: System, s': System, e: Event, works: bool)
    requires SpentOnDisk(s) && e.Restart? && s' == Next(s, e, works)
    ensures SpentOnDisk(s') && Apart(s')
  {
    var disk := s.console.journal.disk;
    forall j | 0 <= j < |disk| && disk[j].Known? && ExecutedRun(s', disk[j].run.id) ensures Spent(disk[j].run.phase) {
      var i :| 0 <= i < |s'.executions| && s'.executions[i].run.id == disk[j].run.id;
      assert s.executions[i].run.id == disk[j].run.id;
      assert ExecutedRun(s, disk[j].run.id);
    }
    assert LoadedRuns(disk, false, e.now) == [];
  }

  lemma RestartDurable(s: System, e: Event, works: bool)
    requires Durable(s) && e.Restart?
    ensures Durable(Next(s, e, works))
  {
    RestartInMemory(s, Next(s, e, works), e, works);
    RestartOnDisk(s, Next(s, e, works), e, works);
  }

  lemma InitialDurable(s0: System)
    requires Initial(s0)
    ensures Safe(s0) && Durable(s0)
  {
  }

  /** With the starts recorded, no run is ever executed twice, across restarts, and one that was
      executed is never again in a phase from which it could be. */
  lemma {:induction false} ExecutedAtMostOnce(s0: System, t: Trace, s: System)
    requires Safe(s0) && Durable(s0) && Reaches(s0, t, s) && StartsRecorded(t)
    ensures ExecutedOnce(s)
    ensures forall k :: k in s.console.runs && ExecutedRun(s, k) ==> Spent(s.console.runs[k].phase)
    ensures Safe(s) && Durable(s)
    decreases t
  {
    match t
    case Empty =>
    case Then(before, e, works) =>
      var m :| Reaches(s0, before, m) && Possible(m, e) && s == Next(m, e, works);
      ExecutedAtMostOnce(s0, before, m);
      NextSafe(m, e, works);
      if e.Restart? {
        RestartDurable(m, e, works);
      } else {
        NextEffect(m, e, works);
        NextStarts(m, e, works);
        EffectDurable(m, s, works);
      }
  }
}
