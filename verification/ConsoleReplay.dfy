/** Losing the one journal write that records the start of an execution is exactly what lets a
    later process execute the run again. */
module ConsoleReplay {
  import opened Keyed
  import opened ConsoleRuns
  import opened Approvals
  import opened ConsoleJournal
  import opened ConsoleProtocol
  import opened ConsoleSafety
  import opened ConsoleDurability
  import C = Coordinator

  /** The form of every run ID: the hexadecimal digits of a UUID. */
  predicate HexId(id: string) {
    |id| == 32 && forall i :: 0 <= i < |id| ==> '0' <= id[i] <= '9' || 'a' <= id[i] <= 'f'
  }

  const SAMPLE: Preview := Preview(Ready, "", Some(""), Some(""), true, None)

  /** A process idle but for planned work, ready to preview and execute. */
  ghost predicate Idle(s: System, id: string) {
    && Safe(s) && id in s.console.runs && s.console.runs[id].phase == PlanReady
    && (forall k :: k in s.console.runs ==> !BrowserActive(s.console.runs[k].phase))
    && s.console.previews && s.console.runner && s.console.ttl > 0
  }

  function Promotion(id: string): Event { Promote(id, Live, 0) }

  lemma PromotedRuns(c: C.Console, id: string)
    requires id in c.runs && c.runs[id].phase == PlanReady && c.runs[id].plan.Some? && c.runs[id].id == id
    ensures var c' := C.Promote(c, id, Live, 0, true).console;
      && id in c'.runs && c'.runs[id].mode == Live && c'.runs[id].phase == PlanReady
      && c'.runs.Keys == c.runs.Keys
      && (forall k :: k in c.runs && k != id ==> c'.runs[k] == c.runs[k])
      && c'.previews == c.previews && c'.runner == c.runner && c'.ttl == c.ttl
  {
  }

  lemma PromotionReady(s: System, id: string, s': System)
    requires Idle(s, id) && s' == Next(s, Promotion(id), true)
    ensures Idle(s', id) && s'.console.runs[id].mode == Live && s'.executions == s.executions && s'.nextCall == s.nextCall
  {
    NextSafe(s, Promotion(id), true);
    assert Consistent(s.console.runs[id]);
    PromotedRuns(s.console, id);
    IdleAgain(s, s', id);
  }

  lemma IdleAgain(s: System, s': System, id: string)
    requires Idle(s, id) && Safe(s') && s' == s.(console := s'.console)
    requires var (c, c') := (s.console, s'.console);
      && id in c'.runs && c'.runs[id].phase == PlanReady
      && c'.runs.Keys == c.runs.Keys
      && (forall k :: k in c.runs && k != id ==> c'.runs[k] == c.runs[k])
      && c'.previews == c.previews && c'.runner == c.runner && c'.ttl == c.ttl
    ensures Idle(s', id)
  {
  }

  lemma PreviewStarts(s: System, id: string, s': System)
    requires Idle(s, id) && s.console.runs[id].mode == Live && s' == Next(s, BeginPreview(id, 0), true)
    ensures s' == Suspend(s, s'.console, PreviewCall(s.console.runs[id]))
    ensures Safe(s') && id in s'.console.runs && s'.console.runs[id].phase == Preflight && s'.console.runner && s'.console.ttl > 0
  {
    NextSafe(s, BeginPreview(id, 0), true);
    assert Consistent(s.console.runs[id]);
  }

  lemma PreviewPresents(s: System, id: string, call: nat, s': System)
    requires Safe(s) && id in s.console.runs && s.console.runs[id].phase == Preflight && s.console.runner && s.console.ttl > 0
    requires call in s.calls && s.calls[call].PreviewCall? && s.calls[call].run.id == id && s.calls[call].run.mode == Live
    requires s' == Next(s, EndPreview(call, C.PreviewMade(SAMPLE), 0, 0), true)
    ensures id in s'.console.runs && s'.console.runs[id].phase == AwaitingApproval && s'.console.runner
    ensures Usable(s'.console.pending, id, 0) && s'.console.pending[id].phrase == Phrase(id)
    ensures s'.executions == s.executions
  {
  }

  function TypedApproval(id: string): Event { BeginApprove(id, Phrase(id), true, "approved", 0, 0) }

  lemma ApprovalStarts(s: System, id: string, works: bool, s': System)
    requires HexId(id) && id in s.console.runs && s.console.runs[id].phase == AwaitingApproval && s.console.runner
    requires s.console.runs[id].id == id
    requires Usable(s.console.pending, id, 0) && s.console.pending[id].phrase == Phrase(id)
    requires s' == Next(s, TypedApproval(id), works)
    ensures |s'.executions| == |s.executions| + 1 && s.executions < s'.executions
    ensures s'.executions[|s.executions|].run.id == id
  {
  }

  lemma ReachMore(s0: System, t: Trace, m: System, e: Event, works: bool)
    requires Reaches(s0, t, m) && Possible(m, e)
    ensures Reaches(s0, Then(t, e, works), Next(m, e, works))
  {
  }

  lemma AwaitingCanExecute(s0: System, t: Trace, s: System, id: string) returns (t': Trace, s': System)
    requires Reaches(s0, t, s) && StartsRecorded(t) && s.executions == s0.executions
    requires Safe(s) && id in s.console.runs && s.console.runs[id].phase == AwaitingApproval && s.console.runner && HexId(id)
    requires Usable(s.console.pending, id, 0) && s.console.pending[id].phrase == Phrase(id)
    ensures Reaches(s0, t', s') && StartsRecorded(t')
    ensures s0.executions < s'.executions && s'.executions[|s0.executions|].run.id == id
  {
    var e := TypedApproval(id);
    t', s' := Then(t, e, true), Next(s, e, true);
    ReachMore(s0, t, s, e, true);
    ApprovalStarts(s, id, true, s');
  }

  lemma PreflightCanExecute(s0: System, t: Trace, s: System, id: string, call: nat) returns (t': Trace, s': System)
    requires Reaches(s0, t, s) && StartsRecorded(t) && s.executions == s0.executions
    requires Safe(s) && id in s.console.runs && s.console.runs[id].phase == Preflight && s.console.runner && s.console.ttl > 0 && HexId(id)
    requires call in s.calls && s.calls[call].PreviewCall? && s.calls[call].run.id == id && s.calls[call].run.mode == Live
    ensures Reaches(s0, t', s') && StartsRecorded(t')
    ensures s0.executions < s'.executions && s'.executions[|s0.executions|].run.id == id
  {
    var e := EndPreview(call, C.PreviewMade(SAMPLE), 0, 0);
    var m := Next(s, e, true);
    ReachMore(s0, t, s, e, true);
    PreviewPresents(s, id, call, m);
    NextSafe(s, e, true);
    t', s' := AwaitingCanExecute(s0, Then(t, e, true), m, id);
  }

  /** A planned run of an idle process can be executed: promote, preview, approve. */
  lemma PlannedRunCanExecute(s0: System, t: Trace, s: System, id: string) returns (t': Trace, s': System)
    requires Reaches(s0, t, s) && StartsRecorded(t) && s.executions == s0.executions
    requires Idle(s, id) && HexId(id)
    ensures Reaches(s0, t', s') && StartsRecorded(t')
    ensures s0.executions < s'.executions && s'.executions[|s0.executions|].run.id == id
  {
    var e1, e2 := Promotion(id), BeginPreview(id, 0);
    var s1 := Next(s, e1, true);
    ReachMore(s0, t, s, e1, true);
    PromotionReady(s, id, s1);
    var t1 := Then(t, e1, true);
    var s2 := Next(s1, e2, true);
    ReachMore(s0, t1, s1, e2, true);
    PreviewStarts(s1, id, s2);
    RunsKeyed(s1, id);
    t', s' := PreflightCanExecute(s0, Then(t1, e2, true), s2, id, s1.nextCall);
  }

  lemma RunsKeyed(s: System, id: string)
    requires Safe(s) && id in s.console.runs
    ensures s.console.runs[id].id == id
  {
  }

  /** The journal on disk would give a new process this run ready to preview. */
  ghost predicate Revivable(s: System, id: string) {
    var runs := Index(Restored(s.console.journal.disk, 0), RunId);
    id in runs && runs[id].phase == PlanReady
  }

  lemma RevivedRunCanExecute(s: System, id: string) returns (t: Trace, s': System)
    requires Safe(s) && Revivable(s, id) && HexId(id)
    ensures Reaches(s, t, s') && StartsRecorded(t)
    ensures s.executions < s'.executions && s'.executions[|s.executions|].run.id == id
  {
    var e := Restart(true, 1, true, true, 0);
    var m := Next(s, e, true);
    ReachMore(s, Empty, s, e, true);
    NextSafe(s, e, true);
    RestoredRuns(s, 0);
    IndexFacts(Restored(s.console.journal.disk, 0), RunId);
    t, s' := PlannedRunCanExecute(s, Then(Empty, e, true), m, id);
  }

  ghost predicate NeverAgain(m: System) {
    forall t, s' :: Reaches(m, t, s') && StartsRecorded(t) ==> ExecutedOnce(s')
  }

  lemma DurableNeverAgain(m: System)
    requires Safe(m) && Durable(m)
    ensures NeverAgain(m)
  {
    forall t, s' | Reaches(m, t, s') && StartsRecorded(t) ensures ExecutedOnce(s') {
      ExecutedAtMostOnce(m, t, s');
    }
  }

  lemma RevivedRepeats(m: System, id: string)
    requires Safe(m) && Revivable(m, id) && HexId(id)
    requires |m.executions| > 0 && m.executions[|m.executions| - 1].run.id == id
    ensures !NeverAgain(m)
  {
    var t, s' := RevivedRunCanExecute(m, id);
    assert s'.executions[|m.executions| - 1] == m.executions[|m.executions| - 1];
    assert !ExecutedOnce(s');
  }

  lemma LostStart(s: System, e: Event)
    requires Bookkept(s) && Possible(s, e) && e.BeginApprove? && Next(s, e, false).executions != s.executions
    ensures var m := Next(s, e, false);
      && m.console.journal == s.console.journal
      && |m.executions| == |s.executions| + 1 && m.executions[|s.executions|].run.id == e.id
  {
  }

  lemma RecordedStart(s: System, e: Event)
    requires Safe(s) && Durable(s) && Possible(s, e)
    ensures Safe(Next(s, e, true)) && Durable(Next(s, e, true))
  {
    ReachMore(s, Empty, s, e, true);
    ExecutedAtMostOnce(s, Then(Empty, e, true), Next(s, e, true));
  }

  /** When an event starts an execution of a run the disk would revive, whether the write that
      records the start takes effect decides whether the run can ever be executed again. */
  lemma RecordedStartDecides(s: System, e: Event, works: bool)
    requires Safe(s) && Durable(s) && Possible(s, e) && e.BeginApprove? && HexId(e.id) && Revivable(s, e.id)
    requires Next(s, e, works).executions != s.executions
    ensures works <==> NeverAgain(Next(s, e, works))
  {
    if works {
      RecordedStart(s, e);
      DurableNeverAgain(Next(s, e, true));
    } else {
      NextSafe(s, e, false);
      LostStart(s, e);
      RevivedRepeats(Next(s, e, false), e.id);
    }
  }
}
