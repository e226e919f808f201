/** One lost journal write, from a fresh console: the same run is executed twice. */
module ConsoleLoss {
  import opened Keyed
  import opened PythonText
  import opened ConsoleRuns
  import opened Approvals
  import opened ConsoleJournal
  import opened ConsoleProtocol
  import opened ConsoleSteps
  import opened ConsoleSafety
  import opened ConsoleDurability
  import opened ConsoleRestart
  import opened ConsoleReplay
  import C = Coordinator

  const FIRST := System(C.Console(map[], [], map[], 1, true, true, Journal([], [], true)), map[], 0, 0, [], {})

  function Creation(id: string): Event { CreateFromPlan(id, "x", Live, [], 0) }

  lemma CreatedIsIdle(id: string, s: System)
    requires s == Next(FIRST, Creation(id), true)
    ensures Idle(s, id) && s.console.runs[id].mode == Live && s.console.runs[id].created == 0 && s.executions == []
    ensures s.console.journal.writable && s.nextCall == 0
  {
    assert Initial(FIRST);
    InitialDurable(FIRST);
    NextSafe(FIRST, Creation(id), true);
    StripStands("x");
    PutFacts(FIRST.console, Fresh(id, "x", Live, PlanReady, Some([]), 0), true);
  }

  /** What a completed preview leaves on disk: the run as it now awaits approval. */
  lemma PresentedIsSaved(s: System, id: string, call: nat, s': System)
    requires id in s.console.runs && s.console.runs[id].phase == Preflight && s.console.runs[id].created == 0
    requires s.console.runs[id].id == id
    requires call in s.calls && s.calls[call].PreviewCall? && s.calls[call].run.id == id && s.calls[call].run.mode == Live
    requires s' == Next(s, EndPreview(call, C.PreviewMade(SAMPLE), 0, 0), true)
    ensures s'.console.journal == Write(s.console.journal, C.Listed(s'.console.runs, s'.console.order), true)
    ensures id in s'.console.runs && s'.console.runs[id].phase == AwaitingApproval && Loadable(s'.console.runs[id])
  {
  }

  lemma SavedIsRevivable(s: System, j: Journal, id: string)
    requires Safe(s) && j.writable && s.console.journal == Write(j, C.Listed(s.console.runs, s.console.order), true)
    requires id in s.console.runs && s.console.runs[id].phase == AwaitingApproval && Loadable(s.console.runs[id])
    ensures Revivable(s, id)
  {
    RestartAfterSave(s.console, 0, 1, true, true);
  }

  lemma PreviewKeepsCreation(s: System, id: string, s': System)
    requires Idle(s, id) && s.console.runs[id].mode == Live && s.console.runs[id].created == 0
    requires s' == Next(s, BeginPreview(id, 0), true)
    ensures id in s'.console.runs && s'.console.runs[id].created == 0 && s'.console.journal.writable == s.console.journal.writable
    ensures s'.executions == s.executions
  {
  }

  /** The state in which the run awaits approval, its approval is pending, and the disk says so. */
  lemma Presented(id: string) returns (t: Trace, s: System)
    requires HexId(id)
    ensures Reaches(FIRST, t, s) && Safe(s) && Revivable(s, id) && s.executions == []
    ensures id in s.console.runs && s.console.runs[id].phase == AwaitingApproval && s.console.runner && s.console.runs[id].id == id
    ensures Usable(s.console.pending, id, 0) && s.console.pending[id].phrase == Phrase(id)
  {
    var e1, e2, e3 := Creation(id), BeginPreview(id, 0), EndPreview(0, C.PreviewMade(SAMPLE), 0, 0);
    var s1 := Next(FIRST, e1, true);
    CreatedIsIdle(id, s1);
    ReachMore(FIRST, Empty, FIRST, e1, true);
    var s2 := Next(s1, e2, true);
    PreviewStarts(s1, id, s2);
    PreviewKeepsCreation(s1, id, s2);
    RunsKeyed(s1, id);
    ReachMore(FIRST, Then(Empty, e1, true), s1, e2, true);
    s := Next(s2, e3, true);
    t := Then(Then(Then(Empty, e1, true), e2, true), e3, true);
    ReachMore(FIRST, Then(Then(Empty, e1, true), e2, true), s2, e3, true);
    PreviewPresents(s2, id, 0, s);
    RunsKeyed(s2, id);
    PresentedIsSaved(s2, id, 0, s);
    NextSafe(s2, e3, true);
    RunsKeyed(s, id);
    SavedIsRevivable(s, s2.console.journal, id);
  }

  function Append(t: Trace, t': Trace): Trace {
    match t' case Empty => t case Then(before, e, works) => Then(Append(t, before), e, works)
  }

  lemma {:induction false} ReachAppend(s0: System, t: Trace, m: System, t': Trace, s: System)
    requires Reaches(s0, t, m) && Reaches(m, t', s)
    ensures Reaches(s0, Append(t, t'), s)
    decreases t'
  {
    match t'
    case Empty =>
    case Then(before, e, works) =>
      var n :| Reaches(m, before, n) && Possible(n, e) && s == Next(n, e, works);
      ReachAppend(s0, t, m, before, n);
  }

  /** A console that loses the write recording an execution can execute the run a second time. */
  lemma LostStartExecutesTwice(id: string) returns (t: Trace, s: System)
    requires HexId(id)
    ensures Initial(FIRST) && Reaches(FIRST, t, s) && !ExecutedOnce(s)
  {
    var t1, s1 := Presented(id);
    var e := TypedApproval(id);
    var m := Next(s1, e, false);
    ApprovalStarts(s1, id, false, m);
    LostStart(s1, e);
    NextSafe(s1, e, false);
    RevivedRepeats(m, id);
    var t2, s2 :| Reaches(m, t2, s2) && StartsRecorded(t2) && !ExecutedOnce(s2);
    ReachMore(FIRST, t1, s1, e, false);
    t, s := Append(Then(t1, e, false), t2), s2;
    ReachAppend(FIRST, Then(t1, e, false), m, t2, s2);
  }
}
