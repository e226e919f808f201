/** What the console guarantees over whole runs: plans are fixed, histories only grow, a result
    belongs to the visit its call began, and a kept journal makes execution happen once. */
module ConsoleGuarantees {
  import opened Keyed
  import opened PythonText
  import opened ConsoleRuns
  import opened Approvals
  import opened ConsoleProtocol
  import opened ConsoleSteps
  import opened ConsoleSafety
  import C = Coordinator
  import O = ConsoleOutcomes

  /** How one event may change a run. */
  ghost predicate Follows(a: ConsoleRun, b: ConsoleRun) {
    && b.id == a.id
    && (b.phase == a.phase || b.phase in Allowed(a.phase))
    && (a.phase != Planning ==> b.plan == a.plan)
    && a.history <= b.history
  }

  lemma MovedFollows(r: ConsoleRun, phase: Phase, u: Update, now: int)
    requires phase in Allowed(r.phase) && (r.phase != Planning ==> !u.WithPlan?)
    ensures Follows(r, Moved(r, phase, u, now))
  {
  }

  ghost predicate Untouching(c: C.Console, c': C.Console) {
    c'.runs == c.runs && c'.order == c.order && c'.journal == c.journal
  }

  /** Run `r` was stored, and the journal shows the new runs if it could be written. */
  ghost predicate Storing(s: System, c': C.Console, r: ConsoleRun, works: bool) {
    && Put(s.console, c', r)
    && (s.console.journal.writable && works ==> DiskShows(c'))
    && (!s.console.journal.writable || !works ==> c'.journal == s.console.journal)
    && (if r.id in s.console.runs then Follows(s.console.runs[r.id], r) else r.id !in s.used)
  }

  ghost predicate Effect(s: System, s': System, works: bool) {
    || Untouching(s.console, s'.console)
    || exists r :: Storing(s, s'.console, r, works)
  }

  lemma PutEffect(s: System, s': System, pending: map<string, Approval>, r: ConsoleRun, works: bool)
    requires Bookkept(s)
    requires if r.id in s.console.runs then Follows(s.console.runs[r.id], r) else r.id !in s.used
    requires s'.console == C.Put(s.console, r, works).(pending := pending)
    ensures Effect(s, s', works)
  {
    PutFacts(s.console, r, works);
    assert Storing(s, s'.console, r, works);
  }

  lemma MoveEffect(s: System, s': System, id: string, pending: map<string, Approval>, phase: Phase, u: Update,
      now: int, works: bool)
    requires Bookkept(s) && id in s.console.runs && phase in Allowed(s.console.runs[id].phase)
    requires s.console.runs[id].phase != Planning ==> !u.WithPlan?
    requires s'.console == C.Advanced(s.console, s.console.runs[id], phase, u, now, works).(pending := pending)
    ensures Effect(s, s', works)
  {
    MovedFollows(s.console.runs[id], phase, u, now);
    PutEffect(s, s', pending, Moved(s.console.runs[id], phase, u, now), works);
  }

  lemma AdvancedPending(c: C.Console, pending: map<string, Approval>, r: ConsoleRun, phase: Phase, u: Update,
      now: int, works: bool)
    ensures C.Advanced(c.(pending := pending), r, phase, u, now, works) == C.Advanced(c, r, phase, u, now,
        works).(pending := pending)
  {
  }

  lemma StartEffect(s: System, e: Event, works: bool)
    requires Possible(s, e) && Bookkept(s) && (e.Start? || e.CreateFromPlan?)
    ensures Effect(s, Next(s, e, works), works)
  {
    if C.ValidRequest(Strip(e.text)) {
      var r := if e.Start? then Fresh(e.id, Strip(e.text), e.mode, Planning, None, e.now)
               else Fresh(e.id, Strip(e.text), e.mode, PlanReady, Some(e.plan), e.now);
      PutEffect(s, Next(s, e, works), s.console.pending, r, works);
    }
  }

  lemma EndPlanEffect(s: System, e: Event, works: bool)
    requires Possible(s, e) && Bookkept(s) && e.EndPlan?
    ensures Effect(s, Next(s, e, works), works)
  {
    var c, id := s.console, s.calls[e.call].run.id;
    if id in c.runs && c.runs[id].phase == Planning {
      if e.planned.PlanMade? {
        MoveEffect(s, Next(s, e, works), id, c.pending, PlanReady, WithPlan(e.planned.plan), e.now, works);
      } else {
        MoveEffect(s, Next(s, e, works), id, c.pending, Blocked, WithError(e.planned.code), e.now, works);
      }
    }
  }

  lemma PromoteEffect(s: System, e: Event, works: bool)
    requires Possible(s, e) && Bookkept(s) && e.Promote?
    ensures Effect(s, Next(s, e, works), works)
  {
    var c, s' := s.console, Next(s, e, works);
    if s' != s {
      PutEffect(s, s', c.pending, c.runs[e.id].(mode := e.mode, updated := e.now), works);
    }
  }

  lemma PlannedRunEffect(s: System, s': System, id: string, phase: Phase, u: Update, now: int, works: bool)
    requires Bookkept(s) && Admitted(s.console, id)
    requires (phase == Blocked && u.WithError?) || (phase == Preflight && u.Reset?)
    requires s'.console == C.Advanced(s.console, s.console.runs[id], phase, u, now, works)
    ensures Effect(s, s', works)
  {
    MoveEffect(s, s', id, s.console.pending, phase, u, now, works);
  }

  lemma BegunPreviewEffect(s: System, s': System, id: string, now: int, works: bool)
    requires Bookkept(s)
    requires var c := s.console;
      || s' == s
      || (Admitted(c, id) && s' == s.(console := C.Advanced(c, c.runs[id], Blocked, WithError("ui_contract_pack_required"), now, works)))
      || (Admitted(c, id) && s' == Suspend(s, C.Advanced(c, c.runs[id], Preflight, Reset(None), now, works),
          PreviewCall(c.runs[id])))
    ensures Effect(s, s', works)
  {
    if s' != s {
      var u := WithError("ui_contract_pack_required");
      if s'.console == C.Advanced(s.console, s.console.runs[id], Blocked, u, now, works) {
        PlannedRunEffect(s, s', id, Blocked, u, now, works);
      } else {
        PlannedRunEffect(s, s', id, Preflight, Reset(None), now, works);
      }
    }
  }

  lemma BeginPreviewEffect(s: System, e: Event, works: bool)
    requires Possible(s, e) && Bookkept(s) && e.BeginPreview?
    ensures Effect(s, Next(s, e, works), works)
  {
    BeginPreviewShape(s, e, works);
    BegunPreviewEffect(s, Next(s, e, works), e.id, e.now, works);
  }

  lemma EndedPreviewEffect(s: System, s': System, id: string, phase: Phase, u: Update, now: int, works: bool)
    requires Bookkept(s) && id in s.console.runs && s.console.runs[id].phase == Preflight
    requires phase in Allowed(Preflight) && !u.WithPlan?
    requires s'.console == C.Advanced(s.console, s.console.runs[id], phase, u, now, works).(pending := s'.console.pending)
    ensures Effect(s, s', works)
  {
    MoveEffect(s, s', id, s'.console.pending, phase, u, now, works);
  }

  lemma EndPreviewEffect(s: System, e: Event, works: bool)
    requires Possible(s, e) && Bookkept(s) && e.EndPreview?
    ensures Effect(s, Next(s, e, works), works)
  {
    var c, run := s.console, s.calls[e.call].run;
    NextEndPreview(s, e, works);
    if run.id in c.runs && c.runs[run.id].phase == Preflight {
      EndPreviewIs(c, run, e.previewed, e.now, e.later, works);
      if e.previewed.PreviewFailed? {
        EndedPreviewEffect(s, Next(s, e, works), run.id, Blocked, WithError(e.previewed.code), e.now, works);
      } else {
        var p := e.previewed.preview;
        EndedPreviewEffect(s, Next(s, e, works), run.id, PreviewPhase(p.status, run.mode), WithPreview(p), e.now, works);
      }
    }
  }

  lemma CheckApprovalEffect(s: System, e: Event, works: bool)
    requires Possible(s, e) && Bookkept(s) && e.CheckApproval?
    ensures Effect(s, Next(s, e, works), works)
  {
    var c := s.console;
    if e.id in c.runs && c.runs[e.id].phase == AwaitingApproval && c.runs[e.id].preview.Some? && !Usable(c.pending, e.id, e.now) {
      var u := Reset(Some("approval_expired"));
      AdvancedPending(c, c.pending - {e.id}, c.runs[e.id], PlanReady, u, e.later, works);
      MoveEffect(s, Next(s, e, works), e.id, c.pending - {e.id}, PlanReady, u, e.later, works);
    }
  }

  lemma CancelEffect(s: System, e: Event, works: bool)
    requires Possible(s, e) && Bookkept(s) && e.Cancel?
    ensures Effect(s, Next(s, e, works), works)
  {
    var c := s.console;
    if e.id in c.runs && Cancelled in Allowed(c.runs[e.id].phase) {
      AdvancedPending(c, c.pending - {e.id}, c.runs[e.id], Cancelled, Nothing, e.now, works);
      MoveEffect(s, Next(s, e, works), e.id, c.pending - {e.id}, Cancelled, Nothing, e.now, works);
    }
  }

  lemma ApprovingEffect(s: System, s': System, e: Event, works: bool)
    requires Bookkept(s) && e.BeginApprove? && Approving(s, s', e, works)
    ensures Effect(s, s', works)
  {
    var c := s.console;
    if !Untouching(c, s'.console) {
      var blocked := WithError("accepted_live_runner_required");
      AdvancedPending(c, c.pending - {e.id}, c.runs[e.id], Blocked, blocked, e.later, works);
      AdvancedPending(c, c.pending - {e.id}, c.runs[e.id], Executing, Nothing, e.later, works);
      if s'.executions == s.executions {
        MoveEffect(s, s', e.id, c.pending - {e.id}, Blocked, blocked, e.later, works);
      } else {
        MoveEffect(s, s', e.id, c.pending - {e.id}, Executing, Nothing, e.later, works);
      }
    }
  }

  lemma BeginApproveEffect(s: System, e: Event, works: bool)
    requires Possible(s, e) && Bookkept(s) && e.BeginApprove?
    ensures Effect(s, Next(s, e, works), works)
  {
    BeginApproveShape(s, e, works);
    ApprovingEffect(s, Next(s, e, works), e, works);
  }

  lemma EndedExecutionEffect(s: System, s': System, id: string, phase: Phase, u: Update, now: int, works: bool)
    requires Bookkept(s) && id in s.console.runs && s.console.runs[id].phase == Executing
    requires phase in Allowed(Executing) && !u.WithPlan?
    requires s'.console == C.Advanced(s.console, s.console.runs[id], phase, u, now, works)
    ensures Effect(s, s', works)
  {
    MoveEffect(s, s', id, s.console.pending, phase, u, now, works);
  }

  lemma EndApproveEffect(s: System, e: Event, works: bool)
    requires Possible(s, e) && Bookkept(s) && e.EndApprove?
    ensures Effect(s, Next(s, e, works), works)
  {
    var c, id := s.console, s.calls[e.call].run.id;
    if id in c.runs && c.runs[id].phase == Executing {
      if e.executed.ExecutionFailed? {
        EndedExecutionEffect(s, Next(s, e, works), id, Interrupted, WithError(e.executed.code), e.now, works);
      } else {
        var result := e.executed.result;
        EndedExecutionEffect(s, Next(s, e, works), id, ResultPhase(result.status), WithResult(result,
            ResultMessage(result), e.executed.source), e.now, works);
      }
    }
  }

  lemma NextEffect(s: System, e: Event, works: bool)
    requires Possible(s, e) && Bookkept(s) && !e.Restart?
    ensures Effect(s, Next(s, e, works), works)
  {
    match e
    case Start(_, _, _, _) => StartEffect(s, e, works);
    case CreateFromPlan(_, _, _, _, _) => StartEffect(s, e, works);
    case BeginPlan(_) =>
    case EndPlan(_, _, _) => EndPlanEffect(s, e, works);
    case Promote(_, _, _) => PromoteEffect(s, e, works);
    case BeginPreview(_, _) => BeginPreviewEffect(s, e, works);
    case EndPreview(_, _, _, _) => EndPreviewEffect(s, e, works);
    case CheckApproval(_, _, _) => CheckApprovalEffect(s, e, works);
    case Cancel(_, _) => CancelEffect(s, e, works);
    case BeginApprove(_, _, _, _, _, _) => BeginApproveEffect(s, e, works);
    case EndApprove(_, _, _) => EndApproveEffect(s, e, works);
    case Configure(_, _) =>
    case Abandon(_) =>
  }

  /** What one process may do to a run it already has. */
  ghost predicate Progress(a: ConsoleRun, b: ConsoleRun) {
    a.history <= b.history && (a.phase != Planning ==> b.plan == a.plan && b.phase != Planning)
  }

  predicate OneProcess(t: Trace) {
    match t
    case Empty => true
    case Then(before, e, _) => !e.Restart? && OneProcess(before)
  }

  /** While a process lives, it loses no run, every history only grows, and no event, in
      particular no late planner, changes the plan of a run that has left planning. */
  lemma {:induction false} PlansAreFixed(s0: System, t: Trace, s: System, id: string)
    requires Safe(s0) && Reaches(s0, t, s) && OneProcess(t) && id in s0.console.runs
    ensures Safe(s) && id in s.console.runs && Progress(s0.console.runs[id], s.console.runs[id])
    decreases t
  {
    match t
    case Empty =>
    case Then(before, e, works) =>
      var m :| Reaches(s0, before, m) && Possible(m, e) && s == Next(m, e, works);
      PlansAreFixed(s0, before, m, id);
      NextSafe(m, e, works);
      NextEffect(m, e, works);
      EffectProgress(m, s, id, works);
  }

  lemma EffectProgress(m: System, s: System, id: string, works: bool)
    requires Effect(m, s, works) && id in m.console.runs && m.console.runs[id].id == id
    ensures id in s.console.runs && Progress(m.console.runs[id], s.console.runs[id])
  {
    if !Untouching(m.console, s.console) {
      var r :| Storing(m, s.console, r, works);
    }
  }

  /** The transition a resumed call makes. */
  function Landing(e: Event, mode: Mode): (Phase, Update)
    requires e.EndPreview? || e.EndApprove?
  {
    if e.EndPreview? then
      match e.previewed
      case PreviewFailed(code) => (Blocked, WithError(code))
      case PreviewMade(p) => (PreviewPhase(p.status, mode), WithPreview(p))
    else
      match e.executed
      case ExecutionFailed(code) => (Interrupted, WithError(code))
      case ExecutionEnded(r, source) => (ResultPhase(r.status), WithResult(r, ResultMessage(r), source))
  }

  lemma AdvancedRuns(c: C.Console, r: ConsoleRun, phase: Phase, u: Update, now: int, works: bool)
    ensures C.Advanced(c, r, phase, u, now, works).runs == c.runs[r.id := Moved(r, phase, u, now)]
  {
  }

  lemma EndPreviewIs(c: C.Console, run: ConsoleRun, outcome: C.Previewed, now: int, later: int, works: bool)
    requires run.id in c.runs && c.runs[run.id].phase == Preflight
    ensures var t := C.EndPreview(c, run, outcome, now, later, works).console;
      var current := c.runs[run.id];
      t == (match outcome
            case PreviewFailed(code) => C.Advanced(c, current, Blocked, WithError(code), now, works)
            case PreviewMade(p) => C.Advanced(c, current, PreviewPhase(p.status, run.mode), WithPreview(p), now,
                works)).(pending := t.pending)
  {
  }

  lemma NextEndPreview(s: System, e: Event, works: bool)
    requires Possible(s, e) && e.EndPreview?
    ensures Next(s, e, works) == Resume(s, e.call, C.EndPreview(s.console, s.calls[e.call].run, e.previewed, e.now,
        e.later, works).console)
  {
  }

  lemma PreviewLanding(s: System, e: Event, works: bool)
    requires Possible(s, e) && e.EndPreview? && s.calls[e.call].run.id in s.console.runs
    requires s.console.runs[s.calls[e.call].run.id].phase == Preflight
    ensures var (c, run) := (s.console, s.calls[e.call].run); var (phase, u) := Landing(e, run.mode);
      Next(s, e, works).console.runs == C.Advanced(c, c.runs[run.id], phase, u, e.now, works).runs
  {
    NextEndPreview(s, e, works);
    EndPreviewIs(s.console, s.calls[e.call].run, e.previewed, e.now, e.later, works);
  }

  lemma ExecutionLanding(s: System, e: Event, works: bool)
    requires Possible(s, e) && e.EndApprove? && s.calls[e.call].run.id in s.console.runs
    requires s.console.runs[s.calls[e.call].run.id].phase == Executing
    ensures var (c, id) := (s.console, s.calls[e.call].run.id); var (phase, u) := Landing(e, Live);
      Next(s, e, works).console.runs == C.Advanced(c, c.runs[id], phase, u, e.now, works).runs
  {
  }

  /** A resumed preview adds one transition to the visit its own call began: the history is what
      the call saw, its PREFLIGHT entry, and the outcome. Otherwise it changes no run. */
  lemma PreviewLandsOnItsVisit(s: System, e: Event, works: bool)
    requires Safe(s) && Possible(s, e) && e.EndPreview?
    ensures var run, s' := s.calls[e.call].run, Next(s, e, works);
      run.id in s.console.runs && if s.console.runs[run.id].phase == Preflight then
        && OwnsPreview(run, s.console.runs[run.id])
        && s'.console.runs == s.console.runs[run.id := Moved(s.console.runs[run.id], Landing(e, run.mode).0,
            Landing(e, run.mode).1, e.now)]
        && (e.previewed.PreviewMade? ==> O.PreviewShownAs(s.console.runs[run.id], s'.console.runs[run.id], e.previewed.preview, run.mode, e.now))
      else s'.console.runs == s.console.runs
  {
    var run, c := s.calls[e.call].run, s.console;
    assert Attached(s.calls[e.call], c);
    if c.runs[run.id].phase == Preflight {
      PreviewResumes(s, e.call);
      PreviewLanding(s, e, works);
      AdvancedRuns(c, c.runs[run.id], Landing(e, run.mode).0, Landing(e, run.mode).1, e.now, works);
    }
  }

  /** An execution result is recorded on exactly the run that was handed to the live runner,
      unchanged since, and ends it. */
  lemma ExecutionLandsOnItsRun(s: System, e: Event, works: bool)
    requires Safe(s) && Possible(s, e) && e.EndApprove?
    ensures var run, s' := s.calls[e.call].run, Next(s, e, works);
      && run.id in s.console.runs && s.console.runs[run.id] == run
      && s'.console.runs == s.console.runs[run.id := Moved(run, Landing(e, Live).0, Landing(e, Live).1, e.now)]
      && Allowed(s'.console.runs[run.id].phase) == {}
      && O.ExecutionEndedAs(run, s'.console.runs[run.id], e.executed, e.now)
  {
    var run, c := s.calls[e.call].run, s.console;
    ExecutionResumes(s, e.call);
    ExecutionLanding(s, e, works);
    AdvancedRuns(c, run, Landing(e, Live).0, Landing(e, Live).1, e.now, works);
    LandingEnds(e);
    if e.executed.ExecutionEnded? { O.ResultRecorded(run, e.executed.result, e.executed.source, e.now); }
  }

  lemma LandingEnds(e: Event)
    requires e.EndApprove?
    ensures Allowed(Landing(e, Live).0) == {}
  {
  }
}
