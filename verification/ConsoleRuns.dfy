/** One console run: its phases, the transitions between them, and its recorded history. */
module ConsoleRuns {
  import opened Keyed
  import opened Resources

  datatype Phase =
    | Planning | PlanReady | Preflight | PreviewReady | AwaitingApproval
    | Executing | Verifying | Completed | Blocked | Cancelled | Interrupted

  datatype Mode = PlanOnly | DryRun | Live

  /** `_ALLOWED_TRANSITIONS` */
  function Allowed(p: Phase): set<Phase> {
    match p
    case Planning => {PlanReady, Blocked, Cancelled}
    case PlanReady => {Preflight, Blocked, Cancelled}
    case Preflight => {PreviewReady, AwaitingApproval, Blocked, Cancelled}
    case AwaitingApproval => {PlanReady, Executing, Blocked, Cancelled}
    case Executing => {Verifying, Completed, Blocked, Interrupted}
    case Verifying => {Completed, Blocked, Interrupted}
    case PreviewReady => {}
    case Completed => {}
    case Blocked => {}
    case Cancelled => {}
    case Interrupted => {}
  }

  /** The phases in which a run holds the browser. */
  predicate BrowserActive(p: Phase) {
    p == Preflight || p == AwaitingApproval || p == Executing || p == Verifying
  }

  /** The phases the journal files under bounded history. */
  predicate Terminal(p: Phase) {
    p == PreviewReady || p == Completed || p == Blocked || p == Cancelled || p == Interrupted
  }

  datatype PreviewStatus = Ready | NoChange | PreviewBlocked

  datatype Preview = Preview(
    status: PreviewStatus,
    planHash: string,
    beforeHash: Option<string>,
    changeHash: Option<string>,
    hasChange: bool,
    reason: Option<string>
  )

  /** What the preview model's validator demands. */
  predicate Evidenced(p: Preview) {
    if p.status == PreviewBlocked then p.reason.Some? && p.reason.value != ""
    else p.beforeHash.Some? && p.changeHash.Some? && p.hasChange
  }

  datatype RunStatus =
    | NoChangeRequired | DryRunPreviewReady | ConfirmationRejected | AppliedUiVerified
    | AppliedPendingPropagation | PartiallyApplied | FailedUnchanged | Indeterminate | Unsupported

  function StatusText(s: RunStatus): string {
    match s
    case NoChangeRequired => "no_change_required"
    case DryRunPreviewReady => "dry_run_preview_ready"
    case ConfirmationRejected => "confirmation_rejected"
    case AppliedUiVerified => "applied_ui_verified"
    case AppliedPendingPropagation => "applied_pending_propagation"
    case PartiallyApplied => "partially_applied"
    case FailedUnchanged => "failed_unchanged"
    case Indeterminate => "indeterminate"
    case Unsupported => "unsupported"
  }

  datatype Result = Result(status: RunStatus, error: Option<string>)

  datatype Transition = Transition(phase: Phase, at: int, error: Option<string>)

  datatype ConsoleRun = ConsoleRun(
    id: string,
    text: string,
    mode: Mode,
    phase: Phase,
    created: int,
    updated: int,
    plan: Option<seq<Action>>,
    preview: Option<Preview>,
    result: Option<Result>,
    error: Option<string>,
    source: Option<string>,
    history: seq<Transition>
  )

  function RunId(r: ConsoleRun): string { r.id }

  /** The fields a transition may set besides the phase, the time and the history. */
  datatype Update =
    | Nothing
    | WithPlan(newPlan: seq<Action>)
    | WithError(code: string)
    | Reset(reason: Option<string>) // drops the preview and the result
    | WithPreview(shown: Preview)
    | WithResult(outcome: Result, message: Option<string>, origin: Option<string>)

  /** `updates.get("error_code")` */
  function Reported(u: Update): Option<string> {
    match u
    case Nothing => None
    case WithPlan(_) => None
    case WithError(code) => Some(code)
    case Reset(reason) => reason
    case WithPreview(shown) => shown.reason
    case WithResult(_, message, _) => message
  }

  function Apply(r: ConsoleRun, u: Update): ConsoleRun {
    match u
    case Nothing => r
    case WithPlan(plan) => r.(plan := Some(plan))
    case WithError(code) => r.(error := Some(code))
    case Reset(reason) => r.(preview := None, result := None, error := reason)
    case WithPreview(shown) => r.(preview := Some(shown), error := shown.reason)
    case WithResult(outcome, message, origin) => r.(result := Some(outcome), error := message, source := origin)
  }

  /** The run after one transition. */
  function Moved(r: ConsoleRun, phase: Phase, u: Update, now: int): ConsoleRun {
    Apply(r, u).(phase := phase, updated := now, history := r.history + [Transition(phase, now, Reported(u))])
  }

  function Fresh(id: string, text: string, mode: Mode, phase: Phase, plan: Option<seq<Action>>, now: int): ConsoleRun {
    ConsoleRun(id, text, mode, phase, now, now, plan, None, None, None, None, [Transition(phase, now, None)])
  }

  /** Where a preview leaves the run. */
  function PreviewPhase(status: PreviewStatus, mode: Mode): Phase {
    if status == Ready && mode == Live then AwaitingApproval
    else if status != PreviewBlocked then PreviewReady
    else Blocked
  }

  /** Where an execution result leaves the run. */
  function ResultPhase(status: RunStatus): Phase {
    match status
    case PartiallyApplied => Interrupted
    case Indeterminate => Interrupted
    case ConfirmationRejected => Blocked
    case FailedUnchanged => Blocked
    case Unsupported => Blocked
    case _ => Completed
  }

  /** `result.error_code or (status if phase != COMPLETED else None)` */
  function ResultMessage(r: Result): Option<string> {
    if r.error.Some? && r.error.value != "" then r.error
    else if ResultPhase(r.status) != Completed then Some(StatusText(r.status))
    else None
  }

  /** A history that starts where runs start and follows allowed transitions to `last`. */
  ghost predicate LegalWalk(h: seq<Transition>, last: Phase) {
    && h != []
    && (h[0].phase == Planning || h[0].phase == PlanReady)
    && (forall i :: 0 < i < |h| ==> h[i].phase in Allowed(h[i - 1].phase))
    && h[|h| - 1].phase == last
  }

  predicate Executable(p: Phase) { p == PlanReady || BrowserActive(p) }

  /** What the phase says about the run's own fields. A result was recorded by the very
      transition that followed EXECUTING. */
  predicate FieldsFit(r: ConsoleRun) {
    && (r.phase == Planning ==> r.plan.None? && r.preview.None?)
    && (Executable(r.phase) || r.phase == PreviewReady ==> r.plan.Some?)
    && (BrowserActive(r.phase) ==> r.mode != PlanOnly)
    && (r.phase == Preflight || r.phase == PlanReady ==> r.preview.None?)
    && (r.phase == AwaitingApproval || r.phase == Executing ==>
        r.mode == Live && r.preview.Some? && r.preview.value.status == Ready)
    && (r.result.Some? ==>
        r.phase == ResultPhase(r.result.value.status) && |r.history| > 1 && r.history[|r.history| - 2].phase == Executing)
    && r.phase != Verifying
  }

  ghost predicate Consistent(r: ConsoleRun) { LegalWalk(r.history, r.phase) && FieldsFit(r) }

  lemma MovedConsistent(r: ConsoleRun, phase: Phase, u: Update, now: int)
    requires Consistent(r) && phase in Allowed(r.phase)
    requires FieldsFit(Moved(r, phase, u, now))
    ensures Consistent(Moved(r, phase, u, now))
  {
  }
}
