/** What each console operation answers and which run it leaves behind, told field by field. */
module ConsoleOutcomes {
  import opened Keyed
  import opened PythonText
  import opened Resources
  import opened ConsoleRuns
  import opened Approvals
  import opened ConsoleJournal
  import C = Coordinator

  /** Only run `id` may differ, and only approvals of `id` may. */
  ghost predicate OnlyRun(c: C.Console, c': C.Console, id: string) {
    && c'.runs - {id} == c.runs - {id} && c'.pending - {id} == c.pending - {id}
    && c'.ttl == c.ttl && c'.previews == c.previews && c'.runner == c.runner
    && c'.order == (if id in c.runs then c.order else c.order + [id])
  }

  /** `r'` is `r` after one recorded transition that reported `error`. */
  ghost predicate Recorded(r: ConsoleRun, r': ConsoleRun, phase: Phase, error: Option<string>, now: int) {
    && r'.phase == phase && r'.updated == now && r'.history == r.history + [Transition(phase, now, error)]
    && r'.id == r.id && r'.text == r.text && r'.mode == r.mode && r'.created == r.created
  }

  ghost predicate KeepsEvidence(r: ConsoleRun, r': ConsoleRun) {
    r'.plan == r.plan && r'.preview == r.preview && r'.result == r.result && r'.source == r.source
  }

  ghost predicate Known(c: C.Console, id: string) { id in c.runs && c.runs[id].id == id }

  lemma AdvancedOutcome(c: C.Console, id: string, phase: Phase, u: Update, now: int, works: bool)
    requires Known(c, id)
    ensures var c' := C.Advanced(c, c.runs[id], phase, u, now, works);
      && id in c'.runs && c'.runs[id] == Moved(c.runs[id], phase, u, now)
      && OnlyRun(c, c', id) && c'.pending == c.pending
      && Recorded(c.runs[id], c'.runs[id], phase, Reported(u), now)
  {
  }

  /** How a live execution ends. Only the four statuses that leave nothing open complete the run;
      an uncertain or partial one, or a runner that raised, interrupts it. */
  predicate Uncertain(s: RunStatus) { s == PartiallyApplied || s == Indeterminate }

  predicate Turned(s: RunStatus) { s == ConfirmationRejected || s == FailedUnchanged || s == Unsupported }

  ghost predicate ExecutionEndedAs(r: ConsoleRun, r': ConsoleRun, outcome: C.Executed, now: int) {
    && Recorded(r, r', r'.phase, r'.error, now) && r'.plan == r.plan && r'.preview == r.preview
    && match outcome
       case ExecutionFailed(code) => r'.phase == Interrupted && r'.error == Some(code) && r'.result == r.result && r'.source == r.source
       case ExecutionEnded(result, source) =>
         && (r'.phase == Interrupted <==> Uncertain(result.status))
         && (r'.phase == Blocked <==> Turned(result.status))
         && (r'.phase == Completed <==> !Uncertain(result.status) && !Turned(result.status))
         && r'.result == Some(result) && r'.source == source
         && (result.error.Some? && result.error.value != "" ==> r'.error == result.error)
         && (result.error.None? || result.error.value == "" ==>
             match result.status
             case PartiallyApplied => r'.error == Some("partially_applied")
             case Indeterminate => r'.error == Some("indeterminate")
             case ConfirmationRejected => r'.error == Some("confirmation_rejected")
             case FailedUnchanged => r'.error == Some("failed_unchanged")
             case Unsupported => r'.error == Some("unsupported")
             case _ => r'.error == None)
  }

  /** An executing run ends as its runner's answer says, and every ending but a completed one
      carries an error. */
  lemma ExecutionOutcome(c: C.Console, id: string, outcome: C.Executed, now: int, works: bool)
    requires Known(c, id) && c.runs[id].phase == Executing
    ensures var t := C.EndApprove(c, id, outcome, now, works);
      && id in t.console.runs && t.reply == Done(t.console.runs[id])
      && OnlyRun(c, t.console, id) && t.console.pending == c.pending
      && ExecutionEndedAs(c.runs[id], t.console.runs[id], outcome, now)
      && (t.console.runs[id].phase != Completed ==> t.console.runs[id].error.Some?)
  {
    match outcome
    case ExecutionFailed(code) => AdvancedOutcome(c, id, Interrupted, WithError(code), now, works);
    case ExecutionEnded(result, source) =>
      AdvancedOutcome(c, id, ResultPhase(result.status), WithResult(result, ResultMessage(result), source), now, works);
      ResultRecorded(c.runs[id], result, source, now);
  }

  lemma ResultRecorded(r: ConsoleRun, result: Result, source: Option<string>, now: int)
    ensures var r' := Moved(r, ResultPhase(result.status), WithResult(result, ResultMessage(result), source), now);
      ExecutionEndedAs(r, r', C.ExecutionEnded(result, source), now) && (r'.phase != Completed ==> r'.error.Some?)
  {
  }

  /** How a preview leaves its run: a live one that is ready waits for approval, a blocked one is
      blocked, and any other is shown, also when there is nothing to change. */
  ghost predicate PreviewShownAs(r: ConsoleRun, r': ConsoleRun, p: Preview, mode: Mode, now: int) {
    && Recorded(r, r', r'.phase, p.reason, now)
    && (r'.phase == AwaitingApproval <==> p.status == Ready && mode == Live)
    && (r'.phase == Blocked <==> p.status == PreviewBlocked)
    && (r'.phase == PreviewReady <==> p.status == NoChange || (p.status == Ready && mode != Live))
    && r'.preview == Some(p) && r'.error == p.reason && r'.plan == r.plan && r'.result == r.result && r'.source == r.source
  }

  /** The approval issued for a run: bound to the hashes shown, and good for the service's lifetime
      from the moment it was issued. */
  ghost predicate Issued(a: Approval, id: string, p: Preview, issuedAt: int, ttl: int) {
    && a.runId == id && a.phrase == Phrase(id)
    && a.planHash == p.planHash && Some(a.beforeHash) == p.beforeHash && Some(a.changeHash) == p.changeHash
    && a.expires - issuedAt == ttl
  }

  lemma PreviewOutcome(c: C.Console, run: ConsoleRun, outcome: C.Previewed, now: int, issuedAt: int, works: bool)
    requires Known(c, run.id) && c.runs[run.id].phase == Preflight
    ensures var (t, id) := (C.EndPreview(c, run, outcome, now, issuedAt, works), run.id);
      && id in t.console.runs && OnlyRun(c, t.console, id)
      && match outcome
         case PreviewFailed(code) =>
           && Recorded(c.runs[id], t.console.runs[id], Blocked, Some(code), now) && KeepsEvidence(c.runs[id], t.console.runs[id])
           && t.console.runs[id].error == Some(code) && t.console.pending == c.pending && t.reply == Done(t.console.runs[id])
         case PreviewMade(p) =>
           && PreviewShownAs(c.runs[id], t.console.runs[id], p, run.mode, now)
           && (t.console.runs[id].phase != AwaitingApproval ==> t.console.pending == c.pending && t.reply == Done(t.console.runs[id]))
           && (t.console.runs[id].phase == AwaitingApproval && Evidenced(p) ==>
               id in t.console.pending && Issued(t.console.pending[id], id, p, issuedAt, c.ttl) && t.reply == Done(t.console.runs[id]))
           && (t.console.runs[id].phase == AwaitingApproval && !Evidenced(p) ==> t.console.pending == c.pending && t.reply == Refused(IncompletePreview))
  {
    var id := run.id;
    var c0, t := c.runs[id], C.EndPreview(c, run, outcome, now, issuedAt, works);
    match outcome
    case PreviewFailed(code) => AdvancedOutcome(c, id, Blocked, WithError(code), now, works);
    case PreviewMade(p) =>
      AdvancedOutcome(c, id, PreviewPhase(p.status, run.mode), WithPreview(p), now, works);
      assert t.console.pending - {id} == c.pending - {id};
  }

  /** Another run is at work in the browser or may be. */
  ghost predicate Busy(c: C.Console, id: string) {
    exists k :: k in c.runs && k != id &&
      (c.runs[k].phase == Preflight || c.runs[k].phase == AwaitingApproval || c.runs[k].phase == Executing || c.runs[k].phase == Verifying)
  }

  ghost predicate MayPreview(c: C.Console, id: string) {
    && id in c.runs && c.runs[id].phase == PlanReady && c.runs[id].plan.Some? && c.runs[id].mode != PlanOnly
    && !Busy(c, id)
  }

  lemma BusyIs(c: C.Console, id: string)
    ensures C.AnotherActive(c, id) <==> Busy(c, id)
  {
  }

  /** A preview starts exactly for a planned run of a browser mode while the browser is free; it
      clears what an earlier preview left. */
  lemma BeginPreviewOutcome(c: C.Console, id: string, now: int, works: bool)
    requires id in c.runs ==> Known(c, id)
    ensures var t := C.BeginPreview(c, id, now, works);
      && (t.reply.Done? <==> MayPreview(c, id))
      && (!MayPreview(c, id) ==> t.console == c)
      && (MayPreview(c, id) && c.previews ==>
          && t.reply.value == C.Waiting(c.runs[id]) && OnlyRun(c, t.console, id) && t.console.pending == c.pending
          && id in t.console.runs && Recorded(c.runs[id], t.console.runs[id], Preflight, None, now)
          && t.console.runs[id].preview == None && t.console.runs[id].result == None && t.console.runs[id].error == None
          && t.console.runs[id].plan == c.runs[id].plan)
      && (MayPreview(c, id) && !c.previews ==>
          && OnlyRun(c, t.console, id) && t.console.pending == c.pending && id in t.console.runs
          && t.reply.value == C.Finished(t.console.runs[id]) && KeepsEvidence(c.runs[id], t.console.runs[id])
          && Recorded(c.runs[id], t.console.runs[id], Blocked, Some("ui_contract_pack_required"), now)
          && t.console.runs[id].error == Some("ui_contract_pack_required"))
  {
    BusyIs(c, id);
    if MayPreview(c, id) {
      AdvancedOutcome(c, id, Preflight, Reset(None), now, works);
      AdvancedOutcome(c, id, Blocked, WithError("ui_contract_pack_required"), now, works);
    }
  }

  ghost predicate StillGood(c: C.Console, id: string, now: int) { id in c.pending && now < c.pending[id].expires }

  /** A run whose approval has expired goes back to its plan; one that waits keeps its approval. */
  lemma CheckApprovalOutcome(c: C.Console, id: string, now: int, later: int, works: bool)
    requires Known(c, id)
    ensures var (t, r) := (C.CheckApproval(c, id, now, later, works), c.runs[id]);
      if r.phase != AwaitingApproval || r.preview.None? then t.console == c && t.reply == Done(None)
      else if StillGood(c, id, now) then t.console == c && t.reply == Done(Some(c.pending[id]))
      else
        && t.reply == Done(None) && OnlyRun(c, t.console, id) && id !in t.console.pending && id in t.console.runs
        && var r' := t.console.runs[id];
        && Recorded(r, r', PlanReady, Some("approval_expired"), later)
        && r'.preview == None && r'.result == None && r'.error == Some("approval_expired") && r'.plan == r.plan && r'.source == r.source
  {
    var r := c.runs[id];
    if r.phase == AwaitingApproval && r.preview.Some? && !StillGood(c, id, now) {
      AdvancedOutcome(c.(pending := c.pending - {id}), id, PlanReady, Reset(Some("approval_expired")), later, works);
    }
  }

  /** Exactly the phases before execution can be cancelled, and the approval goes with the run. */
  lemma CancelOutcome(c: C.Console, id: string, now: int, works: bool)
    requires Known(c, id)
    ensures var (t, r) := (C.Cancel(c, id, now, works), c.runs[id]);
      && (t.reply.Done? <==> r.phase == Planning || r.phase == PlanReady || r.phase == Preflight || r.phase == AwaitingApproval)
      && (t.reply.Refused? ==> t.console == c)
      && (t.reply.Done? ==>
          && OnlyRun(c, t.console, id) && id !in t.console.pending && id in t.console.runs && t.reply.value == t.console.runs[id]
          && Recorded(r, t.console.runs[id], Cancelled, None, now) && KeepsEvidence(r, t.console.runs[id]) && t.console.runs[id].error == r.error)
  {
    AdvancedOutcome(c.(pending := c.pending - {id}), id, Cancelled, Nothing, now, works);
  }

  predicate Offered(a: Approval, phrase: string, acknowledged: bool) { acknowledged && Strip(phrase) == a.phrase }

  /** An approval is consumed by the right phrase in time; a missing or expired one is dropped, and
      one offered the wrong phrase stays. */
  lemma BeginApproveOutcome(c: C.Console, id: string, phrase: string, acknowledged: bool, approvalId: string, now: int,
      later: int, works: bool)
    requires Known(c, id) && c.runs[id].phase == AwaitingApproval
    ensures var (t, r) := (C.BeginApprove(c, id, phrase, acknowledged, approvalId, now, later, works), c.runs[id]);
      if !StillGood(c, id, now) then t.reply == Refused(ApprovalMissing) && t.console == c.(pending := c.pending - {id})
      else if !Offered(c.pending[id], phrase, acknowledged) then t.reply == Refused(WrongConfirmation) && t.console == c
      else if !(1 <= |approvalId| <= 200) then t.reply == Refused(InvalidConfirmation) && t.console == c.(pending := c.pending - {id})
      else
        && OnlyRun(c, t.console, id) && id !in t.console.pending && id in t.console.runs && KeepsEvidence(r, t.console.runs[id])
        && if c.runner then
             && Recorded(r, t.console.runs[id], Executing, None, later) && t.console.runs[id].error == r.error
             && t.reply == Done(C.Running(t.console.runs[id],
                  Confirmation(approvalId, c.pending[id].planHash, c.pending[id].beforeHash, c.pending[id].changeHash)))
           else
             && Recorded(r, t.console.runs[id], Blocked, Some("accepted_live_runner_required"), later)
             && t.console.runs[id].error == Some("accepted_live_runner_required") && t.reply == Done(C.Finished(t.console.runs[id]))
  {
    AdvancedOutcome(c.(pending := c.pending - {id}), id, Executing, Nothing, later, works);
    AdvancedOutcome(c.(pending := c.pending - {id}), id, Blocked, WithError("accepted_live_runner_required"), later, works);
  }

  /** The planner's answer lands on a run that is still planning, and on no other. */
  lemma PlanOutcome(c: C.Console, id: string, outcome: C.Planned, now: int, works: bool)
    requires Known(c, id)
    ensures var (t, r) := (C.EndPlan(c, id, outcome, now, works), c.runs[id]);
      if r.phase != Planning then t.console == c && t.reply == Done(r)
      else
        && OnlyRun(c, t.console, id) && t.console.pending == c.pending && id in t.console.runs && t.reply == Done(t.console.runs[id])
        && var r' := t.console.runs[id];
        && r'.preview == r.preview && r'.result == r.result && r'.source == r.source
        && match outcome
           case PlanMade(plan) => Recorded(r, r', PlanReady, None, now) && r'.plan == Some(plan) && r'.error == r.error
           case PlanFailed(code) => Recorded(r, r', Blocked, Some(code), now) && r'.plan == r.plan && r'.error == Some(code)
  {
    match outcome
    case PlanMade(plan) => AdvancedOutcome(c, id, PlanReady, WithPlan(plan), now, works);
    case PlanFailed(code) => AdvancedOutcome(c, id, Blocked, WithError(code), now, works);
  }

  ghost predicate NewRun(r: ConsoleRun, id: string, text: string, mode: Mode, phase: Phase, plan: Option<seq<Action>>, now: int) {
    && r.id == id && r.text == Strip(text) && r.mode == mode && r.phase == phase && r.plan == plan
    && r.created == now && r.updated == now && r.history == [Transition(phase, now, None)]
    && r.preview == None && r.result == None && r.error == None && r.source == None
  }

  /** A request of 1 to 2000 characters starts a run, planned or still to be planned. */
  lemma StartOutcome(c: C.Console, id: string, text: string, mode: Mode, now: int, works: bool)
    ensures var t := C.Start(c, id, text, mode, now, works);
      && (t.reply.Done? <==> 1 <= |Strip(text)| <= 2000)
      && if t.reply.Refused? then t.console == c
         else
           && OnlyRun(c, t.console, id) && t.console.pending == c.pending && id in t.console.runs
           && t.reply.value == t.console.runs[id] && NewRun(t.console.runs[id], id, text, mode, Planning, None, now)
  {
    PutOutcome(c, Fresh(id, Strip(text), mode, Planning, None, now), works);
  }

  lemma CreateFromPlanOutcome(c: C.Console, id: string, text: string, mode: Mode, plan: seq<Action>, now: int, works: bool)
    ensures var t := C.CreateFromPlan(c, id, text, mode, plan, now, works);
      && (t.reply.Done? <==> 1 <= |Strip(text)| <= 2000)
      && if t.reply.Refused? then t.console == c
         else
           && OnlyRun(c, t.console, id) && t.console.pending == c.pending && id in t.console.runs
           && t.reply.value == t.console.runs[id] && NewRun(t.console.runs[id], id, text, mode, PlanReady, Some(plan), now)
  {
    PutOutcome(c, Fresh(id, Strip(text), mode, PlanReady, Some(plan), now), works);
  }

  lemma PutOutcome(c: C.Console, r: ConsoleRun, works: bool)
    ensures var c' := C.Put(c, r, works);
      r.id in c'.runs && c'.runs[r.id] == r && OnlyRun(c, c', r.id) && c'.pending == c.pending
  {
  }

  /** Only a planned run takes another mode, never plan-only, and nothing else of it changes. */
  lemma PromoteOutcome(c: C.Console, id: string, mode: Mode, now: int, works: bool)
    requires Known(c, id)
    ensures var (t, r) := (C.Promote(c, id, mode, now, works), c.runs[id]);
      && (t.reply.Done? <==> r.phase == PlanReady && r.plan.Some? && mode != PlanOnly)
      && (t.reply.Refused? || r.mode == mode ==> t.console == c)
      && (t.reply.Done? && r.mode != mode ==>
          && OnlyRun(c, t.console, id) && t.console.pending == c.pending && id in t.console.runs && t.reply.value == t.console.runs[id]
          && t.console.runs[id] == r.(mode := mode, updated := now))
  {
  }

  /** The execution services are replaced exactly while no run is in a browser phase; no run and no
      approval is touched. */
  lemma ConfigureOutcome(c: C.Console, previews: bool, runner: bool)
    ensures var t := C.Configure(c, previews, runner);
      && (t.reply.Done? <==> forall k :: k in c.runs ==>
          c.runs[k].phase != Preflight && c.runs[k].phase != AwaitingApproval && c.runs[k].phase != Executing && c.runs[k].phase != Verifying)
      && t.console == if t.reply.Done? then c.(previews := previews, runner := runner) else c
  {
  }

  /** What a restart makes of a stored run. */
  ghost predicate RestoredAs(r: ConsoleRun, r': ConsoleRun, now: int) {
    match r.phase
    case Planning => Recorded(r, r', Blocked, Some("console_restarted"), now) && KeepsEvidence(r, r') && r'.error == Some("console_restarted")
    case Preflight => Recorded(r, r', Blocked, Some("console_restarted"), now) && KeepsEvidence(r, r') && r'.error == Some("console_restarted")
    case AwaitingApproval =>
      && Recorded(r, r', PlanReady, Some("approval_expired"), now) && r'.error == Some("approval_expired")
      && r'.preview == None && r'.result == None && r'.plan == r.plan && r'.source == r.source
    case Executing => Uncertainly(r, r', now)
    case Verifying => Uncertainly(r, r', now)
    case _ => r' == r
  }

  ghost predicate Uncertainly(r: ConsoleRun, r': ConsoleRun, now: int) {
    && Recorded(r, r', Interrupted, Some("console_restarted_execution_uncertain"), now) && KeepsEvidence(r, r')
    && r'.error == Some("console_restarted_execution_uncertain")
  }

  lemma RestoreOutcome(r: ConsoleRun, now: int)
    ensures RestoredAs(r, Restore(r, now), now)
  {
  }

  /** In any recorded history execution follows an approval, an approval follows a preview, and a
      preview follows a plan; nothing follows the five final phases. */
  lemma WalkOrder(h: seq<Transition>, last: Phase, i: nat)
    requires LegalWalk(h, last) && i < |h|
    ensures h[i].phase == Executing ==> i > 0 && h[i - 1].phase == AwaitingApproval
    ensures h[i].phase == AwaitingApproval ==> i > 0 && h[i - 1].phase == Preflight
    ensures h[i].phase == Preflight ==> i > 0 && h[i - 1].phase == PlanReady
    ensures h[i].phase == PlanReady && i > 0 ==> h[i - 1].phase == Planning || h[i - 1].phase == AwaitingApproval
    ensures h[i].phase == Completed ==> i > 0 && (h[i - 1].phase == Executing || h[i - 1].phase == Verifying)
    ensures Terminal(h[i].phase) ==> i == |h| - 1
  {
    if i > 0 { assert h[i].phase in Allowed(h[i - 1].phase); }
    if i + 1 < |h| { assert h[i + 1].phase in Allowed(h[i].phase); }
  }

  /** The phrase an operator types: the word and the first four digits of the run ID in capitals. */
  lemma PhraseIs(id: string)
    requires |id| >= 4 && forall i :: 0 <= i < 4 ==> '0' <= id[i] <= '9' || 'a' <= id[i] <= 'f'
    ensures |Phrase(id)| == 10 && Phrase(id)[..6] == "APPLY "
    ensures forall i :: 0 <= i < 4 && '0' <= id[i] <= '9' ==> Phrase(id)[6 + i] == id[i]
    ensures forall i :: 0 <= i < 4 && 'a' <= id[i] <= 'f' ==> Phrase(id)[6 + i] as int - 'A' as int == id[i] as int - 'a' as int
  {
  }
}
