/** Every event keeps the console safe, so every reachable state is. */
module ConsoleSafety {
  import opened Keyed
  import opened PythonText
  import opened ConsoleRuns
  import opened Approvals
  import opened ConsoleJournal
  import opened ConsoleProtocol
  import opened ConsoleSteps
  import C = Coordinator

  lemma BirthSafe(s: System, s': System, r: ConsoleRun, works: bool)
    requires Safe(s) && r.id !in s.used && Consistent(r) && (r.phase == Planning || r.phase == PlanReady)
    requires s' == s.(console := C.Put(s.console, r, works), used := s.used + {r.id})
    ensures Safe(s')
  {
    PutFacts(s.console, r, works);
    assert r.id !in s.console.runs;
    assert forall n :: n in s.calls ==> Attached(s.calls[n], s.console);
    assert forall k :: k in s.console.pending ==> Bound(s.console, k);
    assert StaysSpent(s, r) by {
      assert forall i :: 0 <= i < |s.executions| && s.executions[i].session == s.session ==> RunSpent(s.console,
          s.executions[i].run);
    }
    PutSafe(s, s', r);
  }

  lemma StartSafe(s: System, e: Event, works: bool)
    requires Possible(s, e) && Safe(s) && (e.Start? || e.CreateFromPlan?)
    ensures Safe(Next(s, e, works))
  {
    var s' := Next(s, e, works);
    if C.ValidRequest(Strip(e.text)) {
      if e.Start? {
        BirthSafe(s, s', Fresh(e.id, Strip(e.text), e.mode, Planning, None, e.now), works);
      } else {
        BirthSafe(s, s', Fresh(e.id, Strip(e.text), e.mode, PlanReady, Some(e.plan), e.now), works);
      }
    } else {
      assert s' == s.(used := s.used + {e.id});
    }
  }

  /** A run that was planned, or can be previewed, has no approval, no suspended preview or
      execution, and was never executed by this process. */
  lemma Untouched(s: System, id: string)
    requires Safe(s) && id in s.console.runs
    requires s.console.runs[id].phase == Planning || s.console.runs[id].phase == PlanReady
    ensures id !in s.console.pending
    ensures forall n :: n in s.calls && s.calls[n].run.id == id ==> s.calls[n].PlanCall?
    ensures forall i :: 0 <= i < |s.executions| && s.executions[i].session == s.session ==> s.executions[i].run.id != id
  {
    assert forall k :: k in s.console.pending ==> Bound(s.console, k);
    forall n | n in s.calls && s.calls[n].run.id == id ensures s.calls[n].PlanCall? {
      assert Attached(s.calls[n], s.console);
    }
    forall i | 0 <= i < |s.executions| && s.executions[i].session == s.session ensures s.executions[i].run.id != id {
      assert RunSpent(s.console, s.executions[i].run);
    }
  }

  lemma MoveUntouchedSafe(s: System, s': System, r: ConsoleRun)
    requires Safe(s) && r.id in s.console.runs && Consistent(r) && !BrowserActive(r.phase)
    requires s.console.runs[r.id].phase == Planning || s.console.runs[r.id].phase == PlanReady
    requires Put(s.console, s'.console, r) && s'.console.pending == s.console.pending
    requires s' == s.(console := s'.console, calls := s'.calls)
    requires s'.calls.Keys <= s.calls.Keys && forall n :: n in s'.calls ==> s'.calls[n] == s.calls[n]
    ensures Safe(s')
  {
    Untouched(s, r.id);
    PutSafe(s, s', r);
  }

  /** The stored form of a move, and the consistency of the moved run. */
  lemma MoveFacts(s: System, id: string, pending: map<string, Approval>, phase: Phase, u: Update, now: int, works: bool)
    requires Bookkept(s) && RunsConsistent(s) && id in s.console.runs
    requires phase in Allowed(s.console.runs[id].phase) && FieldsFit(Moved(s.console.runs[id], phase, u, now))
    ensures var c, r := s.console.(pending := pending), Moved(s.console.runs[id], phase, u, now);
      && Put(s.console, C.Put(c, r, works), r) && C.Put(c, r, works).pending == pending
      && r.id == id && Consistent(r) && id in s.used
  {
    MovedConsistent(s.console.runs[id], phase, u, now);
    PutFacts(s.console.(pending := pending), Moved(s.console.runs[id], phase, u, now), works);
  }

  lemma BeginPlanSafe(s: System, e: Event, works: bool)
    requires Possible(s, e) && Safe(s) && e.BeginPlan?
    ensures Safe(Next(s, e, works))
  {
  }

  lemma PromoteSafe(s: System, e: Event, works: bool)
    requires Possible(s, e) && Safe(s) && e.Promote?
    ensures Safe(Next(s, e, works))
  {
    var c, s' := s.console, Next(s, e, works);
    if s' != s {
      var r := c.runs[e.id].(mode := e.mode, updated := e.now);
      assert Consistent(c.runs[e.id]);
      PromotedFits(c.runs[e.id], e.mode, e.now);
      PutFacts(c, r, works);
      MoveUntouchedSafe(s, s', r);
    }
  }

  lemma PromotedFits(r: ConsoleRun, mode: Mode, now: int)
    requires Consistent(r) && r.phase == PlanReady
    ensures Consistent(r.(mode := mode, updated := now))
  {
  }

  lemma PlanFits(r: ConsoleRun, phase: Phase, u: Update, now: int)
    requires Consistent(r) && r.phase == Planning
    requires (phase == PlanReady && u.WithPlan?) || (phase == Blocked && u.WithError?)
    ensures phase in Allowed(r.phase) && FieldsFit(Moved(r, phase, u, now)) && !BrowserActive(phase)
  {
  }

  lemma EndPlanMoved(s: System, call: nat, phase: Phase, u: Update, now: int, works: bool)
    requires Safe(s) && call in s.calls && s.calls[call].run.id in s.console.runs
    requires s.console.runs[s.calls[call].run.id].phase == Planning
    requires (phase == PlanReady && u.WithPlan?) || (phase == Blocked && u.WithError?)
    ensures Safe(Resume(s, call, C.Advanced(s.console, s.console.runs[s.calls[call].run.id], phase, u, now, works)))
  {
    var id := s.calls[call].run.id;
    assert Consistent(s.console.runs[id]);
    PlanFits(s.console.runs[id], phase, u, now);
    assert Consistent(s.console.runs[id]);
    MoveFacts(s, id, s.console.pending, phase, u, now, works);
    MoveUntouchedSafe(s, Resume(s, call, C.Advanced(s.console, s.console.runs[id], phase, u, now, works)),
        Moved(s.console.runs[id], phase, u, now));
  }

  /** Forgetting a suspended call harms nothing. */
  lemma ForgetSafe(s: System, call: nat)
    requires Safe(s)
    ensures Safe(Resume(s, call, s.console))
  {
  }

  lemma EndPlanSafe(s: System, e: Event, works: bool)
    requires Possible(s, e) && Safe(s) && e.EndPlan?
    ensures Safe(Next(s, e, works))
  {
    var c, id := s.console, s.calls[e.call].run.id;
    assert Attached(s.calls[e.call], c);
    if c.runs[id].phase != Planning {
      ForgetSafe(s, e.call);
    } else if e.planned.PlanMade? {
      EndPlanMoved(s, e.call, PlanReady, WithPlan(e.planned.plan), e.now, works);
    } else {
      EndPlanMoved(s, e.call, Blocked, WithError(e.planned.code), e.now, works);
    }
  }

  lemma RefusedPreviewSafe(s: System, id: string, now: int, works: bool)
    requires Safe(s) && id in s.console.runs && s.console.runs[id].phase == PlanReady
    ensures Safe(s.(console := C.Advanced(s.console, s.console.runs[id], Blocked, WithError("ui_contract_pack_required"), now, works)))
  {
    var u := WithError("ui_contract_pack_required");
    assert Consistent(s.console.runs[id]);
    MoveFacts(s, id, s.console.pending, Blocked, u, now, works);
    MoveUntouchedSafe(s, s.(console := C.Advanced(s.console, s.console.runs[id], Blocked, u, now, works)),
        Moved(s.console.runs[id], Blocked, u, now));
  }

  lemma EnterPreflightSafe(s: System, s': System, r: ConsoleRun, id: string, now: int)
    requires Safe(s) && id in s.console.runs && s.console.runs[id].phase == PlanReady && OthersIdle(s.console, id)
    requires r == Moved(s.console.runs[id], Preflight, Reset(None), now) && r.id == id && Consistent(r) && id in s.used
    requires Put(s.console, s'.console, r) && s'.console.pending == s.console.pending
    requires s' == Suspend(s, s'.console, PreviewCall(s.console.runs[id]))
    ensures Safe(s')
  {
    Untouched(s, id);
    assert r.history[..|s.console.runs[id].history|] == s.console.runs[id].history;
    assert OwnsPreview(s.console.runs[id], r);
    PutSafe(s, s', r);
  }

  lemma AdmittedPreviewSafe(s: System, id: string, now: int, works: bool)
    requires Safe(s) && id in s.console.runs && s.console.runs[id].phase == PlanReady
    requires s.console.runs[id].mode != PlanOnly && OthersIdle(s.console, id)
    ensures Safe(Suspend(s, C.Advanced(s.console, s.console.runs[id], Preflight, Reset(None), now, works),
        PreviewCall(s.console.runs[id])))
  {
    var r := Moved(s.console.runs[id], Preflight, Reset(None), now);
    assert Consistent(s.console.runs[id]);
    MoveFacts(s, id, s.console.pending, Preflight, Reset(None), now, works);
    EnterPreflightSafe(s, Suspend(s, C.Advanced(s.console, s.console.runs[id], Preflight, Reset(None), now, works),
        PreviewCall(s.console.runs[id])), r, id, now);
  }

  ghost predicate Admitted(c: C.Console, id: string) {
    && id in c.runs && c.runs[id].phase == PlanReady && c.runs[id].mode != PlanOnly && OthersIdle(c, id)
  }

  /** The three ways a preview can begin. */
  lemma BeginPreviewShape(s: System, e: Event, works: bool)
    requires Possible(s, e) && e.BeginPreview?
    ensures var c, s' := s.console, Next(s, e, works);
      || s' == s
      || (Admitted(c, e.id) && s' == s.(console := C.Advanced(c, c.runs[e.id], Blocked, WithError("ui_contract_pack_required"), e.now, works)))
      || (Admitted(c, e.id) && s' == Suspend(s, C.Advanced(c, c.runs[e.id], Preflight, Reset(None), e.now, works),
          PreviewCall(c.runs[e.id])))
  {
  }

  lemma BegunPreviewSafe(s: System, s': System, id: string, now: int, works: bool)
    requires Safe(s)
    requires var c := s.console;
      || s' == s
      || (Admitted(c, id) && s' == s.(console := C.Advanced(c, c.runs[id], Blocked, WithError("ui_contract_pack_required"), now, works)))
      || (Admitted(c, id) && s' == Suspend(s, C.Advanced(c, c.runs[id], Preflight, Reset(None), now, works),
          PreviewCall(c.runs[id])))
    ensures Safe(s')
  {
    if s' != s {
      AdmittedPreviewSafe(s, id, now, works);
      RefusedPreviewSafe(s, id, now, works);
    }
  }

  lemma BeginPreviewSafe(s: System, e: Event, works: bool)
    requires Possible(s, e) && Safe(s) && e.BeginPreview?
    ensures Safe(Next(s, e, works))
  {
    BeginPreviewShape(s, e, works);
    BegunPreviewSafe(s, Next(s, e, works), e.id, e.now, works);
  }

  /** A resumed preview that finds its run in preflight is the one that put it there; no other
      call, approval or execution concerns the run. */
  lemma PreviewResumes(s: System, call: nat)
    requires Safe(s) && call in s.calls && s.calls[call].PreviewCall?
    requires s.calls[call].run.id in s.console.runs && s.console.runs[s.calls[call].run.id].phase == Preflight
    ensures OwnsPreview(s.calls[call].run, s.console.runs[s.calls[call].run.id])
    ensures forall n :: n in s.calls && s.calls[n].run.id == s.calls[call].run.id && n != call ==> s.calls[n].PlanCall?
    ensures s.calls[call].run.id !in s.console.pending
    ensures forall i :: 0 <= i < |s.executions| && s.executions[i].session == s.session ==>
      s.executions[i].run.id != s.calls[call].run.id
    ensures OthersIdle(s.console, s.calls[call].run.id)
  {
    var id := s.calls[call].run.id;
    assert Attached(s.calls[call], s.console);
    assert BrowserActive(s.console.runs[id].phase);
    forall n | n in s.calls && s.calls[n].run.id == id && n != call ensures s.calls[n].PlanCall? {
      assert Attached(s.calls[n], s.console);
      assert !SameVisit(s.calls[n], s.calls[call]);
    }
    assert forall k :: k in s.console.pending ==> Bound(s.console, k);
    forall i | 0 <= i < |s.executions| && s.executions[i].session == s.session ensures s.executions[i].run.id != id {
      assert RunSpent(s.console, s.executions[i].run);
    }
  }

  /** Leaving preflight, with an approval only for a run that now awaits it. */
  lemma LeavePreflightSafe(s: System, s': System, call: nat, r: ConsoleRun)
    requires Safe(s) && call in s.calls && s.calls[call].PreviewCall? && s.calls[call].run.id == r.id
    requires r.id in s.console.runs && s.console.runs[r.id].phase == Preflight
    requires Put(s.console, s'.console, r) && Consistent(r) && r.id in s.used
    requires s' == Resume(s, call, s'.console)
    requires s'.console.pending == s.console.pending || (r.id in s'.console.pending && s'.console.pending == s.console.pending[r.id := s'.console.pending[r.id]])
    requires r.id in s'.console.pending && r.id !in s.console.pending ==> Bound(s'.console, r.id)
    ensures Safe(s')
  {
    PreviewResumes(s, call);
    PutSafe(s, s', r);
  }

  lemma PreviewFits(r: ConsoleRun, phase: Phase, u: Update, now: int)
    requires Consistent(r) && r.phase == Preflight
    requires (phase == Blocked && u.WithError?) || (u.WithPreview? && phase == PreviewPhase(u.shown.status, r.mode))
    ensures phase in Allowed(r.phase) && FieldsFit(Moved(r, phase, u, now))
  {
  }

  lemma EndPreviewMoved(s: System, call: nat, phase: Phase, u: Update, now: int, pending: map<string, Approval>, works: bool)
    requires Safe(s) && call in s.calls && s.calls[call].PreviewCall? && s.calls[call].run.id in s.console.runs
    requires s.console.runs[s.calls[call].run.id].phase == Preflight
    requires (phase == Blocked && u.WithError?) || (u.WithPreview? && phase == PreviewPhase(u.shown.status,
        s.calls[call].run.mode))
    requires var id := s.calls[call].run.id;
      pending == s.console.pending
      || (phase == AwaitingApproval && id in pending && pending == s.console.pending[id := pending[id]] && Fits(pending[id], id, u.shown))
    ensures var id := s.calls[call].run.id;
      Safe(Resume(s, call, C.Advanced(s.console, s.console.runs[id], phase, u, now, works).(pending := pending)))
  {
    var id := s.calls[call].run.id;
    var current := s.console.runs[id];
    PreviewResumes(s, call);
    PreviewFits(current, phase, u, now);
    assert Consistent(s.console.runs[id]);
    MoveFacts(s, id, s.console.pending, phase, u, now, works);
    var c' := C.Advanced(s.console, current, phase, u, now, works).(pending := pending);
    AwaitingBound(s.console, c', Moved(current, phase, u, now), pending);
    LeavePreflightSafe(s, Resume(s, call, c'), call, Moved(current, phase, u, now));
  }

  lemma AwaitingBound(c: C.Console, c': C.Console, r: ConsoleRun, pending: map<string, Approval>)
    requires Put(c, c', r) && Consistent(r) && r.id !in c.pending && c'.pending == pending
    requires pending == c.pending
      || (r.phase == AwaitingApproval && r.preview.Some? && r.id in pending && Fits(pending[r.id], r.id, r.preview.value))
    ensures r.id in c'.pending ==> Bound(c', r.id)
  {
  }

  /** An approval issued for this preview of this run. */
  predicate Fits(a: Approval, id: string, p: Preview) {
    a.runId == id && a.phrase == Phrase(id) && Carries(p, a.planHash, a.beforeHash, a.changeHash)
  }

  lemma EnvelopeFits(id: string, p: Preview, now: int, ttl: int)
    ensures Envelope(id, p, now, ttl).Done? ==> Fits(Envelope(id, p, now, ttl).value, id, p)
    ensures Evidenced(p) && p.status == Ready ==> Envelope(id, p, now, ttl).Done?
  {
  }

  lemma EndPreviewSafe(s: System, e: Event, works: bool)
    requires Possible(s, e) && Safe(s) && e.EndPreview?
    ensures Safe(Next(s, e, works))
  {
    var c, run := s.console, s.calls[e.call].run;
    assert Attached(s.calls[e.call], c);
    if c.runs[run.id].phase != Preflight {
      ForgetSafe(s, e.call);
    } else if e.previewed.PreviewFailed? {
      EndPreviewMoved(s, e.call, Blocked, WithError(e.previewed.code), e.now, c.pending, works);
    } else {
      var p := e.previewed.preview;
      var envelope := Envelope(run.id, p, e.later, c.ttl);
      EnvelopeFits(run.id, p, e.later, c.ttl);
      var phase := PreviewPhase(p.status, run.mode);
      var pending := if phase == AwaitingApproval && envelope.Done? then c.pending[run.id := envelope.value] else c.pending;
      EndPreviewMoved(s, e.call, phase, WithPreview(p), e.now, pending, works);
    }
  }

  /** A run awaiting approval has no suspended preview or execution and was not executed. */
  lemma AwaitingIsQuiet(s: System, id: string)
    requires Safe(s) && id in s.console.runs && s.console.runs[id].phase == AwaitingApproval
    ensures forall n :: n in s.calls && s.calls[n].run.id == id ==> s.calls[n].PlanCall?
    ensures forall i :: 0 <= i < |s.executions| && s.executions[i].session == s.session ==> s.executions[i].run.id != id
  {
    forall n | n in s.calls && s.calls[n].run.id == id ensures s.calls[n].PlanCall? {
      assert Attached(s.calls[n], s.console);
    }
    forall i | 0 <= i < |s.executions| && s.executions[i].session == s.session ensures s.executions[i].run.id != id {
      assert RunSpent(s.console, s.executions[i].run);
    }
  }

  lemma LeaveAwaitingSafe(s: System, s': System, r: ConsoleRun)
    requires Safe(s) && r.id in s.console.runs && s.console.runs[r.id].phase == AwaitingApproval
    requires Put(s.console, s'.console, r) && Consistent(r) && r.id in s.used && !BrowserActive(r.phase)
    requires s' == s.(console := s'.console) && s'.console.pending == s.console.pending - {r.id}
    ensures Safe(s')
  {
    AwaitingIsQuiet(s, r.id);
    assert s'.console.pending - {r.id} == s.console.pending - {r.id};
    PutSafe(s, s', r);
  }

  /** Dropping a pending approval harms nothing. */
  lemma DropSafe(s: System, id: string)
    requires Safe(s)
    ensures Safe(s.(console := s.console.(pending := s.console.pending - {id})))
  {
    var c' := s.console.(pending := s.console.pending - {id});
    forall k | k in c'.pending ensures Bound(c', k) { assert Bound(s.console, k); }
    assert forall n :: n in s.calls ==> Attached(s.calls[n], s.console);
    assert forall i :: 0 <= i < |s.executions| && s.executions[i].session == s.session ==> RunSpent(s.console,
        s.executions[i].run);
  }

  lemma ExpiredSafe(s: System, id: string, now: int, works: bool)
    requires Safe(s) && id in s.console.runs && s.console.runs[id].phase == AwaitingApproval
    ensures Safe(s.(console := C.Advanced(s.console.(pending := s.console.pending - {id}), s.console.runs[id], PlanReady, Reset(Some("approval_expired")), now, works)))
  {
    var u := Reset(Some("approval_expired"));
    assert Consistent(s.console.runs[id]);
    MoveFacts(s, id, s.console.pending - {id}, PlanReady, u, now, works);
    LeaveAwaitingSafe(s, s.(console := C.Advanced(s.console.(pending := s.console.pending - {id}),
        s.console.runs[id], PlanReady, u, now, works)),
                      Moved(s.console.runs[id], PlanReady, u, now));
  }

  lemma CheckApprovalSafe(s: System, e: Event, works: bool)
    requires Possible(s, e) && Safe(s) && e.CheckApproval?
    ensures Safe(Next(s, e, works))
  {
    var c := s.console;
    if e.id in c.runs && c.runs[e.id].phase == AwaitingApproval && c.runs[e.id].preview.Some? && !Usable(c.pending, e.id, e.now) {
      ExpiredSafe(s, e.id, e.later, works);
    } else {
      assert Next(s, e, works) == s;
    }
  }

  lemma CancelledSafe(s: System, s': System, r: ConsoleRun)
    requires Safe(s) && r.id in s.console.runs && Cancelled in Allowed(s.console.runs[r.id].phase)
    requires Put(s.console, s'.console, r) && Consistent(r) && r.id in s.used && r.phase == Cancelled
    requires s' == s.(console := s'.console) && s'.console.pending == s.console.pending - {r.id}
    ensures Safe(s')
  {
    forall i | 0 <= i < |s.executions| && s.executions[i].session == s.session ensures s.executions[i].run.id != r.id {
      assert RunSpent(s.console, s.executions[i].run);
    }
    forall n | n in s.calls && s.calls[n].run.id == r.id ensures Attached(s.calls[n], s'.console) {
      assert Attached(s.calls[n], s.console);
    }
    assert s'.console.pending - {r.id} == s.console.pending - {r.id};
    PutSafe(s, s', r);
  }

  lemma CancelShape(s: System, e: Event, works: bool)
    requires Possible(s, e) && e.Cancel?
    ensures var c, s' := s.console, Next(s, e, works);
      if e.id in c.runs && Cancelled in Allowed(c.runs[e.id].phase) then
        s' == s.(console := C.Advanced(c.(pending := c.pending - {e.id}), c.runs[e.id], Cancelled, Nothing, e.now, works))
      else s' == s
  {
  }

  lemma CancelMoves(s: System, id: string, now: int, works: bool)
    requires Safe(s) && id in s.console.runs && Cancelled in Allowed(s.console.runs[id].phase)
    ensures Safe(s.(console := C.Advanced(s.console.(pending := s.console.pending - {id}), s.console.runs[id],
        Cancelled, Nothing, now, works)))
  {
    var s' := s.(console := C.Advanced(s.console.(pending := s.console.pending - {id}), s.console.runs[id],
        Cancelled, Nothing, now, works));
    assert Consistent(s.console.runs[id]);
    MoveFacts(s, id, s.console.pending - {id}, Cancelled, Nothing, now, works);
    CancelledSafe(s, s', Moved(s.console.runs[id], Cancelled, Nothing, now));
  }

  lemma CancelSafe(s: System, e: Event, works: bool)
    requires Possible(s, e) && Safe(s) && e.Cancel?
    ensures Safe(Next(s, e, works))
  {
    CancelShape(s, e, works);
    if e.id in s.console.runs && Cancelled in Allowed(s.console.runs[e.id].phase) {
      CancelMoves(s, e.id, e.now, works);
    }
  }

  /** Starting the one execution an approval allows. */
  lemma EnterExecutingSafe(s: System, s': System, r: ConsoleRun, x: Execution)
    requires Safe(s) && r.id in s.console.runs && s.console.runs[r.id].phase == AwaitingApproval
    requires Put(s.console, s'.console, r) && Consistent(r) && r.id in s.used && r.phase == Executing
    requires s'.console.pending == s.console.pending - {r.id}
    requires s' == Suspend(s, s'.console, ExecuteCall(r)).(executions := s.executions + [x])
    requires x.run == r && x.session == s.session && Authorized(x)
    ensures Safe(s')
  {
    AwaitingIsQuiet(s, r.id);
    var m := s'.(executions := s.executions);
    assert m.console.pending - {r.id} == s.console.pending - {r.id};
    assert BrowserActive(s.console.runs[r.id].phase);
    assert OthersIdle(s.console, r.id);
    PutSafe(s, m, r);
    AddExecution(m, x);
  }

  lemma AddExecution(m: System, x: Execution)
    requires Safe(m) && x.session == m.session && Authorized(x) && RunSpent(m.console, x.run)
    requires forall i :: 0 <= i < |m.executions| && m.executions[i].session == m.session ==> m.executions[i].run.id != x.run.id
    ensures Safe(m.(executions := m.executions + [x]))
  {
  }

  lemma ApprovedStart(s: System, e: Event, r: ConsoleRun)
    requires Safe(s) && e.BeginApprove? && e.id in s.console.runs && s.console.runs[e.id].phase == AwaitingApproval
    requires ApproveReply(s.console.pending, e.id, e.phrase, e.acknowledged, e.approvalId, e.now).Done?
    requires r == Moved(s.console.runs[e.id], Executing, Nothing, e.later)
    ensures e.id in s.console.pending
    ensures Authorized(Execution(s.session, r, Confirmed(s.console.pending[e.id], e.approvalId),
        s.console.pending[e.id].expires, e.now))
  {
    assert Bound(s.console, e.id) && Consistent(s.console.runs[e.id]);
  }

  lemma ApprovedWithoutRunnerSafe(s: System, id: string, now: int, works: bool)
    requires Safe(s) && id in s.console.runs && s.console.runs[id].phase == AwaitingApproval
    ensures Safe(s.(console := C.Advanced(s.console.(pending := s.console.pending - {id}), s.console.runs[id], Blocked, WithError("accepted_live_runner_required"), now, works)))
  {
    var u := WithError("accepted_live_runner_required");
    assert Consistent(s.console.runs[id]);
    MoveFacts(s, id, s.console.pending - {id}, Blocked, u, now, works);
    LeaveAwaitingSafe(s, s.(console := C.Advanced(s.console.(pending := s.console.pending - {id}),
        s.console.runs[id], Blocked, u, now, works)),
                      Moved(s.console.runs[id], Blocked, u, now));
  }

  lemma ApprovedSafe(s: System, id: string, now: int, x: Execution, works: bool)
    requires Safe(s) && id in s.console.runs && s.console.runs[id].phase == AwaitingApproval
    requires x.run == Moved(s.console.runs[id], Executing, Nothing, now) && x.session == s.session && Authorized(x)
    ensures Safe(Suspend(s, C.Advanced(s.console.(pending := s.console.pending - {id}), s.console.runs[id],
        Executing, Nothing, now, works), ExecuteCall(x.run)).(executions := s.executions + [x]))
  {
    assert Consistent(s.console.runs[id]);
    MoveFacts(s, id, s.console.pending - {id}, Executing, Nothing, now, works);
    EnterExecutingSafe(s, Suspend(s, C.Advanced(s.console.(pending := s.console.pending - {id}), s.console.runs[id],
        Executing, Nothing, now, works), ExecuteCall(x.run)).(executions := s.executions + [x]), x.run, x);
  }

  /** The ways an approval can end. */
  ghost predicate Approving(s: System, s': System, e: Event, works: bool)
    requires e.BeginApprove?
  {
    var c := s.console;
    || s' == s
    || s' == s.(console := c.(pending := c.pending - {e.id}))
    || (e.id in c.runs && c.runs[e.id].phase == AwaitingApproval
        && s' == s.(console := C.Advanced(c.(pending := c.pending - {e.id}), c.runs[e.id], Blocked, WithError("accepted_live_runner_required"), e.later, works)))
    || (e.id in c.runs && c.runs[e.id].phase == AwaitingApproval
        && ApproveReply(c.pending, e.id, e.phrase, e.acknowledged, e.approvalId, e.now).Done?
        && var r, x := Moved(c.runs[e.id], Executing, Nothing, e.later), Started(s, e);
           s' == Suspend(s, C.Advanced(c.(pending := c.pending - {e.id}), c.runs[e.id], Executing, Nothing, e.later,
               works), ExecuteCall(r)).(executions := s.executions + [x]))
  }

  ghost function Started(s: System, e: Event): Execution
    requires e.BeginApprove? && e.id in s.console.runs
    requires ApproveReply(s.console.pending, e.id, e.phrase, e.acknowledged, e.approvalId, e.now).Done?
  {
    Execution(s.session, Moved(s.console.runs[e.id], Executing, Nothing, e.later), Confirmed(s.console.pending[e.id],
        e.approvalId),
              s.console.pending[e.id].expires, e.now)
  }

  lemma BeginApproveShape(s: System, e: Event, works: bool)
    requires Possible(s, e) && e.BeginApprove?
    ensures Approving(s, Next(s, e, works), e, works)
  {
  }

  lemma ApprovingSafe(s: System, s': System, e: Event, works: bool)
    requires Safe(s) && e.BeginApprove? && Approving(s, s', e, works)
    ensures Safe(s')
  {
    var c := s.console;
    DropSafe(s, e.id);
    if e.id in c.runs && c.runs[e.id].phase == AwaitingApproval {
      ApprovedWithoutRunnerSafe(s, e.id, e.later, works);
      if ApproveReply(c.pending, e.id, e.phrase, e.acknowledged, e.approvalId, e.now).Done? {
        ApprovedStart(s, e, Moved(c.runs[e.id], Executing, Nothing, e.later));
        ApprovedSafe(s, e.id, e.later, Started(s, e), works);
      }
    }
  }

  lemma BeginApproveSafe(s: System, e: Event, works: bool)
    requires Possible(s, e) && Safe(s) && e.BeginApprove?
    ensures Safe(Next(s, e, works))
  {
    BeginApproveShape(s, e, works);
    ApprovingSafe(s, Next(s, e, works), e, works);
  }

  lemma ExecutionResumes(s: System, call: nat)
    requires Safe(s) && call in s.calls && s.calls[call].ExecuteCall?
    ensures var id := s.calls[call].run.id;
      && id in s.console.runs && s.console.runs[id] == s.calls[call].run && s.calls[call].run.phase == Executing
      && id !in s.console.pending
      && forall n :: n in s.calls && s.calls[n].run.id == id && n != call ==> s.calls[n].PlanCall?
  {
    var id := s.calls[call].run.id;
    assert Attached(s.calls[call], s.console);
    forall n | n in s.calls && s.calls[n].run.id == id && n != call ensures s.calls[n].PlanCall? {
      assert Attached(s.calls[n], s.console);
      assert !SameVisit(s.calls[n], s.calls[call]);
    }
    assert forall k :: k in s.console.pending ==> Bound(s.console, k);
  }

  lemma LeaveExecutingSafe(s: System, s': System, call: nat, r: ConsoleRun)
    requires Safe(s) && call in s.calls && s.calls[call].ExecuteCall? && s.calls[call].run.id == r.id
    requires r.id in s.console.runs && s.console.runs[r.id].phase == Executing && s.console.runs[r.id].plan == r.plan
    requires Put(s.console, s'.console, r) && Consistent(r) && r.id in s.used && Spent(r.phase) && !BrowserActive(r.phase)
    requires s' == Resume(s, call, s'.console) && s'.console.pending == s.console.pending
    ensures Safe(s')
  {
    ExecutionResumes(s, call);
    forall i | 0 <= i < |s.executions| && s.executions[i].session == s.session && s.executions[i].run.id == r.id
      ensures r.plan == s.executions[i].run.plan
    {
      assert RunSpent(s.console, s.executions[i].run);
    }
    PutSafe(s, s', r);
  }

  lemma ResultFits(r: ConsoleRun, phase: Phase, u: Update, now: int)
    requires Consistent(r) && r.phase == Executing
    requires (phase == Interrupted && u.WithError?) || (u.WithResult? && phase == ResultPhase(u.outcome.status))
    ensures phase in Allowed(r.phase) && FieldsFit(Moved(r, phase, u, now)) && Spent(phase) && !BrowserActive(phase)
    ensures Moved(r, phase, u, now).plan == r.plan
  {
  }

  lemma EndApproveMoved(s: System, call: nat, phase: Phase, u: Update, now: int, works: bool)
    requires Safe(s) && call in s.calls && s.calls[call].ExecuteCall? && s.calls[call].run.id in s.console.runs
    requires s.console.runs[s.calls[call].run.id].phase == Executing
    requires (phase == Interrupted && u.WithError?) || (u.WithResult? && phase == ResultPhase(u.outcome.status))
    ensures Safe(Resume(s, call, C.Advanced(s.console, s.console.runs[s.calls[call].run.id], phase, u, now, works)))
  {
    var id := s.calls[call].run.id;
    ResultFits(s.console.runs[id], phase, u, now);
    assert Consistent(s.console.runs[id]);
    MoveFacts(s, id, s.console.pending, phase, u, now, works);
    LeaveExecutingSafe(s, Resume(s, call, C.Advanced(s.console, s.console.runs[id], phase, u, now, works)), call,
        Moved(s.console.runs[id], phase, u, now));
  }

  lemma EndApproveSafe(s: System, e: Event, works: bool)
    requires Possible(s, e) && Safe(s) && e.EndApprove?
    ensures Safe(Next(s, e, works))
  {
    ExecutionResumes(s, e.call);
    if e.executed.ExecutionFailed? {
      EndApproveMoved(s, e.call, Interrupted, WithError(e.executed.code), e.now, works);
    } else {
      var result := e.executed.result;
      EndApproveMoved(s, e.call, ResultPhase(result.status), WithResult(result, ResultMessage(result),
          e.executed.source), e.now, works);
    }
  }

  lemma ConfigureSafe(s: System, e: Event, works: bool)
    requires Possible(s, e) && Safe(s) && e.Configure?
    ensures Safe(Next(s, e, works))
  {
    var c' := Next(s, e, works).console;
    forall k | k in c'.pending ensures Bound(c', k) { assert Bound(s.console, k); }
    forall n | n in s.calls ensures Attached(s.calls[n], c') { assert Attached(s.calls[n], s.console); }
    assert forall i :: 0 <= i < |s.executions| && s.executions[i].session == s.session ==> RunSpent(s.console,
        s.executions[i].run);
  }

  lemma {:induction false} IdOrderMembers(runs: seq<ConsoleRun>)
    ensures forall k :: k in Index(runs, RunId) <==> k in C.IdOrder(runs)
  {
    if runs != [] {
      IdOrderMembers(runs[..|runs| - 1]);
    }
  }

  lemma {:induction false} OtherVersionsNotKnown(disk: seq<Item>)
    ensures NoneKnown(OtherVersions(disk))
  {
    if disk != [] {
      OtherVersionsNotKnown(disk[..|disk| - 1]);
    }
  }

  /** A restored run: consistent, off the browser, and of an ID used before. */
  lemma RestoredRuns(s: System, now: int)
    requires RunsConsistent(s)
    ensures forall r :: r in Restored(s.console.journal.disk, now) ==> Consistent(r) && !BrowserActive(r.phase) && r.id in s.used
  {
    var disk := s.console.journal.disk;
    RestoredMembers(disk, now);
    forall r | r in Restored(disk, now) ensures Consistent(r) && !BrowserActive(r.phase) && r.id in s.used {
      var i :| RestoredFrom(disk, i, r, now);
      RestoreConsistent(disk[i].run, now);
      RestoreSettles(disk[i].run, now, now);
    }
  }

  lemma RestartSafe(s: System, e: Event, works: bool)
    requires Possible(s, e) && Safe(s) && e.Restart?
    ensures Safe(Next(s, e, works))
  {
    var s' := Next(s, e, works);
    var disk := s.console.journal.disk;
    var runs := LoadedRuns(disk, e.readable, e.now);
    IndexFacts(runs, RunId);
    IdOrderMembers(runs);
    OtherVersionsNotKnown(disk);
    RestoredRuns(s, e.now);
    assert forall k :: k in s'.console.runs ==> s'.console.runs[k] in runs;
    assert s'.console.journal.disk == disk;
    assert forall i :: 0 <= i < |s'.executions| ==> Authorized(s'.executions[i]);
  }

  lemma NextSafe(s: System, e: Event, works: bool)
    requires Possible(s, e) && Safe(s)
    ensures Safe(Next(s, e, works))
  {
    match e
    case Start(_, _, _, _) => StartSafe(s, e, works);
    case CreateFromPlan(_, _, _, _, _) => StartSafe(s, e, works);
    case BeginPlan(_) => BeginPlanSafe(s, e, works);
    case EndPlan(_, _, _) => EndPlanSafe(s, e, works);
    case Promote(_, _, _) => PromoteSafe(s, e, works);
    case BeginPreview(_, _) => BeginPreviewSafe(s, e, works);
    case EndPreview(_, _, _, _) => EndPreviewSafe(s, e, works);
    case CheckApproval(_, _, _) => CheckApprovalSafe(s, e, works);
    case Cancel(_, _) => CancelSafe(s, e, works);
    case BeginApprove(_, _, _, _, _, _) => BeginApproveSafe(s, e, works);
    case EndApprove(_, _, _) => EndApproveSafe(s, e, works);
    case Configure(_, _) => ConfigureSafe(s, e, works);
    case Abandon(call) => ForgetSafe(s, call);
    case Restart(_, _, _, _, _) => RestartSafe(s, e, works);
  }

  /** Over every sequence of events, at most one run holds the browser, every history is a
      legal walk, every pending approval is bound to its run's preview, and every start of the
      live runner was approved in time, once. */
  lemma {:induction false} EveryReachableStateIsSafe(s0: System, t: Trace, s: System)
    requires Initial(s0) && Reaches(s0, t, s)
    ensures Safe(s)
    decreases t
  {
    match t
    case Empty =>
    case Then(before, e, works) =>
      var m :| Reaches(s0, before, m) && Possible(m, e) && s == Next(m, e, works);
      EveryReachableStateIsSafe(s0, before, m);
      NextSafe(m, e, works);
  }
}
