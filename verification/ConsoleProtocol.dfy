/** Every interleaving of console calls at their awaits, with cancels, expiry, mode changes,
    abandoned calls and process restarts. */
module ConsoleProtocol {
  import opened Keyed
  import opened Resources
  import opened ConsoleRuns
  import opened Approvals
  import opened ConsoleJournal
  import C = Coordinator

  /** A call suspended at its await, with the local variable `run` it goes on with. */
  datatype Call = PlanCall(run: ConsoleRun) | PreviewCall(run: ConsoleRun) | ExecuteCall(run: ConsoleRun)

  /** One start of the live runner: which process, what it was handed, the expiry of the
      approval it consumed, and the clock reading the approval was checked against. */
  datatype Execution = Execution(session: nat, run: ConsoleRun, confirmation: Confirmation, deadline: int, at: int)

  /** `executions` and `used` only record what happened; no operation reads them. */
  datatype System = System(
    console: C.Console,
    calls: map<nat, Call>,
    nextCall: nat,
    session: nat,
    executions: seq<Execution>,
    used: set<string>
  )

  datatype Event =
    | Start(id: string, text: string, mode: Mode, now: int)
    | CreateFromPlan(id: string, text: string, mode: Mode, plan: seq<Action>, now: int)
    | BeginPlan(id: string)
    | EndPlan(call: nat, planned: C.Planned, now: int)
    | Promote(id: string, mode: Mode, now: int)
    | BeginPreview(id: string, now: int)
    | EndPreview(call: nat, previewed: C.Previewed, now: int, later: int)
    | CheckApproval(id: string, now: int, later: int)
    | Cancel(id: string, now: int)
    | BeginApprove(id: string, phrase: string, acknowledged: bool, approvalId: string, now: int, later: int)
    | EndApprove(call: nat, executed: C.Executed, now: int)
    | Configure(previews: bool, runner: bool)
    | Abandon(call: nat) // the awaiting task is cancelled and never resumes
    | Restart(readable: bool, ttl: int, previews: bool, runner: bool, now: int)

  /** Run IDs are fresh, and only a suspended call can resume. */
  predicate Possible(s: System, e: Event) {
    match e
    case Start(id, _, _, _) => id !in s.used
    case CreateFromPlan(id, _, _, _, _) => id !in s.used
    case EndPlan(call, _, _) => call in s.calls && s.calls[call].PlanCall?
    case EndPreview(call, _, _, _) => call in s.calls && s.calls[call].PreviewCall?
    case EndApprove(call, _, _) => call in s.calls && s.calls[call].ExecuteCall?
    case Abandon(call) => call in s.calls
    case _ => true
  }

  function Suspend(s: System, console: C.Console, call: Call): System {
    s.(console := console, calls := s.calls[s.nextCall := call], nextCall := s.nextCall + 1)
  }

  function Resume(s: System, call: nat, console: C.Console): System {
    s.(console := console, calls := s.calls - {call})
  }

  /** `works` says whether a journal write made by this event takes effect. */
  function Next(s: System, e: Event, works: bool): System
    requires Possible(s, e)
  {
    var c := s.console;
    match e
    case Start(id, text, mode, now) =>
      s.(console := C.Start(c, id, text, mode, now, works).console, used := s.used + {id})
    case CreateFromPlan(id, text, mode, plan, now) =>
      s.(console := C.CreateFromPlan(c, id, text, mode, plan, now, works).console, used := s.used + {id})
    case BeginPlan(id) =>
      var r := C.BeginPlan(c, id);
      if r.Done? then Suspend(s, c, PlanCall(r.value)) else s
    case EndPlan(call, outcome, now) =>
      Resume(s, call, C.EndPlan(c, s.calls[call].run.id, outcome, now, works).console)
    case Promote(id, mode, now) =>
      s.(console := C.Promote(c, id, mode, now, works).console)
    case BeginPreview(id, now) =>
      var t := C.BeginPreview(c, id, now, works);
      if t.reply.Done? && t.reply.value.Waiting? then Suspend(s, t.console, PreviewCall(t.reply.value.run))
      else s.(console := t.console)
    case EndPreview(call, outcome, now, later) =>
      Resume(s, call, C.EndPreview(c, s.calls[call].run, outcome, now, later, works).console)
    case CheckApproval(id, now, later) =>
      s.(console := C.CheckApproval(c, id, now, later, works).console)
    case Cancel(id, now) =>
      s.(console := C.Cancel(c, id, now, works).console)
    case BeginApprove(id, phrase, acknowledged, approvalId, now, later) =>
      var t := C.BeginApprove(c, id, phrase, acknowledged, approvalId, now, later, works);
      if t.reply.Done? && t.reply.value.Running? then
        var run := t.reply.value.run;
        var started := Execution(s.session, run, t.reply.value.confirmation, c.pending[id].expires, now);
        Suspend(s, t.console, ExecuteCall(run)).(executions := s.executions + [started])
      else s.(console := t.console)
    case EndApprove(call, outcome, now) =>
      Resume(s, call, C.EndApprove(c, s.calls[call].run.id, outcome, now, works).console)
    case Configure(previews, runner) =>
      s.(console := C.Configure(c, previews, runner).console)
    case Abandon(call) => Resume(s, call, c)
    case Restart(readable, ttl, previews, runner, now) =>
      s.(console := C.Opened(c.journal.disk, readable, now, ttl, previews, runner), calls := map[], session := s.session + 1)
  }

  ghost predicate NoneKnown(items: seq<Item>) {
    forall i :: 0 <= i < |items| ==> !items[i].Known?
  }

  /** A first process over a journal that holds at most snapshots of other versions. */
  ghost predicate Initial(s: System) {
    && NoneKnown(s.console.journal.disk) && NoneKnown(s.console.journal.unknown)
    && s.console.runs == map[] && s.console.order == [] && s.console.pending == map[]
    && s.calls == map[] && s.executions == []
  }

  datatype Trace = Empty | Then(before: Trace, event: Event, works: bool)

  ghost predicate Reaches(s0: System, t: Trace, s: System)
    decreases t
  {
    match t
    case Empty => s == s0
    case Then(before, e, works) => exists m :: Reaches(s0, before, m) && Possible(m, e) && s == Next(m, e, works)
  }

  ghost predicate Bookkept(s: System) {
    && (forall k :: k in s.console.runs ==> s.console.runs[k].id == k && k in s.used)
    && (forall k :: k in s.console.runs <==> k in s.console.order)
    && (forall n :: n in s.calls ==> n < s.nextCall)
    && NoneKnown(s.console.journal.unknown)
  }

  ghost predicate RunsConsistent(s: System) {
    && (forall k {:trigger Consistent(s.console.runs[k])} :: k in s.console.runs ==> Consistent(s.console.runs[k]))
    && (forall i :: 0 <= i < |s.console.journal.disk| && s.console.journal.disk[i].Known? ==>
        Consistent(s.console.journal.disk[i].run) && s.console.journal.disk[i].run.id in s.used)
  }

  /** At most one run holds the browser. */
  ghost predicate Exclusive(c: C.Console) {
    forall a, b {:trigger BrowserActive(c.runs[a].phase), BrowserActive(c.runs[b].phase)} ::
      a in c.runs && b in c.runs && BrowserActive(c.runs[a].phase) && BrowserActive(c.runs[b].phase) ==> a == b
  }

  /** A pending approval belongs to a live run awaiting it and carries its preview's hashes. */
  ghost predicate Bound(c: C.Console, k: string) {
    && k in c.pending && k in c.runs
    && c.runs[k].phase == AwaitingApproval
    && c.runs[k].mode == Live
    && c.runs[k].preview.Some?
    && c.pending[k].runId == k
    && c.pending[k].phrase == Phrase(k)
    && Carries(c.runs[k].preview.value, c.pending[k].planHash, c.pending[k].beforeHash, c.pending[k].changeHash)
  }

  predicate Carries(p: Preview, planHash: string, beforeHash: string, changeHash: string) {
    p.status == Ready && p.planHash == planHash && p.beforeHash == Some(beforeHash) && p.changeHash == Some(changeHash)
  }

  ghost predicate ApprovalsBound(c: C.Console) {
    forall k {:trigger Bound(c, k)} :: k in c.pending ==> Bound(c, k)
  }

  /** `run` is the current visit that a suspended preview began: its last recorded transition
      is the one this call appended. */
  ghost predicate OwnsPreview(run: ConsoleRun, current: ConsoleRun) {
    && current.phase == Preflight
    && |current.history| == |run.history| + 1
    && run.history == current.history[..|run.history|]
    && run.mode == current.mode && run.plan == current.plan
  }

  /** A suspended call is the one that began the run's visit, or its run was cancelled. */
  ghost predicate Attached(call: Call, c: C.Console) {
    && call.run.id in c.runs
    && match call
       case PlanCall(_) => true
       case PreviewCall(run) => c.runs[run.id].phase == Cancelled || OwnsPreview(run, c.runs[run.id])
       case ExecuteCall(run) => c.runs[run.id] == run && run.phase == Executing
  }

  ghost predicate SameVisit(a: Call, b: Call) {
    a.run.id == b.run.id && ((a.PreviewCall? && b.PreviewCall?) || (a.ExecuteCall? && b.ExecuteCall?))
  }

  ghost predicate CallsAttached(calls: map<nat, Call>, c: C.Console) {
    forall n {:trigger Attached(calls[n], c)} :: n in calls ==> Attached(calls[n], c)
  }

  /** No two suspended calls are at work on the same preview or the same execution. */
  ghost predicate OneCallEach(calls: map<nat, Call>) {
    forall n, m {:trigger SameVisit(calls[n], calls[m])} :: n in calls && m in calls && SameVisit(calls[n], calls[m]) ==> n == m
  }

  /** The phases of a run that has been handed to the live runner. */
  predicate Spent(p: Phase) {
    p == Executing || p == Completed || p == Blocked || p == Interrupted
  }

  /** What the live runner was handed was approved in time, for exactly what it shows. */
  ghost predicate Authorized(e: Execution) {
    && e.at < e.deadline
    && e.run.phase == Executing
    && e.run.mode == Live
    && e.run.plan.Some?
    && e.run.preview.Some?
    && Carries(e.run.preview.value, e.confirmation.planHash, e.confirmation.beforeHash, e.confirmation.changeHash)
  }

  ghost predicate ExecutionsAuthorized(s: System) {
    forall i :: 0 <= i < |s.executions| ==> Authorized(s.executions[i]) && s.executions[i].session <= s.session
  }

  /** A run handed to the live runner by this process can never be handed to it again. */
  ghost predicate SpentInSession(s: System) {
    forall i {:trigger RunSpent(s.console, s.executions[i].run)} ::
      0 <= i < |s.executions| && s.executions[i].session == s.session ==> RunSpent(s.console, s.executions[i].run)
  }

  ghost predicate RunSpent(c: C.Console, run: ConsoleRun) {
    run.id in c.runs && Spent(c.runs[run.id].phase) && c.runs[run.id].plan == run.plan
  }

  ghost predicate OncePerSession(executions: seq<Execution>) {
    forall i, j :: 0 <= i < j < |executions| && executions[i].session == executions[j].session ==>
      executions[i].run.id != executions[j].run.id
  }

  ghost predicate Safe(s: System) {
    && Bookkept(s)
    && RunsConsistent(s)
    && Exclusive(s.console)
    && ApprovalsBound(s.console)
    && CallsAttached(s.calls, s.console)
    && OneCallEach(s.calls)
    && ExecutionsAuthorized(s)
    && SpentInSession(s)
    && OncePerSession(s.executions)
  }
}
