/** The console coordinator. An `async` method is two operations, split at its await. */
module Coordinator {
  import opened Ordering
  import opened Keyed
  import opened PythonText
  import opened Resources
  import opened ConsoleRuns
  import opened Approvals
  import opened ConsoleJournal

  /** `order` is the insertion order of the run dictionary. */
  datatype Console = Console(
    runs: map<string, ConsoleRun>,
    order: seq<string>,
    pending: map<string, Approval>,
    ttl: int,
    previews: bool, // a preview service is configured
    runner: bool, // a live runner is configured
    journal: Journal
  )

  datatype Turn<+T> = Turn(console: Console, reply: Reply<T>)

  datatype Planned = PlanMade(plan: seq<Action>) | PlanFailed(code: string)
  datatype Previewed = PreviewMade(preview: Preview) | PreviewFailed(code: string)
  datatype Executed = ExecutionEnded(result: Result, source: Option<string>) | ExecutionFailed(code: string)

  /** Whether an operation ended at once or stands at its await; `run` is what the
      suspended call remembers. */
  datatype Begun = Finished(run: ConsoleRun) | Waiting(run: ConsoleRun) | Running(run: ConsoleRun, confirmation: Confirmation)

  predicate NewerFirst(a: ConsoleRun, b: ConsoleRun) { a.created >= b.created }

  function Values(runs: map<string, ConsoleRun>, order: seq<string>): seq<ConsoleRun> {
    if order == [] then []
    else Values(runs, order[..|order| - 1]) + if order[|order| - 1] in runs then [runs[order[|order| - 1]]] else []
  }

  /** `list_runs` */
  function Listed(runs: map<string, ConsoleRun>, order: seq<string>): seq<ConsoleRun> {
    Sort(Values(runs, order), NewerFirst)
  }

  /** Stores a run and saves the journal. */
  function Put(c: Console, r: ConsoleRun, works: bool): Console {
    var grown := c.(runs := c.runs[r.id := r], order := if r.id in c.runs then c.order else c.order + [r.id]);
    grown.(journal := Write(c.journal, Listed(grown.runs, grown.order), works))
  }

  function Advanced(c: Console, r: ConsoleRun, phase: Phase, u: Update, now: int, works: bool): Console {
    Put(c, Moved(r, phase, u, now), works)
  }

  function Advance(c: Console, r: ConsoleRun, phase: Phase, u: Update, now: int, works: bool): Turn<ConsoleRun> {
    Turn(Advanced(c, r, phase, u, now, works), Done(Moved(r, phase, u, now)))
  }

  predicate AnotherActive(c: Console, id: string) {
    exists k :: k in c.runs && k != id && BrowserActive(c.runs[k].phase)
  }

  predicate AnyActive(c: Console) {
    exists k :: k in c.runs && BrowserActive(c.runs[k].phase)
  }

  predicate ValidRequest(text: string) { 1 <= |text| <= 2000 }

  function Start(c: Console, id: string, text: string, mode: Mode, now: int, works: bool): Turn<ConsoleRun> {
    if !ValidRequest(Strip(text)) then Turn(c, Refused(InvalidRequest))
    else
      var run := Fresh(id, Strip(text), mode, Planning, None, now);
      Turn(Put(c, run, works), Done(run))
  }

  function CreateFromPlan(c: Console, id: string, text: string, mode: Mode, plan: seq<Action>, now: int,
      works: bool): Turn<ConsoleRun> {
    if !ValidRequest(Strip(text)) then Turn(c, Refused(InvalidRequest))
    else
      var run := Fresh(id, Strip(text), mode, PlanReady, Some(plan), now);
      Turn(Put(c, run, works), Done(run))
  }

  function BeginPlan(c: Console, id: string): Reply<ConsoleRun> {
    if id !in c.runs then Refused(UnknownRun)
    else if c.runs[id].phase != Planning then Refused(NotPlanning)
    else Done(c.runs[id])
  }

  function EndPlan(c: Console, id: string, outcome: Planned, now: int, works: bool): Turn<ConsoleRun> {
    if id !in c.runs then Turn(c, Refused(UnknownRun))
    else if c.runs[id].phase != Planning then Turn(c, Done(c.runs[id]))
    else match outcome
      case PlanMade(plan) => Advance(c, c.runs[id], PlanReady, WithPlan(plan), now, works)
      case PlanFailed(code) => Advance(c, c.runs[id], Blocked, WithError(code), now, works)
  }

  function Promote(c: Console, id: string, mode: Mode, now: int, works: bool): Turn<ConsoleRun> {
    if id !in c.runs then Turn(c, Refused(UnknownRun))
    else if c.runs[id].phase != PlanReady || c.runs[id].plan.None? then Turn(c, Refused(NotPromotable))
    else if mode == PlanOnly then Turn(c, Refused(NotPromotable))
    else if c.runs[id].mode == mode then Turn(c, Done(c.runs[id]))
    else
      var run := c.runs[id].(mode := mode, updated := now);
      Turn(Put(c, run, works), Done(run))
  }

  function BeginPreview(c: Console, id: string, now: int, works: bool): Turn<Begun> {
    if id !in c.runs then Turn(c, Refused(UnknownRun))
    else
      var run := c.runs[id];
      if run.phase != PlanReady then Turn(c, Refused(NotReady))
      else if run.plan.None? || run.mode == PlanOnly then Turn(c, Refused(NotEligible))
      else if AnotherActive(c, id) then Turn(c, Refused(SlotTaken))
      else if !c.previews then
        var t := Advance(c, run, Blocked, WithError("ui_contract_pack_required"), now, works);
        Turn(t.console, Done(Finished(t.reply.value)))
      else Turn(Advanced(c, run, Preflight, Reset(None), now, works), Done(Waiting(run)))
  }

  /** `run` is what the call saw before its await; only its mode is used. */
  function EndPreview(c: Console, run: ConsoleRun, outcome: Previewed, now: int, issuedAt: int, works: bool): Turn<ConsoleRun> {
    if run.id !in c.runs then Turn(c, Refused(UnknownRun))
    else
      var current := c.runs[run.id];
      if current.phase != Preflight then Turn(c, Done(current))
      else match outcome
        case PreviewFailed(code) => Advance(c, current, Blocked, WithError(code), now, works)
        case PreviewMade(preview) =>
          var phase := PreviewPhase(preview.status, run.mode);
          var t := Advance(c, current, phase, WithPreview(preview), now, works);
          if phase != AwaitingApproval then t
          else match Envelope(run.id, preview, issuedAt, c.ttl)
            case Refused(why) => Turn(t.console, Refused(why))
            case Done(approval) => Turn(t.console.(pending := t.console.pending[run.id := approval]), t.reply)
  }

  /** `pending_approval` */
  function CheckApproval(c: Console, id: string, now: int, later: int, works: bool): Turn<Option<Approval>> {
    if id !in c.runs then Turn(c, Refused(UnknownRun))
    else
      var run := c.runs[id];
      if run.phase != AwaitingApproval || run.preview.None? then Turn(c, Done(None))
      else
        var found := GetReply(c.pending, id, now);
        var kept := c.(pending := AfterGet(c.pending, id, now));
        if found.Some? then Turn(kept, Done(found))
        else Turn(Advanced(kept, run, PlanReady, Reset(Some("approval_expired")), later, works), Done(None))
  }

  function Cancel(c: Console, id: string, now: int, works: bool): Turn<ConsoleRun> {
    if id !in c.runs then Turn(c, Refused(UnknownRun))
    else if Cancelled !in Allowed(c.runs[id].phase) then Turn(c, Refused(NotCancellable))
    else Advance(c.(pending := c.pending - {id}), c.runs[id], Cancelled, Nothing, now, works)
  }

  function BeginApprove(c: Console, id: string, phrase: string, acknowledged: bool, approvalId: string, now: int,
      later: int, works: bool): Turn<Begun> {
    if id !in c.runs then Turn(c, Refused(UnknownRun))
    else
      var run := c.runs[id];
      if run.phase != AwaitingApproval then Turn(c, Refused(NotAwaiting))
      else
        var kept := c.(pending := AfterApprove(c.pending, id, phrase, acknowledged, now));
        match ApproveReply(c.pending, id, phrase, acknowledged, approvalId, now)
        case Refused(why) => Turn(kept, Refused(why))
        case Done(confirmation) =>
          if !c.runner then
            var t := Advance(kept, run, Blocked, WithError("accepted_live_runner_required"), later, works);
            Turn(t.console, Done(Finished(t.reply.value)))
          else
            var t := Advance(kept, run, Executing, Nothing, later, works);
            Turn(t.console, Done(Running(t.reply.value, confirmation)))
  }

  function EndApprove(c: Console, id: string, outcome: Executed, now: int, works: bool): Turn<ConsoleRun> {
    if id !in c.runs then Turn(c, Refused(UnknownRun))
    else if c.runs[id].phase != Executing then Turn(c, Done(c.runs[id]))
    else match outcome
      case ExecutionFailed(code) => Advance(c, c.runs[id], Interrupted, WithError(code), now, works)
      case ExecutionEnded(result, source) =>
        Advance(c, c.runs[id], ResultPhase(result.status), WithResult(result, ResultMessage(result), source), now, works)
  }

  function Configure(c: Console, previews: bool, runner: bool): Turn<()> {
    if AnyActive(c) then Turn(c, Refused(BrowserBusy))
    else Turn(c.(previews := previews, runner := runner), Done(()))
  }

  /** The positions a dictionary built from these runs gives their IDs. */
  function IdOrder(runs: seq<ConsoleRun>): seq<string> {
    if runs == [] then []
    else
      var rest := IdOrder(runs[..|runs| - 1]);
      if runs[|runs| - 1].id in rest then rest else rest + [runs[|runs| - 1].id]
  }

  function Opened(disk: seq<Item>, readable: bool, now: int, ttl: int, previews: bool, runner: bool): Console {
    var runs := LoadedRuns(disk, readable, now);
    Console(Index(runs, RunId), IdOrder(runs), map[], ttl, previews, runner, Reopen(disk, readable))
  }

  class ConsoleCoordinator {
    var runs: map<string, ConsoleRun>
    var order: seq<string>
    var previews: bool
    var runner: bool
    const approvals: ApprovalService
    const journal: ConsoleRunJournal

    ghost function View(): Console
      reads this, approvals, journal
    {
      Console(runs, order, approvals.pending, approvals.ttl, previews, runner, journal.View())
    }

    /** A coordinator of a new process, over the runs its journal restores. */
    constructor (journal: ConsoleRunJournal, approvals: ApprovalService, readable: bool, now: int, previews: bool, runner: bool)
      requires journal.unknown == [] && journal.writable && approvals.pending == map[]
      modifies journal
      ensures this.journal == journal && this.approvals == approvals
      ensures View() == Opened(old(journal.disk), readable, now, approvals.ttl, previews, runner)
    {
      this.journal, this.approvals := journal, approvals;
      this.previews, this.runner := previews, runner;
      runs, order := map[], [];
      new;
      var loaded := journal.Load(readable, now);
      for n := 0 to |loaded|
        invariant runs == Index(loaded[..n], RunId) && order == IdOrder(loaded[..n])
        invariant forall k :: k in runs <==> k in order
        invariant this.previews == previews && this.runner == runner
        invariant approvals.pending == map[] && journal.View() == Reopen(old(journal.disk), readable)
        modifies this
      {
        assert loaded[..n + 1][..n] == loaded[..n];
        if loaded[n].id !in runs { order := order + [loaded[n].id]; }
        runs := runs[loaded[n].id := loaded[n]];
      }
      assert loaded[..|loaded|] == loaded;
    }

    method Store(r: ConsoleRun, works: bool)
      modifies this, journal
      ensures View() == Put(old(View()), r, works)
    {
      if r.id !in runs { order := order + [r.id]; }
      runs := runs[r.id := r];
      journal.Save(Listed(runs, order), works);
    }

    /** `_advance` with both of its guards. */
    method Move(run: ConsoleRun, phase: Phase, u: Update, now: int, works: bool) returns (moved: bool, r: ConsoleRun)
      modifies this, journal
      ensures moved <==> run.id in old(runs) && old(runs)[run.id] == run && phase in Allowed(run.phase)
      ensures moved ==> View() == Advanced(old(View()), run, phase, u, now, works) && r == Moved(run, phase, u, now)
      ensures !moved ==> View() == old(View())
    {
      if run.id !in runs || runs[run.id] != run || phase !in Allowed(run.phase) {
        return false, run;
      }
      r := Moved(run, phase, u, now);
      Store(r, works);
      moved := true;
    }

    method StartRun(id: string, text: string, mode: Mode, now: int, works: bool) returns (r: Reply<ConsoleRun>)
      modifies this, journal
      ensures View() == Start(old(View()), id, text, mode, now, works).console
      ensures r == Start(old(View()), id, text, mode, now, works).reply
    {
      var request := Strip(text);
      if request == "" || |request| > 2000 { return Refused(InvalidRequest); }
      var initial := Fresh(id, request, mode, Planning, None, now);
      Store(initial, works);
      return Done(initial);
    }

    method StartFromPlan(id: string, text: string, mode: Mode, plan: seq<Action>, now: int,
        works: bool) returns (r: Reply<ConsoleRun>)
      modifies this, journal
      ensures View() == CreateFromPlan(old(View()), id, text, mode, plan, now, works).console
      ensures r == CreateFromPlan(old(View()), id, text, mode, plan, now, works).reply
    {
      var request := Strip(text);
      if request == "" || |request| > 2000 { return Refused(InvalidRequest); }
      var run := Fresh(id, request, mode, PlanReady, Some(plan), now);
      Store(run, works);
      return Done(run);
    }

    method PlanUntilAwait(id: string) returns (r: Reply<ConsoleRun>)
      ensures r == BeginPlan(View(), id)
    {
      if id !in runs { return Refused(UnknownRun); }
      if runs[id].phase != Planning { return Refused(NotPlanning); }
      return Done(runs[id]);
    }

    method PlanAfterAwait(id: string, outcome: Planned, now: int, works: bool) returns (r: Reply<ConsoleRun>)
      requires id in runs ==> runs[id].id == id
      modifies this, journal
      ensures View() == EndPlan(old(View()), id, outcome, now, works).console
      ensures r == EndPlan(old(View()), id, outcome, now, works).reply
    {
      if id !in runs { return Refused(UnknownRun); }
      var current := runs[id];
      if current.phase != Planning { return Done(current); }
      var moved, run;
      match outcome {
        case PlanFailed(code) => moved, run := Move(current, Blocked, WithError(code), now, works);
        case PlanMade(plan) => moved, run := Move(current, PlanReady, WithPlan(plan), now, works);
      }
      assert moved;
      return Done(run);
    }

    method PromotePlan(id: string, mode: Mode, now: int, works: bool) returns (r: Reply<ConsoleRun>)
      requires id in runs ==> runs[id].id == id
      modifies this, journal
      ensures View() == Promote(old(View()), id, mode, now, works).console
      ensures r == Promote(old(View()), id, mode, now, works).reply
    {
      if id !in runs { return Refused(UnknownRun); }
      var run := runs[id];
      if run.phase != PlanReady || run.plan == None { return Refused(NotPromotable); }
      if mode == PlanOnly { return Refused(NotPromotable); }
      if run.mode == mode { return Done(run); }
      var promoted := run.(mode := mode, updated := now);
      Store(promoted, works);
      return Done(promoted);
    }

    /** The run in the way of a preview of `id`: the first active one of another ID. */
    method SlotHolder(id: string) returns (busy: bool)
      requires forall k :: k in runs <==> k in order
      ensures busy <==> AnotherActive(View(), id)
    {
      for n := 0 to |order|
        invariant forall i :: 0 <= i < n ==> order[i] == id || !BrowserActive(runs[order[i]].phase)
      {
        if order[n] != id && BrowserActive(runs[order[n]].phase) { return true; }
      }
      return false;
    }

    method PreviewUntilAwait(id: string, now: int, works: bool) returns (r: Reply<Begun>)
      requires forall k :: k in runs <==> k in order
      requires id in runs ==> runs[id].id == id
      modifies this, journal
      ensures View() == BeginPreview(old(View()), id, now, works).console
      ensures r == BeginPreview(old(View()), id, now, works).reply
    {
      if id !in runs { return Refused(UnknownRun); }
      var run := runs[id];
      if run.phase != PlanReady { return Refused(NotReady); }
      if run.plan == None || run.mode == PlanOnly { return Refused(NotEligible); }
      var busy := SlotHolder(id);
      if busy { return Refused(SlotTaken); }
      var moved, after;
      if !previews {
        moved, after := Move(run, Blocked, WithError("ui_contract_pack_required"), now, works);
        assert moved;
        return Done(Finished(after));
      }
      moved, after := Move(run, Preflight, Reset(None), now, works);
      assert moved;
      return Done(Waiting(run));
    }

    method PreviewAfterAwait(run: ConsoleRun, outcome: Previewed, now: int, issuedAt: int,
        works: bool) returns (r: Reply<ConsoleRun>)
      requires run.id in runs ==> runs[run.id].id == run.id
      modifies this, journal, approvals
      ensures View() == EndPreview(old(View()), run, outcome, now, issuedAt, works).console
      ensures r == EndPreview(old(View()), run, outcome, now, issuedAt, works).reply
    {
      if run.id !in runs { return Refused(UnknownRun); }
      var current := runs[run.id];
      if current.phase != Preflight { return Done(current); }
      var moved, completed;
      match outcome {
        case PreviewFailed(code) =>
          moved, completed := Move(current, Blocked, WithError(code), now, works);
        case PreviewMade(preview) =>
          var phase := PreviewPhase(preview.status, run.mode);
          moved, completed := Move(current, phase, WithPreview(preview), now, works);
          if phase == AwaitingApproval {
            var issued := approvals.Issue(run.id, preview, issuedAt);
            if issued.Refused? { return Refused(issued.why); }
          }
      }
      assert moved;
      return Done(completed);
    }

    method PendingApproval(id: string, now: int, later: int, works: bool) returns (r: Reply<Option<Approval>>)
      requires id in runs ==> runs[id].id == id
      modifies this, journal, approvals
      ensures View() == CheckApproval(old(View()), id, now, later, works).console
      ensures r == CheckApproval(old(View()), id, now, later, works).reply
    {
      if id !in runs { return Refused(UnknownRun); }
      var run := runs[id];
      if run.phase != AwaitingApproval || run.preview == None { return Done(None); }
      var approval := approvals.Get(id, now);
      if approval == None {
        var moved, after := Move(run, PlanReady, Reset(Some("approval_expired")), later, works);
        assert moved;
      }
      return Done(approval);
    }

    method CancelRun(id: string, now: int, works: bool) returns (r: Reply<ConsoleRun>)
      requires id in runs ==> runs[id].id == id
      modifies this, journal, approvals
      ensures View() == Cancel(old(View()), id, now, works).console
      ensures r == Cancel(old(View()), id, now, works).reply
    {
      if id !in runs { return Refused(UnknownRun); }
      var run := runs[id];
      if Cancelled !in Allowed(run.phase) { return Refused(NotCancellable); }
      approvals.Cancel(id);
      var moved, after := Move(run, Cancelled, Nothing, now, works);
      assert moved;
      return Done(after);
    }

    method ApproveUntilAwait(id: string, phrase: string, acknowledged: bool, approvalId: string, now: int,
        later: int, works: bool)
      returns (r: Reply<Begun>)
      requires id in runs ==> runs[id].id == id
      modifies this, journal, approvals
      ensures View() == BeginApprove(old(View()), id, phrase, acknowledged, approvalId, now, later, works).console
      ensures r == BeginApprove(old(View()), id, phrase, acknowledged, approvalId, now, later, works).reply
    {
      if id !in runs { return Refused(UnknownRun); }
      var run := runs[id];
      if run.phase != AwaitingApproval { return Refused(NotAwaiting); }
      var confirmation := approvals.Approve(id, phrase, acknowledged, approvalId, now);
      if confirmation.Refused? { return Refused(confirmation.why); }
      var moved, after;
      if !runner {
        moved, after := Move(run, Blocked, WithError("accepted_live_runner_required"), later, works);
        assert moved;
        return Done(Finished(after));
      }
      moved, after := Move(run, Executing, Nothing, later, works);
      assert moved;
      return Done(Running(after, confirmation.value));
    }

    method ApproveAfterAwait(id: string, outcome: Executed, now: int, works: bool) returns (r: Reply<ConsoleRun>)
      requires id in runs ==> runs[id].id == id
      modifies this, journal
      ensures View() == EndApprove(old(View()), id, outcome, now, works).console
      ensures r == EndApprove(old(View()), id, outcome, now, works).reply
    {
      if id !in runs { return Refused(UnknownRun); }
      var current := runs[id];
      if current.phase != Executing { return Done(current); }
      var moved, after;
      match outcome {
        case ExecutionFailed(code) => moved, after := Move(current, Interrupted, WithError(code), now, works);
        case ExecutionEnded(result, source) =>
          moved, after := Move(current, ResultPhase(result.status), WithResult(result, ResultMessage(result),
              source), now, works);
      }
      assert moved;
      return Done(after);
    }

    method ConfigureExecution(previews: bool, runner: bool) returns (r: Reply<()>)
      requires forall k :: k in runs <==> k in order
      modifies this
      ensures View() == Configure(old(View()), previews, runner).console
      ensures r == Configure(old(View()), previews, runner).reply
    {
      for n := 0 to |order|
        invariant forall i :: 0 <= i < n ==> !BrowserActive(runs[order[i]].phase)
      {
        if BrowserActive(runs[order[n]].phase) { return Refused(BrowserBusy); }
      }
      this.previews, this.runner := previews, runner;
      return Done(());
    }
  }
}
