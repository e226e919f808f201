/** Attended execution of a blocked-sender preview: one approval, one fresh read, one write, one
    read-back, one commit of ownership evidence, under every interleaving at the awaits. */
module Attended {
  import opened Keyed
  import opened PythonText
  import opened Resources
  import opened Ownership
  import opened Diff
  import opened ConsoleRuns
  import opened Approvals
  import opened Baseline

  type Hasher = State -> string

  datatype AttendedPreview = AttendedPreview(
    runId: string,
    mode: Mode,
    plan: seq<Action>,
    change: ChangeSet,
    beforeHash: string,
    phrase: Option<string>,
    expires: Option<int>
  )

  /** `_standard_preview` with `_approval_evidence` */
  ghost function PreviewOf(runId: string, mode: Mode, plan: seq<Action>, before: State, after: State, started: int,
      ttl: int, hash: Hasher): AttendedPreview {
    AttendedPreview(runId, mode, plan, CalculateChangeSet(before, after), hash(before),
                    if mode == Live then Some(Phrase(runId)) else None,
                    if mode == Live then Some(started + ttl) else None)
  }

  datatype Admission = Admitted(preview: AttendedPreview) | Missing | Expired | Mistyped

  predicate Confirmed(p: AttendedPreview, phrase: string, acknowledged: bool) {
    acknowledged && p.phrase.Some? && Strip(phrase) == p.phrase.value
  }

  /** The checks `execute` makes before its first await. */
  function Admit(pending: map<string, AttendedPreview>, runId: string, phrase: string, acknowledged: bool, now: int): Admission {
    if runId !in pending then Missing
    else
      var p := pending[runId];
      if p.expires.None? || now >= p.expires.value then Expired
      else if !Confirmed(p, phrase, acknowledged) then Mistyped
      else Admitted(p)
  }

  function AfterAdmit(pending: map<string, AttendedPreview>, runId: string, phrase: string, acknowledged: bool,
      now: int): map<string, AttendedPreview> {
    if Admit(pending, runId, phrase, acknowledged, now).Mistyped? then pending else pending - {runId}
  }

  /** `target_rule_id` of an action, where it has one. */
  function Target(a: Action): Option<Uid> {
    match a
    case AddEntries(_, maybe, _, _) => maybe
    case RemoveEntries(_, target) => Some(target)
    case SetNotice(target, _) => Some(target)
    case UpdateRule(target, _, _, _, _) => Some(target)
    case RemoveRule(target, _) => Some(target)
    case SetEnabled(target, _) => Some(target)
    case CreateRule(_, _, _, _, _) => None
    case ListRules => None
    case OtherSurface => None
  }

  function Targets(plan: seq<Action>): set<Uid> {
    set i | 0 <= i < |plan| && Target(plan[i]).Some? :: Target(plan[i]).value
  }

  /** `_preview_target_ownership_id`: the single rule the plan names, else the single one it creates. */
  predicate PermitFor(p: AttendedPreview, id: Uid) {
    if Targets(p.plan) != {} then Targets(p.plan) == {id}
    else |p.change.rules.created| == 1 && p.change.rules.created[0].id == id
  }

  /** `_validate_admin_permit`: the rule occurs before or after, always in the approved unit. */
  predicate PermitHolds(p: AttendedPreview, id: Uid, hash: Hasher) {
    && p.beforeHash == hash(p.change.before)
    && (exists r :: r in p.change.before.rules + p.change.after.rules && r.id == id)
    && (forall r :: r in p.change.before.rules + p.change.after.rules && r.id == id ==> r.ou == p.change.after.ou)
  }

  ghost predicate Permitted(p: AttendedPreview, hash: Hasher) {
    exists id :: PermitFor(p, id) && PermitHolds(p, id, hash)
  }

  datatype Ending = Drifted | NothingToDo | Failed | Checked(completed: bool, observed: State)

  /** Where a suspended call stands: opening the browser for its fresh read, applying, reading
      back, or closing the browser with its outcome decided. */
  datatype Stage = Opening | Applying | ReadingBack(completed: bool) | Closing(ending: Ending)

  /** `loaded` is the registry the call read before its first await. */
  datatype Call<R> = Call(preview: AttendedPreview, offered: string, began: int, loaded: Registry<R>, stage: Stage)

  datatype Write = Write(preview: AttendedPreview, offered: string, began: int, seen: State)

  datatype Commitment<R> = Commitment(preview: AttendedPreview, observed: State, now: int, before: Registry<R>,
      after: Registry<R>)

  /** `holder` is the call that holds the run lock; `writes` and `commits` record history. */
  datatype Desk<R> = Desk(
    pending: map<string, AttendedPreview>,
    calls: map<nat, Call<R>>,
    nextCall: nat,
    holder: Option<nat>,
    store: Registry<R>,
    used: set<string>,
    writes: seq<Write>,
    commits: seq<Commitment<R>>
  )

  datatype Event =
    | Preview(runId: string, mode: Mode, plan: seq<Action>, before: State, after: State, started: int, ttl: int)
    | Cancel(runId: string)
    | Begin(runId: string, phrase: string, acknowledged: bool, now: int, readable: bool, free: bool)
    | FreshRead(call: nat, seen: Option<State>) // None: the read raised
    | Applied(call: nat, result: Option<bool>)
    | ReadBack(call: nat, seen: Option<State>)
    | Abandon(call: nat) // the awaiting task is cancelled
    | Close(call: nat, closes: bool, saves: bool)

  predicate Possible<R>(d: Desk<R>, e: Event) {
    match e
    case Preview(runId, mode, _, _, _, _, _) => runId !in d.used && mode != PlanOnly
    case FreshRead(call, _) => call in d.calls && d.calls[call].stage == Opening
    case Applied(call, _) => call in d.calls && d.calls[call].stage == Applying
    case ReadBack(call, _) => call in d.calls && d.calls[call].stage.ReadingBack?
    case Abandon(call) => call in d.calls && !d.calls[call].stage.Closing?
    case Close(call, _, _) => call in d.calls && d.calls[call].stage.Closing?
    case _ => true
  }

  /** The preview that `preview` leaves pending: only a live one that changes something. */
  ghost function Offer(e: Event, hash: Hasher): map<string, AttendedPreview>
    requires e.Preview?
  {
    var p := PreviewOf(e.runId, e.mode, e.plan, e.before, e.after, e.started, e.ttl, hash);
    if e.mode == Live && HasMutations(p.change) then map[e.runId := p] else map[]
  }

  function To<R>(d: Desk<R>, call: nat, stage: Stage): Desk<R>
    requires call in d.calls
  {
    d.(calls := d.calls[call := d.calls[call].(stage := stage)])
  }

  /** What the fresh read leads to. */
  ghost function AfterRead(p: AttendedPreview, seen: Option<State>, hash: Hasher): Stage {
    if seen.None? then Closing(Failed)
    else if hash(seen.value) != p.beforeHash then Closing(Drifted)
    else if !HasMutations(p.change) then Closing(NothingToDo)
    else if !Permitted(p, hash) then Closing(Failed)
    else Applying
  }

  /** `verified`: the driver finished and the read-back state is the expected one. */
  predicate Verified(p: AttendedPreview, ending: Ending) {
    ending.Checked? && ending.completed && ending.observed == p.change.after
  }

  ghost function Next<R>(d: Desk<R>, e: Event, hash: Hasher): Desk<R>
    requires Possible(d, e)
  {
    match e
    case Preview(runId, _, _, _, _, _, _) => d.(used := d.used + {runId}, pending := d.pending + Offer(e, hash))
    case Cancel(runId) => d.(pending := d.pending - {runId})
    case Begin(runId, phrase, acknowledged, now, readable, free) =>
      var d' := d.(pending := AfterAdmit(d.pending, runId, phrase, acknowledged, now));
      var admission := Admit(d.pending, runId, phrase, acknowledged, now);
      if !admission.Admitted? || !readable || !free || d.holder.Some? then d'
      else d'.(holder := Some(d.nextCall), nextCall := d.nextCall + 1,
               calls := d.calls[d.nextCall := Call(admission.preview, phrase, now, d.store, Opening)])
    case FreshRead(call, seen) =>
      var c := d.calls[call];
      var stage := AfterRead(c.preview, seen, hash);
      var d' := To(d, call, stage);
      if stage == Applying then d'.(writes := d.writes + [Write(c.preview, c.offered, c.began, seen.value)]) else d'
    case Applied(call, result) =>
      To(d, call, if result.Some? then ReadingBack(result.value) else Closing(Failed))
    case ReadBack(call, seen) =>
      To(d, call, if seen.Some? then Closing(Checked(d.calls[call].stage.completed, seen.value)) else Closing(Failed))
    case Abandon(call) => To(d, call, Closing(Failed))
    case Close(call, closes, saves) =>
      var c := d.calls[call];
      var d' := d.(calls := d.calls - {call}, holder := None);
      var stored := CommitPreview(c.loaded, c.preview.change, c.began);
      if Verified(c.preview, c.stage.ending) && closes && saves && stored.Ok? then
        d'.(store := stored.value,
            commits := d.commits + [Commitment(c.preview, c.stage.ending.observed, c.began, c.loaded, stored.value)])
      else d'
  }

  datatype Trace = Empty | Then(before: Trace, event: Event)

  ghost predicate Reaches<R(!new)>(d0: Desk<R>, t: Trace, d: Desk<R>, hash: Hasher)
    decreases t
  {
    match t
    case Empty => d == d0
    case Then(before, e) => exists m :: Reaches(d0, before, m, hash) && Possible(m, e) && d == Next(m, e, hash)
  }

  ghost predicate Initial<R>(d: Desk<R>) {
    d.pending == map[] && d.calls == map[] && d.holder == None && d.writes == [] && d.commits == []
  }

  /** A preview that can be executed is live, changes something, and hashes its before state. */
  ghost predicate Grounded(p: AttendedPreview, hash: Hasher) {
    && p.mode == Live && HasMutations(p.change)
    && p.phrase == Some(Phrase(p.runId)) && p.expires.Some?
    && p.beforeHash == hash(p.change.before)
  }

  ghost predicate PendingSound<R>(d: Desk<R>, hash: Hasher) {
    forall k :: k in d.pending ==> d.pending[k].runId == k && k in d.used && Grounded(d.pending[k], hash)
  }

  ghost predicate Written<R>(d: Desk<R>, runId: string) {
    exists i :: 0 <= i < |d.writes| && d.writes[i].preview.runId == runId
  }

  ghost predicate Committed<R>(d: Desk<R>, runId: string) {
    exists i :: 0 <= i < |d.commits| && d.commits[i].preview.runId == runId
  }

  predicate Admissible(p: AttendedPreview, offered: string, began: int) {
    p.phrase == Some(Strip(offered)) && p.expires.Some? && began < p.expires.value
  }

  /** Every suspended call holds the lock, so there is at most one; its approval is consumed and
      the registry it loaded is still the stored one. */
  ghost predicate CallSound<R>(d: Desk<R>, n: nat, hash: Hasher)
    requires n in d.calls
  {
    var c := d.calls[n];
    && d.holder == Some(n) && n < d.nextCall
    && c.loaded == d.store
    && Grounded(c.preview, hash) && Admissible(c.preview, c.offered, c.began)
    && c.preview.runId in d.used && c.preview.runId !in d.pending && !Committed(d, c.preview.runId)
    && (c.stage == Opening ==> !Written(d, c.preview.runId))
    && ((c.stage.Closing? && c.stage.ending.Checked?) || c.stage.ReadingBack? || c.stage == Applying ==> WrittenAs(d, c))
  }

  ghost predicate WrittenAs<R>(d: Desk<R>, c: Call<R>) {
    exists i :: 0 <= i < |d.writes| && d.writes[i].preview == c.preview
  }

  ghost predicate CallsSound<R>(d: Desk<R>, hash: Hasher) {
    && (forall n {:trigger CallSound(d, n, hash)} :: n in d.calls ==> CallSound(d, n, hash))
    && (d.holder.Some? ==> d.holder.value in d.calls)
  }

  /** A write followed a fresh read of the approved state, with the right phrase, in time, under
      a permit for a rule of the unit. */
  ghost predicate WriteSound(w: Write, hash: Hasher) {
    && Grounded(w.preview, hash) && Admissible(w.preview, w.offered, w.began)
    && hash(w.seen) == hash(w.preview.change.before)
    && Permitted(w.preview, hash)
  }

  ghost predicate WritesSound<R>(d: Desk<R>, hash: Hasher) {
    && (forall i {:trigger WriteSound(d.writes[i], hash)} {:trigger Retired(d, d.writes[i].preview.runId)} ::
      0 <= i < |d.writes| ==> WriteSound(d.writes[i], hash) && Retired(d, d.writes[i].preview.runId))
    && (forall i, j :: 0 <= i < j < |d.writes| ==> d.writes[i].preview.runId != d.writes[j].preview.runId)
  }

  ghost predicate Retired<R>(d: Desk<R>, runId: string) { runId in d.used && runId !in d.pending }

  /** A commit stores exactly the evidence of a written preview whose expected state was read back. */
  ghost predicate CommitSound<R>(d: Desk<R>, c: Commitment<R>) {
    && (exists i :: 0 <= i < |d.writes| && d.writes[i].preview == c.preview)
    && Retired(d, c.preview.runId)
    && c.observed == c.preview.change.after
    && CommitPreview(c.before, c.preview.change, c.now).Ok?
    && c.after == CommitPreview(c.before, c.preview.change, c.now).value
  }

  /** Each commit was computed from the registry its predecessor left: no update is lost. */
  ghost predicate Chained<R>(first: Registry<R>, commits: seq<Commitment<R>>, last: Registry<R>) {
    if commits == [] then last == first
    else commits[|commits| - 1].after == last && Chained(first, commits[..|commits| - 1], commits[|commits| - 1].before)
  }

  ghost predicate CommitsSound<R>(d: Desk<R>, first: Registry<R>) {
    && (forall i {:trigger CommitSound(d, d.commits[i])} :: 0 <= i < |d.commits| ==> CommitSound(d, d.commits[i]))
    && (forall i, j :: 0 <= i < j < |d.commits| ==> d.commits[i].preview.runId != d.commits[j].preview.runId)
    && Chained(first, d.commits, d.store)
  }

  ghost predicate Guarded<R>(d: Desk<R>, first: Registry<R>, hash: Hasher) {
    && PendingSound(d, hash) && CallsSound(d, hash) && WritesSound(d, hash) && CommitsSound(d, first)
  }
}
