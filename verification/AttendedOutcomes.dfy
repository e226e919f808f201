/** What an attended run does when nothing goes wrong, and how long its approval is good. */
module AttendedOutcomes {
  import opened Keyed
  import opened PythonText
  import opened Resources
  import opened Diff
  import opened ConsoleRuns
  import opened Approvals
  import opened Baseline
  import A = Attended

  /** The approval of a live preview can be used from its start until the lifetime is over, by its
      phrase; a dry run's never. */
  lemma PreviewIsGoodFor(runId: string, plan: seq<Action>, before: State, after: State, started: int, ttl: int, hash: A.Hasher,
      phrase: string, acknowledged: bool, now: int)
    ensures var p := A.PreviewOf(runId, Live, plan, before, after, started, ttl, hash);
      A.Admit(map[runId := p], runId, phrase, acknowledged, now) ==
        if now - started >= ttl then A.Expired
        else if acknowledged && Strip(phrase) == Phrase(runId) then A.Admitted(p)
        else A.Mistyped
    ensures var p := A.PreviewOf(runId, DryRun, plan, before, after, started, ttl, hash);
      A.Admit(map[runId := p], runId, phrase, acknowledged, now) == A.Expired
  {
  }

  /** An attempt drops a missing or expired approval and one it uses, and keeps one it mistyped. */
  lemma AttemptKeeps(pending: map<string, A.AttendedPreview>, runId: string, phrase: string, acknowledged: bool, now: int)
    ensures var after := A.AfterAdmit(pending, runId, phrase, acknowledged, now);
      && after - {runId} == pending - {runId}
      && (runId in after <==>
          && runId in pending && pending[runId].expires.Some? && now < pending[runId].expires.value
          && !(acknowledged && pending[runId].phrase == Some(Strip(phrase))))
  {
  }

  /** Everything of the desk but its calls and the lock is as it was. */
  ghost predicate OnlyCalls<R>(d: A.Desk<R>, d': A.Desk<R>) {
    d'.store == d.store && d'.writes == d.writes && d'.commits == d.commits && d'.used == d.used
  }

  /** An attempt begins a call exactly for an approval that is pending, in time and offered its
      phrase, while the registry can be read and nobody has the lock. */
  lemma BeginOutcome<R>(d: A.Desk<R>, runId: string, phrase: string, acknowledged: bool, now: int, readable: bool, free: bool, hash: A.Hasher)
    requires d.nextCall !in d.calls
    ensures var d' := A.Next(d, A.Begin(runId, phrase, acknowledged, now, readable, free), hash);
      && OnlyCalls(d, d') && d'.calls - {d.nextCall} == d.calls
      && (d.nextCall in d'.calls <==>
          && runId in d.pending && d.pending[runId].expires.Some? && now < d.pending[runId].expires.value
          && acknowledged && d.pending[runId].phrase == Some(Strip(phrase)) && readable && free && d.holder == None)
      && (d.nextCall !in d'.calls ==> d'.holder == d.holder)
      && (d.nextCall in d'.calls ==>
          && d'.holder == Some(d.nextCall) && d'.nextCall > d.nextCall
          && var c := d'.calls[d.nextCall];
          && c.preview == d.pending[runId] && c.offered == phrase && c.began == now && c.loaded == d.store && c.stage == A.Opening)
  {
  }

  /** A write starts exactly after a fresh read that hashes like the previewed state, for a change
      that is permitted; a read that hashes otherwise is reported as drift, and nothing is written. */
  lemma FreshReadOutcome<R>(d: A.Desk<R>, n: nat, seen: Option<State>, hash: A.Hasher)
    requires A.Possible(d, A.FreshRead(n, seen))
    ensures var (c, d') := (d.calls[n], A.Next(d, A.FreshRead(n, seen), hash));
      && n in d'.calls && d'.calls[n].preview == c.preview && d'.calls - {n} == d.calls - {n}
      && d'.store == d.store && d'.commits == d.commits && d'.holder == d.holder && d'.pending == d.pending
      && (d'.calls[n].stage == A.Applying <==>
          seen.Some? && hash(seen.value) == c.preview.beforeHash && HasMutations(c.preview.change) && A.Permitted(c.preview, hash))
      && (d'.calls[n].stage == A.Closing(A.Drifted) <==> seen.Some? && hash(seen.value) != c.preview.beforeHash)
      && (d'.calls[n].stage == A.Applying ==> d'.writes == d.writes + [A.Write(c.preview, c.offered, c.began, seen.value)])
      && (d'.calls[n].stage != A.Applying ==> d'.writes == d.writes && d'.calls[n].stage.Closing? && !d'.calls[n].stage.ending.Checked?)
  {
  }

  /** Evidence is stored exactly when the driver finished, the approved state was read back, the
      browser closed cleanly and the registry could be saved; the lock is free in any case. */
  lemma CloseOutcome<R>(d: A.Desk<R>, n: nat, closes: bool, saves: bool, hash: A.Hasher)
    requires A.Possible(d, A.Close(n, closes, saves))
    ensures var (c, d') := (d.calls[n], A.Next(d, A.Close(n, closes, saves), hash));
      var stored := CommitPreview(c.loaded, c.preview.change, c.began);
      && d'.holder == None && d'.calls == d.calls - {n} && d'.writes == d.writes && d'.pending == d.pending
      && (|d'.commits| > |d.commits| <==>
          && c.stage.ending.Checked? && c.stage.ending.completed && c.stage.ending.observed == c.preview.change.after
          && closes && saves && stored.Ok?)
      && (|d'.commits| > |d.commits| ==> d'.store == stored.value)
      && (|d'.commits| <= |d.commits| ==> d'.store == d.store && d'.commits == d.commits)
  {
  }

  /** The rule a plan is about. */
  ghost predicate Names(a: Action, id: Uid) {
    match a
    case AddEntries(_, target, _, _) => target == Some(id)
    case RemoveEntries(_, target) => target == id
    case SetNotice(target, _) => target == id
    case UpdateRule(target, _, _, _, _) => target == id
    case RemoveRule(target, _) => target == id
    case SetEnabled(target, _) => target == id
    case CreateRule(_, _, _, _, _) => false
    case ListRules => false
    case OtherSurface => false
  }

  lemma NamesIsTarget(a: Action, id: Uid)
    ensures Names(a, id) <==> A.Target(a) == Some(id)
  {
  }

  ghost predicate NamedIn(plan: seq<Action>, id: Uid) { exists i :: 0 <= i < |plan| && Names(plan[i], id) }

  lemma TargetsAreNamed(plan: seq<Action>, id: Uid)
    ensures id in A.Targets(plan) <==> NamedIn(plan, id)
  {
    forall i | 0 <= i < |plan| ensures Names(plan[i], id) <==> A.Target(plan[i]) == Some(id) { NamesIsTarget(plan[i], id); }
    if id in A.Targets(plan) {
      var i :| 0 <= i < |plan| && A.Target(plan[i]).Some? && A.Target(plan[i]).value == id;
      assert Names(plan[i], id);
    }
  }

  /** A permit is for one rule: the one the plan's actions name, or else the one it creates; the rule
      is there before or after, and always in the approved unit. */
  lemma PermittedIs(p: A.AttendedPreview, id: Uid, hash: A.Hasher)
    ensures A.PermitFor(p, id) && A.PermitHolds(p, id, hash) <==>
      && p.beforeHash == hash(p.change.before)
      && (if exists k :: NamedIn(p.plan, k) then NamedIn(p.plan, id) && forall k :: NamedIn(p.plan, k) ==> k == id
          else |p.change.rules.created| == 1 && p.change.rules.created[0].id == id)
      && (exists r :: r in p.change.before.rules + p.change.after.rules && r.id == id)
      && forall r :: r in p.change.before.rules + p.change.after.rules && r.id == id ==> r.ou == p.change.after.ou
  {
    forall k ensures k in A.Targets(p.plan) <==> NamedIn(p.plan, k) { TargetsAreNamed(p.plan, k); }
    assert A.Targets(p.plan) == {id} <==> id in A.Targets(p.plan) && forall k :: k in A.Targets(p.plan) ==> k == id;
    if k :| NamedIn(p.plan, k) { assert k in A.Targets(p.plan); }
  }

  /** The five steps of an attended run. */
  ghost predicate RunsThrough<R>(d: A.Desk<R>, d1: A.Desk<R>, d2: A.Desk<R>, d3: A.Desk<R>, d4: A.Desk<R>, d5: A.Desk<R>,
      runId: string, phrase: string, now: int, seen: State, observed: State, hash: A.Hasher) {
    var n := d.nextCall;
    && d1 == A.Next(d, A.Begin(runId, phrase, true, now, true, true), hash)
    && A.Possible(d1, A.FreshRead(n, Some(seen))) && d2 == A.Next(d1, A.FreshRead(n, Some(seen)), hash)
    && A.Possible(d2, A.Applied(n, Some(true))) && d3 == A.Next(d2, A.Applied(n, Some(true)), hash)
    && A.Possible(d3, A.ReadBack(n, Some(observed))) && d4 == A.Next(d3, A.ReadBack(n, Some(observed)), hash)
    && A.Possible(d4, A.Close(n, true, true)) && d5 == A.Next(d4, A.Close(n, true, true), hash)
  }

  /** The desk while the run is under way: its approval is used and it holds the lock. */
  function Under<R>(d: A.Desk<R>, runId: string, c: A.Call<R>, writes: seq<A.Write>): A.Desk<R> {
    d.(pending := d.pending - {runId}, holder := Some(d.nextCall), nextCall := d.nextCall + 1, calls := d.calls[d.nextCall := c], writes := writes)
  }

  lemma BeginsRun<R>(d: A.Desk<R>, runId: string, phrase: string, now: int, hash: A.Hasher)
    requires runId in d.pending && d.holder == None
    requires var p := d.pending[runId]; p.expires.Some? && now < p.expires.value && p.phrase == Some(Strip(phrase))
    ensures A.Next(d, A.Begin(runId, phrase, true, now, true, true), hash)
         == Under(d, runId, A.Call(d.pending[runId], phrase, now, d.store, A.Opening), d.writes)
  {
  }

  lemma StagesRun<R>(d: A.Desk<R>, runId: string, c: A.Call<R>, writes: seq<A.Write>, stage: A.Stage)
    ensures A.To(Under(d, runId, c, writes), d.nextCall, stage) == Under(d, runId, c.(stage := stage), writes)
  {
    assert d.calls[d.nextCall := c][d.nextCall := c.(stage := stage)] == d.calls[d.nextCall := c.(stage := stage)];
  }

  /** A live preview that is approved in time, read unchanged, permitted and applied goes through to
      its write, and is committed exactly when the expected state was read back. */
  lemma ApprovedRunGoesThrough<R>(d: A.Desk<R>, runId: string, phrase: string, now: int, seen: State, observed: State, hash: A.Hasher)
    returns (d1: A.Desk<R>, d2: A.Desk<R>, d3: A.Desk<R>, d4: A.Desk<R>, d5: A.Desk<R>)
    requires runId in d.pending && d.holder == None && d.nextCall !in d.calls
    requires var p := d.pending[runId];
      && p.expires.Some? && now < p.expires.value && p.phrase == Some(Strip(phrase))
      && hash(seen) == p.beforeHash && HasMutations(p.change) && A.Permitted(p, hash)
      && CommitPreview(d.store, p.change, now).Ok?
    ensures RunsThrough(d, d1, d2, d3, d4, d5, runId, phrase, now, seen, observed, hash)
    ensures d5 == Ended(d, runId, phrase, now, seen, observed)
  {
    var p := d.pending[runId];
    var c := A.Call(p, phrase, now, d.store, A.Opening);
    var writes := d.writes + [A.Write(p, phrase, now, seen)];
    BeginsRun(d, runId, phrase, now, hash);
    StagesRun(d, runId, c, d.writes, A.Applying);
    d1 := Under(d, runId, c, d.writes);
    d2 := Under(d, runId, c.(stage := A.Applying), writes);
    StagesRun(d, runId, c.(stage := A.Applying), writes, A.ReadingBack(true));
    d3 := Under(d, runId, c.(stage := A.ReadingBack(true)), writes);
    StagesRun(d, runId, c.(stage := A.ReadingBack(true)), writes, A.Closing(A.Checked(true, observed)));
    d4 := Under(d, runId, c.(stage := A.Closing(A.Checked(true, observed))), writes);
    d5 := A.Next(d4, A.Close(d.nextCall, true, true), hash);
    Closes(d, runId, phrase, now, seen, observed, d4, hash);
  }

  /** The desk after the run: the approval is gone, the lock free, the write recorded, and evidence
      stored if the expected state was read back. */
  ghost function Ended<R>(d: A.Desk<R>, runId: string, phrase: string, now: int, seen: State, observed: State): A.Desk<R>
    requires runId in d.pending && CommitPreview(d.store, d.pending[runId].change, now).Ok?
  {
    var (p, stored) := (d.pending[runId], CommitPreview(d.store, d.pending[runId].change, now).value);
    var idle := d.(pending := d.pending - {runId}, nextCall := d.nextCall + 1, writes := d.writes + [A.Write(p, phrase, now, seen)]);
    if observed == p.change.after then idle.(store := stored, commits := d.commits + [A.Commitment(p, observed, now, d.store, stored)])
    else idle
  }

  lemma Closes<R>(d: A.Desk<R>, runId: string, phrase: string, now: int, seen: State, observed: State, d4: A.Desk<R>, hash: A.Hasher)
    requires runId in d.pending && d.holder == None && d.nextCall !in d.calls && CommitPreview(d.store, d.pending[runId].change, now).Ok?
    requires d4 == Under(d, runId, A.Call(d.pending[runId], phrase, now, d.store, A.Closing(A.Checked(true, observed))),
        d.writes + [A.Write(d.pending[runId], phrase, now, seen)])
    ensures A.Next(d4, A.Close(d.nextCall, true, true), hash) == Ended(d, runId, phrase, now, seen, observed)
  {
    assert d4.calls - {d.nextCall} == d.calls;
  }
}
