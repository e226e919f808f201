/** The attended service's own dictionary of pending approvals, changed in place. */
module AttendedService {
  import opened Keyed
  import opened PythonText
  import opened Diff
  import opened ConsoleRuns
  import opened Baseline
  import opened BaselineRoundTrip
  import A = Attended
  import AttendedSafety

  class AttendedPolicyService {
    var runs: map<string, A.AttendedPreview>

    constructor ()
      ensures runs == map[]
    {
      runs := map[];
    }

    /** The end of `preview`: only a live preview that changes something waits for approval. */
    method Offer(p: A.AttendedPreview)
      modifies this
      ensures runs == if p.mode == Live && HasMutations(p.change) then old(runs)[p.runId := p] else old(runs)
    {
      if p.mode == Live && HasMutations(p.change) {
        runs := runs[p.runId := p];
      }
    }

    method CancelRun(runId: string)
      modifies this
      ensures runs == old(runs) - {runId}
    {
      runs := runs - {runId};
    }

    /** `execute` up to its first await: a missing, expired or mistyped approval is refused, and a
        mistyped one stays. */
    method ExecuteUntilAwait(runId: string, phrase: string, acknowledged: bool, now: int) returns (r: A.Admission)
      modifies this
      ensures r == A.Admit(old(runs), runId, phrase, acknowledged, now)
      ensures runs == A.AfterAdmit(old(runs), runId, phrase, acknowledged, now)
    {
      if runId !in runs {
        assert runs - {runId} == runs;
        return A.Missing;
      }
      var preview := runs[runId];
      if preview.expires == None || now >= preview.expires.value {
        runs := runs - {runId};
        return A.Expired;
      }
      if !acknowledged || preview.phrase == None || Strip(phrase) != preview.phrase.value {
        return A.Mistyped;
      }
      runs := runs - {runId};
      return A.Admitted(preview);
    }
  }

  /** The change set of a preview is the exact difference of its two states. */
  ghost predicate Exact(p: A.AttendedPreview) {
    p.change == CalculateChangeSet(p.change.before, p.change.after)
  }

  /** Every preview the service holds, works on or has committed satisfies `good`. */
  ghost predicate AllPreviews<R>(d: A.Desk<R>, good: A.AttendedPreview -> bool) {
    && (forall k :: k in d.pending ==> good(d.pending[k]))
    && (forall n :: n in d.calls ==> good(d.calls[n].preview))
    && (forall i :: 0 <= i < |d.commits| ==> good(d.commits[i].preview))
  }

  /** No event alters a preview. */
  lemma PreviewsAreKept<R>(d: A.Desk<R>, e: A.Event, hash: A.Hasher, good: A.AttendedPreview -> bool)
    requires A.Possible(d, e) && AllPreviews(d, good)
    requires e.Preview? ==> forall k :: k in A.Offer(e, hash) ==> good(A.Offer(e, hash)[k])
    ensures AllPreviews(A.Next(d, e, hash), good)
  {
  }

  lemma OfferIsExact(e: A.Event, hash: A.Hasher)
    requires e.Preview?
    ensures forall k :: k in A.Offer(e, hash) ==> Exact(A.Offer(e, hash)[k])
  {
  }

  lemma {:induction false} PreviewsAreExact<R(!new)>(d0: A.Desk<R>, t: A.Trace, d: A.Desk<R>, hash: A.Hasher,
      exact: A.AttendedPreview -> bool)
    requires A.Initial(d0) && A.Reaches(d0, t, d, hash) && forall p :: exact(p) == Exact(p)
    ensures AllPreviews(d, exact)
    decreases t
  {
    match t
    case Empty =>
    case Then(before, e) =>
      var m :| A.Reaches(d0, before, m, hash) && A.Possible(m, e) && d == A.Next(m, e, hash);
      PreviewsAreExact(d0, before, m, hash, exact);
      if e.Preview? { OfferIsExact(e, hash); }
      PreviewsAreKept(m, e, hash, exact);
  }

  /** In every reachable state, each commit whose registry described the unit before leaves a
      registry that regenerates exactly the approved rules, with every other unit's records kept. */
  lemma CommittedRunIsRemembered<R(!new)>(d0: A.Desk<R>, t: A.Trace, d: A.Desk<R>, hash: A.Hasher, i: nat)
    requires A.Initial(d0) && A.Reaches(d0, t, d, hash) && i < |d.commits|
    requires Ending(d.commits[i].before, d.commits[i].preview.change.before, d.commits[i].preview.change.after)
    ensures var c := d.commits[i];
      var s := Snapshot(c.after, c.observed.ou);
      s.Ok? && s.value.rules == c.observed.rules && OtherUnitsKept(c.before, c.after, c.observed.ou)
  {
    AttendedSafety.EveryReachableDeskIsGuarded(d0, t, d, hash);
    var c := d.commits[i];
    assert A.CommitSound(d, c);
    var exact := p => Exact(p);
    PreviewsAreExact(d0, t, d, hash, exact);
    assert exact(c.preview);
    CommitAndSnapshot(c.before, c.preview.change.before, c.preview.change.after, c.now);
  }
}
