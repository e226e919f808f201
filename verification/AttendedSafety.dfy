/** Every event keeps the attended service guarded, so every reachable state is. */
module AttendedSafety {
  import opened Keyed
  import opened Resources
  import opened Ownership
  import opened Baseline
  import opened Attended

  lemma OfferGuarded<R>(d: Desk<R>, runId: string, offer: map<string, AttendedPreview>, first: Registry<R>, hash: Hasher)
    requires Guarded(d, first, hash) && runId !in d.used
    requires forall k :: k in offer ==> k == runId && offer[k].runId == runId && Grounded(offer[k], hash)
    ensures Guarded(d.(used := d.used + {runId}, pending := d.pending + offer), first, hash)
  {
    var d' := d.(used := d.used + {runId}, pending := d.pending + offer);
    forall n | n in d'.calls ensures CallSound(d', n, hash) { assert CallSound(d, n, hash); }
    forall i | 0 <= i < |d'.commits| ensures CommitSound(d', d'.commits[i]) { assert CommitSound(d, d.commits[i]); }
    forall i | 0 <= i < |d'.writes| ensures Retired(d', d'.writes[i].preview.runId) { assert Retired(d,
        d.writes[i].preview.runId); }
  }

  lemma OfferSound(e: Event, hash: Hasher)
    requires e.Preview?
    ensures forall k :: k in Offer(e, hash) ==> k == e.runId && Offer(e, hash)[k].runId == k && Grounded(Offer(e, hash)[k], hash)
  {
  }

  lemma PreviewGuarded<R>(d: Desk<R>, e: Event, first: Registry<R>, hash: Hasher)
    requires Possible(d, e) && Guarded(d, first, hash) && e.Preview?
    ensures Guarded(Next(d, e, hash), first, hash)
  {
    OfferSound(e, hash);
    OfferGuarded(d, e.runId, Offer(e, hash), first, hash);
  }

  /** Dropping a pending preview harms nothing. */
  lemma DropGuarded<R>(d: Desk<R>, runId: string, first: Registry<R>, hash: Hasher)
    requires Guarded(d, first, hash)
    ensures Guarded(d.(pending := d.pending - {runId}), first, hash)
  {
    var d' := d.(pending := d.pending - {runId});
    forall n | n in d'.calls ensures CallSound(d', n, hash) { assert CallSound(d, n, hash); }
    forall i | 0 <= i < |d'.commits| ensures CommitSound(d', d'.commits[i]) { assert CommitSound(d, d.commits[i]); }
    forall i | 0 <= i < |d'.writes| ensures Retired(d', d'.writes[i].preview.runId) { assert Retired(d,
        d.writes[i].preview.runId); }
  }

  /** A pending run was neither written nor committed. */
  lemma PendingIsUnused<R>(d: Desk<R>, runId: string, first: Registry<R>, hash: Hasher)
    requires Guarded(d, first, hash) && runId in d.pending
    ensures !Written(d, runId) && !Committed(d, runId)
  {
    assert forall i :: 0 <= i < |d.writes| ==> Retired(d, d.writes[i].preview.runId);
    assert forall i :: 0 <= i < |d.commits| ==> CommitSound(d, d.commits[i]);
  }

  lemma NobodyWaits<R>(d: Desk<R>, hash: Hasher)
    requires CallsSound(d, hash)
    ensures d.holder.None? ==> d.calls == map[]
  {
    if d.calls != map[] {
      assert d.calls.Keys != {};
      var n :| n in d.calls;
      assert CallSound(d, n, hash);
    }
  }

  lemma LockGuarded<R>(d: Desk<R>, runId: string, c: Call<R>, first: Registry<R>, hash: Hasher)
    requires Guarded(d, first, hash) && d.holder == None && runId in d.pending
    requires c.preview == d.pending[runId] && c.loaded == d.store && c.stage == Opening
    requires Admissible(c.preview, c.offered, c.began)
    ensures Guarded(d.(pending := d.pending - {runId}, holder := Some(d.nextCall), nextCall := d.nextCall + 1,
        calls := d.calls[d.nextCall := c]), first, hash)
  {
    var m := d.(pending := d.pending - {runId});
    var d' := m.(holder := Some(d.nextCall), nextCall := d.nextCall + 1, calls := d.calls[d.nextCall := c]);
    DropGuarded(d, runId, first, hash);
    PendingIsUnused(d, runId, first, hash);
    NobodyWaits(d, hash);
    forall i | 0 <= i < |d'.commits| ensures CommitSound(d', d'.commits[i]) { assert CommitSound(m, m.commits[i]); }
    forall i | 0 <= i < |d'.writes| ensures Retired(d', d'.writes[i].preview.runId) { assert Retired(m,
        m.writes[i].preview.runId); }
    assert CallSound(d', d.nextCall, hash);
  }

  /** The call an admitted attempt starts, once the registry is loaded and the lock taken. */
  ghost predicate Begun<R>(d: Desk<R>, d': Desk<R>, runId: string, c: Call<R>) {
    && runId in d.pending && d.holder == None
    && c.preview == d.pending[runId] && c.loaded == d.store && c.stage == Opening && Admissible(c.preview, c.offered, c.began)
    && d' == d.(pending := d.pending - {runId}, holder := Some(d.nextCall), nextCall := d.nextCall + 1,
        calls := d.calls[d.nextCall := c])
  }

  lemma BeginShape<R>(d: Desk<R>, e: Event, hash: Hasher)
    requires Possible(d, e) && e.Begin?
    ensures var d' := Next(d, e, hash);
      || d' == d
      || d' == d.(pending := d.pending - {e.runId})
      || (e.runId in d.pending && Begun(d, d', e.runId, Call(d.pending[e.runId], e.phrase, e.now, d.store, Opening)))
  {
  }

  lemma BegunGuarded<R>(d: Desk<R>, d': Desk<R>, runId: string, c: Call<R>, first: Registry<R>, hash: Hasher)
    requires Guarded(d, first, hash)
    requires d' == d || d' == d.(pending := d.pending - {runId}) || Begun(d, d', runId, c)
    ensures Guarded(d', first, hash)
  {
    DropGuarded(d, runId, first, hash);
    if Begun(d, d', runId, c) {
      LockGuarded(d, runId, c, first, hash);
    }
  }

  lemma BeginGuarded<R>(d: Desk<R>, e: Event, first: Registry<R>, hash: Hasher)
    requires Possible(d, e) && Guarded(d, first, hash) && e.Begin?
    ensures Guarded(Next(d, e, hash), first, hash)
  {
    BeginShape(d, e, hash);
    if e.runId in d.pending {
      BegunGuarded(d, Next(d, e, hash), e.runId, Call(d.pending[e.runId], e.phrase, e.now, d.store, Opening), first, hash);
    } else {
      DropGuarded(d, e.runId, first, hash);
    }
  }

  /** Moving a call to a stage that promises no more than the call has done. */
  lemma StageGuarded<R>(d: Desk<R>, call: nat, stage: Stage, first: Registry<R>, hash: Hasher)
    requires Guarded(d, first, hash) && call in d.calls && stage != Opening
    requires (stage.Closing? && stage.ending.Checked?) || stage.ReadingBack? || stage == Applying ==> WrittenAs(d, d.calls[call])
    ensures Guarded(To(d, call, stage), first, hash)
  {
    var d' := To(d, call, stage);
    forall n | n in d'.calls ensures CallSound(d', n, hash) { assert CallSound(d, n, hash); }
    forall i | 0 <= i < |d'.commits| ensures CommitSound(d', d'.commits[i]) { assert CommitSound(d, d.commits[i]); }
    forall i | 0 <= i < |d'.writes| ensures Retired(d', d'.writes[i].preview.runId) { assert Retired(d,
        d.writes[i].preview.runId); }
  }

  /** Recording a sound write of a run not written before. */
  lemma WritesGrow<R>(d: Desk<R>, d': Desk<R>, w: Write, hash: Hasher)
    requires WritesSound(d, hash) && d'.writes == d.writes + [w] && d'.used == d.used && d'.pending == d.pending
    requires WriteSound(w, hash) && Retired(d, w.preview.runId) && !Written(d, w.preview.runId)
    ensures WritesSound(d', hash)
  {
  }

  lemma CommitsStay<R>(d: Desk<R>, d': Desk<R>, w: Write, first: Registry<R>)
    requires CommitsSound(d, first) && d'.writes == d.writes + [w] && d'.used == d.used && d'.pending == d.pending
    requires d'.commits == d.commits && d'.store == d.store
    ensures CommitsSound(d', first)
  {
    forall i | 0 <= i < |d'.commits| ensures CommitSound(d', d'.commits[i]) {
      assert CommitSound(d, d.commits[i]);
      var j :| 0 <= j < |d.writes| && d.writes[j].preview == d.commits[i].preview;
      assert d'.writes[j].preview == d.commits[i].preview;
    }
  }

  /** Starting the one write of an opening call after a matching read. */
  lemma WriteGuarded<R>(d: Desk<R>, call: nat, seen: State, first: Registry<R>, hash: Hasher)
    requires Guarded(d, first, hash) && call in d.calls && d.calls[call].stage == Opening
    requires AfterRead(d.calls[call].preview, Some(seen), hash) == Applying
    ensures var c := d.calls[call];
      Guarded(To(d, call, Applying).(writes := d.writes + [Write(c.preview, c.offered, c.began, seen)]), first, hash)
  {
    var c := d.calls[call];
    var w := Write(c.preview, c.offered, c.began, seen);
    var d' := To(d, call, Applying).(writes := d.writes + [w]);
    assert CallSound(d, call, hash);
    WritesGrow(d, d', w, hash);
    CommitsStay(d, d', w, first);
    forall n | n in d'.calls ensures CallSound(d', n, hash) {
      assert CallSound(d, n, hash);
      assert d'.writes[|d.writes|].preview == c.preview;
    }
  }

  /** A call that ends without committing gives the lock back. */
  lemma EndGuarded<R>(d: Desk<R>, call: nat, first: Registry<R>, hash: Hasher)
    requires Guarded(d, first, hash) && call in d.calls
    ensures Guarded(d.(calls := d.calls - {call}, holder := None), first, hash)
    ensures d.calls - {call} == map[]
  {
    var d' := d.(calls := d.calls - {call}, holder := None);
    assert forall n :: n in d.calls ==> CallSound(d, n, hash);
    assert d'.calls == map[];
    forall i | 0 <= i < |d'.commits| ensures CommitSound(d', d'.commits[i]) { assert CommitSound(d, d.commits[i]); }
    forall i | 0 <= i < |d'.writes| ensures Retired(d', d'.writes[i].preview.runId) { assert Retired(d,
        d.writes[i].preview.runId); }
  }

  lemma CommitGuarded<R>(d: Desk<R>, call: nat, first: Registry<R>, hash: Hasher)
    requires Guarded(d, first, hash) && call in d.calls && d.calls[call].stage.Closing?
    requires var c := d.calls[call]; Verified(c.preview, c.stage.ending) && CommitPreview(c.loaded, c.preview.change, c.began).Ok?
    ensures var c := d.calls[call];
      var stored := CommitPreview(c.loaded, c.preview.change, c.began).value;
      Guarded(d.(calls := d.calls - {call}, holder := None, store := stored,
                 commits := d.commits + [Commitment(c.preview, c.stage.ending.observed, c.began, c.loaded, stored)]), first, hash)
  {
    var c := d.calls[call];
    var stored := CommitPreview(c.loaded, c.preview.change, c.began).value;
    var x := Commitment(c.preview, c.stage.ending.observed, c.began, c.loaded, stored);
    var m := d.(calls := d.calls - {call}, holder := None);
    var d' := m.(store := stored, commits := d.commits + [x]);
    assert CallSound(d, call, hash);
    EndGuarded(d, call, first, hash);
    assert d'.commits[..|d.commits|] == d.commits;
    assert CommitSound(d', x);
    forall i | 0 <= i < |d'.commits| ensures CommitSound(d', d'.commits[i]) {
      if i < |d.commits| { assert CommitSound(d, d.commits[i]); }
    }
    assert WritesSound(m, hash);
    forall i | 0 <= i < |d'.writes| ensures Retired(d', d'.writes[i].preview.runId) { assert Retired(m,
        m.writes[i].preview.runId); }
    assert CommitsSound(d', first);
  }

  lemma NextGuarded<R>(d: Desk<R>, e: Event, first: Registry<R>, hash: Hasher)
    requires Possible(d, e) && Guarded(d, first, hash)
    ensures Guarded(Next(d, e, hash), first, hash)
  {
    match e
    case Preview(_, _, _, _, _, _, _) => PreviewGuarded(d, e, first, hash);
    case Cancel(runId) => DropGuarded(d, runId, first, hash);
    case Begin(_, _, _, _, _, _) => BeginGuarded(d, e, first, hash);
    case FreshRead(call, seen) =>
      var stage := AfterRead(d.calls[call].preview, seen, hash);
      if stage == Applying {
        WriteGuarded(d, call, seen.value, first, hash);
      } else {
        StageGuarded(d, call, stage, first, hash);
      }
    case Applied(call, result) =>
      assert CallSound(d, call, hash);
      StageGuarded(d, call, if result.Some? then ReadingBack(result.value) else Closing(Failed), first, hash);
    case ReadBack(call, seen) =>
      assert CallSound(d, call, hash);
      StageGuarded(d, call, if seen.Some? then Closing(Checked(d.calls[call].stage.completed,
          seen.value)) else Closing(Failed), first, hash);
    case Abandon(call) => StageGuarded(d, call, Closing(Failed), first, hash);
    case Close(call, closes, saves) =>
      var c := d.calls[call];
      if Verified(c.preview, c.stage.ending) && closes && saves && CommitPreview(c.loaded, c.preview.change, c.began).Ok? {
        CommitGuarded(d, call, first, hash);
      } else {
        EndGuarded(d, call, first, hash);
      }
  }

  /** Over every interleaving: each previewed run is written at most once, only after a fresh
      read with the approved hash, with the phrase, in time and under a permit; its evidence is
      committed at most once, only when the expected state was read back; and every commit
      builds on the one before, so none is lost. */
  lemma {:induction false} EveryReachableDeskIsGuarded<R(!new)>(d0: Desk<R>, t: Trace, d: Desk<R>, hash: Hasher)
    requires Initial(d0) && Reaches(d0, t, d, hash)
    ensures Guarded(d, d0.store, hash)
    decreases t
  {
    match t
    case Empty =>
    case Then(before, e) =>
      var m :| Reaches(d0, before, m, hash) && Possible(m, e) && d == Next(m, e, hash);
      EveryReachableDeskIsGuarded(d0, before, m, hash);
      NextGuarded(m, e, d0.store, hash);
  }

  /** The branch that reports "no change" cannot be reached. */
  lemma NothingToDoIsUnreachable<R>(d: Desk<R>, call: nat, seen: Option<State>, first: Registry<R>, hash: Hasher)
    requires Guarded(d, first, hash) && call in d.calls
    ensures AfterRead(d.calls[call].preview, seen, hash) != Closing(NothingToDo)
  {
    assert CallSound(d, call, hash);
  }
}
