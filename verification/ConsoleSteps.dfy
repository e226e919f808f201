/** What one event can change: the stored runs, one entry of the run dictionary. */
module ConsoleSteps {
  import opened Ordering
  import opened ConsoleRuns
  import opened ConsoleJournal
  import opened ConsoleProtocol
  import C = Coordinator

  lemma NewerFirstIsTotalPreorder()
    ensures TotalPreorder(C.NewerFirst)
  {
  }

  lemma {:induction false} ValuesMembers(runs: map<string, ConsoleRun>, order: seq<string>)
    ensures forall r :: r in C.Values(runs, order) ==> exists k :: k in order && k in runs && runs[k] == r
    ensures forall k :: k in order && k in runs ==> runs[k] in C.Values(runs, order)
  {
    if order != [] {
      var head := order[..|order| - 1];
      ValuesMembers(runs, head);
      assert order == head + [order[|order| - 1]];
    }
  }

  lemma ListedMembers(runs: map<string, ConsoleRun>, order: seq<string>)
    ensures forall r :: r in C.Listed(runs, order) ==> exists k :: k in order && k in runs && runs[k] == r
    ensures forall k :: k in order && k in runs ==> runs[k] in C.Listed(runs, order)
  {
    ValuesMembers(runs, order);
    NewerFirstIsTotalPreorder();
    var v, l := C.Values(runs, order), C.Listed(runs, order);
    SortFacts(v, C.NewerFirst);
    assert forall r :: r in v <==> r in multiset(v);
    assert forall r :: r in l <==> r in multiset(l);
  }

  /** A snapshot on disk after a save is an old one or shows a current run. */
  lemma WriteMembers(j: Journal, runs: map<string, ConsoleRun>, order: seq<string>, works: bool)
    requires NoneKnown(j.unknown)
    ensures var j' := Write(j, C.Listed(runs, order), works);
      j'.unknown == j.unknown && j'.writable == j.writable
      && (!j.writable || !works ==> j' == j)
      && (j.writable && works ==> forall i :: 0 <= i < |j'.disk| && j'.disk[i].Known? ==> Shows(runs, j'.disk[i].run))
  {
    if j.writable && works {
      SavedShow(j, runs, order);
      assert AllShow(Write(j, C.Listed(runs, order), works).disk, runs);
    }
  }

  ghost predicate AllShow(disk: seq<Item>, runs: map<string, ConsoleRun>) {
    forall i :: 0 <= i < |disk| && disk[i].Known? ==> Shows(runs, disk[i].run)
  }

  lemma SavedAreListed(listed: seq<ConsoleRun>)
    ensures forall r :: r in Kept(listed, false) + Newest(Kept(listed, true)) ==> r in listed
  {
    KeptMembers(listed, false);
    KeptMembers(listed, true);
  }

  lemma SnapshotsShow(unknown: seq<Item>, saved: seq<ConsoleRun>, runs: map<string, ConsoleRun>)
    requires NoneKnown(unknown) && forall r :: r in saved ==> Shows(runs, r)
    ensures AllShow(unknown + Snapshots(saved), runs)
  {
    forall i | 0 <= i < |saved| ensures Shows(runs, Snapshots(saved)[i].run) { assert saved[i] in saved; }
  }

  lemma SavedShow(j: Journal, runs: map<string, ConsoleRun>, order: seq<string>)
    requires NoneKnown(j.unknown)
    ensures var listed := C.Listed(runs, order);
      AllShow(j.unknown + Snapshots(Kept(listed, false) + Newest(Kept(listed, true))), runs)
  {
    var listed := C.Listed(runs, order);
    ListedMembers(runs, order);
    assert forall r :: r in listed ==> Shows(runs, r);
    SavedAreListed(listed);
    SnapshotsShow(j.unknown, Kept(listed, false) + Newest(Kept(listed, true)), runs);
  }

  ghost predicate Shows(runs: map<string, ConsoleRun>, r: ConsoleRun) {
    exists k :: k in runs && runs[k] == r
  }

  lemma PutFacts(c: C.Console, r: ConsoleRun, works: bool)
    requires NoneKnown(c.journal.unknown)
    ensures var c' := C.Put(c, r, works);
      && c' == c.(runs := c.runs[r.id := r], order := c'.order, journal := c'.journal)
      && Put(c, c', r)
      && (!c.journal.writable || !works ==> c'.journal == c.journal)
      && (c.journal.writable && works ==> DiskShows(c'))
  {
    var c' := C.Put(c, r, works);
    WriteMembers(c.journal, c'.runs, c'.order, works);
  }

  ghost predicate DiskShows(c: C.Console) {
    forall i :: 0 <= i < |c.journal.disk| && c.journal.disk[i].Known? ==> Shows(c.runs, c.journal.disk[i].run)
  }

  /** `c'` is `c` with run `r` stored and the journal saved, up to pending approvals. */
  ghost predicate Put(c: C.Console, c': C.Console, r: ConsoleRun) {
    && c'.runs == c.runs[r.id := r]
    && c'.order == (if r.id in c.runs then c.order else c.order + [r.id])
    && c'.journal == c.journal.(disk := c'.journal.disk)
    && (c'.journal.disk == c.journal.disk || DiskShows(c'))
  }

  lemma PutKeepsRuns(s: System, s': System, r: ConsoleRun)
    requires Bookkept(s) && RunsConsistent(s)
    requires Put(s.console, s'.console, r)
    requires s.used <= s'.used && r.id in s'.used && Consistent(r)
    requires forall n :: n in s'.calls ==> n < s'.nextCall
    ensures Bookkept(s') && RunsConsistent(s')
  {
  }

  /** No other run than `id` holds the browser. */
  ghost predicate OthersIdle(c: C.Console, id: string) {
    forall k :: k in c.runs && BrowserActive(c.runs[k].phase) ==> k == id
  }

  lemma PutKeepsExclusion(c: C.Console, c': C.Console, r: ConsoleRun)
    requires Exclusive(c) && Put(c, c', r)
    requires BrowserActive(r.phase) ==> OthersIdle(c, r.id)
    ensures Exclusive(c')
  {
  }

  lemma PutKeepsApprovals(c: C.Console, c': C.Console, r: ConsoleRun)
    requires ApprovalsBound(c) && Put(c, c', r)
    requires c'.pending - {r.id} == c.pending - {r.id}
    requires r.id in c'.pending ==> Bound(c', r.id)
    ensures ApprovalsBound(c')
  {
    forall k | k in c'.pending ensures Bound(c', k) {
      if k != r.id {
        assert k in c'.pending - {r.id};
        assert (c'.pending - {r.id})[k] == (c.pending - {r.id})[k];
        assert Bound(c, k);
      }
    }
  }

  /** Calls of other runs stay; those of this run have to be looked at. */
  ghost predicate CallsOfOthersKept(calls: map<nat, Call>, calls': map<nat, Call>, id: string) {
    forall n :: n in calls' && calls'[n].run.id != id ==> n in calls && calls[n] == calls'[n]
  }

  ghost predicate CallsOf(calls: map<nat, Call>, id: string, c: C.Console) {
    forall n :: n in calls && calls[n].run.id == id ==> Attached(calls[n], c)
  }

  lemma PutKeepsCalls(c: C.Console, c': C.Console, calls: map<nat, Call>, calls': map<nat, Call>, r: ConsoleRun)
    requires CallsAttached(calls, c) && Put(c, c', r)
    requires CallsOfOthersKept(calls, calls', r.id)
    requires CallsOf(calls', r.id, c')
    ensures CallsAttached(calls', c')
  {
    forall n | n in calls' ensures Attached(calls'[n], c') {
      if calls'[n].run.id != r.id { assert Attached(calls[n], c); }
    }
  }

  ghost predicate StaysSpent(s: System, r: ConsoleRun) {
    forall i :: 0 <= i < |s.executions| && s.executions[i].session == s.session && s.executions[i].run.id == r.id ==>
      Spent(r.phase) && r.plan == s.executions[i].run.plan
  }

  lemma PutKeepsSpent(s: System, s': System, r: ConsoleRun)
    requires SpentInSession(s) && Put(s.console, s'.console, r)
    requires s'.session == s.session && s'.executions == s.executions
    requires StaysSpent(s, r)
    ensures SpentInSession(s')
  {
    forall i | 0 <= i < |s'.executions| && s'.executions[i].session == s'.session ensures RunSpent(s'.console,
        s'.executions[i].run) {
      assert RunSpent(s.console, s.executions[i].run);
    }
  }

  /** An event that stores one run and starts no execution keeps everything, provided the run
      itself and the approvals and calls of its ID are in order. */
  lemma PutSafe(s: System, s': System, r: ConsoleRun)
    requires Safe(s) && Put(s.console, s'.console, r)
    requires s.used <= s'.used && r.id in s'.used && Consistent(r)
    requires s'.session == s.session && s'.executions == s.executions
    requires BrowserActive(r.phase) ==> OthersIdle(s.console, r.id)
    requires s'.console.pending - {r.id} == s.console.pending - {r.id}
    requires r.id in s'.console.pending ==> Bound(s'.console, r.id)
    requires forall n :: n in s'.calls ==> n < s'.nextCall
    requires CallsOfOthersKept(s.calls, s'.calls, r.id) && CallsOf(s'.calls, r.id, s'.console)
    requires OneCallEach(s'.calls)
    requires StaysSpent(s, r)
    ensures Safe(s')
  {
    PutKeepsRuns(s, s', r);
    PutKeepsExclusion(s.console, s'.console, r);
    PutKeepsApprovals(s.console, s'.console, r);
    PutKeepsCalls(s.console, s'.console, s.calls, s'.calls, r);
    PutKeepsSpent(s, s', r);
  }
}
