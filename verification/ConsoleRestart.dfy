/** Saving and restarting: what the journal keeps, and what losing one write costs. */
module ConsoleRestart {
  import opened Ordering
  import opened Keyed
  import opened ConsoleRuns
  import opened ConsoleJournal
  import opened ConsoleProtocol
  import opened ConsoleSteps
  import C = Coordinator

  /** A kept sequence of runs is still newest first. */
  lemma {:induction false} KeptAscending(runs: seq<ConsoleRun>, terminal: bool)
    requires Ascending(runs, C.NewerFirst)
    ensures Ascending(Kept(runs, terminal), C.NewerFirst)
  {
    if runs != [] {
      KeptAscending(runs[1..], terminal);
      KeptMembers(runs[1..], terminal);
      var rest := Kept(runs[1..], terminal);
      forall r | r in rest ensures C.NewerFirst(runs[0], r) {
        var i :| 0 <= i < |runs[1..]| && runs[1..][i] == r;
        assert runs[1 + i] == r;
      }
    }
  }

  lemma {:induction false} OtherVersionsSplit(items: seq<Item>, runs: seq<ConsoleRun>)
    requires forall i :: 0 <= i < |items| ==> items[i].OtherVersion?
    ensures OtherVersions(items + Snapshots(runs)) == items
    decreases |items| + |runs|
  {
    var all := items + Snapshots(runs);
    if runs != [] {
      var front := runs[..|runs| - 1];
      OtherVersionsSplit(items, front);
      assert all[..|all| - 1] == items + Snapshots(front);
    } else if items != [] {
      OtherVersionsSplit(items[..|items| - 1], []);
      assert all == items;
      assert items[..|items| - 1] + Snapshots([]) == items[..|items| - 1];
    }
  }

  function SavedRuns(listed: seq<ConsoleRun>): seq<ConsoleRun> { Kept(listed, false) + Newest(Kept(listed, true)) }

  /** A listed run that is not saved is terminal, and the newest hundred are no older. */
  lemma DroppedIsOld(listed: seq<ConsoleRun>, r: ConsoleRun)
    requires Ascending(listed, C.NewerFirst) && r in listed && r !in SavedRuns(listed)
    ensures Terminal(r.phase) && Crowding(SavedRuns(listed), Newest(Kept(listed, true)), r)
  {
    var history := Kept(listed, true);
    var kept := Newest(history);
    KeptMembers(listed, false);
    KeptMembers(listed, true);
    KeptAscending(listed, true);
    assert r in history;
    var n :| 0 <= n < |history| && history[n] == r;
    assert forall i :: 0 <= i < |kept| ==> kept[i] == history[i] && kept[i] in SavedRuns(listed);
    forall i | 0 <= i < |kept| ensures Terminal(kept[i].phase) && kept[i].created >= r.created {
      assert kept[i] in history;
      assert C.NewerFirst(history[i], history[n]);
    }
  }

  lemma SnapshotsMembers(unknown: seq<Item>, runs: seq<ConsoleRun>)
    ensures forall r :: r in runs ==> Known(r) in unknown + Snapshots(runs)
  {
    forall r | r in runs ensures Known(r) in unknown + Snapshots(runs) {
      var i :| 0 <= i < |runs| && runs[i] == r;
      assert (unknown + Snapshots(runs))[|unknown| + i] == Known(r);
    }
  }

  /** Every run a successful save leaves out is terminal and no newer than the hundred terminal
      runs it keeps; the snapshots of other versions stay. */
  lemma SaveKeeps(c: C.Console, k: string)
    requires c.journal.writable && k in c.runs && k in c.order
    requires forall i :: 0 <= i < |c.journal.unknown| ==> c.journal.unknown[i].OtherVersion?
    ensures var listed := C.Listed(c.runs, c.order);
      var disk := Write(c.journal, listed, true).disk;
      && OtherVersions(disk) == c.journal.unknown
      && (forall r :: r in SavedRuns(listed) ==> Known(r) in disk)
      && (c.runs[k] in SavedRuns(listed) ||
          (Terminal(c.runs[k].phase) && Crowding(SavedRuns(listed), Newest(Kept(listed, true)), c.runs[k])))
  {
    var listed := C.Listed(c.runs, c.order);
    OtherVersionsSplit(c.journal.unknown, SavedRuns(listed));
    SnapshotsMembers(c.journal.unknown, SavedRuns(listed));
    ListedMembers(c.runs, c.order);
    NewerFirstIsTotalPreorder();
    SortFacts(C.Values(c.runs, c.order), C.NewerFirst);
    if c.runs[k] !in SavedRuns(listed) {
      DroppedIsOld(listed, c.runs[k]);
    }
  }

  ghost predicate Crowding(saved: seq<ConsoleRun>, kept: seq<ConsoleRun>, r: ConsoleRun) {
    && |kept| == TERMINAL_LIMIT
    && forall i :: 0 <= i < |kept| ==> kept[i] in saved && Terminal(kept[i].phase) && kept[i].created >= r.created
  }

  /** Every run that was not terminal is found again. */
  lemma ActiveRunsReturn(c: C.Console, k: string, now: int)
    requires c.journal.writable && k in c.runs && k in c.order && c.runs[k].id == k
    requires !Terminal(c.runs[k].phase) && Loadable(c.runs[k])
    ensures k in Index(Restored(Write(c.journal, C.Listed(c.runs, c.order), true).disk, now), RunId)
  {
    var listed := C.Listed(c.runs, c.order);
    var disk := Write(c.journal, listed, true).disk;
    ListedMembers(c.runs, c.order);
    KeptMembers(listed, false);
    SnapshotsMembers(c.journal.unknown, SavedRuns(listed));
    assert c.runs[k] in SavedRuns(listed);
    var i :| 0 <= i < |disk| && disk[i] == Known(c.runs[k]);
    RestoredMembers(disk, now);
    RestoreSettles(c.runs[k], now, now);
    IndexFacts(Restored(disk, now), RunId);
  }

  /** Every run that is found was there before. */
  lemma ReturnedRunsWereThere(c: C.Console, k: string, now: int)
    requires c.journal.writable && NoneKnown(c.journal.unknown) && forall j :: j in c.runs ==> c.runs[j].id == j
    requires k in Index(Restored(Write(c.journal, C.Listed(c.runs, c.order), true).disk, now), RunId)
    ensures k in c.runs && Loadable(c.runs[k])
    ensures Index(Restored(Write(c.journal, C.Listed(c.runs, c.order), true).disk, now), RunId)[k] == Restore(c.runs[k], now)
  {
    var disk := Write(c.journal, C.Listed(c.runs, c.order), true).disk;
    var runs := Restored(disk, now);
    WriteMembers(c.journal, c.runs, c.order, true);
    RestoredMembers(disk, now);
    IndexFacts(runs, RunId);
    var r := Index(runs, RunId)[k];
    assert r in runs && RunId(r) == k;
    var i :| RestoredFrom(disk, i, r, now);
    RestoreSettles(disk[i].run, now, now);
    assert Shows(c.runs, disk[i].run);
  }

  /** A process restarted after a successful save finds every run that was not terminal, as
      `Restore` leaves it, unless a clock set back made its snapshot invalid; and it finds
      nothing else than restored runs of the old process. */
  lemma RestartAfterSave(c: C.Console, now: int, ttl: int, previews: bool, runner: bool)
    requires c.journal.writable && NoneKnown(c.journal.unknown)
    requires forall k :: k in c.runs ==> c.runs[k].id == k && k in c.order
    ensures var disk := Write(c.journal, C.Listed(c.runs, c.order), true).disk;
      var c' := C.Opened(disk, true, now, ttl, previews, runner);
      && (forall k :: k in c.runs && !Terminal(c.runs[k].phase) && Loadable(c.runs[k]) ==> k in c'.runs)
      && (forall k :: k in c'.runs ==> k in c.runs && Loadable(c.runs[k]) && c'.runs[k] == Restore(c.runs[k], now) && !BrowserActive(c'.runs[k].phase))
  {
    var disk := Write(c.journal, C.Listed(c.runs, c.order), true).disk;
    var c' := C.Opened(disk, true, now, ttl, previews, runner);
    forall k | k in c.runs && !Terminal(c.runs[k].phase) && Loadable(c.runs[k]) ensures k in c'.runs {
      ActiveRunsReturn(c, k, now);
    }
    forall k | k in c'.runs
      ensures k in c.runs && Loadable(c.runs[k]) && c'.runs[k] == Restore(c.runs[k], now) && !BrowserActive(c'.runs[k].phase)
    {
      ReturnedRunsWereThere(c, k, now);
      RestoreSettles(c.runs[k], now, now);
    }
  }
}
