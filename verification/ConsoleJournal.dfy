/** The best-effort journal of console runs and what a restarted process makes of it. */
module ConsoleJournal {
  import opened Keyed
  import opened ConsoleRuns

  /** One stored snapshot. Another schema version is kept as it is; a snapshot of this
      version that the model rejects is skipped. */
  datatype Item = Known(run: ConsoleRun) | OtherVersion(text: string) | Invalid(text: string)

  datatype Journal = Journal(disk: seq<Item>, unknown: seq<Item>, writable: bool)

  const TERMINAL_LIMIT := 100

  /** The one condition of the run model that an updated copy can break. */
  predicate Loadable(r: ConsoleRun) { r.created <= r.updated }

  /** `_restore_run` */
  function Restore(r: ConsoleRun, now: int): ConsoleRun {
    match r.phase
    case Planning => Moved(r, Blocked, WithError("console_restarted"), now)
    case Preflight => Moved(r, Blocked, WithError("console_restarted"), now)
    case AwaitingApproval => Moved(r, PlanReady, Reset(Some("approval_expired")), now)
    case Executing => Moved(r, Interrupted, WithError("console_restarted_execution_uncertain"), now)
    case Verifying => Moved(r, Interrupted, WithError("console_restarted_execution_uncertain"), now)
    case _ => r
  }

  function Restored(disk: seq<Item>, now: int): seq<ConsoleRun> {
    if disk == [] then []
    else
      var rest := Restored(disk[..|disk| - 1], now);
      var last := disk[|disk| - 1];
      if last.Known? && Loadable(last.run) then rest + [Restore(last.run, now)] else rest
  }

  function OtherVersions(disk: seq<Item>): seq<Item> {
    if disk == [] then []
    else
      var rest := OtherVersions(disk[..|disk| - 1]);
      if disk[|disk| - 1].OtherVersion? then rest + [disk[|disk| - 1]] else rest
  }

  function Kept(runs: seq<ConsoleRun>, terminal: bool): seq<ConsoleRun> {
    if runs == [] then []
    else (if Terminal(runs[0].phase) == terminal then [runs[0]] else []) + Kept(runs[1..], terminal)
  }

  function Newest(runs: seq<ConsoleRun>): seq<ConsoleRun> {
    if |runs| <= TERMINAL_LIMIT then runs else runs[..TERMINAL_LIMIT]
  }

  function Snapshots(runs: seq<ConsoleRun>): seq<Item> {
    seq(|runs|, i requires 0 <= i < |runs| => Known(runs[i]))
  }

  /** `save`: `works` says whether the new file took the old one's place. */
  function Write(j: Journal, runs: seq<ConsoleRun>, works: bool): Journal {
    if j.writable && works then
      j.(disk := j.unknown + Snapshots(Kept(runs, false) + Newest(Kept(runs, true))))
    else j
  }

  /** `load` in a new process; `readable` is false for a file that cannot be read or parsed. */
  function Reopen(disk: seq<Item>, readable: bool): Journal {
    if readable then Journal(disk, OtherVersions(disk), true) else Journal(disk, [], false)
  }

  function LoadedRuns(disk: seq<Item>, readable: bool, now: int): seq<ConsoleRun> {
    if readable then Restored(disk, now) else []
  }

  lemma {:induction false} KeptMembers(runs: seq<ConsoleRun>, terminal: bool)
    ensures forall r :: r in Kept(runs, terminal) <==> r in runs && Terminal(r.phase) == terminal
  {
    if runs != [] {
      KeptMembers(runs[1..], terminal);
      assert forall r :: r in runs <==> r == runs[0] || r in runs[1..];
    }
  }

  lemma {:induction false} RestoredMembers(disk: seq<Item>, now: int)
    ensures forall r :: r in Restored(disk, now) ==> exists i :: RestoredFrom(disk, i, r, now)
    ensures forall i :: 0 <= i < |disk| && disk[i].Known? && Loadable(disk[i].run) ==> Restore(disk[i].run, now) in Restored(disk, now)
  {
    if disk != [] {
      var head := disk[..|disk| - 1];
      RestoredMembers(head, now);
      forall r | r in Restored(disk, now) ensures exists i :: RestoredFrom(disk, i, r, now) {
        if r in Restored(head, now) {
          var i :| RestoredFrom(head, i, r, now);
          assert RestoredFrom(disk, i, r, now);
        } else {
          assert RestoredFrom(disk, |disk| - 1, r, now);
        }
      }
      forall i | 0 <= i < |disk| && disk[i].Known? && Loadable(disk[i].run) ensures Restore(disk[i].run,
          now) in Restored(disk, now) {
        if i < |head| { assert head[i] == disk[i]; }
      }
    }
  }

  ghost predicate RestoredFrom(disk: seq<Item>, i: int, r: ConsoleRun, now: int) {
    0 <= i < |disk| && disk[i].Known? && Loadable(disk[i].run) && r == Restore(disk[i].run, now)
  }

  /** Restoring twice is restoring once, whatever the clock says; no restored run holds the
      browser, and one caught executing ends in a phase that nothing leaves. */
  lemma RestoreSettles(r: ConsoleRun, now: int, later: int)
    ensures Restore(Restore(r, now), later) == Restore(r, now)
    ensures !BrowserActive(Restore(r, now).phase)
    ensures r.phase == Executing || r.phase == Verifying ==>
      Restore(r, now).phase == Interrupted && Allowed(Restore(r, now).phase) == {}
    ensures r.phase != Planning && !BrowserActive(r.phase) <==> Restore(r, now) == r
    ensures Restore(r, now).id == r.id && Restore(r, now).plan == r.plan && Restore(r, now).mode == r.mode
  {
  }

  lemma RestoreConsistent(r: ConsoleRun, now: int)
    requires Consistent(r)
    ensures Consistent(Restore(r, now))
  {
  }

  class ConsoleRunJournal {
    var disk: seq<Item>
    var unknown: seq<Item>
    var writable: bool

    ghost function View(): Journal
      reads this
    {
      Journal(disk, unknown, writable)
    }

    constructor (disk: seq<Item>)
      ensures View() == Journal(disk, [], true)
    {
      this.disk, unknown, writable := disk, [], true;
    }

    method Load(readable: bool, now: int) returns (runs: seq<ConsoleRun>)
      requires unknown == [] && writable
      modifies this
      ensures View() == Reopen(old(disk), readable)
      ensures runs == LoadedRuns(old(disk), readable, now)
    {
      if !readable {
        writable := false;
        return [];
      }
      runs := [];
      for n := 0 to |disk|
        invariant writable && disk == old(disk)
        invariant unknown == OtherVersions(disk[..n])
        invariant runs == Restored(disk[..n], now)
      {
        assert disk[..n + 1][..n] == disk[..n];
        match disk[n]
        case OtherVersion(_) => unknown := unknown + [disk[n]];
        case Invalid(_) =>
        case Known(run) => if Loadable(run) { runs := runs + [Restore(run, now)]; }
      }
      assert disk[..|disk|] == disk;
    }

    method Save(runs: seq<ConsoleRun>, works: bool)
      modifies this
      ensures View() == Write(old(View()), runs, works)
    {
      if !writable { return; }
      var active := Kept(runs, false);
      var terminal := Newest(Kept(runs, true));
      if works {
        disk := unknown + Snapshots(active + terminal);
      }
    }
  }
}
