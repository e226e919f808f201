/** The append-only writer of one run's event stream, and the verifying loop. */
module AuditWriter {
  import opened Keyed
  import opened Json
  import opened Canonical
  import opened AuditChain
  import opened AuditFile

  /** The digest is taken with the hash field cleared, so it does not see that field. */
  ghost predicate HashBlind(digest: Digester) {
    forall e: Event {:trigger Unhashed(e)} :: digest(Unhashed(e)) == digest(e)
  }

  function Unhashed(e: Event): Event { e.(hash := None) }

  lemma DigestIsHashBlind(sha: Text)
    ensures HashBlind(e => Digest(e, sha))
  {
  }

  function Sealed(e: Event, previous: Option<string>, digest: Digester): Event {
    var unhashed := e.(previous := previous, hash := None);
    unhashed.(hash := Some(digest(unhashed)))
  }

  datatype Appended = Stored(event: Event) | OutOfSequence | RunIdChanged | WrongPrevious | DiskFailed

  /** What the writer remembers of the events it has stored. */
  ghost predicate Consistent(events: seq<Event>, lastSequence: nat, lastHash: Option<string>, runId: Option<string>,
      file: string, digest: Digester) {
    && Chained(events, digest)
    && lastSequence == |events|
    && (events == [] ==> lastHash == None && runId == None)
    && (events != [] ==> lastHash == events[|events| - 1].hash && runId == Some(events[0].runId))
    && file == FileText(events)
  }

  lemma StoringKeeps(events: seq<Event>, lastSequence: nat, lastHash: Option<string>, runId: Option<string>,
      file: string, digest: Digester, e: Event)
    requires Consistent(events, lastSequence, lastHash, runId, file, digest)
    requires e.sequence == lastSequence + 1 && (runId == None || e.runId == runId.value)
    requires e.previous == lastHash && e.hash == Some(digest(e))
    ensures Consistent(events + [e], e.sequence, e.hash, Some(e.runId), file + Line(e) + "\n", digest)
  {
    ExtendChain(events, e, digest);
    ExtendFile(events, e);
  }

  class RunAuditWriter {
    const digest: Digester
    var lastSequence: nat
    var lastHash: Option<string>
    var runId: Option<string>
    var file: string
    ghost var events: seq<Event>

    ghost predicate Valid()
      reads this
    {
      HashBlind(digest) && Consistent(events, lastSequence, lastHash, runId, file, digest)
    }

    constructor (digest: Digester)
      requires HashBlind(digest)
      ensures Valid() && events == [] && this.digest == digest
    {
      this.digest := digest;
      lastSequence, lastHash, runId, file, events := 0, None, None, "", [];
    }

    /** `append`: refused unless the event is next in number, of the same run, and names no
        other predecessor; a failed write leaves the writer as it was. */
    method Append(e: Event, diskWorks: bool) returns (r: Appended)
      requires Valid()
      modifies this
      ensures Valid()
      ensures r.Stored? <==>
        && e.sequence == old(|events|) + 1
        && (old(events) == [] || e.runId == old(events)[0].runId)
        && (e.previous == None || e.previous == old(lastHash))
        && diskWorks
      ensures r.Stored? ==> events == old(events) + [r.event] && r.event == Sealed(e, old(lastHash), digest)
      ensures r.Stored? ==> r.event == e.(previous := old(lastHash), hash := Some(digest(r.event)))
      ensures r == OutOfSequence <==> e.sequence != old(|events|) + 1
      ensures r == RunIdChanged ==> old(events) != [] && e.runId != old(events)[0].runId
      ensures r == WrongPrevious ==> e.previous != None && e.previous != old(lastHash)
      ensures r == DiskFailed ==> !diskWorks
      ensures !r.Stored? ==> events == old(events) && file == old(file)
    {
      if e.sequence != lastSequence + 1 { return OutOfSequence; }
      if runId.Some? && e.runId != runId.value { return RunIdChanged; }
      if e.previous != None && e.previous != lastHash { return WrongPrevious; }
      var finalized := Sealed(e, lastHash, digest);
      if !diskWorks { return DiskFailed; }
      SealBinds(e, lastHash, digest);
      StoringKeeps(events, lastSequence, lastHash, runId, file, digest, finalized);
      file := file + Line(finalized) + "\n";
      lastSequence := finalized.sequence;
      lastHash := finalized.hash;
      runId := Some(finalized.runId);
      events := events + [finalized];
      r := Stored(finalized);
    }
  }

  /** The digest of a sealed event is the hash it carries. */
  lemma SealBinds(e: Event, previous: Option<string>, digest: Digester)
    requires HashBlind(digest)
    ensures Sealed(e, previous, digest).hash == Some(digest(Sealed(e, previous, digest)))
  {
    assert Unhashed(Sealed(e, previous, digest)) == e.(previous := previous, hash := None);
  }

  lemma ExtendChain(es: seq<Event>, e: Event, digest: Digester)
    requires Chained(es, digest) && e.sequence == |es| + 1 && e.hash == Some(digest(e))
    requires es != [] ==> e.runId == es[0].runId && e.previous == es[|es| - 1].hash
    requires es == [] ==> e.previous == None
    ensures Chained(es + [e], digest)
  {
    var fs := es + [e];
    forall i | 0 <= i < |fs| ensures InPlace(fs, i, fs[0].runId, 1, None, digest) {
      if i < |es| { assert InPlace(es, i, es[0].runId, 1, None, digest); }
    }
  }

  lemma {:induction false} ExtendJoined(lines: seq<string>, line: string)
    ensures Joined(lines + [line]) == Joined(lines) + line + "\n"
  {
    if lines == [] {
      assert lines + [line] == [line];
      assert Joined([line][1..]) == "";
    } else {
      var all := lines + [line];
      assert all[0] == lines[0] && all[1..] == lines[1..] + [line];
      ExtendJoined(lines[1..], line);
      Assoc(lines[0] + "\n", Joined(lines[1..]), line + "\n");
      Assoc(Joined(lines[1..]), line, "\n");
      Assoc(Joined(lines), line, "\n");
    }
  }

  lemma ExtendFile(es: seq<Event>, e: Event)
    ensures FileText(es + [e]) == FileText(es) + Line(e) + "\n"
  {
    assert Lines(es + [e]) == Lines(es) + [Line(e)];
    ExtendJoined(Lines(es), Line(e));
  }

  /** The checks of one line, in the order they are reported. */
  method CheckEvent(e: Event, at: Cursor, line: nat, digest: Digester) returns (found: seq<ChainError>)
    ensures found == EventErrors(e, at, line, digest)
  {
    found := [];
    if at.runId.Some? && e.runId != at.runId.value { found := found + [RunIdMismatch(line)]; }
    if e.sequence != at.expected { found := found + [UnexpectedSequence(line)]; }
    if e.previous != at.previous { found := found + [PreviousMismatch(line)]; }
    if e.hash != Some(digest(e)) { found := found + [HashMismatch(line)]; }
  }

  lemma ErrorsStep(errors: seq<ChainError>, found: seq<ChainError>, rest: seq<ChainError>)
    ensures errors + (found + rest) == (errors + found) + rest
  {
  }

  /** `verify_event_chain` on a readable file. */
  method VerifyEventChain(text: string, parse: Parser, digest: Digester) returns (empty: bool, errors: seq<ChainError>)
    ensures empty <==> SplitLines(text) == []
    ensures errors == LineErrors(SplitLines(text), START, 1, parse, digest)
    ensures !empty && errors == [] <==> Accepts(SplitLines(text), parse, digest)
  {
    var lines := SplitLines(text);
    empty := lines == [];
    errors := [];
    var at := START;
    var n := 0;
    while n < |lines|
      invariant 0 <= n <= |lines|
      invariant LineErrors(lines, START, 1, parse, digest) == errors + LineErrors(lines[n..], at, n + 1, parse, digest)
    {
      assert lines[n..][0] == lines[n] && lines[n..][1..] == lines[n + 1..];
      var parsed := parse(lines[n]);
      var found, at' := [InvalidLine(n + 1)], at;
      if parsed.Some? {
        found := CheckEvent(parsed.value, at, n + 1, digest);
        at' := Advance(parsed.value, at);
      }
      ErrorsStep(errors, found, LineErrors(lines[n + 1..], at', n + 2, parse, digest));
      errors, at := errors + found, at';
      n := n + 1;
    }
    assert lines[n..] == [];
  }
}
