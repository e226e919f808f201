/** What each error of the event verifier means: it names the line that is wrong and says how. */
module AuditErrors {
  import opened Keyed
  import opened AuditChain

  /** The last event that could be read from these lines. */
  function LastRead(lines: seq<string>, parse: Parser): Option<Event> {
    if lines == [] then None
    else if parse(lines[|lines| - 1]).Some? then parse(lines[|lines| - 1])
    else LastRead(lines[..|lines| - 1], parse)
  }

  /** The first one, whose run ID is the stream's. */
  function FirstRead(lines: seq<string>, parse: Parser): Option<Event> {
    if lines == [] then None
    else if parse(lines[0]).Some? then parse(lines[0])
    else FirstRead(lines[1..], parse)
  }

  /** An error of the line at `i`, told by the line itself and the events read before it. */
  ghost predicate Wrong(lines: seq<string>, i: nat, x: ChainError, parse: Parser, digest: Digester)
    requires i < |lines|
  {
    var (e, before, first) := (parse(lines[i]), LastRead(lines[..i], parse), FirstRead(lines[..i], parse));
    match x
    case InvalidLine(line) => line == i + 1 && e.None?
    case RunIdMismatch(line) => line == i + 1 && e.Some? && first.Some? && e.value.runId != first.value.runId
    case UnexpectedSequence(line) => line == i + 1 && e.Some? && e.value.sequence != if before.Some? then before.value.sequence + 1 else 1
    case PreviousMismatch(line) => line == i + 1 && e.Some? && e.value.previous != if before.Some? then before.value.hash else None
    case HashMismatch(line) => line == i + 1 && e.Some? && e.value.hash != Some(digest(e.value))
  }

  /** The loop's memory after some lines. */
  function CursorAfter(lines: seq<string>, parse: Parser): Cursor {
    if lines == [] then START
    else
      var at := CursorAfter(lines[..|lines| - 1], parse);
      if parse(lines[|lines| - 1]).Some? then Advance(parse(lines[|lines| - 1]).value, at) else at
  }

  lemma {:induction false} FirstReadLast(lines: seq<string>, parse: Parser)
    requires lines != []
    ensures FirstRead(lines, parse) ==
      if FirstRead(lines[..|lines| - 1], parse).Some? then FirstRead(lines[..|lines| - 1], parse) else parse(lines[|lines| - 1])
  {
    if |lines| > 1 && parse(lines[0]).None? {
      FirstReadLast(lines[1..], parse);
      assert lines[1..][..|lines| - 2] == lines[..|lines| - 1][1..];
    }
  }

  lemma {:induction false} CursorIs(lines: seq<string>, parse: Parser)
    ensures var (at, last, first) := (CursorAfter(lines, parse), LastRead(lines, parse), FirstRead(lines, parse));
      && at.expected == (if last.Some? then last.value.sequence + 1 else 1)
      && at.previous == (if last.Some? then last.value.hash else None)
      && at.runId == if first.Some? then Some(first.value.runId) else None
  {
    if lines != [] {
      CursorIs(lines[..|lines| - 1], parse);
      FirstReadLast(lines, parse);
    }
  }

  /** The errors from line `k` on, with the memory of the lines before. */
  lemma {:induction false} ErrorsFrom(lines: seq<string>, k: nat, parse: Parser, digest: Digester, x: ChainError)
    requires k <= |lines|
    ensures x in LineErrors(lines[k..], CursorAfter(lines[..k], parse), k + 1, parse, digest) <==> exists i: nat :: k <= i < |lines| && Wrong(lines, i, x, parse, digest)
    decreases |lines| - k
  {
    if k < |lines| {
      ErrorsFrom(lines, k + 1, parse, digest, x);
      assert lines[k..][0] == lines[k] && lines[k..][1..] == lines[k + 1..];
      assert lines[..k + 1][..k] == lines[..k] && lines[..k + 1][k] == lines[k];
      ErrorsOfLine(lines, k, parse, digest, x);
    }
  }

  lemma ErrorsOfLine(lines: seq<string>, k: nat, parse: Parser, digest: Digester, x: ChainError)
    requires k < |lines|
    ensures var e := parse(lines[k]);
      Wrong(lines, k, x, parse, digest) <==>
        x in if e.None? then [InvalidLine(k + 1)] else EventErrors(e.value, CursorAfter(lines[..k], parse), k + 1, digest)
  {
    CursorIs(lines[..k], parse);
  }

  /** The verifier reports exactly the errors there are: an unreadable line, a foreign run ID, a
      number that does not follow, a link to another hash, a hash that is not the event's own. */
  lemma ErrorsAreExact(lines: seq<string>, parse: Parser, digest: Digester, x: ChainError)
    ensures x in LineErrors(lines, START, 1, parse, digest) <==> exists i: nat :: i < |lines| && Wrong(lines, i, x, parse, digest)
  {
    ErrorsFrom(lines, 0, parse, digest, x);
    assert lines[0..] == lines && lines[..0] == [];
  }
}
