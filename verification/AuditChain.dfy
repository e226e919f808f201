/** The hash-chained event stream of one run, its writer and its verifier. */
module AuditChain {
  import opened Keyed
  import opened Json
  import opened Canonical

  datatype Event = Event(
    runId: string,
    sequence: nat,
    timestamp: string,
    eventType: string,
    component: string,
    outcome: string,
    planHash: Option<string>,
    beforeHash: Option<string>,
    changeHash: Option<string>,
    ownershipId: Option<string>,
    targetOu: Option<string>,
    errorCode: Option<string>,
    correlationId: Option<string>,
    previous: Option<string>,
    hash: Option<string>
  )

  function Digit(n: nat): char
    requires n < 10
  {
    "0123456789"[n]
  }

  /** The decimal text of a number. */
  function Decimal(n: nat): Numeral {
    var digits := "0123456789";
    assert forall i :: 0 <= i < 10 ==> digits[i] in NUMERAL_CHARS;
    if n < 10 then [Digit(n)] else Decimal(n / 10) + [Digit(n % 10)]
  }

  function Maybe(s: Option<string>): Json { if s.Some? then Str(s.value) else Null }

  /** The hashed payload: every field but the hash itself, keys in order. */
  function Payload(e: Event): seq<Member> {
    [
      Member("before_state_hash", Maybe(e.beforeHash)),
      Member("change_set_hash", Maybe(e.changeHash)),
      Member("component", Str(e.component)),
      Member("correlation_id", Maybe(e.correlationId)),
      Member("error_code", Maybe(e.errorCode)),
      Member("event_type", Str(e.eventType)),
      Member("outcome", Str(e.outcome)),
      Member("ownership_id", Maybe(e.ownershipId)),
      Member("plan_hash", Maybe(e.planHash)),
      Member("previous_event_hash", Maybe(e.previous)),
      Member("run_id", Str(e.runId)),
      Member("sequence", Num(Decimal(e.sequence))),
      Member("target_ou", Maybe(e.targetOu)),
      Member("timestamp", Str(e.timestamp))
    ]
  }

  /** The stored line, fields in declaration order: first what every event has, then what it may
      have. */
  function LineMembers(e: Event): seq<Member> { NamedMembers(e) + OptionalMembers(e) }

  function NamedMembers(e: Event): seq<Member> {
    [
      Member("run_id", Str(e.runId)),
      Member("sequence", Num(Decimal(e.sequence))),
      Member("timestamp", Str(e.timestamp)),
      Member("event_type", Str(e.eventType)),
      Member("component", Str(e.component)),
      Member("outcome", Str(e.outcome))
    ]
  }

  function OptionalMembers(e: Event): seq<Member> {
    [
      Member("plan_hash", Maybe(e.planHash)),
      Member("before_state_hash", Maybe(e.beforeHash)),
      Member("change_set_hash", Maybe(e.changeHash)),
      Member("ownership_id", Maybe(e.ownershipId)),
      Member("target_ou", Maybe(e.targetOu)),
      Member("error_code", Maybe(e.errorCode)),
      Member("correlation_id", Maybe(e.correlationId)),
      Member("previous_event_hash", Maybe(e.previous)),
      Member("event_hash", Maybe(e.hash))
    ]
  }

  function Line(e: Event): string { Print(Obj(LineMembers(e)), Compact) }

  function Digest(e: Event, sha: Text): string { sha(Print(Obj(Payload(e)), Compact)) }

  lemma {:induction false} DecimalInjective(m: nat, n: nat)
    requires Decimal(m) == Decimal(n)
    ensures m == n
  {
    DecimalLength(m);
    DecimalLength(n);
    if m < 10 {
      assert Decimal(m)[0] == Decimal(n)[0];
      DigitInjective(m, n);
    } else {
      var a, b := Decimal(m / 10), Decimal(n / 10);
      SameLength(a, b, [Digit(m % 10)], [Digit(n % 10)]);
      assert [Digit(m % 10)][0] == [Digit(n % 10)][0];
      DigitInjective(m % 10, n % 10);
      DecimalInjective(m / 10, n / 10);
    }
  }

  lemma DigitInjective(i: nat, j: nat)
    requires i < 10 && j < 10 && Digit(i) == Digit(j)
    ensures i == j
  {
  }

  lemma DecimalLength(n: nat)
    ensures |Decimal(n)| > 0 && (|Decimal(n)| == 1 <==> n < 10)
  {
  }

  lemma PayloadInjective(e: Event, f: Event)
    requires Payload(e) == Payload(f)
    ensures e.(hash := None) == f.(hash := None)
  {
    var p, q := Payload(e), Payload(f);
    assert p[0] == q[0] && p[1] == q[1] && p[2] == q[2] && p[3] == q[3] && p[4] == q[4] && p[5] == q[5] && p[6] == q[6];
    assert p[7] == q[7] && p[8] == q[8] && p[9] == q[9] && p[10] == q[10] && p[11] == q[11] && p[12] == q[12] && p[13] == q[13];
    DecimalInjective(e.sequence, f.sequence);
  }

  /** Events with the same digest agree on everything but the stored hash. */
  lemma DigestInjective(e: Event, f: Event, sha: Text)
    requires Injective(sha) && Digest(e, sha) == Digest(f, sha)
    ensures e.(hash := None) == f.(hash := None)
  {
    PrintInjective(Obj(Payload(e)), Obj(Payload(f)), Compact);
    PayloadInjective(e, f);
  }

  /** How an event is digested. The chain itself only needs that the digest binds every
      field but the stored hash, which `DigestBinds` shows of SHA-256 over the payload. */
  type Digester = Event -> string

  ghost predicate Binding(digest: Digester) {
    forall e, f :: digest(e) == digest(f) ==> e.(hash := None) == f.(hash := None)
  }

  lemma DigestBinds(sha: Text)
    requires Injective(sha)
    ensures Binding(e => Digest(e, sha))
  {
    forall e, f | Digest(e, sha) == Digest(f, sha) ensures e.(hash := None) == f.(hash := None) {
      DigestInjective(e, f, sha);
    }
  }

  /** The hash the event at `i` must link to. */
  function LinkBefore(es: seq<Event>, i: nat, first: Option<string>): Option<string>
    requires i < |es|
  {
    if i == 0 then first else es[i - 1].hash
  }

  /** The event at `i` belongs to the run, has the next number, links back and carries its hash. */
  ghost predicate InPlace(es: seq<Event>, i: nat, runId: string, base: nat, first: Option<string>, digest: Digester)
    requires i < |es|
  {
    es[i].runId == runId && es[i].sequence == base + i && es[i].previous == LinkBefore(es, i,
        first) && es[i].hash == Some(digest(es[i]))
  }

  /** What a stream must be: one run, numbered from one, linked, and each hash right. */
  ghost predicate Chained(es: seq<Event>, digest: Digester) {
    forall i :: 0 <= i < |es| ==> InPlace(es, i, es[0].runId, 1, None, digest)
  }

  /** The last hash pins down the whole stream. */
  lemma {:induction false} LastHashDeterminesChain(es: seq<Event>, fs: seq<Event>, digest: Digester)
    requires Binding(digest) && Chained(es, digest) && Chained(fs, digest) && es != [] && fs != []
    requires es[|es| - 1].hash == fs[|fs| - 1].hash
    ensures es == fs
  {
    var n := |es| - 1;
    LastHashDeterminesLast(es, fs, digest);
    if n > 0 {
      ChainedInit(es, digest);
      ChainedInit(fs, digest);
      LastHashDeterminesChain(es[..n], fs[..n], digest);
    }
    assert es == es[..n] + [es[n]] && fs == fs[..n] + [fs[n]];
  }

  lemma LastHashDeterminesLast(es: seq<Event>, fs: seq<Event>, digest: Digester)
    requires Binding(digest) && Chained(es, digest) && Chained(fs, digest) && es != [] && fs != []
    requires es[|es| - 1].hash == fs[|fs| - 1].hash
    ensures |es| == |fs| && es[|es| - 1] == fs[|fs| - 1]
    ensures |es| > 1 ==> es[|es| - 2].hash == fs[|fs| - 2].hash
  {
    var n, m := |es| - 1, |fs| - 1;
    assert InPlace(es, n, es[0].runId, 1, None, digest) && InPlace(fs, m, fs[0].runId, 1, None, digest);
    assert digest(es[n]) == digest(fs[m]);
  }

  lemma ChainedInit(es: seq<Event>, digest: Digester)
    requires es != [] && Chained(es, digest)
    ensures Chained(es[..|es| - 1], digest)
  {
    var init := es[..|es| - 1];
    forall i | 0 <= i < |init| ensures InPlace(init, i, init[0].runId, 1, None, digest) {
      assert InPlace(es, i, es[0].runId, 1, None, digest);
    }
  }

  datatype ChainError =
    | InvalidLine(line: nat)
    | RunIdMismatch(line: nat)
    | UnexpectedSequence(line: nat)
    | PreviousMismatch(line: nat)
    | HashMismatch(line: nat)

  /** What the verifying loop carries from line to line. */
  datatype Cursor = Cursor(expected: nat, previous: Option<string>, runId: Option<string>)

  const START := Cursor(1, None, None)

  function EventErrors(e: Event, at: Cursor, line: nat, digest: Digester): seq<ChainError> {
    (if at.runId.Some? && e.runId != at.runId.value then [RunIdMismatch(line)] else [])
    + (if e.sequence != at.expected then [UnexpectedSequence(line)] else [])
    + (if e.previous != at.previous then [PreviousMismatch(line)] else [])
    + (if e.hash != Some(digest(e)) then [HashMismatch(line)] else [])
  }

  function Advance(e: Event, at: Cursor): Cursor {
    Cursor(e.sequence + 1, e.hash, if at.runId.Some? then at.runId else Some(e.runId))
  }

  type Parser = string -> Option<Event>

  function LineErrors(lines: seq<string>, at: Cursor, line: nat, parse: Parser, digest: Digester): seq<ChainError> {
    if lines == [] then []
    else
      var e := parse(lines[0]);
      if e.None? then [InvalidLine(line)] + LineErrors(lines[1..], at, line + 1, parse, digest)
      else EventErrors(e.value, at, line, digest) + LineErrors(lines[1..], Advance(e.value, at), line + 1, parse, digest)
  }

  /** `verify_event_chain` accepts the lines. */
  predicate Accepts(lines: seq<string>, parse: Parser, digest: Digester) {
    lines != [] && LineErrors(lines, START, 1, parse, digest) == []
  }

  function Parsed(lines: seq<string>, parse: Parser): seq<Event>
    requires forall i :: 0 <= i < |lines| ==> parse(lines[i]).Some?
  {
    seq(|lines|, i requires 0 <= i < |lines| => parse(lines[i]).value)
  }

  /** `es` continues a stream from the given cursor. */
  ghost predicate ChainedFrom(es: seq<Event>, at: Cursor, digest: Digester) {
    forall i :: 0 <= i < |es| ==> InPlace(es, i, at.runId.GetOr(es[0].runId), at.expected, at.previous, digest)
  }

  lemma ParsedStep(lines: seq<string>, parse: Parser)
    requires lines != [] && parse(lines[0]).Some?
    ensures (forall i :: 0 <= i < |lines| ==> parse(lines[i]).Some?) <==> (forall i :: 0 <= i < |lines[1..]| ==> parse(lines[1..][i]).Some?)
    ensures (forall i :: 0 <= i < |lines| ==> parse(lines[i]).Some?) ==>
      Parsed(lines, parse) == [parse(lines[0]).value] + Parsed(lines[1..], parse)
  {
    var rest := lines[1..];
    assert forall i :: 0 <= i < |rest| ==> rest[i] == lines[i + 1];
    if forall i :: 0 <= i < |rest| ==> parse(rest[i]).Some? {
      forall i | 0 <= i < |lines| ensures parse(lines[i]).Some? {
        if i > 0 { assert lines[i] == rest[i - 1]; }
      }
    }
  }

  lemma {:induction false} NoErrorsIffChained(lines: seq<string>, at: Cursor, line: nat, parse: Parser, digest: Digester)
    ensures LineErrors(lines, at, line, parse, digest) == [] <==>
      (forall i :: 0 <= i < |lines| ==> parse(lines[i]).Some?) && ChainedFrom(Parsed(lines, parse), at, digest)
  {
    if lines != [] && parse(lines[0]).Some? {
      var e := parse(lines[0]).value;
      NoErrorsIffChained(lines[1..], Advance(e, at), line + 1, parse, digest);
      ParsedStep(lines, parse);
      if forall i :: 0 <= i < |lines[1..]| ==> parse(lines[1..][i]).Some? {
        ChainedStep(e, Parsed(lines[1..], parse), at, digest);
        assert EventErrors(e, at, line, digest) == [] <==> GoodEvent(e, at, digest);
      }
    }
  }

  ghost predicate GoodEvent(e: Event, at: Cursor, digest: Digester) {
    e.runId == at.runId.GetOr(e.runId) && e.sequence == at.expected && e.previous == at.previous && e.hash == Some(digest(e))
  }

  lemma ChainedStep(e: Event, es: seq<Event>, at: Cursor, digest: Digester)
    ensures ChainedFrom([e] + es, at, digest) <==> GoodEvent(e, at, digest) && ChainedFrom(es, Advance(e, at), digest)
  {
    var all, at' := [e] + es, Advance(e, at);
    if ChainedFrom(all, at, digest) {
      assert InPlace(all, 0, at.runId.GetOr(all[0].runId), at.expected, at.previous, digest);
      forall i | 0 <= i < |es| ensures InPlace(es, i, at'.runId.GetOr(es[0].runId), at'.expected, at'.previous, digest) {
        assert InPlace(all, i + 1, at.runId.GetOr(all[0].runId), at.expected, at.previous, digest);
      }
    }
    if GoodEvent(e, at, digest) && ChainedFrom(es, at', digest) {
      forall i | 0 <= i < |all| ensures InPlace(all, i, at.runId.GetOr(all[0].runId), at.expected, at.previous, digest) {
        if i > 0 { assert InPlace(es, i - 1, at'.runId.GetOr(es[0].runId), at'.expected, at'.previous, digest); }
      }
    }
  }

  /** The verifier reports nothing exactly for a non-empty, well-formed, chained stream. */
  lemma AcceptsIffChained(lines: seq<string>, parse: Parser, digest: Digester)
    ensures Accepts(lines, parse, digest) <==>
      lines != [] && (forall i :: 0 <= i < |lines| ==> parse(lines[i]).Some?) && Chained(Parsed(lines, parse), digest)
  {
    NoErrorsIffChained(lines, START, 1, parse, digest);
    if forall i :: 0 <= i < |lines| ==> parse(lines[i]).Some? {
      var es := Parsed(lines, parse);
      assert forall i :: 0 <= i < |es| ==> (InPlace(es, i, START.runId.GetOr(es[0].runId), START.expected,
          START.previous, digest) <==> InPlace(es, i, es[0].runId, 1, None, digest));
    }
  }

  ghost predicate Records(lines: seq<string>, es: seq<Event>, parse: Parser) {
    |es| == |lines| && forall i :: 0 <= i < |lines| ==> parse(lines[i]) == Some(es[i])
  }

  lemma AcceptedIsChained(lines: seq<string>, parse: Parser, digest: Digester) returns (es: seq<Event>)
    requires Accepts(lines, parse, digest)
    ensures es != [] && Records(lines, es, parse) && Chained(es, digest)
  {
    AcceptsIffChained(lines, parse, digest);
    es := Parsed(lines, parse);
  }

  /** Two accepted files that end in the same hash record the same events. */
  lemma TamperEvident(lines: seq<string>, lines': seq<string>, parse: Parser, digest: Digester)
    requires Binding(digest) && Accepts(lines, parse, digest) && Accepts(lines', parse, digest)
    requires parse(lines[|lines| - 1]).Some? && parse(lines'[|lines'| - 1]).Some?
    requires parse(lines[|lines| - 1]).value.hash == parse(lines'[|lines'| - 1]).value.hash
    ensures |lines| == |lines'| && forall i :: 0 <= i < |lines| ==> parse(lines[i]) == parse(lines'[i])
  {
    var es := AcceptedIsChained(lines, parse, digest);
    var fs := AcceptedIsChained(lines', parse, digest);
    LastHashDeterminesChain(es, fs, digest);
  }
}
