/** The event file: appended line by line, read back with `str.splitlines`. */
module AuditFile {
  import opened Keyed
  import opened PythonText
  import opened Json
  import opened Scanner
  import opened ScannerRoundTrip
  import opened AuditChain

  /** Characters at which `str.splitlines` breaks a text. */
  predicate IsBoundary(c: char) {
    '\n' <= c <= '\r' || '\U{1C}' <= c <= '\U{1E}' || c == '\U{85}' || c == '\U{2028}' || c == '\U{2029}'
  }

  function SplitFrom(line: string, text: string): seq<string>
    decreases |text|
  {
    if text == "" then (if line == "" then [] else [line])
    else if text[0] == '\r' && |text| > 1 && text[1] == '\n' then [line] + SplitFrom("", text[2..])
    else if IsBoundary(text[0]) then [line] + SplitFrom("", text[1..])
    else SplitFrom(line + [text[0]], text[1..])
  }

  function SplitLines(text: string): seq<string> { SplitFrom("", text) }

  function Joined(lines: seq<string>): string {
    if lines == [] then "" else lines[0] + "\n" + Joined(lines[1..])
  }

  function Lines(es: seq<Event>): (r: seq<string>)
    ensures |r| == |es|
  {
    seq(|es|, i requires 0 <= i < |es| => Line(es[i]))
  }

  function FileText(es: seq<Event>): string { Joined(Lines(es)) }

  predicate OneLine(s: string) { forall c :: c in s ==> !IsBoundary(c) }

  lemma {:induction false} SplitWhole(line: string, s: string, rest: string)
    requires OneLine(s)
    ensures SplitFrom(line, s + "\n" + rest) == [line + s] + SplitFrom("", rest)
    decreases |s|
  {
    var text := s + "\n" + rest;
    if s == "" {
      assert text[0] == '\n' && text[1..] == rest && line + s == line;
    } else {
      assert s[0] in s && text[0] == s[0] && text[1..] == s[1..] + "\n" + rest;
      assert forall c :: c in s[1..] ==> c in s;
      SplitWhole(line + [s[0]], s[1..], rest);
      assert line + [s[0]] + s[1..] == line + s;
    }
  }

  /** A line with a break inside is cut at the first one. */
  lemma {:induction false} SplitCut(line: string, s: string, rest: string) returns (k: nat)
    requires !OneLine(s) && Printable(s)
    ensures k < |s| && IsBoundary(s[k])
    ensures SplitFrom(line, s + rest) != [] && SplitFrom(line, s + rest)[0] == line + s[..k]
    decreases |s|
  {
    var text := s + rest;
    assert text[0] == s[0] && text[1..] == s[1..] + rest && s[0] in s;
    if IsBoundary(s[0]) {
      k := 0;
      assert line + s[..0] == line;
    } else {
      assert s == [s[0]] + s[1..];
      assert forall c :: c in s[1..] ==> c in s;
      k := SplitCut(line + [s[0]], s[1..], rest);
      assert line + [s[0]] + s[1..][..k] == line + s[..k + 1];
      k := k + 1;
    }
  }

  /** The parser reads back what was written, and reads only whole objects. */
  ghost predicate ReadsJson(parse: Parser, es: seq<Event>) {
    && (forall i :: 0 <= i < |es| ==> parse(Line(es[i])) == Some(es[i]))
    && ReadsObjects(parse)
  }

  ghost predicate ReadsObjects(parse: Parser) { forall s :: parse(s).Some? ==> Balanced(Strip(s)) }

  lemma LineFacts(e: Event)
    ensures Balanced(Line(e)) && Printable(Line(e))
  {
    PrintedIsBalanced(LineMembers(e), Compact);
    PrintPrintable(Obj(LineMembers(e)), Compact);
  }

  /** Nothing shorter than an object is an object. */
  lemma PrefixUnbalanced(t: string, k: nat)
    requires Balanced(t) && 0 < k < |t|
    ensures !Balanced(Strip(t[..k]))
  {
    var r := t[..k];
    assert TrimStart(r) == r;
    var n := TrimEndFacts(r);
    assert r[..n] == t[0..n];
    assert t[0..|t|] == t;
    EndIsBalanced(t, 0, |t|);
    if n > 0 { EndIsBalanced(t, 0, n); }
  }

  lemma CutLineRejected(line: string, rest: string, parse: Parser)
    requires ReadsObjects(parse) && Balanced(line) && Printable(line) && !OneLine(line)
    ensures var lines := SplitLines(line + rest); lines != [] && parse(lines[0]).None?
  {
    var k := SplitCut("", line, rest);
    assert "" + line[..k] == line[..k];
    assert k > 0 by { assert line[0] == '{'; }
    PrefixUnbalanced(line, k);
  }

  lemma {:induction false} WholeLinesReadBack(lines: seq<string>)
    requires forall i :: 0 <= i < |lines| ==> OneLine(lines[i])
    ensures SplitLines(Joined(lines)) == lines
  {
    if lines != [] {
      WholeLinesReadBack(lines[1..]);
      SplitWhole("", lines[0], Joined(lines[1..]));
      assert "" + lines[0] == lines[0];
    }
  }

  lemma {:induction false} BrokenLinesRejected(lines: seq<string>, b: nat, parse: Parser) returns (k: nat)
    requires ReadsObjects(parse) && forall i :: 0 <= i < |lines| ==> Balanced(lines[i]) && Printable(lines[i])
    requires b < |lines| && !OneLine(lines[b])
    ensures k < |SplitLines(Joined(lines))| && parse(SplitLines(Joined(lines))[k]).None?
  {
    var rest := Joined(lines[1..]);
    if OneLine(lines[0]) {
      assert lines[1..][b - 1] == lines[b];
      k := BrokenLinesRejected(lines[1..], b - 1, parse);
      SplitWhole("", lines[0], rest);
      assert SplitLines(Joined(lines))[k + 1] == SplitLines(rest)[k];
      k := k + 1;
    } else {
      CutLineRejected(lines[0], "\n" + rest, parse);
      Assoc(lines[0], "\n", rest);
      k := 0;
    }
  }

  lemma WholeFileAccepted(es: seq<Event>, parse: Parser, digest: Digester)
    requires ReadsJson(parse, es) && es != [] && Chained(es, digest)
    requires forall i :: 0 <= i < |es| ==> OneLine(Line(es[i]))
    ensures Accepts(SplitLines(FileText(es)), parse, digest)
  {
    var lines := Lines(es);
    WholeLinesReadBack(lines);
    AcceptsIffChained(lines, parse, digest);
    assert Parsed(lines, parse) == es;
  }

  lemma BrokenFileRejected(es: seq<Event>, b: nat, parse: Parser, digest: Digester)
    requires ReadsObjects(parse) && b < |es| && !OneLine(Line(es[b]))
    ensures !Accepts(SplitLines(FileText(es)), parse, digest)
  {
    var lines := Lines(es);
    forall i | 0 <= i < |es| ensures Balanced(lines[i]) && Printable(lines[i]) { LineFacts(es[i]); }
    var k := BrokenLinesRejected(lines, b, parse);
    AcceptsIffChained(SplitLines(FileText(es)), parse, digest);
  }

  /** What the writer appends verifies, exactly when no stored line contains a character at
      which reading back breaks lines. */
  lemma WrittenFileVerifies(es: seq<Event>, parse: Parser, digest: Digester)
    requires ReadsJson(parse, es) && es != [] && Chained(es, digest)
    ensures Accepts(SplitLines(FileText(es)), parse, digest) <==> forall i :: 0 <= i < |es| ==> OneLine(Line(es[i]))
  {
    if forall i :: 0 <= i < |es| ==> OneLine(Line(es[i])) {
      WholeFileAccepted(es, parse, digest);
    } else {
      var b :| 0 <= b < |es| && !OneLine(Line(es[b]));
      BrokenFileRejected(es, b, parse, digest);
    }
  }

  // Which events have such a line: those with a break in one of their texts.

  const BREAKS: set<char> := {'\U{85}', '\U{2028}', '\U{2029}'}

  lemma {:induction false} EscapedBreak(s: string, c: char)
    requires c in BREAKS
    ensures c in EscapeAll(s) <==> c in s
  {
    if s != "" {
      EscapedBreak(s[1..], c);
      EscapeShape(s[0]);
      BreakInEscape(s[0], c);
      assert s == [s[0]] + s[1..];
    }
  }

  lemma BreakInEscape(d: char, c: char)
    requires c in BREAKS
    ensures c in Escape(d) <==> c == d
  {
  }

  predicate Flat(m: Member) { m.value.Str? || m.value.Null? || m.value.Num? }

  /** The character occurs in the member's text (or in its constant key). */
  predicate Mentions(m: Member, c: char) { c in m.key || (m.value.Str? && c in m.value.chars) }

  lemma InJoin(s: string, t: string, c: char)
    ensures c in s + t <==> c in s || c in t
  {
  }

  lemma BreakInQuote(s: string, c: char)
    requires c in BREAKS
    ensures c in Quote(s) <==> c in s
  {
    EscapedBreak(s, c);
    InJoin("\"" + EscapeAll(s), "\"", c);
    InJoin("\"", EscapeAll(s), c);
  }

  lemma BreakInMember(m: Member, c: char)
    requires c in BREAKS && Flat(m)
    ensures c in PrintMember(m, Compact) <==> Mentions(m, c)
  {
    BreakInQuote(m.key, c);
    InJoin(Quote(m.key) + ":", Print(m.value, Compact), c);
    InJoin(Quote(m.key), ":", c);
    if m.value.Str? {
      BreakInQuote(m.value.chars, c);
    } else {
      NumeralHasNoBreak(m.value, c);
    }
  }

  lemma NumeralHasNoBreak(j: Json, c: char)
    requires c in BREAKS && (j.Num? || j.Null?)
    ensures c !in Print(j, Compact)
  {
  }

  lemma {:induction false} BreakInMembers(members: seq<Member>, c: char)
    requires c in BREAKS && forall i :: 0 <= i < |members| ==> Flat(members[i])
    ensures c in PrintMembers(members, Compact) <==> exists i :: 0 <= i < |members| && Mentions(members[i], c)
  {
    if members != [] {
      BreakInMember(members[0], c);
      if |members| > 1 {
        BreakInMembers(members[1..], c);
        assert forall i :: 1 <= i < |members| ==> members[i] == members[1..][i - 1];
      }
    }
  }

  /** A text field of the event contains a line break character that JSON does not escape. */
  ghost predicate HasBreak(e: Event) {
    exists i, c :: 0 <= i < |LineMembers(e)| && c in BREAKS && Mentions(LineMembers(e)[i], c)
  }

  ghost predicate AllFlat(members: seq<Member>) { forall i :: 0 <= i < |members| ==> Flat(members[i]) }

  lemma NamedAreFlat(e: Event)
    ensures AllFlat(NamedMembers(e))
  {
  }

  lemma OptionalAreFlat(e: Event)
    ensures AllFlat(OptionalMembers(e))
  {
  }

  lemma JoinedAreFlat(s: seq<Member>, t: seq<Member>)
    requires AllFlat(s) && AllFlat(t)
    ensures AllFlat(s + t)
  {
  }

  lemma BreakInObject(members: seq<Member>, c: char)
    requires c in BREAKS && AllFlat(members)
    ensures c in Print(Obj(members), Compact) <==> exists i :: 0 <= i < |members| && Mentions(members[i], c)
  {
    BreakInMembers(members, c);
    BraceFirst(PrintMembers(members, Compact), c);
  }

  lemma BreakInLine(e: Event, c: char)
    requires c in BREAKS
    ensures c in Line(e) <==> exists i :: 0 <= i < |LineMembers(e)| && Mentions(LineMembers(e)[i], c)
  {
    NamedAreFlat(e);
    OptionalAreFlat(e);
    JoinedAreFlat(NamedMembers(e), OptionalMembers(e));
    BreakInObject(LineMembers(e), c);
  }

  lemma BraceFirst(body: string, c: char)
    requires c != '{'
    ensures c in "{" + body <==> c in body
  {
  }

  lemma BrokenLineIff(e: Event)
    ensures OneLine(Line(e)) <==> !HasBreak(e)
  {
    LineFacts(e);
    forall c | c in BREAKS ensures c in Line(e) <==> exists i :: 0 <= i < |LineMembers(e)| && Mentions(LineMembers(e)[i], c) {
      BreakInLine(e, c);
    }
    BreaksAreBoundaries(Line(e));
  }

  lemma BreaksAreBoundaries(s: string)
    requires Printable(s)
    ensures OneLine(s) <==> forall c :: c in BREAKS ==> c !in s
  {
  }

  /** The appended stream verifies if and only if no event carries U+0085, U+2028 or U+2029. */
  lemma WrittenFileVerifiesIff(es: seq<Event>, parse: Parser, digest: Digester)
    requires ReadsJson(parse, es) && es != [] && Chained(es, digest)
    ensures Accepts(SplitLines(FileText(es)), parse, digest) <==> forall i :: 0 <= i < |es| ==> !HasBreak(es[i])
  {
    WrittenFileVerifies(es, parse, digest);
    forall i | 0 <= i < |es| ensures OneLine(Line(es[i])) <==> !HasBreak(es[i]) { BrokenLineIff(es[i]); }
  }
}
