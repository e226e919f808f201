/** Finding the one JSON object in a model's answer. */
module Scanner {
  import opened Keyed
  import opened PythonText
  import opened Json

  /** `s.find(c)` */
  function IndexOf(s: string, c: char): (r: Option<nat>)
    ensures r.Some? ==> r.value < |s|
  {
    if s == "" then None
    else if s[0] == c then Some(0)
    else
      var rest := IndexOf(s[1..], c);
      if rest.Some? then Some(rest.value + 1) else None
  }

  const FENCE := "```"

  predicate EndsWith(s: string, t: string) { |s| >= |t| && s[|s| - |t|..] == t }

  predicate Fenced(s: string) { FENCE <= s && EndsWith(s, FENCE) }

  /** The stripped text between the first line break and the closing fence. */
  function InsideFence(candidate: string, newline: nat): string {
    if newline + 1 <= |candidate| - 3 then Strip(candidate[newline + 1..|candidate| - 3]) else ""
  }

  /** The text inside a code fence, or the text itself. */
  function Unfenced(candidate: string): string {
    if Fenced(candidate) then
      var newline := IndexOf(candidate, '\n');
      if newline.Some? then InsideFence(candidate, newline.value) else candidate
    else
      candidate
  }

  /** What the scanning loop remembers. */
  datatype Mode = Mode(depth: int, inString: bool, escaped: bool)

  const OUTSIDE := Mode(0, false, false)

  function Next(m: Mode, c: char): Mode {
    if m.inString then
      if m.escaped then m.(escaped := false)
      else if c == '\\' then m.(escaped := true)
      else if c == '\"' then m.(inString := false)
      else m
    else if c == '\"' then m.(inString := true)
    else if c == '{' then m.(depth := m.depth + 1)
    else if c == '}' then m.(depth := m.depth - 1)
    else m
  }

  function Feed(m: Mode, s: string): Mode
    decreases |s|
  {
    if s == "" then m else Feed(Next(m, s[0]), s[1..])
  }

  /** The end of the object that starts at `i`, if the scan reaches depth zero again. */
  function End(s: string, i: nat, m: Mode): (r: Option<nat>)
    requires i <= |s|
    ensures r.Some? ==> i < r.value <= |s|
    decreases |s| - i
  {
    if i == |s| then None
    else
      var m' := Next(m, s[i]);
      if !m.inString && s[i] == '}' && m'.depth <= 0 then (if m'.depth == 0 then Some(i + 1) else None)
      else End(s, i + 1, m')
  }

  datatype Failure = NoObject | Incomplete | SeveralObjects

  datatype Extraction = Found(text: string) | Failed(failure: Failure)

  function ExtractFrom(candidate: string): Extraction {
    var start := IndexOf(candidate, '{');
    if start.None? then Failed(NoObject)
    else
      var end := End(candidate, start.value, OUTSIDE);
      if end.None? then Failed(Incomplete)
      else if '{' in candidate[end.value..] then Failed(SeveralObjects)
      else Found(candidate[start.value..end.value])
  }

  /** `extract_json_block` */
  function Extract(raw: string): Extraction { ExtractFrom(Unfenced(Strip(raw))) }

  /** The scanning loop. Its check for a negative depth never fires: the scan starts on an
      opening brace and stops at depth zero. */
  method ExtractJsonBlock(raw: string) returns (r: Extraction)
    ensures r == Extract(raw)
  {
    var candidate := Unfenced(Strip(raw));
    var found := IndexOf(candidate, '{');
    IndexOfFacts(candidate, '{');
    if found.None? { return Failed(NoObject); }
    var start := found.value;
    var depth, inString, escaped := 0, false, false;
    var end: Option<nat> := None;
    var index := start;
    while index < |candidate| && end.None?
      invariant start <= index <= |candidate|
      invariant if index == start then depth == 0 && !inString && !escaped else end.None? ==> depth >= 1
      invariant end.None? ==> End(candidate, start, OUTSIDE) == End(candidate, index, Mode(depth, inString, escaped))
      invariant end.Some? ==> End(candidate, start, OUTSIDE) == end && depth == 0 && !inString
      decreases |candidate| - index
    {
      var character := candidate[index];
      if inString {
        if escaped { escaped := false; }
        else if character == '\\' { escaped := true; }
        else if character == '\"' { inString := false; }
      } else if character == '\"' {
        inString := true;
      } else if character == '{' {
        depth := depth + 1;
      } else if character == '}' {
        depth := depth - 1;
        if depth == 0 { end := Some(index + 1); }
        else if depth < 0 { assert false; }
      }
      index := index + 1;
    }
    if end.None? || depth != 0 || inString { return Failed(Incomplete); }
    if '{' in candidate[end.value..] { return Failed(SeveralObjects); }
    return Found(candidate[start..end.value]);
  }

  lemma {:induction false} IndexOfFacts(s: string, c: char)
    ensures var r := IndexOf(s, c);
      && (r.Some? ==> r.value < |s| && s[r.value] == c && c !in s[..r.value])
      && (r.None? <==> c !in s)
  {
    if s != "" && s[0] != c {
      IndexOfFacts(s[1..], c);
      var r := IndexOf(s[1..], c);
      if r.Some? { assert s[..r.value + 1] == [s[0]] + s[1..][..r.value]; }
    }
  }

  lemma {:induction false} FeedJoin(m: Mode, s: string, t: string)
    ensures Feed(m, s + t) == Feed(Feed(m, s), t)
    decreases |s|
  {
    if s == "" {
      assert s + t == t;
    } else {
      assert (s + t)[0] == s[0] && (s + t)[1..] == s[1..] + t;
      FeedJoin(Next(m, s[0]), s[1..], t);
    }
  }

  /** The scan stays inside an object all through `s`. */
  predicate StaysOpen(m: Mode, s: string)
    decreases |s|
  {
    s == "" || (Next(m, s[0]).depth >= 1 && StaysOpen(Next(m, s[0]), s[1..]))
  }

  lemma {:induction false} StaysOpenJoin(m: Mode, s: string, t: string)
    ensures StaysOpen(m, s + t) <==> StaysOpen(m, s) && StaysOpen(Feed(m, s), t)
    decreases |s|
  {
    if s == "" {
      assert s + t == t;
    } else {
      assert (s + t)[0] == s[0] && (s + t)[1..] == s[1..] + t;
      StaysOpenJoin(Next(m, s[0]), s[1..], t);
    }
  }

  /** A balanced object: it closes at its last character and not before. */
  predicate Balanced(s: string) {
    |s| >= 2 && s[0] == '{' && s[|s| - 1] == '}' && StaysOpen(OUTSIDE, s[..|s| - 1]) && Feed(OUTSIDE,
        s[..|s| - 1]) == Mode(1, false, false)
  }

  lemma {:induction false} EndAfterOpen(s: string, i: nat, k: nat, m: Mode)
    requires i + k <= |s| && StaysOpen(m, s[i..i + k])
    ensures End(s, i, m) == End(s, i + k, Feed(m, s[i..i + k]))
    decreases k
  {
    if k > 0 {
      var t := s[i..i + k];
      assert t[0] == s[i] && t[1..] == s[i + 1..i + 1 + (k - 1)];
      EndAfterOpen(s, i + 1, k - 1, Next(m, s[i]));
    }
  }

  /** How the scan can find an end: it stayed open up to a closing brace at depth one. */
  lemma {:induction false} EndMeans(s: string, i: nat, m: Mode)
    requires i < |s| && m.depth >= 0 && (m.depth == 0 ==> s[i] == '{' && !m.inString)
    ensures End(s, i, m).Some? ==> var e := End(s, i, m).value;
      && i < e <= |s| && s[e - 1] == '}' && StaysOpen(m, s[i..e - 1])
      && Feed(m, s[i..e - 1]) == Mode(1, false, Feed(m, s[i..e - 1]).escaped)
    decreases |s| - i
  {
    var m' := Next(m, s[i]);
    if !m.inString && s[i] == '}' && m'.depth <= 0 {
      assert s[i..i] == "";
    } else if i + 1 < |s| {
      EndMeans(s, i + 1, m');
      if End(s, i, m).Some? {
        var e := End(s, i, m).value;
        assert s[i..e - 1][0] == s[i] && s[i..e - 1][1..] == s[i + 1..e - 1];
      }
    }
  }

  lemma {:induction false} EscapedOnlyInString(m: Mode, s: string)
    requires m.escaped ==> m.inString
    ensures Feed(m, s).escaped ==> Feed(m, s).inString
    decreases |s|
  {
    if s != "" { EscapedOnlyInString(Next(m, s[0]), s[1..]); }
  }

  /** The scan from an opening brace ends at `e` exactly when the text up to `e` is balanced. */
  lemma EndIsBalanced(s: string, i: nat, e: nat)
    requires i < e <= |s| && s[i] == '{'
    ensures End(s, i, OUTSIDE) == Some(e) <==> Balanced(s[i..e])
  {
    var t := s[i..e];
    assert t[..|t| - 1] == s[i..e - 1];
    EndMeans(s, i, OUTSIDE);
    EscapedOnlyInString(OUTSIDE, s[i..e - 1]);
    assert s[i..i] == "";
    if Balanced(t) {
      EndAfterOpen(s, i, e - 1 - i, OUTSIDE);
      assert i + (e - 1 - i) == e - 1;
    }
  }

  lemma UnfencedIsPart(s: string)
    ensures IsPart(Unfenced(s), s)
  {
    IndexOfFacts(s, '\n');
    var newline := IndexOf(s, '\n');
    if Fenced(s) && newline.Some? && newline.value + 1 <= |s| - 3 {
      StripIsPart(s[newline.value + 1..|s| - 3]);
      assert IsPart(s[newline.value + 1..|s| - 3], s);
      PartOfPart(Unfenced(s), s[newline.value + 1..|s| - 3], s);
    } else if Fenced(s) && newline.Some? {
      assert Unfenced(s) == s[0..0];
    } else {
      assert Unfenced(s) == s[0..|s|];
    }
  }

  /** What is extracted is a balanced object occurring in the answer. */
  lemma ExtractedIsBalanced(raw: string)
    requires Extract(raw).Found?
    ensures Balanced(Extract(raw).text) && IsPart(Extract(raw).text, raw)
  {
    var c := Unfenced(Strip(raw));
    IndexOfFacts(c, '{');
    var start := IndexOf(c, '{').value;
    EndMeans(c, start, OUTSIDE);
    var end := End(c, start, OUTSIDE).value;
    EndIsBalanced(c, start, end);
    StripIsPart(raw);
    UnfencedIsPart(Strip(raw));
    assert IsPart(c[start..end], c);
    PartOfPart(c, Strip(raw), raw);
    PartOfPart(c[start..end], c, raw);
  }

  lemma BalancedExtractsItself(s: string)
    requires Balanced(s)
    ensures Extract(s) == Found(s)
  {
    StripStands(s);
    assert IndexOf(s, '{') == Some(0);
    EndIsBalanced(s, 0, |s|);
    assert s[0..|s|] == s && s[|s|..] == "";
  }

  /** Extracting from an extracted object gives it back. */
  lemma ExtractTwice(raw: string)
    requires Extract(raw).Found?
    ensures Extract(Extract(raw).text) == Extract(raw)
  {
    ExtractedIsBalanced(raw);
    BalancedExtractsItself(Extract(raw).text);
  }

  // A printed object is scanned back exactly.

  lemma EscapeFeeds(m: Mode, c: char)
    requires m.inString && !m.escaped && m.depth >= 1
    ensures Feed(m, Escape(c)) == m && StaysOpen(m, Escape(c))
  {
    EscapeShape(c);
    var e := Escape(c);
    if |e| == 1 {
      assert e[1..] == "";
    } else {
      var n := Next(m, e[0]);
      assert e[1..][0] == e[1] && e[1..][1..] == e[2..];
      assert Feed(m, e) == Feed(Next(n, e[1]), e[2..]);
    }
    if |e| == 6 {
      HexIsPlain(c as int / 16);
      HexIsPlain(c as int % 16);
      PlainFeeds(m, e[2..]);
    }
  }

  lemma HexIsPlain(n: nat)
    requires n < 16
    ensures HexDigit(n) != '\\' && HexDigit(n) != '\"'
  {
  }

  lemma {:induction false} PlainFeeds(m: Mode, s: string)
    requires m.inString && !m.escaped && m.depth >= 1 && '\\' !in s && '\"' !in s
    ensures Feed(m, s) == m && StaysOpen(m, s)
    decreases |s|
  {
    if s != "" { PlainFeeds(m, s[1..]); }
  }

  lemma {:induction false} EscapedFeeds(m: Mode, s: string)
    requires m.inString && !m.escaped && m.depth >= 1
    ensures Feed(m, EscapeAll(s)) == m && StaysOpen(m, EscapeAll(s))
    decreases |s|
  {
    if s != "" {
      EscapeFeeds(m, s[0]);
      EscapedFeeds(m, s[1..]);
      FeedJoin(m, Escape(s[0]), EscapeAll(s[1..]));
      StaysOpenJoin(m, Escape(s[0]), EscapeAll(s[1..]));
    }
  }

  ghost predicate Passes(m: Mode, s: string) { Feed(m, s) == m && StaysOpen(m, s) }

  lemma PassesJoin(m: Mode, s: string, t: string)
    requires Passes(m, s) && Passes(m, t)
    ensures Passes(m, s + t)
  {
    FeedJoin(m, s, t);
    StaysOpenJoin(m, s, t);
  }

  lemma QuoteFeeds(m: Mode, s: string)
    requires !m.inString && !m.escaped && m.depth >= 1
    ensures Passes(m, Quote(s))
  {
    var n := m.(inString := true);
    EscapedFeeds(n, s);
    FeedJoin(n, EscapeAll(s), "\"");
    StaysOpenJoin(n, EscapeAll(s), "\"");
    assert Feed(n, "\"") == m;
    assert Quote(s)[0] == '\"' && Quote(s)[1..] == EscapeAll(s) + "\"";
  }

  lemma {:induction false} NeutralFeeds(m: Mode, s: string)
    requires !m.inString && !m.escaped && m.depth >= 1 && '\"' !in s && '{' !in s && '}' !in s
    ensures Passes(m, s)
    decreases |s|
  {
    if s != "" { NeutralFeeds(m, s[1..]); }
  }

  /** A body that passes one level deeper passes in braces. */
  lemma BracesFeed(m: Mode, body: string)
    requires !m.inString && !m.escaped && m.depth >= 1 && Passes(m.(depth := m.depth + 1), body)
    ensures Passes(m, "{" + (body + "}"))
  {
    var n := m.(depth := m.depth + 1);
    FeedJoin(n, body, "}");
    StaysOpenJoin(n, body, "}");
    assert Feed(n, "}") == m;
    var t := "{" + (body + "}");
    assert t[0] == '{' && t[1..] == body + "}";
  }

  lemma {:induction false} PrintFeeds(j: Json, style: Style, m: Mode)
    requires !m.inString && !m.escaped && m.depth >= 1
    ensures Passes(m, Print(j, style))
    decreases j, 1
  {
    match j
    case Str(s) => QuoteFeeds(m, s);
    case Arr(items) =>
      NeutralFeeds(m, "[");
      ItemsFeed(items, style, m);
      PassesJoin(m, "[", PrintItems(items, style));
    case Obj(members) =>
      MembersFeed(members, style, m.(depth := m.depth + 1));
      BracesFeed(m, MembersBody(members, style));
      assert Print(j, style) == "{" + (MembersBody(members, style) + "}");
    case Null => NeutralFeeds(m, "null");
    case Bool(_) => NeutralFeeds(m, Print(j, style));
    case Num(text) => NeutralFeeds(m, text);
  }

  lemma {:induction false} ItemsFeed(items: seq<Json>, style: Style, m: Mode)
    requires !m.inString && !m.escaped && m.depth >= 1
    ensures Passes(m, PrintItems(items, style))
    decreases items, 0
  {
    NeutralFeeds(m, "]");
    if items != [] {
      PrintFeeds(items[0], style, m);
      if |items| == 1 {
        PassesJoin(m, Print(items[0], style), "]");
      } else {
        NeutralFeeds(m, style.Comma());
        ItemsFeed(items[1..], style, m);
        PassesJoin(m, style.Comma(), PrintItems(items[1..], style));
        PassesJoin(m, Print(items[0], style), style.Comma() + PrintItems(items[1..], style));
      }
    }
  }

  /** The printed members without the closing brace. */
  function MembersBody(members: seq<Member>, style: Style): string {
    if members == [] then ""
    else PrintMember(members[0], style) + (if |members| == 1 then "" else style.Comma() + MembersBody(members[1..], style))
  }

  lemma {:induction false} BodyCloses(members: seq<Member>, style: Style)
    ensures PrintMembers(members, style) == MembersBody(members, style) + "}"
  {
    if |members| > 1 {
      BodyCloses(members[1..], style);
      Assoc(style.Comma(), MembersBody(members[1..], style), "}");
      Assoc(PrintMember(members[0], style), style.Comma() + MembersBody(members[1..], style), "}");
    }
  }

  lemma {:induction false} MembersFeed(members: seq<Member>, style: Style, m: Mode)
    requires !m.inString && !m.escaped && m.depth >= 1
    ensures Passes(m, MembersBody(members, style))
    ensures PrintMembers(members, style) == MembersBody(members, style) + "}"
    decreases members, 0
  {
    BodyCloses(members, style);
    if members != [] {
      MemberFeeds(members[0], style, m);
      if |members| == 1 {
        PassesJoin(m, PrintMember(members[0], style), "");
      } else {
        NeutralFeeds(m, style.Comma());
        MembersFeed(members[1..], style, m);
        PassesJoin(m, style.Comma(), MembersBody(members[1..], style));
        PassesJoin(m, PrintMember(members[0], style), style.Comma() + MembersBody(members[1..], style));
      }
    }
  }

  lemma {:induction false} MemberFeeds(mem: Member, style: Style, m: Mode)
    requires !m.inString && !m.escaped && m.depth >= 1
    ensures Passes(m, PrintMember(mem, style))
    decreases mem, 0
  {
    QuoteFeeds(m, mem.key);
    NeutralFeeds(m, style.Colon());
    PrintFeeds(mem.value, style, m);
    PassesJoin(m, Quote(mem.key), style.Colon());
    PassesJoin(m, Quote(mem.key) + style.Colon(), Print(mem.value, style));
  }

  /** The text of any object is balanced. */
  lemma PrintedIsBalanced(members: seq<Member>, style: Style)
    ensures Balanced(Print(Obj(members), style))
  {
    var body := MembersBody(members, style);
    MembersFeed(members, style, Mode(1, false, false));
    Assoc("{", body, "}");
    ClosedBody(body);
  }

  lemma ClosedBody(body: string)
    requires Passes(Mode(1, false, false), body)
    ensures Balanced("{" + body + "}")
  {
  }
}
