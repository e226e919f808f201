/** When an object surrounded by brace-free text is found again. */
module ScannerRoundTrip {
  import opened Keyed
  import opened PythonText
  import opened Json
  import opened Scanner

  lemma {:induction false} TrimStartBefore(p: string, u: string)
    requires u != "" && !IsSpace(u[0])
    ensures TrimStart(p + u) == TrimStart(p) + u
  {
    if p == "" {
      assert p + u == u;
    } else {
      assert (p + u)[0] == p[0] && (p + u)[1..] == p[1..] + u;
      TrimStartBefore(p[1..], u);
    }
  }

  lemma {:induction false} TrimEndAfter(u: string, q: string)
    requires u != "" && !IsSpace(u[|u| - 1])
    ensures TrimEnd(u + q) == u + TrimEnd(q)
    decreases |q|
  {
    if q == "" {
      assert u + q == u;
    } else {
      var init := q[..|q| - 1];
      assert (u + q)[|u + q| - 1] == q[|q| - 1] && (u + q)[..|u + q| - 1] == u + init;
      TrimEndAfter(u, init);
    }
  }

  lemma StripAround(p: string, t: string, q: string)
    requires t != "" && !IsSpace(t[0]) && !IsSpace(t[|t| - 1])
    ensures Strip(p + t + q) == TrimStart(p) + t + TrimEnd(q)
  {
    Assoc(p, t, q);
    TrimStartBefore(p, t + q);
    Assoc(TrimStart(p), t, q);
    var u := TrimStart(p) + t;
    assert u[|u| - 1] == t[|t| - 1];
    TrimEndAfter(u, q);
  }

  lemma {:induction false} IndexOfJoin(a: string, b: string, c: char)
    ensures IndexOf(a + b, c) ==
      if c in a then IndexOf(a, c) else if IndexOf(b, c).Some? then Some(IndexOf(b, c).value + |a|) else None
  {
    IndexOfFacts(a, c);
    IndexOfFacts(b, c);
    if a == "" {
      assert a + b == b;
    } else {
      assert (a + b)[0] == a[0] && (a + b)[1..] == a[1..] + b;
      IndexOfJoin(a[1..], b, c);
      assert a == [a[0]] + a[1..];
    }
  }

  /** An object alone among brace-free text. */
  lemma ExtractFromAround(p: string, t: string, q: string)
    requires Balanced(t) && '{' !in p && '{' !in q
    ensures ExtractFrom(p + t + q) == Found(t)
  {
    var c := p + t + q;
    Assoc(p, t, q);
    IndexOfJoin(p, t + q, '{');
    assert (t + q)[0] == '{';
    assert IndexOf(c, '{') == Some(|p|);
    assert c[|p|..|p| + |t|] == t && c[|p| + |t|..] == q;
    EndIsBalanced(c, |p|, |p| + |t|);
  }

  lemma {:induction false} TrimKeeps(s: string, c: char)
    ensures c !in s ==> c !in TrimStart(s) && c !in TrimEnd(s)
  {
    var i := TrimStartFacts(s);
    var j := TrimEndFacts(s);
    assert forall x :: x in s[i..] || x in s[..j] ==> x in s;
  }

  predicate Printable(s: string) { forall c :: c in s ==> c >= ' ' }

  lemma PrintableJoin(s: string, t: string)
    requires Printable(s) && Printable(t)
    ensures Printable(s + t)
  {
  }

  lemma EscapePrintable(c: char)
    ensures Printable(Escape(c))
  {
  }

  lemma {:induction false} EscapedPrintable(s: string)
    ensures Printable(EscapeAll(s))
  {
    if s != "" {
      EscapePrintable(s[0]);
      EscapedPrintable(s[1..]);
      PrintableJoin(Escape(s[0]), EscapeAll(s[1..]));
    }
  }

  lemma QuotePrintable(s: string)
    ensures Printable(Quote(s))
  {
    EscapedPrintable(s);
    PrintableJoin("\"", EscapeAll(s));
    PrintableJoin("\"" + EscapeAll(s), "\"");
  }

  /** Printed JSON holds no raw line break. */
  lemma {:induction false} PrintPrintable(j: Json, style: Style)
    ensures Printable(Print(j, style))
    decreases j, 1
  {
    match j
    case Str(s) => QuotePrintable(s);
    case Arr(items) => ItemsPrintable(items, style); PrintableJoin("[", PrintItems(items, style));
    case Obj(members) => MembersPrintable(members, style); PrintableJoin("{", PrintMembers(members, style));
    case _ =>
  }

  lemma {:induction false} ItemsPrintable(items: seq<Json>, style: Style)
    ensures Printable(PrintItems(items, style))
    decreases items, 0
  {
    if items != [] {
      PrintPrintable(items[0], style);
      if |items| == 1 {
        PrintableJoin(Print(items[0], style), "]");
      } else {
        ItemsPrintable(items[1..], style);
        PrintableJoin(style.Comma(), PrintItems(items[1..], style));
        PrintableJoin(Print(items[0], style), style.Comma() + PrintItems(items[1..], style));
      }
    }
  }

  lemma {:induction false} MembersPrintable(members: seq<Member>, style: Style)
    ensures Printable(PrintMembers(members, style))
    decreases members, 0
  {
    if members != [] {
      var m := members[0];
      QuotePrintable(m.key);
      PrintPrintable(m.value, style);
      PrintableJoin(Quote(m.key), style.Colon());
      PrintableJoin(Quote(m.key) + style.Colon(), Print(m.value, style));
      if |members| == 1 {
        PrintableJoin(PrintMember(m, style), "}");
      } else {
        MembersPrintable(members[1..], style);
        PrintableJoin(style.Comma(), PrintMembers(members[1..], style));
        PrintableJoin(PrintMember(m, style), style.Comma() + PrintMembers(members[1..], style));
      }
    }
  }

  /** The answer looks like a code fence whose first line break comes after the object. */
  predicate CutAway(p: string, t: string, q: string) {
    Fenced(TrimStart(p) + t + TrimEnd(q)) && '\n' !in TrimStart(p) && '\n' in TrimEnd(q)
  }

  lemma FenceAfter(p: string, t: string, q: string)
    requires t != "" && t[|t| - 1] == '}' && Fenced(p + t + q)
    ensures |q| >= 3
  {
    var c := p + t + q;
    assert c[|c| - 3..] == FENCE;
    assert c[|p| + |t| - 1] == '}';
    forall i | |c| - 3 <= i < |c| ensures c[i] == '`' {
      assert c[|c| - 3..][i - (|c| - 3)] == c[i];
    }
  }

  lemma PartLacks(part: string, whole: string, c: char)
    requires IsPart(part, whole) && c !in whole
    ensures c !in part
  {
  }

  lemma UnfencedIs(c: string, n: nat)
    requires Fenced(c) && IndexOf(c, '\n') == Some(n)
    ensures Unfenced(c) == InsideFence(c, n)
  {
  }

  lemma StrippedObject(p: string, t: string, q: string)
    requires Balanced(t) && Printable(t) && '{' !in p && '{' !in q
    ensures ExtractFrom(Strip(p + t + q)) == Found(t)
  {
    StripAround(p, t, q);
    TrimKeeps(p, '{');
    TrimKeeps(q, '{');
    ExtractFromAround(TrimStart(p), t, TrimEnd(q));
  }

  lemma Middle(p: string, t: string, q: string, n: nat)
    requires n < |p| && |q| >= 3
    ensures |p + t + q| == |p| + |t| + |q|
    ensures (p + t + q)[n + 1..|p + t + q| - 3] == p[n + 1..] + t + q[..|q| - 3]
  {
  }

  lemma FencedInside(p: string, t: string, q: string, n: nat)
    requires Balanced(t) && Printable(t) && '{' !in p && '{' !in q && |q| >= 3 && n < |p|
    requires Fenced(p + t + q) && IndexOf(p + t + q, '\n') == Some(n)
    ensures ExtractFrom(Unfenced(p + t + q)) == Found(t)
  {
    var p', q' := p[n + 1..], q[..|q| - 3];
    FenceIsOff(p, t, q, n);
    PartLacks(p[n + 1..|p|], p, '{');
    PartLacks(q[0..|q| - 3], q, '{');
    assert '{' !in p' && '{' !in q';
    StrippedObject(p', t, q');
  }

  lemma FenceIsOff(p: string, t: string, q: string, n: nat)
    requires |q| >= 3 && n < |p| && Fenced(p + t + q) && IndexOf(p + t + q, '\n') == Some(n)
    ensures Unfenced(p + t + q) == Strip(p[n + 1..] + t + q[..|q| - 3])
  {
    Middle(p, t, q, n);
    UnfencedIs(p + t + q, n);
  }

  lemma FencedText(p: string, t: string, q: string)
    requires Balanced(t) && Printable(t) && '{' !in p && '{' !in q
    requires Fenced(p + t + q)
    ensures ExtractFrom(Unfenced(p + t + q)) ==
      if '\n' !in p && '\n' in q then Failed(NoObject) else Found(t)
  {
    var c := p + t + q;
    assert '\n' !in t;
    Assoc(p, t, q);
    IndexOfJoin(p, t + q, '\n');
    IndexOfJoin(t, q, '\n');
    FenceAfter(p, t, q);
    IndexOfFacts(p, '\n');
    IndexOfFacts(q, '\n');
    if '\n' in p {
      FencedInside(p, t, q, IndexOf(p, '\n').value);
    } else if '\n' in q {
      var n := IndexOf(q, '\n').value + |t| + |p|;
      assert IndexOf(c, '\n') == Some(n);
      NoObjectAfter(p + t, q, n);
    } else {
      ExtractFromAround(p, t, q);
    }
  }

  lemma NoObjectAfter(u: string, q: string, n: nat)
    requires '{' !in q && |u| <= n && n + 1 <= |u + q| && IndexOf(u + q, '\n') == Some(n) && Fenced(u + q)
    ensures ExtractFrom(Unfenced(u + q)) == Failed(NoObject)
  {
    var c := u + q;
    UnfencedIs(c, n);
    if n + 1 <= |c| - 3 {
      var rest := c[n + 1..|c| - 3];
      assert rest == q[n + 1 - |u|..|q| - 3];
      PartLacks(rest, q, '{');
      StripIsPart(rest);
      PartLacks(Strip(rest), rest, '{');
      IndexOfFacts(Strip(rest), '{');
    }
  }

  /** A printed object between brace-free texts is extracted exactly, unless the whole looks
      like a fence whose first line break follows the object: then it is lost. */
  lemma PrintedObjectIsFound(p: string, members: seq<Member>, style: Style, q: string)
    requires '{' !in p && '{' !in q
    ensures var t := Print(Obj(members), style);
      Extract(p + t + q) == if CutAway(p, t, q) then Failed(NoObject) else Found(t)
  {
    var t := Print(Obj(members), style);
    PrintedIsBalanced(members, style);
    PrintPrintable(Obj(members), style);
    StripAround(p, t, q);
    TrimKeeps(p, '{');
    TrimKeeps(q, '{');
    if Fenced(TrimStart(p) + t + TrimEnd(q)) {
      FencedText(TrimStart(p), t, TrimEnd(q));
    } else {
      ExtractFromAround(TrimStart(p), t, TrimEnd(q));
    }
  }
}
