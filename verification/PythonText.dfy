/** Python's `str.strip`. */
module PythonText {
  /** Whether `str.strip` removes the character. */
  predicate IsSpace(c: char) {
    || '\t' <= c <= '\r' || '\U{1C}' <= c <= ' ' || c == '\U{85}' || c == '\U{A0}' || c == '\U{1680}'
    || '\U{2000}' <= c <= '\U{200A}' || c == '\U{2028}' || c == '\U{2029}' || c == '\U{202F}' || c == '\U{205F}' || c == '\U{3000}'
  }

  function TrimStart(s: string): string {
    if s != "" && IsSpace(s[0]) then TrimStart(s[1..]) else s
  }

  function TrimEnd(s: string): string {
    if s != "" && IsSpace(s[|s| - 1]) then TrimEnd(s[..|s| - 1]) else s
  }

  function Strip(s: string): string { TrimEnd(TrimStart(s)) }

  lemma {:induction false} TrimStartFacts(s: string) returns (k: nat)
    ensures k <= |s| && TrimStart(s) == s[k..] && (k < |s| ==> !IsSpace(s[k]))
    ensures forall n :: 0 <= n < k ==> IsSpace(s[n])
  {
    k := 0;
    if s != "" && IsSpace(s[0]) {
      var i := TrimStartFacts(s[1..]);
      k := i + 1;
      assert s[1..][i..] == s[k..];
      assert forall n :: 0 < n < k ==> s[n] == s[1..][n - 1];
    }
  }

  lemma {:induction false} TrimEndFacts(s: string) returns (k: nat)
    ensures k <= |s| && TrimEnd(s) == s[..k] && (k > 0 ==> !IsSpace(s[k - 1]))
    ensures forall n :: k <= n < |s| ==> IsSpace(s[n])
  {
    k := |s|;
    if s != "" && IsSpace(s[|s| - 1]) {
      k := TrimEndFacts(s[..|s| - 1]);
      assert s[..|s| - 1][..k] == s[..k];
    }
  }

  predicate IsPart(part: string, whole: string) { exists i, j :: 0 <= i <= j <= |whole| && part == whole[i..j] }

  lemma PartOfPart(a: string, b: string, c: string)
    requires IsPart(a, b) && IsPart(b, c)
    ensures IsPart(a, c)
  {
    var i, j :| 0 <= i <= j <= |b| && a == b[i..j];
    var k, l :| 0 <= k <= l <= |c| && b == c[k..l];
    assert |b| == l - k;
    forall n | 0 <= n < |a| ensures a[n] == c[k + i + n] { assert a[n] == b[i + n]; }
    assert a == c[k + i..k + j];
  }

  /** Stripping takes away exactly the white space at both ends. */
  lemma StripIs(s: string) returns (i: nat, j: nat)
    ensures i <= j <= |s| && Strip(s) == s[i..j]
    ensures forall n :: 0 <= n < i || j <= n < |s| ==> IsSpace(s[n])
    ensures i < j ==> !IsSpace(s[i]) && !IsSpace(s[j - 1])
  {
    i := TrimStartFacts(s);
    var l := TrimEndFacts(s[i..]);
    j := i + l;
    assert s[i..][..l] == s[i..j];
    assert forall n :: j <= n < |s| ==> s[n] == s[i..][n - i];
  }

  lemma StripIsPart(s: string)
    ensures IsPart(Strip(s), s)
  {
    var i, j := StripIs(s);
  }

  lemma StripStands(s: string)
    requires s != "" && !IsSpace(s[0]) && !IsSpace(s[|s| - 1])
    ensures Strip(s) == s
  {
  }
}
