/** JSON trees and how the serializer writes them. */
module Json {

  const NUMERAL_CHARS: set<char> := {'0', '1', '2', '3', '4', '5', '6', '7', '8', '9', '-', '+', '.', 'e', 'E'}

  /** The text of a number; two numbers are the same value when their texts agree. */
  type Numeral = s: string | s != "" && forall c :: c in s ==> c in NUMERAL_CHARS witness "0"

  datatype Json =
    | Null
    | Bool(bit: bool)
    | Num(text: Numeral)
    | Str(chars: string)
    | Arr(items: seq<Json>)
    | Obj(members: seq<Member>)

  datatype Member = Member(key: string, value: Json)

  /** `separators=(",", ":")`, or the default `(", ", ": ")`. */
  datatype Style = Compact | Spaced {
    function Comma(): string { if Compact? then "," else ", " }
    function Colon(): string { if Compact? then ":" else ": " }
  }

  function HexDigit(n: nat): char
    requires n < 16
  {
    "0123456789abcdef"[n]
  }

  /** Section 7 of RFC 8259 with `ensure_ascii=False`: only quotes, backslashes and
      control characters are escaped. */
  function Escape(c: char): string {
    if c == '\"' then "\\\""
    else if c == '\\' then "\\\\"
    else if c == '\n' then "\\n"
    else if c == '\r' then "\\r"
    else if c == '\t' then "\\t"
    else if c == '\U{8}' then "\\b"
    else if c == '\U{C}' then "\\f"
    else if c < ' ' then "\\u00" + [HexDigit(c as int / 16), HexDigit(c as int % 16)]
    else [c]
  }

  function EscapeAll(s: string): string {
    if s == "" then "" else Escape(s[0]) + EscapeAll(s[1..])
  }

  function Quote(s: string): string { "\"" + EscapeAll(s) + "\"" }

  function Print(j: Json, style: Style): string
    decreases j, 0
  {
    match j
    case Null => "null"
    case Bool(b) => if b then "true" else "false"
    case Num(text) => text
    case Str(s) => Quote(s)
    case Arr(items) => "[" + PrintItems(items, style)
    case Obj(members) => "{" + PrintMembers(members, style)
  }

  /** The items with their separators and the closing bracket. */
  function PrintItems(items: seq<Json>, style: Style): string
    decreases items, 0
  {
    if items == [] then "]"
    else Print(items[0], style) + (if |items| == 1 then "]" else style.Comma() + PrintItems(items[1..], style))
  }

  function PrintMember(m: Member, style: Style): string
    decreases m, 0
  {
    Quote(m.key) + style.Colon() + Print(m.value, style)
  }

  function PrintMembers(members: seq<Member>, style: Style): string
    decreases members, 0
  {
    if members == [] then "}"
    else PrintMember(members[0], style) + (if |members| == 1 then "}" else style.Comma() + PrintMembers(members[1..], style))
  }

  // Printing is injective: a printed tree can be read back in only one way.

  lemma Assoc(a: string, b: string, c: string)
    ensures (a + b) + c == a + (b + c)
  {
  }

  lemma HeadOf(a: string, b: string)
    requires a != ""
    ensures a + b != "" && (a + b)[0] == a[0]
  {
  }

  lemma SameHead(a: string, b: string, x: string, y: string)
    requires a + x == b + y && a != "" && b != ""
    ensures a[0] == b[0] && a[1..] + x == b[1..] + y
  {
    assert (a + x)[0] == a[0] && (b + y)[0] == b[0];
    assert (a + x)[1..] == a[1..] + x && (b + y)[1..] == b[1..] + y;
  }

  lemma SameLength(a: string, b: string, x: string, y: string)
    requires a + x == b + y && |a| == |b|
    ensures a == b && x == y
  {
    assert a == (a + x)[..|a|] && b == (b + y)[..|b|];
    assert x == (a + x)[|a|..] && y == (b + y)[|b|..];
  }

  /** A text is either alone or followed by something that ends a value. */
  predicate Delimited(x: string) { x == "" || x[0] == ',' || x[0] == ']' || x[0] == '}' }

  lemma NumeralHead(a: string, x: string)
    requires (forall c :: c in a ==> c in NUMERAL_CHARS) && Delimited(x)
    ensures a == "" <==> a + x == "" || (a + x)[0] !in NUMERAL_CHARS
  {
  }

  lemma {:induction false} NumeralEnds(a: string, b: string, x: string, y: string)
    requires (forall c :: c in a ==> c in NUMERAL_CHARS) && (forall c :: c in b ==> c in NUMERAL_CHARS)
    requires Delimited(x) && Delimited(y) && a + x == b + y
    ensures a == b && x == y
  {
    NumeralHead(a, x);
    NumeralHead(b, y);
    if a == "" {
      SameLength(a, b, x, y);
    } else {
      SameHead(a, b, x, y);
      assert forall c :: c in a[1..] ==> c in a;
      assert forall c :: c in b[1..] ==> c in b;
      NumeralEnds(a[1..], b[1..], x, y);
      assert a == [a[0]] + a[1..] && b == [b[0]] + b[1..];
    }
  }

  predicate Plain(c: char) { c >= ' ' && c != '\"' && c != '\\' }

  lemma EscapeShape(c: char)
    ensures Escape(c) != "" && Escape(c)[0] != '\"'
    ensures Plain(c) ==> Escape(c) == [c]
    ensures !Plain(c) ==> |Escape(c)| >= 2 && Escape(c)[0] == '\\'
    ensures !Plain(c) ==> (|Escape(c)| == 6 <==> Escape(c)[1] == 'u') && (|Escape(c)| == 2 || |Escape(c)| == 6)
    ensures |Escape(c)| == 6 ==> (c as int) < 32 && Escape(c)[4] == HexDigit(c as int / 16) && Escape(c)[5] == HexDigit(c as int % 16)
  {
  }

  lemma HexDigitInjective(m: nat, n: nat)
    requires m < 16 && n < 16 && HexDigit(m) == HexDigit(n)
    ensures m == n
  {
  }

  /** The escape of a character shows which character it was. */
  lemma EscapeInjective(c: char, d: char, x: string, y: string)
    requires Escape(c) + x == Escape(d) + y
    ensures c == d && x == y
  {
    EscapeShape(c);
    EscapeShape(d);
    SameHead(Escape(c), Escape(d), x, y);
    if Plain(c) {
      SameLength(Escape(c), Escape(d), x, y);
    } else {
      SameHead(Escape(c)[1..], Escape(d)[1..], x, y);
      SameLength(Escape(c), Escape(d), x, y);
      if |Escape(c)| == 6 {
        HexDigitInjective(c as int / 16, d as int / 16);
        HexDigitInjective(c as int % 16, d as int % 16);
        assert c as int == d as int;
      }
    }
  }

  lemma QuotedHead(s: string, x: string)
    ensures s == "" <==> (EscapeAll(s) + "\"" + x)[0] == '\"'
    ensures s != "" ==> EscapeAll(s) + "\"" + x == Escape(s[0]) + (EscapeAll(s[1..]) + "\"" + x)
  {
  }

  lemma {:induction false} QuotedEnds(s: string, t: string, x: string, y: string)
    requires EscapeAll(s) + "\"" + x == EscapeAll(t) + "\"" + y
    ensures s == t && x == y
  {
    QuotedHead(s, x);
    QuotedHead(t, y);
    if s == "" {
      SameLength(EscapeAll(s) + "\"", EscapeAll(t) + "\"", x, y);
    } else {
      EscapeInjective(s[0], t[0], EscapeAll(s[1..]) + "\"" + x, EscapeAll(t[1..]) + "\"" + y);
      QuotedEnds(s[1..], t[1..], x, y);
      assert s == [s[0]] + s[1..] && t == [t[0]] + t[1..];
    }
  }

  lemma QuoteEnds(s: string, t: string, x: string, y: string)
    requires Quote(s) + x == Quote(t) + y
    ensures s == t && x == y
  {
    assert Quote(s) + x == "\"" + (EscapeAll(s) + "\"" + x);
    assert Quote(t) + y == "\"" + (EscapeAll(t) + "\"" + y);
    SameLength("\"", "\"", EscapeAll(s) + "\"" + x, EscapeAll(t) + "\"" + y);
    QuotedEnds(s, t, x, y);
  }

  function Tag(j: Json): char {
    match j
    case Null => 'n'
    case Bool(b) => if b then 't' else 'f'
    case Num(text) => text[0]
    case Str(_) => '\"'
    case Arr(_) => '['
    case Obj(_) => '{'
  }

  /** The first character of a printed tree, which tells its kind. */
  lemma PrintHead(j: Json, style: Style)
    ensures Print(j, style) != "" && Print(j, style)[0] == Tag(j)
    ensures Tag(j) != ']' && Tag(j) != '}' && Tag(j) != ','
    ensures j.Num? <==> Tag(j) in NUMERAL_CHARS
  {
  }

  lemma {:induction false} PrintEnds(a: Json, b: Json, style: Style, x: string, y: string)
    requires Print(a, style) + x == Print(b, style) + y && Delimited(x) && Delimited(y)
    ensures a == b && x == y
    decreases a, 0
  {
    PrintHead(a, style);
    PrintHead(b, style);
    SameHead(Print(a, style), Print(b, style), x, y);
    assert Tag(a) == Tag(b);
    match a
    case Num(text) => NumeralEnds(a.text, b.text, x, y);
    case Str(s) => QuoteEnds(s, b.chars, x, y);
    case Arr(items) => ItemsEnd(items, b.items, style, x, y);
    case Obj(members) => MembersEnd(members, b.members, style, x, y);
    case Null => SameLength(Print(a, style), Print(b, style), x, y);
    case Bool(_) => SameLength(Print(a, style), Print(b, style), x, y);
  }

  /** What follows the first item: the closing bracket, or a separator and the rest. */
  function AfterItems(s: seq<Json>, style: Style): string
    requires s != []
  {
    if |s| == 1 then "]" else style.Comma() + PrintItems(s[1..], style)
  }

  lemma ItemsHead(s: seq<Json>, style: Style, x: string)
    ensures s == [] <==> (PrintItems(s, style) + x)[0] == ']'
    ensures s != [] ==> PrintItems(s, style) + x == Print(s[0], style) + (AfterItems(s, style) + x) && Delimited(AfterItems(s, style) + x)
    ensures s != [] ==> (|s| == 1 <==> (AfterItems(s, style) + x)[0] == ']')
    ensures |s| > 1 ==> AfterItems(s, style) + x == style.Comma() + (PrintItems(s[1..], style) + x)
  {
    if s != [] {
      PrintHead(s[0], style);
      var head := Print(s[0], style);
      assert PrintItems(s, style) == head + AfterItems(s, style);
      Assoc(head, AfterItems(s, style), x);
      HeadOf(head, AfterItems(s, style) + x);
      HeadOf(AfterItems(s, style), x);
      if |s| > 1 { Assoc(style.Comma(), PrintItems(s[1..], style), x); }
    }
  }

  lemma {:induction false} ItemsEnd(s: seq<Json>, t: seq<Json>, style: Style, x: string, y: string)
    requires PrintItems(s, style) + x == PrintItems(t, style) + y
    ensures s == t && x == y
    decreases s, 0
  {
    ItemsHead(s, style, x);
    ItemsHead(t, style, y);
    if s == [] {
      SameLength("]", "]", x, y);
    } else {
      PrintEnds(s[0], t[0], style, AfterItems(s, style) + x, AfterItems(t, style) + y);
      if |s| == 1 {
        SameLength("]", "]", x, y);
      } else {
        SameLength(style.Comma(), style.Comma(), PrintItems(s[1..], style) + x, PrintItems(t[1..], style) + y);
        ItemsEnd(s[1..], t[1..], style, x, y);
      }
      assert s == [s[0]] + s[1..] && t == [t[0]] + t[1..];
    }
  }

  lemma MemberSplit(m: Member, style: Style, x: string)
    ensures PrintMember(m, style) + x == Quote(m.key) + (style.Colon() + (Print(m.value, style) + x))
  {
  }

  lemma {:induction false} MemberEnds(m: Member, n: Member, style: Style, x: string, y: string)
    requires PrintMember(m, style) + x == PrintMember(n, style) + y && Delimited(x) && Delimited(y)
    ensures m == n && x == y
    decreases m, 0
  {
    MemberSplit(m, style, x);
    MemberSplit(n, style, y);
    QuoteEnds(m.key, n.key, style.Colon() + (Print(m.value, style) + x), style.Colon() + (Print(n.value, style) + y));
    SameLength(style.Colon(), style.Colon(), Print(m.value, style) + x, Print(n.value, style) + y);
    PrintEnds(m.value, n.value, style, x, y);
  }

  /** What follows the first member: the closing bracket, or a separator and the rest. */
  function AfterMembers(s: seq<Member>, style: Style): string
    requires s != []
  {
    if |s| == 1 then "}" else style.Comma() + PrintMembers(s[1..], style)
  }

  lemma MembersHead(s: seq<Member>, style: Style, x: string)
    ensures s == [] <==> (PrintMembers(s, style) + x)[0] == '}'
    ensures s != [] ==> PrintMembers(s, style) + x == PrintMember(s[0], style) + (AfterMembers(s, style) + x) && Delimited(AfterMembers(s, style) + x)
    ensures s != [] ==> (|s| == 1 <==> (AfterMembers(s, style) + x)[0] == '}')
    ensures |s| > 1 ==> AfterMembers(s, style) + x == style.Comma() + (PrintMembers(s[1..], style) + x)
  {
    if s != [] {
      assert PrintMember(s[0], style)[0] == '\"';
      var head := PrintMember(s[0], style);
      assert PrintMembers(s, style) == head + AfterMembers(s, style);
      Assoc(head, AfterMembers(s, style), x);
      HeadOf(head, AfterMembers(s, style) + x);
      HeadOf(AfterMembers(s, style), x);
      if |s| > 1 { Assoc(style.Comma(), PrintMembers(s[1..], style), x); }
    }
  }

  lemma {:induction false} MembersEnd(s: seq<Member>, t: seq<Member>, style: Style, x: string, y: string)
    requires PrintMembers(s, style) + x == PrintMembers(t, style) + y
    ensures s == t && x == y
    decreases s, 0
  {
    MembersHead(s, style, x);
    MembersHead(t, style, y);
    if s == [] {
      SameLength("}", "}", x, y);
    } else {
      MemberEnds(s[0], t[0], style, AfterMembers(s, style) + x, AfterMembers(t, style) + y);
      if |s| == 1 {
        SameLength("}", "}", x, y);
      } else {
        SameLength(style.Comma(), style.Comma(), PrintMembers(s[1..], style) + x, PrintMembers(t[1..], style) + y);
        MembersEnd(s[1..], t[1..], style, x, y);
      }
      assert s == [s[0]] + s[1..] && t == [t[0]] + t[1..];
    }
  }

  /** Different trees print differently. */
  lemma PrintInjective(a: Json, b: Json, style: Style)
    requires Print(a, style) == Print(b, style)
    ensures a == b
  {
    assert Print(a, style) + "" == Print(a, style) && Print(b, style) + "" == Print(b, style);
    PrintEnds(a, b, style, "", "");
  }
}
