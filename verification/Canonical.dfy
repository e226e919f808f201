/** The canonical form behind every approval and drift hash. `nfc` stands for Unicode
    normalization form C and `sha` for SHA-256. */
module Canonical {
  import opened Ordering
  import opened Json

  type Text = string -> string

  predicate MemberLe(a: Member, b: Member) { Below(a.key, b.key) }

  /** Items are ordered by their default serialization. */
  predicate JsonLe(a: Json, b: Json) { Below(Print(a, Spaced), Print(b, Spaced)) }

  /** `_canonicalize`; `ordered` is its `preserve_sequence_order`. */
  function Canon(j: Json, nfc: Text, ordered: bool): Json
    decreases j, 0
  {
    match j
    case Null => j
    case Bool(_) => j
    case Num(_) => j
    case Str(s) => Str(nfc(s))
    case Obj(members) => Obj(Sort(CanonMembers(members, nfc), MemberLe))
    case Arr(items) => Arr(if ordered then CanonItems(items, nfc) else Sort(CanonItems(items, nfc), JsonLe))
  }

  function CanonItems(items: seq<Json>, nfc: Text): (r: seq<Json>)
    ensures |r| == |items|
    decreases items, 0
  {
    if items == [] then [] else [Canon(items[0], nfc, false)] + CanonItems(items[1..], nfc)
  }

  function CanonMember(m: Member, nfc: Text): Member
    decreases m, 0
  {
    Member(m.key, Canon(m.value, nfc, m.key == "actions"))
  }

  function CanonMembers(members: seq<Member>, nfc: Text): (r: seq<Member>)
    ensures |r| == |members|
    decreases members, 0
  {
    if members == [] then [] else [CanonMember(members[0], nfc)] + CanonMembers(members[1..], nfc)
  }

  function CanonicalJson(j: Json, nfc: Text): string { Print(Canon(j, nfc, false), Compact) }

  function CanonicalHash(j: Json, nfc: Text, sha: Text): string { sha(CanonicalJson(j, nfc)) }

  ghost predicate UniqueNames(members: seq<Member>) {
    forall i, j :: 0 <= i < j < |members| ==> members[i].key != members[j].key
  }

  /** Objects are dictionaries: no key twice, at any depth. */
  ghost predicate Valid(j: Json)
    decreases j, 0
  {
    match j
    case Arr(items) => ValidItems(items)
    case Obj(members) => UniqueNames(members) && ValidMembers(members)
    case _ => true
  }

  ghost predicate ValidItems(items: seq<Json>)
    decreases items, 0
  {
    items == [] || (Valid(items[0]) && ValidItems(items[1..]))
  }

  ghost predicate ValidMembers(members: seq<Member>)
    decreases members, 0
  {
    members == [] || (Valid(members[0].value) && ValidMembers(members[1..]))
  }

  function Without<T>(s: seq<T>, i: nat): (r: seq<T>)
    requires i < |s|
    ensures |r| == |s| - 1
    ensures forall k :: 0 <= k < |r| ==> r[k] == s[if k < i then k else k + 1]
  {
    s[..i] + s[i + 1..]
  }

  /** Equality up to normalization of string values, the order of keys, and the order of
      every sequence except one directly under the key `actions`. */
  ghost predicate Same(a: Json, b: Json, nfc: Text, ordered: bool)
    decreases a, 0
  {
    match (a, b)
    case (Str(s), Str(t)) => nfc(s) == nfc(t)
    case (Arr(s), Arr(t)) => if ordered then SameItems(s, t, nfc) else SameBag(s, t, nfc)
    case (Obj(s), Obj(t)) => SameMembers(s, t, nfc)
    case (_, _) => !a.Str? && !a.Arr? && !a.Obj? && a == b
  }

  ghost predicate SameItems(s: seq<Json>, t: seq<Json>, nfc: Text)
    decreases s, 0
  {
    |s| == |t| && (s == [] || (Same(s[0], t[0], nfc, false) && SameItems(s[1..], t[1..], nfc)))
  }

  /** A pairing of the items of both sequences. */
  ghost predicate SameBag(s: seq<Json>, t: seq<Json>, nfc: Text)
    decreases s, 0
  {
    |s| == |t| && (s == [] || exists i :: 0 <= i < |t| && Same(s[0], t[i], nfc, false) && SameBag(s[1..], Without(t, i), nfc))
  }

  ghost predicate SameMembers(s: seq<Member>, t: seq<Member>, nfc: Text)
    decreases s, 0
  {
    |s| == |t| && (s == [] || exists i :: 0 <= i < |t| && SameMember(s[0], t[i], nfc) && SameMembers(s[1..], Without(t, i), nfc))
  }

  ghost predicate SameMember(m: Member, n: Member, nfc: Text)
    decreases m, 0
  {
    m.key == n.key && Same(m.value, n.value, nfc, m.key == "actions")
  }

  lemma {:induction false} CanonItemsAt(items: seq<Json>, nfc: Text)
    ensures |CanonItems(items, nfc)| == |items|
    ensures forall i :: 0 <= i < |items| ==> CanonItems(items, nfc)[i] == Canon(items[i], nfc, false)
  {
    if items != [] { CanonItemsAt(items[1..], nfc); }
  }

  lemma {:induction false} CanonMembersAt(members: seq<Member>, nfc: Text)
    ensures |CanonMembers(members, nfc)| == |members|
    ensures forall i :: 0 <= i < |members| ==> CanonMembers(members, nfc)[i] == CanonMember(members[i], nfc)
  {
    if members != [] { CanonMembersAt(members[1..], nfc); }
  }

  lemma WithoutBag<T>(s: seq<T>, i: nat)
    requires i < |s|
    ensures multiset(s) == multiset(Without(s, i)) + multiset{s[i]}
  {
    assert s == s[..i] + [s[i]] + s[i + 1..];
  }

  lemma CanonWithoutItem(t: seq<Json>, i: nat, nfc: Text)
    requires i < |t|
    ensures CanonItems(Without(t, i), nfc) == Without(CanonItems(t, nfc), i)
  {
    CanonItemsAt(t, nfc);
    CanonItemsAt(Without(t, i), nfc);
    var u, v := CanonItems(Without(t, i), nfc), Without(CanonItems(t, nfc), i);
    forall k | 0 <= k < |u| ensures u[k] == v[k] {
      assert Without(t, i)[k] == t[if k < i then k else k + 1];
    }
  }

  lemma CanonWithoutMember(t: seq<Member>, i: nat, nfc: Text)
    requires i < |t|
    ensures CanonMembers(Without(t, i), nfc) == Without(CanonMembers(t, nfc), i)
  {
    CanonMembersAt(t, nfc);
    CanonMembersAt(Without(t, i), nfc);
    var u, v := CanonMembers(Without(t, i), nfc), Without(CanonMembers(t, nfc), i);
    forall k | 0 <= k < |u| ensures u[k] == v[k] {
      assert Without(t, i)[k] == t[if k < i then k else k + 1];
    }
  }

  lemma ValidItemsAt(t: seq<Json>)
    requires ValidItems(t)
    ensures forall i :: 0 <= i < |t| ==> Valid(t[i])
  {
  }

  lemma ValidItemsFrom(t: seq<Json>)
    requires forall i :: 0 <= i < |t| ==> Valid(t[i])
    ensures ValidItems(t)
  {
  }

  lemma ValidMembersAt(t: seq<Member>)
    requires ValidMembers(t)
    ensures forall i :: 0 <= i < |t| ==> Valid(t[i].value)
  {
  }

  lemma ValidMembersFrom(t: seq<Member>)
    requires forall i :: 0 <= i < |t| ==> Valid(t[i].value)
    ensures ValidMembers(t)
  {
  }

  lemma JsonLeIsTotalPreorder()
    ensures TotalPreorder(JsonLe)
  {
    forall x, y ensures JsonLe(x, y) || JsonLe(y, x) { BelowTotal(Print(x, Spaced), Print(y, Spaced)); }
    forall x, y, z | JsonLe(x, y) && JsonLe(y, z) ensures JsonLe(x, z) {
      BelowTransitive(Print(x, Spaced), Print(y, Spaced), Print(z, Spaced));
    }
  }

  lemma MemberLeIsTotalPreorder()
    ensures TotalPreorder(MemberLe)
  {
    forall x, y ensures MemberLe(x, y) || MemberLe(y, x) { BelowTotal(x.key, y.key); }
    forall x, y, z | MemberLe(x, y) && MemberLe(y, z) ensures MemberLe(x, z) { BelowTransitive(x.key, y.key, z.key); }
  }

  /** Sorted items agree exactly when the items agree as bags: no two items print alike. */
  lemma SortedItemsAgree(s: seq<Json>, t: seq<Json>)
    ensures Sort(s, JsonLe) == Sort(t, JsonLe) <==> multiset(s) == multiset(t)
  {
    JsonLeIsTotalPreorder();
    SortFacts(s, JsonLe);
    SortFacts(t, JsonLe);
    if multiset(s) == multiset(t) {
      forall x, y | JsonLe(x, y) && JsonLe(y, x) ensures x == y {
        BelowAntisymmetric(Print(x, Spaced), Print(y, Spaced));
        PrintInjective(x, y, Spaced);
      }
      AscendingUnique(Sort(s, JsonLe), Sort(t, JsonLe), JsonLe);
    }
  }

  lemma SortedMembersAgree(s: seq<Member>, t: seq<Member>)
    requires UniqueNames(s)
    ensures Sort(s, MemberLe) == Sort(t, MemberLe) <==> multiset(s) == multiset(t)
  {
    MemberLeIsTotalPreorder();
    SortFacts(s, MemberLe);
    SortFacts(t, MemberLe);
    if multiset(s) == multiset(t) {
      forall x, y | x in multiset(s) && y in multiset(s) && MemberLe(x, y) && MemberLe(y, x) ensures x == y {
        BelowAntisymmetric(x.key, y.key);
        assert x in s && y in s;
      }
      AscendingUnique(Sort(s, MemberLe), Sort(t, MemberLe), MemberLe);
    }
  }

  lemma CanonKeepsNames(t: seq<Member>, nfc: Text)
    requires UniqueNames(t)
    ensures UniqueNames(CanonMembers(t, nfc))
  {
    CanonMembersAt(t, nfc);
  }

  lemma ObjectsShare(m: seq<Member>, n: seq<Member>, nfc: Text)
    requires UniqueNames(m) && Canon(Obj(m), nfc, false) == Canon(Obj(n), nfc, false)
    ensures multiset(CanonMembers(m, nfc)) == multiset(CanonMembers(n, nfc))
  {
    ObjectsSort(m, n, nfc);
    CanonKeepsNames(m, nfc);
    SortedMembersAgree(CanonMembers(m, nfc), CanonMembers(n, nfc));
  }

  lemma ObjectsSort(m: seq<Member>, n: seq<Member>, nfc: Text)
    requires Canon(Obj(m), nfc, false) == Canon(Obj(n), nfc, false)
    ensures Sort(CanonMembers(m, nfc), MemberLe) == Sort(CanonMembers(n, nfc), MemberLe)
  {
  }

  /** Two trees have the same canonical form exactly when they are the same data. */
  lemma {:induction false} CanonDecidesSame(a: Json, b: Json, nfc: Text, ordered: bool)
    requires Valid(a) && Valid(b)
    ensures Canon(a, nfc, ordered) == Canon(b, nfc, ordered) <==> Same(a, b, nfc, ordered)
    decreases a, 0
  {
    match (a, b)
    case (Arr(s), Arr(t)) =>
      if ordered {
        ItemsDecideSame(s, t, nfc);
      } else {
        SortedItemsAgree(CanonItems(s, nfc), CanonItems(t, nfc));
        BagsDecideSame(s, t, nfc);
      }
    case (Obj(s), Obj(t)) =>
      CanonKeepsNames(s, nfc);
      SortedMembersAgree(CanonMembers(s, nfc), CanonMembers(t, nfc));
      MembersDecideSame(s, t, nfc);
    case (_, _) =>
  }

  lemma {:induction false} ItemsDecideSame(s: seq<Json>, t: seq<Json>, nfc: Text)
    requires ValidItems(s) && ValidItems(t)
    ensures CanonItems(s, nfc) == CanonItems(t, nfc) <==> SameItems(s, t, nfc)
    decreases s, 0
  {
    CanonItemsAt(s, nfc);
    CanonItemsAt(t, nfc);
    if |s| == |t| && s != [] {
      CanonDecidesSame(s[0], t[0], nfc, false);
      ItemsDecideSame(s[1..], t[1..], nfc);
      assert CanonItems(s, nfc)[1..] == CanonItems(s[1..], nfc) && CanonItems(t, nfc)[1..] == CanonItems(t[1..], nfc);
    }
  }

  lemma {:induction false} BagsDecideSame(s: seq<Json>, t: seq<Json>, nfc: Text)
    requires ValidItems(s) && ValidItems(t)
    ensures multiset(CanonItems(s, nfc)) == multiset(CanonItems(t, nfc)) <==> SameBag(s, t, nfc)
    decreases s, 1
  {
    var cs, ct := CanonItems(s, nfc), CanonItems(t, nfc);
    assert |multiset(cs)| == |s| && |multiset(ct)| == |t|;
    if |s| == |t| && s != [] {
      BagStep(cs, ct);
      if SameBag(s, t, nfc) {
        var i :| 0 <= i < |t| && Same(s[0], t[i], nfc, false) && SameBag(s[1..], Without(t, i), nfc);
        BagsPair(s, t, i, nfc);
        assert cs[0] == ct[i] && multiset(Without(cs, 0)) == multiset(Without(ct, i));
      }
      if i :| 0 <= i < |ct| && cs[0] == ct[i] && multiset(Without(cs, 0)) == multiset(Without(ct, i)) {
        BagsPair(s, t, i, nfc);
        assert Same(s[0], t[i], nfc, false) && SameBag(s[1..], Without(t, i), nfc);
      }
    }
  }

  /** Pairing the first with the `i`-th leaves the same question for the rest. */
  lemma {:induction false} BagsPair(s: seq<Json>, t: seq<Json>, i: nat, nfc: Text)
    requires ValidItems(s) && ValidItems(t) && |s| == |t| && i < |t|
    ensures Same(s[0], t[i], nfc, false) <==> CanonItems(s, nfc)[0] == CanonItems(t, nfc)[i]
    ensures SameBag(s[1..], Without(t, i), nfc) <==> multiset(Without(CanonItems(s, nfc), 0)) == multiset(Without(CanonItems(t, nfc), i))
    decreases s, 0
  {
    CanonItemsAt(s, nfc);
    CanonItemsAt(t, nfc);
    ValidItemsAt(t);
    CanonDecidesSame(s[0], t[i], nfc, false);
    ValidItemsFrom(Without(t, i));
    BagsDecideSame(s[1..], Without(t, i), nfc);
    CanonWithoutItem(t, i, nfc);
    assert Without(CanonItems(s, nfc), 0) == CanonItems(s[1..], nfc);
  }

  /** A bag equality, one element at a time. */
  lemma BagStep<T>(s: seq<T>, t: seq<T>)
    requires s != []
    ensures multiset(s) == multiset(t) <==>
      exists i :: 0 <= i < |t| && s[0] == t[i] && multiset(Without(s, 0)) == multiset(Without(t, i))
  {
    WithoutBag(s, 0);
    if multiset(s) == multiset(t) {
      assert s[0] in multiset(t);
      var i :| 0 <= i < |t| && t[i] == s[0];
      WithoutBag(t, i);
      assert multiset(Without(s, 0)) == multiset(s) - multiset{s[0]};
      assert multiset(Without(t, i)) == multiset(t) - multiset{t[i]};
    }
    if i :| 0 <= i < |t| && s[0] == t[i] && multiset(Without(s, 0)) == multiset(Without(t, i)) {
      WithoutBag(t, i);
    }
  }

  lemma {:induction false} MembersDecideSame(s: seq<Member>, t: seq<Member>, nfc: Text)
    requires ValidMembers(s) && ValidMembers(t)
    ensures multiset(CanonMembers(s, nfc)) == multiset(CanonMembers(t, nfc)) <==> SameMembers(s, t, nfc)
    decreases s, 1
  {
    var cs, ct := CanonMembers(s, nfc), CanonMembers(t, nfc);
    assert |multiset(cs)| == |s| && |multiset(ct)| == |t|;
    if |s| == |t| && s != [] {
      BagStep(cs, ct);
      if SameMembers(s, t, nfc) {
        var i :| 0 <= i < |t| && SameMember(s[0], t[i], nfc) && SameMembers(s[1..], Without(t, i), nfc);
        MembersPair(s, t, i, nfc);
        assert cs[0] == ct[i] && multiset(Without(cs, 0)) == multiset(Without(ct, i));
      }
      if i :| 0 <= i < |ct| && cs[0] == ct[i] && multiset(Without(cs, 0)) == multiset(Without(ct, i)) {
        MembersPair(s, t, i, nfc);
        assert SameMember(s[0], t[i], nfc) && SameMembers(s[1..], Without(t, i), nfc);
      }
    }
  }

  /** Pairing the first with the `i`-th leaves the same question for the rest. */
  lemma {:induction false} MembersPair(s: seq<Member>, t: seq<Member>, i: nat, nfc: Text)
    requires ValidMembers(s) && ValidMembers(t) && |s| == |t| && i < |t|
    ensures SameMember(s[0], t[i], nfc) <==> CanonMembers(s, nfc)[0] == CanonMembers(t, nfc)[i]
    ensures SameMembers(s[1..], Without(t, i), nfc) <==> multiset(Without(CanonMembers(s, nfc), 0)) == multiset(Without(CanonMembers(t, nfc), i))
    decreases s, 0
  {
    CanonMembersAt(s, nfc);
    CanonMembersAt(t, nfc);
    ValidMembersAt(t);
    if s[0].key == t[i].key { CanonDecidesSame(s[0].value, t[i].value, nfc, s[0].key == "actions"); }
    ValidMembersFrom(Without(t, i));
    MembersDecideSame(s[1..], Without(t, i), nfc);
    CanonWithoutMember(t, i, nfc);
    assert Without(CanonMembers(s, nfc), 0) == CanonMembers(s[1..], nfc);
  }

  ghost predicate Idempotent(nfc: Text) { forall s :: nfc(nfc(s)) == nfc(s) }

  ghost predicate Injective(sha: Text) { forall s, t :: sha(s) == sha(t) ==> s == t }

  /** Hashes agree exactly when the data do. */
  lemma HashDecidesSame(a: Json, b: Json, nfc: Text, sha: Text)
    requires Valid(a) && Valid(b) && Injective(sha)
    ensures CanonicalHash(a, nfc, sha) == CanonicalHash(b, nfc, sha) <==> Same(a, b, nfc, false)
  {
    CanonDecidesSame(a, b, nfc, false);
    if CanonicalHash(a, nfc, sha) == CanonicalHash(b, nfc, sha) {
      assert CanonicalJson(a, nfc) == CanonicalJson(b, nfc);
      PrintInjective(Canon(a, nfc, false), Canon(b, nfc, false), Compact);
    }
  }

  /** Canonicalizing a canonical form leaves it alone. */
  lemma {:induction false} CanonTwice(j: Json, nfc: Text, ordered: bool)
    requires Idempotent(nfc)
    ensures Canon(Canon(j, nfc, ordered), nfc, ordered) == Canon(j, nfc, ordered)
    decreases j, 0
  {
    match j
    case Arr(items) =>
      ItemsTwice(items, nfc);
      var cs := CanonItems(items, nfc);
      if ordered {
        FixedItems(cs, nfc);
      } else {
        JsonLeIsTotalPreorder();
        SortFacts(cs, JsonLe);
        forall x | x in Sort(cs, JsonLe) ensures Canon(x, nfc, false) == x { assert x in multiset(cs); }
        FixedItems(Sort(cs, JsonLe), nfc);
        SortOfAscending(Sort(cs, JsonLe), JsonLe);
      }
    case Obj(members) =>
      MembersTwice(members, nfc);
      var cs := CanonMembers(members, nfc);
      MemberLeIsTotalPreorder();
      SortFacts(cs, MemberLe);
      forall x | x in Sort(cs, MemberLe) ensures CanonMember(x, nfc) == x { assert x in multiset(cs); }
      FixedMembers(Sort(cs, MemberLe), nfc);
      SortOfAscending(Sort(cs, MemberLe), MemberLe);
    case _ =>
  }

  lemma FixedItems(cs: seq<Json>, nfc: Text)
    requires forall x :: x in cs ==> Canon(x, nfc, false) == x
    ensures CanonItems(cs, nfc) == cs
  {
  }

  lemma FixedMembers(cs: seq<Member>, nfc: Text)
    requires forall x :: x in cs ==> CanonMember(x, nfc) == x
    ensures CanonMembers(cs, nfc) == cs
  {
  }

  lemma {:induction false} ItemsTwice(items: seq<Json>, nfc: Text)
    requires Idempotent(nfc)
    ensures forall x :: x in CanonItems(items, nfc) ==> Canon(x, nfc, false) == x
    decreases items, 0
  {
    if items != [] {
      CanonTwice(items[0], nfc, false);
      ItemsTwice(items[1..], nfc);
    }
  }

  lemma {:induction false} MembersTwice(members: seq<Member>, nfc: Text)
    requires Idempotent(nfc)
    ensures forall x :: x in CanonMembers(members, nfc) ==> CanonMember(x, nfc) == x
    decreases members, 0
  {
    if members != [] {
      CanonTwice(members[0].value, nfc, members[0].key == "actions");
      MembersTwice(members[1..], nfc);
    }
  }
}
