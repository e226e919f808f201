/** Address lists seen address by address. */
module Entries {
  import opened Ordering
  import opened Keyed
  import opened Resources
  import opened DesiredState

  /** The entry a list holds for an address. */
  function EntryOf(s: seq<Entry>, x: string): Option<Entry> {
    if s == [] then None else if s[0].normalized == x then Some(s[0]) else EntryOf(s[1..], x)
  }

  lemma {:induction false} EntryOfFacts(s: seq<Entry>, x: string)
    ensures EntryOf(s, x).Some? ==> EntryOf(s, x).value in s && EntryOf(s, x).value.normalized == x
    ensures EntryOf(s, x).None? <==> x !in Normalized(s)
  {
    if s != [] {
      EntryOfFacts(s[1..], x);
      assert s == [s[0]] + s[1..];
    }
  }

  lemma EntryOfMember(s: seq<Entry>, e: Entry)
    requires UniqueEntries(s)
    ensures e in s <==> EntryOf(s, e.normalized) == Some(e)
  {
  }

  lemma {:induction false} AbsentFacts(s: seq<Entry>, taken: set<string>)
    ensures forall e :: e in Absent(s, taken) <==> e in s && e.normalized !in taken
    ensures UniqueEntries(s) ==> UniqueEntries(Absent(s, taken))
  {
    if s != [] {
      AbsentFacts(s[1..], taken);
      assert s == [s[0]] + s[1..];
    }
  }

  lemma {:induction false} AbsentCounts(s: seq<Entry>, taken: set<string>, e: Entry)
    ensures multiset(Absent(s, taken))[e] == if e.normalized in taken then 0 else multiset(s)[e]
  {
    if s != [] {
      AbsentCounts(s[1..], taken, e);
      assert s == [s[0]] + s[1..];
    }
  }

  lemma SameMembersSameEntry(s: seq<Entry>, t: seq<Entry>, x: string)
    requires UniqueEntries(s) && UniqueEntries(t)
    requires forall e :: e in s && e.normalized == x <==> e in t && e.normalized == x
    ensures EntryOf(s, x) == EntryOf(t, x)
  {
  }

  lemma CombinedFacts(present: seq<Entry>, added: seq<Entry>)
    requires UniqueEntries(present) && UniqueEntries(added)
    ensures UniqueEntries(Combined(present, added))
    ensures forall e :: e in Combined(present, added) <==> e in present || (e in added && e.normalized !in Normalized(present))
  {
    AbsentFacts(added, Normalized(present));
    var more := Absent(added, Normalized(present));
    var all := present + more;
    forall i, j | 0 <= i < j < |all| ensures all[i].normalized != all[j].normalized {
      if i < |present| && j >= |present| {
        assert all[j] == more[j - |present|] && more[j - |present|] in more;
        assert all[i] in present;
      }
    }
  }

  lemma CombinedEntry(present: seq<Entry>, added: seq<Entry>, x: string)
    requires UniqueEntries(present) && UniqueEntries(added)
    ensures EntryOf(Combined(present, added), x) ==
      if EntryOf(present, x).Some? then EntryOf(present, x) else EntryOf(added, x)
  {
    CombinedFacts(present, added);
    EntryOfFacts(present, x);
    SameMembersSameEntry(Combined(present, added), if x in Normalized(present) then present else added, x);
  }

  lemma AbsentEntry(s: seq<Entry>, taken: set<string>, x: string)
    requires UniqueEntries(s)
    ensures EntryOf(Absent(s, taken), x) == if x in taken then None else EntryOf(s, x)
  {
    AbsentFacts(s, taken);
    SameMembersSameEntry(Absent(s, taken), if x in taken then [] else s, x);
  }

  lemma {:induction false} OccursOnce(entries: seq<Entry>, e: Entry)
    requires UniqueEntries(entries)
    ensures multiset(entries)[e] == if e in entries then 1 else 0
  {
    if entries != [] {
      OccursOnce(entries[1..], e);
      assert entries == [entries[0]] + entries[1..];
      assert entries[0] == e ==> e !in entries[1..];
    }
  }

  lemma SortedStayUnique(entries: seq<Entry>)
    requires UniqueEntries(entries)
    ensures UniqueEntries(SortEntries(entries))
  {
    SortEntriesFacts(entries);
    var s := SortEntries(entries);
    forall i, j | 0 <= i < j < |s| ensures s[i].normalized != s[j].normalized {
      assert s[i] in entries && s[j] in entries;
      if s[i] == s[j] { TwiceCounted(s, i, j); OccursOnce(entries, s[i]); }
    }
  }

  lemma TwiceCounted(s: seq<Entry>, i: int, j: int)
    requires 0 <= i < j < |s| && s[i] == s[j]
    ensures multiset(s)[s[i]] >= 2
  {
    assert s == s[..i] + [s[i]] + s[i + 1..j] + [s[j]] + s[j + 1..];
  }

  lemma SortedEntry(entries: seq<Entry>, x: string)
    requires UniqueEntries(entries)
    ensures EntryOf(SortEntries(entries), x) == EntryOf(entries, x)
  {
    SortedStayUnique(entries);
    SortEntriesFacts(entries);
    SameMembersSameEntry(SortEntries(entries), entries, x);
  }

  /** Sorted duplicate-free lists are determined by what they hold for each address. */
  lemma SameEntriesSameList(s: seq<Entry>, t: seq<Entry>)
    requires UniqueEntries(s) && UniqueEntries(t) && Ascending(s, EntryLe) && Ascending(t, EntryLe)
    requires forall x :: EntryOf(s, x) == EntryOf(t, x)
    ensures s == t
  {
    forall e ensures multiset(s)[e] == multiset(t)[e] {
      EntryOfMember(s, e);
      EntryOfMember(t, e);
      OccursOnce(s, e);
      OccursOnce(t, e);
    }
    assert multiset(s) == multiset(t);
    forall x, y | x in multiset(s) && y in multiset(s) && EntryLe(x, y) && EntryLe(y, x) ensures x == y {
      if x.normalized != y.normalized { BelowAntisymmetric(x.normalized, y.normalized); }
      EntryOfMember(s, x);
      EntryOfMember(s, y);
    }
    AscendingUnique(s, t, EntryLe);
  }
}
