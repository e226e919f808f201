/** Optional values and the three ways the program stores records by ownership ID:
    a tuple searched from the front, a dictionary, and the tuple sorted by ID. */
module Keyed {
  import opened Ordering

  datatype Option<+T> = None | Some(value: T) {
    function GetOr(default: T): T { if Some? then value else default }
  }

  /** The canonical text of a UUID. Dashes stand at fixed places, so ordering by
      `str(id)` and by `id.hex` agree. */
  type Uid = string

  ghost predicate UniqueKeys<T>(s: seq<T>, key: T -> Uid) {
    forall i, j :: 0 <= i < j < |s| ==> key(s[i]) != key(s[j])
  }

  /** `{key(item): item for item in s}` */
  function Index<T>(s: seq<T>, key: T -> Uid): map<Uid, T> {
    if s == [] then map[] else Index(s[..|s| - 1], key)[key(s[|s| - 1]) := s[|s| - 1]]
  }

  /** `next((item for item in s if key(item) == id), None)` */
  function Find<T>(s: seq<T>, key: T -> Uid, id: Uid): Option<T> {
    if s == [] then None else if key(s[0]) == id then Some(s[0]) else Find(s[1..], key, id)
  }

  function Lookup<T>(m: map<Uid, T>, id: Uid): Option<T> {
    if id in m then Some(m[id]) else None
  }

  ghost predicate KeyedBy<T>(m: map<Uid, T>, key: T -> Uid) {
    forall k :: k in m ==> key(m[k]) == k
  }

  lemma {:induction false} IndexFacts<T>(s: seq<T>, key: T -> Uid)
    ensures KeyedBy(Index(s, key), key)
    ensures forall k :: k in Index(s, key) ==> Index(s, key)[k] in s
    ensures forall i :: 0 <= i < |s| ==> key(s[i]) in Index(s, key)
    ensures UniqueKeys(s, key) ==> forall i :: 0 <= i < |s| ==> Index(s, key)[key(s[i])] == s[i]
  {
    if s != [] {
      IndexFacts(s[..|s| - 1], key);
      assert s == s[..|s| - 1] + [s[|s| - 1]];
    }
  }

  lemma {:induction false} FindFacts<T>(s: seq<T>, key: T -> Uid, id: Uid)
    ensures Find(s, key, id).Some? ==> Find(s, key, id).value in s && key(Find(s, key, id).value) == id
    ensures Find(s, key, id).None? ==> forall x :: x in s ==> key(x) != id
  {
    if s != [] && key(s[0]) != id {
      FindFacts(s[1..], key, id);
    }
  }

  /** With unique IDs the front search is the dictionary lookup. */
  lemma FindIsLookup<T>(s: seq<T>, key: T -> Uid, id: Uid)
    requires UniqueKeys(s, key)
    ensures Find(s, key, id) == Lookup(Index(s, key), id)
  {
    IndexFacts(s, key);
    FindFacts(s, key, id);
  }

  lemma {:induction false} LeastExists(s: set<string>)
    requires s != {}
    ensures exists k :: k in s && forall j :: j in s ==> Below(k, j)
  {
    var x :| x in s;
    var rest := s - {x};
    if rest == {} {
      BelowTotal(x, x);
      assert s == {x};
    } else {
      LeastExists(rest);
      var y :| y in rest && forall j :: j in rest ==> Below(y, j);
      BelowTotal(x, y);
      BelowTotal(x, x);
      if Below(y, x) {
        assert forall j :: j in s ==> j == x || j in rest;
      } else {
        forall j | j in s ensures Below(x, j) {
          if j != x { BelowTransitive(x, y, j); }
        }
      }
    }
  }

  ghost function Least(s: set<string>): (k: string)
    requires s != {}
    ensures k in s && forall j :: j in s ==> Below(k, j)
  {
    LeastExists(s);
    var k :| k in s && forall j :: j in s ==> Below(k, j);
    k
  }

  /** `sorted(s)` for a set of IDs. */
  ghost function Enumerate(s: set<string>): seq<string> {
    if s == {} then [] else [Least(s)] + Enumerate(s - {Least(s)})
  }

  ghost predicate StrictlyAscending(ids: seq<string>) {
    forall i, j :: 0 <= i < j < |ids| ==> Below(ids[i], ids[j]) && ids[i] != ids[j]
  }

  lemma {:induction false} EnumerateFacts(s: set<string>)
    ensures StrictlyAscending(Enumerate(s))
    ensures forall k :: k in s <==> k in Enumerate(s)
    ensures |Enumerate(s)| == |s|
  {
    if s != {} {
      EnumerateFacts(s - {Least(s)});
    }
  }

  /** A strictly ascending list is determined by its set of elements. */
  lemma {:induction false} EnumerateUnique(ids: seq<string>, s: set<string>)
    requires StrictlyAscending(ids)
    requires forall k :: k in s <==> k in ids
    ensures ids == Enumerate(s)
  {
    if ids == [] {
      assert s == {};
    } else {
      assert ids[0] in s;
      var k := Least(s);
      var i :| 0 <= i < |ids| && ids[i] == k;
      if i > 0 {
        BelowAntisymmetric(k, ids[0]);
      }
      assert ids == [k] + ids[1..];
      forall x ensures x in s - {k} <==> x in ids[1..] {
        if x in s - {k} { assert x in [k] + ids[1..]; }
        if x in ids[1..] { assert x in ids; }
      }
      EnumerateUnique(ids[1..], s - {k});
    }
  }

  /** `tuple(sorted(m.values(), key=id))` */
  ghost function Listing<T>(m: map<Uid, T>): seq<T> {
    EnumerateFacts(m.Keys);
    var ids := Enumerate(m.Keys);
    seq(|ids|, i requires 0 <= i < |ids| => m[ids[i]])
  }

  function Keys<T>(s: seq<T>, key: T -> Uid): seq<Uid> {
    seq(|s|, i requires 0 <= i < |s| => key(s[i]))
  }

  lemma ListingElements<T>(m: map<Uid, T>, key: T -> Uid)
    requires KeyedBy(m, key)
    ensures Keys(Listing(m), key) == Enumerate(m.Keys)
    ensures StrictlyAscending(Keys(Listing(m), key))
    ensures UniqueKeys(Listing(m), key)
    ensures |Listing(m)| == |m|
  {
    EnumerateFacts(m.Keys);
    var ids := Enumerate(m.Keys);
    var s := Listing(m);
    forall i | 0 <= i < |ids| ensures ids[i] in m && s[i] == m[ids[i]] && key(s[i]) == ids[i] {
      assert ids[i] in ids;
    }
    assert Keys(s, key) == ids;
    forall i, j | 0 <= i < j < |s| ensures key(s[i]) != key(s[j]) {
      assert ids[i] != ids[j];
    }
  }

  lemma ListingMembers<T>(m: map<Uid, T>)
    ensures forall k :: k in m ==> m[k] in Listing(m)
    ensures forall x :: x in Listing(m) ==> exists k :: k in m && m[k] == x
  {
    EnumerateFacts(m.Keys);
    var ids := Enumerate(m.Keys);
    var s := Listing(m);
    forall k | k in m ensures m[k] in s {
      assert k in ids;
      var i :| 0 <= i < |ids| && ids[i] == k;
      assert s[i] == m[k];
    }
    forall x | x in s ensures exists k :: k in m && m[k] == x {
      var i :| 0 <= i < |s| && s[i] == x;
      assert ids[i] in ids && m[ids[i]] == x;
    }
  }

  lemma IndexOfListing<T>(m: map<Uid, T>, key: T -> Uid)
    requires KeyedBy(m, key)
    ensures Index(Listing(m), key) == m
  {
    ListingElements(m, key);
    ListingMembers(m);
    var s := Listing(m);
    IndexFacts(s, key);
    var n := Index(s, key);
    forall k | k in m ensures k in n && n[k] == m[k] {
      var x := m[k];
      assert key(x) == k && x in s;
      var i :| 0 <= i < |s| && s[i] == x;
      assert key(s[i]) in n;
    }
    forall k | k in n ensures k in m {
      assert n[k] in s && key(n[k]) == k;
    }
  }

  lemma ListingFacts<T>(m: map<Uid, T>, key: T -> Uid)
    requires KeyedBy(m, key)
    ensures Keys(Listing(m), key) == Enumerate(m.Keys)
    ensures UniqueKeys(Listing(m), key) && StrictlyAscending(Keys(Listing(m), key))
    ensures forall x :: x in Listing(m) ==> key(x) in m && m[key(x)] == x
    ensures forall k :: k in m ==> m[k] in Listing(m)
    ensures |Listing(m)| == |m|
    ensures Index(Listing(m), key) == m
  {
    ListingElements(m, key);
    ListingMembers(m);
    IndexOfListing(m, key);
  }

  /** A tuple already sorted by ID is the listing of its own dictionary. */
  lemma ListingOfIndex<T>(s: seq<T>, key: T -> Uid)
    requires StrictlyAscending(Keys(s, key))
    ensures Listing(Index(s, key)) == s
    ensures UniqueKeys(s, key)
  {
    var ids := Keys(s, key);
    forall i, j | 0 <= i < j < |s| ensures key(s[i]) != key(s[j]) {
      assert ids[i] != ids[j];
    }
    IndexFacts(s, key);
    var m := Index(s, key);
    forall k ensures k in m.Keys <==> k in ids {
      if k in m { var i :| 0 <= i < |s| && s[i] == m[k]; assert ids[i] == k; }
      if k in ids { var i :| 0 <= i < |ids| && ids[i] == k; assert key(s[i]) in m; }
    }
    EnumerateUnique(ids, m.Keys);
    assert forall i :: 0 <= i < |s| ==> m[ids[i]] == s[i];
  }

}
