/** Comparing two records by sorting their entries by key and comparing the results: the
    test that authorises deletions and binding swaps.

    The key order is a collation. It is total and transitive, but it may call two different
    keys equal; the sort is stable, so such keys keep the order in which they were inserted.
    The module states exactly what the comparison then decides. */
module RecordComparison {

  /** le(a, b): the collation does not put `a` after `b`. */
  type Collation = (string, string) -> bool

  ghost predicate Collates(le: Collation) {
    && (forall a, b :: le(a, b) || le(b, a))
    && (forall a, b, c :: le(a, b) && le(b, c) ==> le(a, c))
  }

  ghost predicate Antisymmetric(le: Collation) {
    forall a, b :: le(a, b) && le(b, a) ==> a == b
  }

  // ------------------------------------------------------------- the records

  /** The own entries of a record, in insertion order; a record has no key twice. */
  ghost predicate UniqueKeys<V>(entries: seq<(string, V)>) {
    forall i, j :: 0 <= i < j < |entries| ==> entries[i].0 != entries[j].0
  }

  function ToMap<V>(entries: seq<(string, V)>): map<string, V> {
    if entries == [] then map[] else ToMap(entries[1..])[entries[0].0 := entries[0].1]
  }

  ghost predicate Has<V>(entries: seq<(string, V)>, key: string) {
    exists i :: 0 <= i < |entries| && entries[i].0 == key
  }

  /** Key `a` stands somewhere before key `b`. */
  ghost predicate Before<V>(entries: seq<(string, V)>, a: string, b: string) {
    exists i, j :: 0 <= i < j < |entries| && entries[i].0 == a && entries[j].0 == b
  }

  function Sorted<V>(le: Collation, entries: seq<(string, V)>): seq<(string, V)> {
    if entries == [] then [] else Inserted(le, entries[0], Sorted(le, entries[1..]))
  }

  /** In front of the first entry that the collation does not put before it. */
  function Inserted<V>(le: Collation, e: (string, V), sorted: seq<(string, V)>): seq<(string, V)> {
    if sorted == [] || le(e.0, sorted[0].0) then [e] + sorted
    else [sorted[0]] + Inserted(le, e, sorted[1..])
  }

  // -------------------------------------------------------- facts on entries

  lemma HasHead<V>(e: (string, V), rest: seq<(string, V)>)
    ensures forall k :: Has([e] + rest, k) <==> k == e.0 || Has(rest, k)
  {
    forall k ensures Has([e] + rest, k) <==> k == e.0 || Has(rest, k) {
      if k == e.0 { assert ([e] + rest)[0].0 == k; }
      if Has(rest, k) {
        var i :| 0 <= i < |rest| && rest[i].0 == k;
        assert ([e] + rest)[i + 1].0 == k;
      }
    }
  }

  lemma BeforeHead<V>(e: (string, V), rest: seq<(string, V)>)
    ensures forall a, b :: Before([e] + rest, a, b) <==> (a == e.0 && Has(rest, b)) || Before(rest, a, b)
  {
    var s := [e] + rest;
    forall a, b ensures Before(s, a, b) <==> (a == e.0 && Has(rest, b)) || Before(rest, a, b) {
      if Before(s, a, b) {
        var i, j :| 0 <= i < j < |s| && s[i].0 == a && s[j].0 == b;
        assert rest[j - 1].0 == b;
        if i > 0 { assert rest[i - 1].0 == a; }
      }
      if a == e.0 && Has(rest, b) {
        var j :| 0 <= j < |rest| && rest[j].0 == b;
        assert s[0].0 == a && s[j + 1].0 == b;
      }
      if Before(rest, a, b) {
        var i, j :| 0 <= i < j < |rest| && rest[i].0 == a && rest[j].0 == b;
        assert s[i + 1].0 == a && s[j + 1].0 == b;
      }
    }
  }

  lemma {:induction false} MapKeys<V>(entries: seq<(string, V)>)
    ensures forall k :: k in ToMap(entries) <==> Has(entries, k)
  {
    if entries != [] {
      assert entries == [entries[0]] + entries[1..];
      HasHead(entries[0], entries[1..]);
      MapKeys(entries[1..]);
    }
  }

  /** With unique keys the map says what every key holds. */
  lemma {:induction false} MapValues<V>(entries: seq<(string, V)>)
    requires UniqueKeys(entries)
    ensures forall i :: 0 <= i < |entries| ==>
              entries[i].0 in ToMap(entries) && ToMap(entries)[entries[i].0] == entries[i].1
  {
    if entries != [] {
      MapValues(entries[1..]);
      forall i | 0 < i < |entries|
        ensures entries[i].0 in ToMap(entries) && ToMap(entries)[entries[i].0] == entries[i].1
      {
        assert entries[1..][i - 1] == entries[i];
      }
    }
  }

  // ------------------------------------------------------- what sorting does

  ghost predicate InOrder<V>(le: Collation, entries: seq<(string, V)>) {
    forall i, j :: 0 <= i < j < |entries| ==> le(entries[i].0, entries[j].0)
  }

  /** `a` belongs before `b`: the collation says so, or leaves it to the insertion order. */
  ghost predicate Ranks<V>(le: Collation, entries: seq<(string, V)>, a: string, b: string) {
    le(a, b) && (le(b, a) ==> Before(entries, a, b))
  }

  /** Putting a new, least entry in front. */
  lemma FrontFacts<V>(le: Collation, e: (string, V), s: seq<(string, V)>)
    requires UniqueKeys(s) && !Has(s, e.0) && InOrder(le, s)
    requires forall k :: Has(s, k) ==> le(e.0, k)
    ensures UniqueKeys([e] + s) && InOrder(le, [e] + s)
  {
    forall j | 0 <= j < |s| ensures le(e.0, s[j].0) && s[j].0 != e.0 {
      assert Has(s, s[j].0);
    }
  }

  lemma FrontLeast<V>(le: Collation, s: seq<(string, V)>)
    requires Collates(le) && s != [] && InOrder(le, s)
    ensures forall a, k :: le(a, s[0].0) && Has(s, k) ==> le(a, k)
  {
    forall a, k | le(a, s[0].0) && Has(s, k) ensures le(a, k) {
      var j :| 0 <= j < |s| && s[j].0 == k;
      assert j == 0 || le(s[0].0, s[j].0);
    }
  }

  lemma TailFacts<V>(le: Collation, s: seq<(string, V)>)
    requires s != [] && UniqueKeys(s) && InOrder(le, s)
    ensures UniqueKeys(s[1..]) && InOrder(le, s[1..]) && !Has(s[1..], s[0].0)
    ensures forall k :: Has(s, k) <==> k == s[0].0 || Has(s[1..], k)
  {
    assert s == [s[0]] + s[1..];
    HasHead(s[0], s[1..]);
  }

  lemma {:induction false} InsertedFacts<V>(le: Collation, e: (string, V), s: seq<(string, V)>)
    requires Collates(le) && UniqueKeys(s) && !Has(s, e.0) && InOrder(le, s)
    ensures var r := Inserted(le, e, s);
            && UniqueKeys(r) && InOrder(le, r)
            && (forall k :: Has(r, k) <==> k == e.0 || Has(s, k))
            && ToMap(r) == ToMap(s)[e.0 := e.1]
  {
    hide UniqueKeys, InOrder, Has, Collates;
    if s == [] {
      assert UniqueKeys(s) && !Has(s, e.0) && InOrder(le, s);
      EmptyHasNothing(s);
      FrontFacts(le, e, s);
      HasHead(e, s);
      assert ([e] + s)[1..] == s;
    } else if le(e.0, s[0].0) {
      FrontLeast(le, s);
      FrontFacts(le, e, s);
      HasHead(e, s);
      assert ([e] + s)[1..] == s;
    } else {
      var head, rest := s[0], s[1..];
      TailFacts(le, s);
      InsertedFacts(le, e, rest);
      var r := Inserted(le, e, rest);
      FrontLeast(le, s);
      Total(le, e.0, head.0);
      Total(le, head.0, head.0);
      assert forall k :: Has(r, k) ==> le(head.0, k);
      FrontFacts(le, head, r);
      HasHead(head, r);
      assert ([head] + r)[1..] == r;
    }
  }

  lemma EmptyHasNothing<V>(s: seq<(string, V)>)
    requires s == []
    ensures forall k :: !Has(s, k)
  {
  }

  lemma Total(le: Collation, a: string, b: string)
    requires Collates(le)
    ensures le(a, b) || le(b, a)
  {
  }

  lemma {:induction false} InsertedBefore<V>(le: Collation, e: (string, V), s: seq<(string, V)>)
    requires Collates(le) && UniqueKeys(s) && !Has(s, e.0) && InOrder(le, s)
    ensures forall a, b :: Before(Inserted(le, e, s), a, b) <==>
              (a == e.0 && Has(s, b) && le(a, b)) || (b == e.0 && Has(s, a) && !le(b, a)) || Before(s, a, b)
  {
    if s == [] || le(e.0, s[0].0) {
      BeforeHead(e, s);
      forall b | Has(s, b) ensures le(e.0, b) {
        var j :| 0 <= j < |s| && s[j].0 == b;
        assert j == 0 || le(s[0].0, s[j].0);
      }
    } else {
      var rest := s[1..];
      assert s == [s[0]] + rest;
      HasHead(s[0], rest);
      BeforeHead(s[0], rest);
      InsertedBefore(le, e, rest);
      InsertedFacts(le, e, rest);
      BeforeHead(s[0], Inserted(le, e, rest));
    }
  }

  /** Sorting keeps the record, orders it, and leaves tied keys in insertion order. */
  lemma {:induction false} SortedFacts<V>(le: Collation, entries: seq<(string, V)>)
    requires Collates(le) && UniqueKeys(entries)
    ensures var r := Sorted(le, entries);
            && UniqueKeys(r) && InOrder(le, r) && ToMap(r) == ToMap(entries)
            && (forall k :: Has(r, k) <==> Has(entries, k))
            && (forall a, b :: Before(r, a, b) <==>
                  Has(entries, a) && Has(entries, b) && a != b && Ranks(le, entries, a, b))
  {
    if entries != [] {
      var e, rest := entries[0], entries[1..];
      assert entries == [e] + rest;
      HasHead(e, rest);
      BeforeHead(e, rest);
      SortedFacts(le, rest);
      assert !Has(rest, e.0);
      InsertedFacts(le, e, Sorted(le, rest));
      InsertedBefore(le, e, Sorted(le, rest));
      SortedBeforeStep(le, e, rest);
    }
  }

  lemma SortedBeforeStep<V>(le: Collation, e: (string, V), rest: seq<(string, V)>)
    requires Collates(le) && UniqueKeys([e] + rest) && !Has(rest, e.0)
    requires forall a, b :: Before(Sorted(le, rest), a, b) <==>
               Has(rest, a) && Has(rest, b) && a != b && Ranks(le, rest, a, b)
    requires forall a, b :: Before(Inserted(le, e, Sorted(le, rest)), a, b) <==>
               (a == e.0 && Has(rest, b) && le(a, b)) || (b == e.0 && Has(rest, a) && !le(b, a))
               || Before(Sorted(le, rest), a, b)
    ensures forall a, b :: Before(Inserted(le, e, Sorted(le, rest)), a, b) <==>
              Has([e] + rest, a) && Has([e] + rest, b) && a != b && Ranks(le, [e] + rest, a, b)
  {
    HasHead(e, rest);
    BeforeHead(e, rest);
    forall a | Before(rest, a, e.0) || Before(rest, e.0, a) ensures Has(rest, e.0) {
    }
  }

  /** Two records with the same content and the same key order are the same list. */
  lemma {:induction false} SameListFrom<V>(l: seq<(string, V)>, r: seq<(string, V)>)
    requires UniqueKeys(l) && UniqueKeys(r) && ToMap(l) == ToMap(r)
    requires forall a, b :: Before(l, a, b) <==> Before(r, a, b)
    ensures l == r
  {
    NonEmptyMap(r);
    if l == [] {
    } else {
      MapKeys(l); MapKeys(r);
      assert Has(l, l[0].0);
      var p :| 0 <= p < |r| && r[p].0 == l[0].0;
      assert p > 0 ==> Before(r, r[0].0, l[0].0);
      NothingBeforeHead(l);
      MapValues(l); MapValues(r);
      assert l[0] == r[0];
      assert l == [l[0]] + l[1..] && r == [r[0]] + r[1..];
      TailsAgree(l, r);
      SameListFrom(l[1..], r[1..]);
    }
  }

  lemma NonEmptyMap<V>(s: seq<(string, V)>)
    ensures s != [] ==> ToMap(s) != map[]
  {
    if s != [] { assert s[0].0 in ToMap(s); }
  }

  lemma NothingBeforeHead<V>(s: seq<(string, V)>)
    requires UniqueKeys(s) && s != []
    ensures forall a :: !Before(s, a, s[0].0)
  {
  }

  lemma TailsAgree<V>(l: seq<(string, V)>, r: seq<(string, V)>)
    requires UniqueKeys(l) && UniqueKeys(r) && ToMap(l) == ToMap(r)
    requires l != [] && r != [] && l[0] == r[0]
    requires forall a, b :: Before(l, a, b) <==> Before(r, a, b)
    ensures ToMap(l[1..]) == ToMap(r[1..])
    ensures forall a, b :: Before(l[1..], a, b) <==> Before(r[1..], a, b)
  {
    var key := l[0].0;
    NotInTail(l); NotInTail(r);
    assert ToMap(l[1..]) == ToMap(l) - {key};
    assert ToMap(r[1..]) == ToMap(r) - {key};
    assert l == [l[0]] + l[1..] && r == [r[0]] + r[1..];
    BeforeHead(l[0], l[1..]);
    BeforeHead(r[0], r[1..]);
  }

  lemma NotInTail<V>(s: seq<(string, V)>)
    requires UniqueKeys(s) && s != []
    ensures s[0].0 !in ToMap(s[1..]) && !Has(s[1..], s[0].0)
    ensures forall a, b :: Before(s[1..], a, b) ==> a != s[0].0
  {
    MapKeys(s[1..]);
    forall i | 0 <= i < |s[1..]| ensures s[1..][i].0 != s[0].0 {
      assert s[1..][i] == s[i + 1];
    }
  }

  // ------------------------------------------------- what the comparison says

  /** Equal sorted entries, as compared through their JSON text. */
  predicate SameSorted<V(==)>(le: Collation, left: seq<(string, V)>, right: seq<(string, V)>) {
    Sorted(le, left) == Sorted(le, right)
  }

  /** Keys the collation cannot tell apart were inserted in the same order. */
  ghost predicate SameTieOrder<V>(le: Collation, left: seq<(string, V)>, right: seq<(string, V)>) {
    forall a, b :: Has(left, a) && Has(left, b) && a != b && le(a, b) && le(b, a) ==>
      (Before(left, a, b) <==> Before(right, a, b))
  }

  /** The comparison accepts exactly the pairs that are equal as maps and agree on tied keys. */
  lemma SameSortedExactly<V>(le: Collation, left: seq<(string, V)>, right: seq<(string, V)>)
    requires Collates(le) && UniqueKeys(left) && UniqueKeys(right)
    ensures SameSorted(le, left, right) <==> ToMap(left) == ToMap(right) && SameTieOrder(le, left, right)
  {
    SortedFacts(le, left);
    SortedFacts(le, right);
    MapKeys(left); MapKeys(right);
    if ToMap(left) == ToMap(right) && SameTieOrder(le, left, right) {
      SameListFrom(Sorted(le, left), Sorted(le, right));
    }
    if SameSorted(le, left, right) {
      forall a, b | Has(left, a) && Has(left, b) && a != b && le(a, b) && le(b, a)
        ensures Before(left, a, b) <==> Before(right, a, b)
      {
        assert Before(Sorted(le, left), a, b) <==> Before(Sorted(le, right), a, b);
      }
    }
  }

  /** It never accepts two different records, whatever the collation ties. */
  lemma AcceptedRecordsAreEqual<V>(le: Collation, left: seq<(string, V)>, right: seq<(string, V)>)
    requires Collates(le) && UniqueKeys(left) && UniqueKeys(right) && SameSorted(le, left, right)
    ensures ToMap(left) == ToMap(right)
  {
    SameSortedExactly(le, left, right);
  }

  /** It is equality of maps, so independent of insertion order, under every collation that
      tells keys apart, and under no other. */
  lemma MapEqualityExactly<V(!new)>(le: Collation, some: V)
    requires Collates(le)
    ensures Antisymmetric(le) <==>
            (forall left: seq<(string, V)>, right: seq<(string, V)> ::
               UniqueKeys(left) && UniqueKeys(right) ==>
               (SameSorted(le, left, right) <==> ToMap(left) == ToMap(right)))
  {
    if Antisymmetric(le) {
      forall left: seq<(string, V)>, right: seq<(string, V)> | UniqueKeys(left) && UniqueKeys(right)
        ensures SameSorted(le, left, right) <==> ToMap(left) == ToMap(right)
      {
        SameSortedExactly(le, left, right);
      }
    } else {
      var a, b :| le(a, b) && le(b, a) && a != b;
      TiedKeysKeepOrder(le, a, b, some);
    }
  }

  lemma SortedPair<V>(le: Collation, a: string, b: string, v: V)
    requires le(a, b)
    ensures Sorted(le, [(a, v), (b, v)]) == [(a, v), (b, v)]
  {
    var e, s := (a, v), [(b, v)];
    assert [e, s[0]][1..] == s && s[1..] == [];
    assert Sorted(le, s) == Inserted(le, s[0], []) == s;
    assert Inserted(le, e, s) == [e] + s;
  }

  /** Two keys that collate as equal, inserted both ways: one record, refused by the test. */
  lemma TiedKeysKeepOrder<V>(le: Collation, a: string, b: string, v: V)
    requires le(a, b) && le(b, a) && a != b
    ensures var l, r := [(a, v), (b, v)], [(b, v), (a, v)];
            UniqueKeys(l) && UniqueKeys(r) && ToMap(l) == ToMap(r) && !SameSorted(le, l, r)
  {
    var l, r := [(a, v), (b, v)], [(b, v), (a, v)];
    PairMap(a, b, v);
    PairMap(b, a, v);
    SortedPair(le, a, b, v);
    SortedPair(le, b, a, v);
    hide ToMap, Sorted;
    assert l[0] != r[0];
  }

  lemma PairMap<V>(a: string, b: string, v: V)
    ensures ToMap([(a, v), (b, v)]) == map[b := v][a := v]
  {
    assert [(a, v), (b, v)][1..] == [(b, v)] && [(b, v)][1..] == [];
    assert ToMap([(b, v)]) == map[][b := v];
  }

  // -------------------------------------------- the variant that checks values

  datatype Field = Text(text: string) | Other

  predicate AllTextual(entries: seq<(string, Field)>) {
    forall i :: 0 <= i < |entries| ==> entries[i].1.Text? && entries[i].1.text != ""
  }

  /** exactStringRecord: the sorted entries agree one by one and every value is a non-empty
      string. */
  method ExactStringRecord(le: Collation, left: seq<(string, Field)>, right: seq<(string, Field)>)
    returns (same: bool)
    ensures same <==> SameSorted(le, left, right)
                      && AllTextual(Sorted(le, left))
  {
    var l, r := Sorted(le, left), Sorted(le, right);
    if |l| != |r| {
      return false;
    }
    for i := 0 to |l|
      invariant l[..i] == r[..i] && AllTextual(l[..i])
    {
      var (key, value) := l[i];
      if !value.Text? || value.text == "" || r[i].0 != key || r[i].1 != value {
        assert l == r ==> l[i] == r[i];
        return false;
      }
    }
    assert l[..|l|] == l && r[..|r|] == r;
    same := true;
  }

  /** What that test decides about the records themselves. */
  lemma ExactStringRecordMeaning(le: Collation, left: seq<(string, Field)>, right: seq<(string, Field)>)
    requires Collates(le) && Antisymmetric(le) && UniqueKeys(left) && UniqueKeys(right)
    ensures (SameSorted(le, left, right)
             && AllTextual(Sorted(le, left)))
       <==> ToMap(left) == ToMap(right)
            && forall k :: k in ToMap(left) ==> ToMap(left)[k].Text? && ToMap(left)[k].text != ""
  {
    SameSortedExactly(le, left, right);
    SortedFacts(le, left);
    var l := Sorted(le, left);
    MapValues(l);
    MapKeys(l);
    forall k | k in ToMap(l) ensures exists i :: 0 <= i < |l| && l[i].0 == k && l[i].1 == ToMap(l)[k] {
      assert Has(l, k);
    }
  }
}
