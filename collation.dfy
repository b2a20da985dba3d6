/**
 * Local ordering and filtering of a result list, shared by every page that shows one.
 *
 * `localeCompare(…, "es", {sensitivity: "base"})` is abstracted as a comparator
 * `le(a, b)` ("a sorts no later than b"). `Array.prototype.sort` is modelled by the
 * insertion sort `SortByKey`: ascending keeps `le(a, b)`, descending keeps `le(b, a)`
 * (the source swaps the arguments of `localeCompare`). An element is inserted behind
 * every element it may follow, so the sort is stable by construction; what is proved
 * is that it permutes, orders under a total preorder, and leaves ordered input as it is.
 */
module Collation {
  import opened Text

  /** The comparator is a total preorder: any two keys compare, and it is transitive. */
  ghost predicate TotalPreorder(le: (string, string) -> bool) {
    && (forall a, b :: le(a, b) || le(b, a))
    && (forall a, b, c :: le(a, b) && le(b, c) ==> le(a, c))
  }

  /** `a` may stand before `b` in the chosen direction. */
  predicate InOrder(le: (string, string) -> bool, asc: bool, a: string, b: string) {
    if asc then le(a, b) else le(b, a)
  }

  /** Every pair of positions is in order. */
  ghost predicate SortedBy<T>(s: seq<T>, key: T -> string, asc: bool, le: (string, string) -> bool) {
    forall i, j :: 0 <= i < j < |s| ==> InOrder(le, asc, key(s[i]), key(s[j]))
  }

  /** Insert `x` behind every element it does not have to precede (stable insertion). */
  function Insert<T>(s: seq<T>, x: T, key: T -> string, asc: bool, le: (string, string) -> bool): seq<T> {
    if s == [] || InOrder(le, asc, key(s[|s| - 1]), key(x)) then s + [x]
    else
      var init := s[..|s| - 1];
      assert s == init + [s[|s| - 1]];
      Insert(init, x, key, asc, le) + [s[|s| - 1]]
  }

  /** The stable sort of `s` by `key` in the direction `asc`. */
  function SortByKey<T>(s: seq<T>, key: T -> string, asc: bool, le: (string, string) -> bool): seq<T> {
    if s == [] then []
    else
      var init := s[..|s| - 1];
      assert s == init + [s[|s| - 1]];
      Insert(SortByKey(init, key, asc, le), s[|s| - 1], key, asc, le)
  }

  /** Insertion adds exactly `x`. */
  lemma {:induction false} InsertPermutes<T>(s: seq<T>, x: T, key: T -> string, asc: bool, le: (string, string) -> bool)
    ensures multiset(Insert(s, x, key, asc, le)) == multiset(s) + multiset{x}
  {
    if s == [] || InOrder(le, asc, key(s[|s| - 1]), key(x)) {
    } else {
      var init := s[..|s| - 1];
      assert s == init + [s[|s| - 1]];
      InsertPermutes(init, x, key, asc, le);
    }
  }

  /** Sorting never adds, drops or duplicates an element. */
  lemma {:induction false} SortPermutes<T>(s: seq<T>, key: T -> string, asc: bool, le: (string, string) -> bool)
    ensures multiset(SortByKey(s, key, asc, le)) == multiset(s)
    ensures |SortByKey(s, key, asc, le)| == |s|
    ensures forall x :: x in SortByKey(s, key, asc, le) <==> x in s
  {
    if s != [] {
      var init := s[..|s| - 1];
      assert s == init + [s[|s| - 1]];
      SortPermutes(init, key, asc, le);
      InsertPermutes(SortByKey(init, key, asc, le), s[|s| - 1], key, asc, le);
    }
    var r := SortByKey(s, key, asc, le);
    assert |multiset(r)| == |multiset(s)|;
    forall x ensures x in r <==> x in s {
      assert x in r <==> x in multiset(r);
      assert x in s <==> x in multiset(s);
    }
  }

  /** Inserting into a sorted list keeps it sorted. */
  lemma {:induction false} InsertSorted<T>(s: seq<T>, x: T, key: T -> string, asc: bool, le: (string, string) -> bool)
    requires TotalPreorder(le)
    requires SortedBy(s, key, asc, le)
    ensures SortedBy(Insert(s, x, key, asc, le), key, asc, le)
  {
    if s == [] || InOrder(le, asc, key(s[|s| - 1]), key(x)) {
    } else {
      var init := s[..|s| - 1];
      var last := s[|s| - 1];
      var r' := Insert(init, x, key, asc, le);
      assert SortedBy(init, key, asc, le);
      InsertSorted(init, x, key, asc, le);
      InsertPermutes(init, x, key, asc, le);
      forall i | 0 <= i < |r'|
        ensures InOrder(le, asc, key(r'[i]), key(last))
      {
        assert r'[i] in multiset(r');
        if r'[i] != x {
          assert r'[i] in multiset(init);
          var k :| 0 <= k < |init| && init[k] == r'[i];
          assert s[k] == init[k];
        }
      }
    }
  }

  /** The sort's result is in order. */
  lemma {:induction false} SortSorted<T>(s: seq<T>, key: T -> string, asc: bool, le: (string, string) -> bool)
    requires TotalPreorder(le)
    ensures SortedBy(SortByKey(s, key, asc, le), key, asc, le)
  {
    if s != [] {
      SortSorted(s[..|s| - 1], key, asc, le);
      InsertSorted(SortByKey(s[..|s| - 1], key, asc, le), s[|s| - 1], key, asc, le);
    }
  }

  /**
   * A list already in order comes back unchanged; in particular elements whose keys
   * tie keep their input order, as a stable sort keeps them.
   */
  lemma {:induction false} SortOrderedUnchanged<T>(s: seq<T>, key: T -> string, asc: bool, le: (string, string) -> bool)
    requires SortedBy(s, key, asc, le)
    ensures SortByKey(s, key, asc, le) == s
  {
    if s != [] {
      var init := s[..|s| - 1];
      assert SortedBy(init, key, asc, le);
      SortOrderedUnchanged(init, key, asc, le);
      if init != [] {
        assert init[|init| - 1] == s[|s| - 2];
      }
      assert s == init + [s[|s| - 1]];
    }
  }

  /**
   * Insertion lands `x` at position `j` when the element before `j` lets it stand
   * behind and every element from `j` on must follow it.
   */
  lemma {:induction false} InsertLandsAt<T>(sorted: seq<T>, j: nat, x: T, key: T -> string, asc: bool, le: (string, string) -> bool)
    requires j <= |sorted|
    requires j == 0 || InOrder(le, asc, key(sorted[j - 1]), key(x))
    requires forall k :: j <= k < |sorted| ==> !InOrder(le, asc, key(sorted[k]), key(x))
    ensures Insert(sorted, x, key, asc, le) == sorted[..j] + [x] + sorted[j..]
    decreases |sorted|
  {
    if j < |sorted| {
      var init := sorted[..|sorted| - 1];
      assert init[..j] == sorted[..j];
      assert j == 0 || init[j - 1] == sorted[j - 1];
      InsertLandsAt(init, j, x, key, asc, le);
      assert sorted[j..] == init[j..] + [sorted[|sorted| - 1]];
    } else {
      assert sorted[..j] == sorted;
    }
  }

  /** Sorting one more element inserts it into the sorted prefix. */
  lemma SortSnoc<T>(s: seq<T>, i: nat, key: T -> string, asc: bool, le: (string, string) -> bool)
    requires i < |s|
    ensures SortByKey(s[..i + 1], key, asc, le) == Insert(SortByKey(s[..i], key, asc, le), s[i], key, asc, le)
  {
    assert s[..i + 1][..i] == s[..i];
  }

  /** A list that agrees with `sorted` around a hole at `j` holding `x` is `sorted` with `x` put at `j`. */
  lemma Spliced<T>(t: seq<T>, sorted: seq<T>, j: nat, x: T)
    requires j <= |sorted| && |t| == |sorted| + 1
    requires forall k :: 0 <= k < j ==> t[k] == sorted[k]
    requires t[j] == x
    requires forall k :: j < k < |t| ==> t[k] == sorted[k - 1]
    ensures t == sorted[..j] + [x] + sorted[j..]
  {
  }

  /** Moves `a[i]` down into the sorted prefix `a[..i]`; the rest of `a` stays. */
  method InsertAt<T>(a: array<T>, i: nat, key: T -> string, asc: bool, le: (string, string) -> bool)
    requires i < a.Length
    modifies a
    ensures a[..i + 1] == Insert(old(a[..i]), old(a[i]), key, asc, le)
    ensures a[i + 1..] == old(a[i + 1..])
  {
    ghost var sorted := a[..i];
    var x := a[i];
    var j := i;
    while j > 0 && !InOrder(le, asc, key(a[j - 1]), key(x))
      invariant 0 <= j <= i
      invariant forall k :: 0 <= k < j ==> a[k] == sorted[k]
      invariant forall k :: j < k <= i ==> a[k] == sorted[k - 1]
      invariant forall k :: j <= k < i ==> !InOrder(le, asc, key(sorted[k]), key(x))
      invariant forall k :: i < k < a.Length ==> a[k] == old(a[k])
    {
      a[j] := a[j - 1];
      j := j - 1;
    }
    a[j] := x;
    InsertLandsAt(sorted, j, x, key, asc, le);
    Spliced(a[..i + 1], sorted, j, x);
  }

  /** Sorts `a` in place, as `a.sort(cmp)` does. */
  method SortInPlace<T>(a: array<T>, key: T -> string, asc: bool, le: (string, string) -> bool)
    modifies a
    ensures a[..] == SortByKey(old(a[..]), key, asc, le)
  {
    ghost var o := a[..];
    var i := 0;
    while i < a.Length
      invariant 0 <= i <= a.Length
      invariant a[..i] == SortByKey(o[..i], key, asc, le)
      invariant a[i..] == o[i..]
    {
      SortSnoc(o, i, key, asc, le);
      assert a[i] == o[i] by { assert a[i..][0] == o[i..][0]; }
      InsertAt(a, i, key, asc, le);
      assert a[i + 1..] == o[i + 1..] by { assert o[i..][1..] == o[i + 1..]; }
      i := i + 1;
    }
    assert o[..a.Length] == o;
  }

  /** `[...s].sort(cmp)`: a sorted copy; `s` itself is a value and stays as it was. */
  method SortedCopy<T>(s: seq<T>, key: T -> string, asc: bool, le: (string, string) -> bool) returns (r: seq<T>)
    ensures r == SortByKey(s, key, asc, le)
    ensures multiset(r) == multiset(s)
  {
    var a := new T[|s|](i requires 0 <= i < |s| => s[i]);
    assert a[..] == s;
    SortInPlace(a, key, asc, le);
    r := a[..];
    SortPermutes(s, key, asc, le);
  }

  /** The search term of a local filter box: trimmed and lower-cased. */
  function SearchTerm(busqueda: string): string {
    ToLower(Trim(busqueda))
  }

  /** The lower-cased key includes the term. */
  predicate Matches<T>(x: T, key: T -> string, term: string) {
    Contains(ToLower(key(x)), term)
  }

  /** `s.filter(x => key(x).toLowerCase().includes(term))`. */
  function FilterByTerm<T>(s: seq<T>, key: T -> string, term: string): (r: seq<T>)
    ensures |r| <= |s|
  {
    if s == [] then []
    else (if Matches(s[0], key, term) then [s[0]] else []) + FilterByTerm(s[1..], key, term)
  }

  /** The filter keeps exactly the matching elements and adds nothing; `FilterByTermCounts` gives their multiplicities. */
  lemma {:induction false} FilterByTermSpec<T>(s: seq<T>, key: T -> string, term: string)
    ensures forall x :: x in FilterByTerm(s, key, term) <==> x in s && Matches(x, key, term)
    ensures multiset(FilterByTerm(s, key, term)) <= multiset(s)
  {
    if s != [] {
      FilterByTermSpec(s[1..], key, term);
      assert s == [s[0]] + s[1..];
    }
  }

  /** Each matching element is kept as often as it occurs, and no other element is kept. */
  lemma {:induction false} FilterByTermCounts<T>(s: seq<T>, key: T -> string, term: string)
    ensures forall x :: multiset(FilterByTerm(s, key, term))[x] == if Matches(x, key, term) then multiset(s)[x] else 0
  {
    if s != [] {
      FilterByTermCounts(s[1..], key, term);
      assert s == [s[0]] + s[1..];
    }
  }

  /** `a` is `b` with some elements left out, the rest in their order. */
  ghost predicate IsSubsequence<T>(a: seq<T>, b: seq<T>)
    decreases |b|
  {
    a == [] || (b != [] && ((a[0] == b[0] && IsSubsequence(a[1..], b[1..])) || IsSubsequence(a, b[1..])))
  }

  /** The filter keeps the order of the list it filters. */
  lemma {:induction false} FilterIsSubsequence<T>(s: seq<T>, key: T -> string, term: string)
    ensures IsSubsequence(FilterByTerm(s, key, term), s)
  {
    if s != [] {
      FilterIsSubsequence(s[1..], key, term);
      var r := FilterByTerm(s, key, term);
      if Matches(s[0], key, term) {
        assert r[0] == s[0] && r[1..] == FilterByTerm(s[1..], key, term);
      } else {
        assert r == FilterByTerm(s[1..], key, term);
      }
    }
  }

  /** With an empty term every element matches, so the filter keeps the whole list. */
  lemma {:induction false} FilterEmptyTerm<T>(s: seq<T>, key: T -> string)
    ensures FilterByTerm(s, key, "") == s
  {
    if s != [] {
      ContainsEmpty(ToLower(key(s[0])));
      FilterEmptyTerm(s[1..], key);
    }
  }

  /** A search box's view of a list: all of it for a blank term, else the matching elements. */
  function FilterView<T>(s: seq<T>, key: T -> string, busqueda: string): seq<T> {
    var term := SearchTerm(busqueda);
    if term == "" then s else FilterByTerm(s, key, term)
  }

  /**
   * An element is in the view exactly when it is in the list and its key includes the
   * term; the view keeps the list's order and the elements' multiplicities.
   */
  lemma {:induction false} FilterViewSpec<T>(s: seq<T>, key: T -> string, busqueda: string)
    ensures var v := FilterView(s, key, busqueda);
            && (forall x :: x in v <==> x in s && Matches(x, key, SearchTerm(busqueda)))
            && v == FilterByTerm(s, key, SearchTerm(busqueda))
            && IsSubsequence(v, s)
            && (forall x :: multiset(v)[x] == if Matches(x, key, SearchTerm(busqueda)) then multiset(s)[x] else 0)
  {
    var term := SearchTerm(busqueda);
    if term == "" {
      FilterEmptyTerm(s, key);
    }
    FilterIsSubsequence(s, key, term);
    FilterByTermSpec(s, key, term);
    FilterByTermCounts(s, key, term);
  }
}
