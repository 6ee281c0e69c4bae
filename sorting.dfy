/** The stable sort both the list view (`filtered.sort`) and the bubble
    chart (`indexed.sort`) apply: JavaScript's Array.prototype.sort is
    stable, and both comparators order by a real key, largest first. */
module Sorting {
  import opened Stocks

  predicate SortedDesc<T>(s: seq<T>, key: T -> real) {
    forall i, j :: 0 <= i < j < |s| ==> key(s[i]) >= key(s[j])
  }

  /** A list stays sorted when an element at least as large as its head is put in front. */
  lemma PrependSorted<T>(y: T, s: seq<T>, key: T -> real)
    requires SortedDesc(s, key) && (|s| > 0 ==> key(y) >= key(s[0]))
    ensures SortedDesc([y] + s, key)
  {
    var r := [y] + s;
    forall i, j | 0 <= i < j < |r| ensures key(r[i]) >= key(r[j]) {
      if i == 0 {
        assert r[j] == s[j - 1];
        if j > 1 { assert key(s[0]) >= key(s[j - 1]); }
      } else {
        assert r[i] == s[i - 1] && r[j] == s[j - 1];
      }
    }
  }

  /** Inserts `x` after every element whose key is at least its own, so an
      element never overtakes an earlier one with an equal key. */
  function Insert<T>(x: T, s: seq<T>, key: T -> real): (r: seq<T>)
    requires SortedDesc(s, key)
    ensures SortedDesc(r, key)
    ensures multiset(r) == multiset(s) + multiset{x}
    ensures |r| == |s| + 1
    ensures r[0] == x || (|s| > 0 && r[0] == s[0])
  {
    if s == [] then [x]
    else if key(s[0]) >= key(x) then
      var rest := Insert(x, s[1..], key);
      assert s == [s[0]] + s[1..];
      PrependSorted(s[0], rest, key);
      [s[0]] + rest
    else
      PrependSorted(x, s, key);
      [x] + s
  }

  /** Insertion sort, largest key first, stable. */
  function SortDesc<T>(s: seq<T>, key: T -> real): (r: seq<T>)
    ensures SortedDesc(r, key)
    ensures multiset(r) == multiset(s)
    ensures |r| == |s|
  {
    if s == [] then []
    else
      var init := s[..|s| - 1];
      assert s == init + [s[|s| - 1]];
      Insert(s[|s| - 1], SortDesc(init, key), key)
  }

  lemma ConcatAssoc<T>(a: seq<T>, b: seq<T>, c: seq<T>)
    ensures a + (b + c) == (a + b) + c
  {
  }

  /** Filtering a list with one more element in front. */
  lemma FilterCons<T(!new)>(y: T, s: seq<T>, keep: T -> bool)
    ensures Filter([y] + s, keep) == (if keep(y) then [y] else []) + Filter(s, keep)
  {
    assert ([y] + s)[0] == y && ([y] + s)[1..] == s;
  }

  /** Putting the same head back in front of two lists whose filters
      differ by a trailing part keeps them differing by that part. */
  lemma FilterBehindHead<T(!new)>(h: T, u: seq<T>, ins: seq<T>, last: seq<T>, keep: T -> bool)
    requires Filter(ins, keep) == Filter(u, keep) + last
    ensures Filter([h] + ins, keep) == Filter([h] + u, keep) + last
  {
    var first := if keep(h) then [h] else [];
    FilterCons(h, ins, keep);
    FilterCons(h, u, keep);
    ConcatAssoc(first, Filter(u, keep), last);
  }

  /** A kept `x` with a key above the whole sorted list has no kept peers there. */
  lemma NoPeerBelow<T(!new)>(x: T, t: seq<T>, key: T -> real, keep: T -> bool, k: real)
    requires |t| > 0 && SortedDesc(t, key) && key(t[0]) < key(x)
    requires forall y :: keep(y) ==> key(y) == k
    requires keep(x)
    ensures Filter(t, keep) == []
  {
    forall y | y in t ensures !keep(y) {
      var i :| 0 <= i < |t| && t[i] == y;
      if i > 0 { assert key(t[0]) >= key(t[i]); }
    }
    var r := Filter(t, keep);
    if |r| > 0 {
      assert false;
    }
  }

  /** Among the elements of one key, `x` lands after those already in
      the sorted list. */
  lemma {:induction false} InsertFilter<T(!new)>(x: T, t: seq<T>, key: T -> real, keep: T -> bool, k: real)
    requires SortedDesc(t, key)
    requires forall y :: keep(y) ==> key(y) == k
    ensures Filter(Insert(x, t, key), keep) == Filter(t, keep) + (if keep(x) then [x] else [])
    decreases |t|
  {
    if t == [] {
      FilterCons(x, [], keep);
    } else if key(t[0]) >= key(x) {
      InsertFilter(x, t[1..], key, keep, k);
      InsertFilterBehind(x, t, key, keep);
    } else {
      InsertFilterFront(x, t, key, keep, k);
    }
  }

  /** The step of InsertFilter where `x` goes behind the head. */
  lemma InsertFilterBehind<T(!new)>(x: T, t: seq<T>, key: T -> real, keep: T -> bool)
    requires |t| > 0 && SortedDesc(t, key) && SortedDesc(t[1..], key) && key(t[0]) >= key(x)
    requires Filter(Insert(x, t[1..], key), keep) == Filter(t[1..], keep) + (if keep(x) then [x] else [])
    ensures Filter(Insert(x, t, key), keep) == Filter(t, keep) + (if keep(x) then [x] else [])
  {
    InsertBehind(x, t, key);
    FilterBehindHead(t[0], t[1..], Insert(x, t[1..], key), if keep(x) then [x] else [], keep);
  }

  /** Insertion behind the head keeps the head in front. */
  lemma InsertBehind<T>(x: T, t: seq<T>, key: T -> real)
    requires |t| > 0 && SortedDesc(t, key) && SortedDesc(t[1..], key) && key(t[0]) >= key(x)
    ensures t == [t[0]] + t[1..]
    ensures Insert(x, t, key) == [t[0]] + Insert(x, t[1..], key)
  {
    assert t == [t[0]] + t[1..];
  }

  /** The step of InsertFilter where `x` goes in front. */
  lemma InsertFilterFront<T(!new)>(x: T, t: seq<T>, key: T -> real, keep: T -> bool, k: real)
    requires |t| > 0 && SortedDesc(t, key) && key(t[0]) < key(x)
    requires forall y :: keep(y) ==> key(y) == k
    ensures Filter(Insert(x, t, key), keep) == Filter(t, keep) + (if keep(x) then [x] else [])
  {
    assert Insert(x, t, key) == [x] + t;
    FilterCons(x, t, keep);
    if keep(x) {
      NoPeerBelow(x, t, key, keep, k);
    }
  }

  /** Stability: the elements of any one key come out of the sort in the
      order they went in. */
  lemma {:induction false} SortDescStable<T(!new)>(s: seq<T>, key: T -> real, keep: T -> bool, k: real)
    requires forall y :: keep(y) ==> key(y) == k
    ensures Filter(SortDesc(s, key), keep) == Filter(s, keep)
    decreases |s|
  {
    if s != [] {
      var init, x := s[..|s| - 1], s[|s| - 1];
      assert s == init + [x];
      SortDescStable(init, key, keep, k);
      InsertFilter(x, SortDesc(init, key), key, keep, k);
      FilterAppend(init, x, keep);
    }
  }
}
