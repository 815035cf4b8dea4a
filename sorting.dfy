/**
 * Array.prototype.sort with a numeric comparator, as the pages call it:
 * a stable sort on an integer key. Modelled as insertion sort, which is
 * stable, so it orders equal keys as the library does.
 */
module Sorting {

  /** Non-increasing by key (comparator `b.key - a.key`). */
  ghost predicate SortedDesc<T>(s: seq<T>, key: T -> int) {
    forall i, j :: 0 <= i < j < |s| ==> key(s[i]) >= key(s[j])
  }

  /** Insert x after every element whose key is at least key(x). */
  function Insert<T>(x: T, s: seq<T>, key: T -> int): seq<T> {
    if s == [] then [x]
    else if key(s[0]) >= key(x) then [s[0]] + Insert(x, s[1..], key)
    else [x] + s
  }

  function SortDesc<T>(s: seq<T>, key: T -> int): seq<T> {
    if s == [] then [] else Insert(s[|s| - 1], SortDesc(s[..|s| - 1], key), key)
  }

  /** Ascending order (comparator `a.key - b.key`) is descending order on the negated key. */
  function SortAsc<T>(s: seq<T>, key: T -> int): seq<T> {
    SortDesc(s, (x: T) => -key(x))
  }

  lemma {:induction false} InsertKeeps<T>(x: T, s: seq<T>, key: T -> int)
    requires SortedDesc(s, key)
    ensures multiset(Insert(x, s, key)) == multiset(s) + multiset{x}
    ensures SortedDesc(Insert(x, s, key), key)
  {
    if s != [] && key(s[0]) >= key(x) {
      var rest := Insert(x, s[1..], key);
      InsertKeeps(x, s[1..], key);
      assert s == [s[0]] + s[1..];
      forall k | 0 <= k < |rest| ensures key(s[0]) >= key(rest[k]) {
        assert rest[k] in multiset(rest);
        assert rest[k] in multiset(s[1..]) || rest[k] == x;
        if rest[k] != x {
          var m :| 0 <= m < |s[1..]| && s[1..][m] == rest[k];
          assert s[m + 1] == rest[k];
        }
      }
      assert Insert(x, s, key) == [s[0]] + rest;
    } else if s != [] {
      assert Insert(x, s, key) == [x] + s;
    }
  }

  /** The sorted sequence is ordered by key and holds exactly the input's elements. */
  lemma {:induction false} SortDescCorrect<T>(s: seq<T>, key: T -> int)
    ensures SortedDesc(SortDesc(s, key), key)
    ensures multiset(SortDesc(s, key)) == multiset(s)
    ensures |SortDesc(s, key)| == |s|
  {
    if s != [] {
      var init := s[..|s| - 1];
      SortDescCorrect(init, key);
      InsertKeeps(s[|s| - 1], SortDesc(init, key), key);
      assert s == init + [s[|s| - 1]];
    }
    assert |SortDesc(s, key)| == |multiset(SortDesc(s, key))|;
  }

  lemma SortAscCorrect<T>(s: seq<T>, key: T -> int)
    ensures forall i, j :: 0 <= i < j < |SortAsc(s, key)| ==> key(SortAsc(s, key)[i]) <= key(SortAsc(s, key)[j])
    ensures multiset(SortAsc(s, key)) == multiset(s)
    ensures |SortAsc(s, key)| == |s|
  {
    var neg := (x: T) => -key(x);
    SortDescCorrect(s, neg);
    var r := SortAsc(s, key);
    forall i, j | 0 <= i < j < |r| ensures key(r[i]) <= key(r[j]) {
      assert neg(r[i]) >= neg(r[j]);
    }
  }

  /** No two elements share a key. */
  ghost predicate DistinctBy<T>(s: seq<T>, key: T -> int) {
    forall i, j :: 0 <= i < j < |s| ==> key(s[i]) != key(s[j])
  }

  lemma {:induction false} DistinctCounts<T>(s: seq<T>, key: T -> int, x: T)
    requires DistinctBy(s, key)
    ensures multiset(s)[x] <= 1
  {
    if s != [] {
      var init, last := s[..|s| - 1], s[|s| - 1];
      assert s == init + [last];
      assert DistinctBy(init, key) by {
        forall i, j | 0 <= i < j < |init| ensures key(init[i]) != key(init[j]) {
          assert init[i] == s[i] && init[j] == s[j];
        }
      }
      DistinctCounts(init, key, x);
      assert forall k :: 0 <= k < |init| ==> init[k] == s[k];
    }
  }

  /** Reordering keeps keys distinct. */
  lemma PermutationKeepsDistinct<T>(s: seq<T>, t: seq<T>, key: T -> int)
    requires multiset(s) == multiset(t)
    requires DistinctBy(s, key)
    ensures DistinctBy(t, key)
  {
    forall i, j | 0 <= i < j < |t| ensures key(t[i]) != key(t[j]) {
      if key(t[i]) == key(t[j]) {
        assert t[i] in multiset(s) && t[j] in multiset(s);
        var a :| 0 <= a < |s| && s[a] == t[i];
        var b :| 0 <= b < |s| && s[b] == t[j];
        assert a == b;
        var x := t[i];
        assert t == t[..j] + t[j..];
        assert x in t[..j] by { assert t[..j][i] == x; }
        assert x in t[j..] by { assert t[j..][0] == x; }
        assert multiset(t)[x] == multiset(t[..j])[x] + multiset(t[j..])[x];
        DistinctCounts(s, key, x);
        assert false;
      }
    }
  }

  /** `list.slice(0, n)` */
  function Take<T>(s: seq<T>, n: nat): (r: seq<T>)
    ensures |r| == if |s| < n then |s| else n
    ensures r == s[..|r|]
  {
    if |s| < n then s else s[..n]
  }

  /** Cutting a sorted sequence leaves no key after the cut above a key before it. */
  lemma SortedCut<T>(t: seq<T>, key: T -> int, m: nat)
    requires SortedDesc(t, key) && m <= |t|
    ensures SortedDesc(t[..m], key)
    ensures forall x, y :: x in t[..m] && y in t[m..] ==> key(x) >= key(y)
  {
    forall x, y | x in t[..m] && y in t[m..] ensures key(x) >= key(y) {
      var i :| 0 <= i < m && t[..m][i] == x;
      var j :| 0 <= j < |t| - m && t[m..][j] == y;
      assert t[i] == x && t[m + j] == y;
    }
  }

  /**
   * The first n after a descending sort are the top n: ordered, drawn from
   * the input, and none of the elements left out has a greater key.
   */
  lemma TopOfSorted<T>(s: seq<T>, key: T -> int, n: nat)
    ensures var r := Take(SortDesc(s, key), n);
      && |r| == (if |s| < n then |s| else n)
      && SortedDesc(r, key)
      && multiset(r) <= multiset(s)
      && forall x, y :: x in r && y in multiset(s) - multiset(r) ==> key(x) >= key(y)
  {
    var t := SortDesc(s, key);
    SortDescCorrect(s, key);
    var r := Take(t, n);
    SortedCut(t, key, |r|);
    assert t == r + t[|r|..];
    assert multiset(s) == multiset(r) + multiset(t[|r|..]);
  }
}
