/**
 * The LINQ operators the core uses on lists: `Where` (a filter that keeps order) and
 * `OrderByDescending` (a stable sort on an integer key) followed by `FirstOrDefault`.
 */
module Sequences {

  /** `s.Where(p)`: the elements satisfying p, in their original order. */
  function Filter<T(==)>(s: seq<T>, p: T -> bool): (r: seq<T>)
    ensures |r| <= |s|
    ensures forall i :: 0 <= i < |r| ==> r[i] in s && p(r[i])
    ensures forall i :: 0 <= i < |s| && p(s[i]) ==> s[i] in r
  {
    if s == [] then []
    else if p(s[0]) then [s[0]] + Filter(s[1..], p)
    else Filter(s[1..], p)
  }

  /** The first element Filter keeps is the first element of s that satisfies p. */
  lemma {:induction false} FilterHead<T>(s: seq<T>, p: T -> bool)
    requires Filter(s, p) != []
    ensures exists i :: && 0 <= i < |s| && s[i] == Filter(s, p)[0] && p(s[i])
                        && (forall j :: 0 <= j < i ==> !p(s[j]))
  {
    if !p(s[0]) {
      FilterHead(s[1..], p);
      var i :| && 0 <= i < |s[1..]| && s[1..][i] == Filter(s[1..], p)[0] && p(s[1..][i])
               && (forall j :: 0 <= j < i ==> !p(s[1..][j]));
      assert s[i + 1] == Filter(s, p)[0];
      forall j | 0 <= j < i + 1 ensures !p(s[j]) {
        if j > 0 {
          assert s[j] == s[1..][j - 1];
        }
      }
    } else {
      assert s[0] == Filter(s, p)[0];
    }
  }

  /** The keys of s never increase from left to right. */
  predicate SortedDesc<T>(s: seq<T>, key: T -> int)
  {
    forall i, j :: 0 <= i < j < |s| ==> key(s[i]) >= key(s[j])
  }

  /** Places x before the first element whose key is not above x's key. */
  function InsertDesc<T>(x: T, s: seq<T>, key: T -> int): (r: seq<T>)
    ensures multiset(r) == multiset(s) + multiset{x}
  {
    if s == [] || key(s[0]) <= key(x) then [x] + s
    else
      assert s == [s[0]] + s[1..];
      [s[0]] + InsertDesc(x, s[1..], key)
  }

  /** Inserting into a sorted sequence keeps it sorted. */
  lemma {:induction false} InsertDescSorted<T>(x: T, s: seq<T>, key: T -> int)
    requires SortedDesc(s, key)
    ensures SortedDesc(InsertDesc(x, s, key), key)
  {
    if s == [] || key(s[0]) <= key(x) {
      ConsSorted(x, s, key);
    } else {
      var t := InsertDesc(x, s[1..], key);
      TailSorted(s, key);
      InsertDescSorted(x, s[1..], key);
      InsertDescHead(x, s[1..], key);
      ConsSorted(s[0], t, key);
    }
  }

  /** The tail of a sorted sequence is sorted. */
  lemma TailSorted<T>(s: seq<T>, key: T -> int)
    requires s != [] && SortedDesc(s, key)
    ensures SortedDesc(s[1..], key)
    ensures |s| > 1 ==> key(s[1]) <= key(s[0])
  {
    forall i, j | 0 <= i < j < |s| - 1 ensures key(s[1..][i]) >= key(s[1..][j]) {
      assert s[1..][i] == s[i + 1] && s[1..][j] == s[j + 1];
    }
  }

  /** A head no smaller than the first key of a sorted sequence keeps it sorted. */
  lemma ConsSorted<T>(h: T, t: seq<T>, key: T -> int)
    requires SortedDesc(t, key) && (t == [] || key(t[0]) <= key(h))
    ensures SortedDesc([h] + t, key)
  {
    var r := [h] + t;
    forall i, j | 0 <= i < j < |r| ensures key(r[i]) >= key(r[j]) {
      assert r[j] == t[j - 1];
      if i > 0 {
        assert r[i] == t[i - 1];
      } else {
        assert r[i] == h;
        if j > 1 {
          assert key(t[0]) >= key(t[j - 1]);
        }
      }
    }
  }

  /**
   * `s.OrderByDescending(key)`: a stable sort; elements with equal keys keep their
   * relative order, since each element goes in front of the equal keys that follow it.
   */
  function SortDesc<T>(s: seq<T>, key: T -> int): (r: seq<T>)
    ensures multiset(r) == multiset(s)
    ensures SortedDesc(r, key)
  {
    if s == [] then []
    else
      assert s == [s[0]] + s[1..];
      InsertDescSorted(s[0], SortDesc(s[1..], key), key);
      InsertDesc(s[0], SortDesc(s[1..], key), key)
  }

  /** Position i holds a maximum key of s, and every earlier key is strictly below it. */
  predicate IsFirstMax<T>(s: seq<T>, key: T -> int, i: int)
  {
    && 0 <= i < |s|
    && (forall j :: 0 <= j < |s| ==> key(s[j]) <= key(s[i]))
    && (forall j :: 0 <= j < i ==> key(s[j]) < key(s[i]))
  }

  /** A sequence has at most one first maximum. */
  lemma FirstMaxUnique<T>(s: seq<T>, key: T -> int, i: int, j: int)
    requires IsFirstMax(s, key, i) && IsFirstMax(s, key, j)
    ensures i == j
  {
    assert key(s[i]) <= key(s[j]) && key(s[j]) <= key(s[i]);
  }

  /** The head of a sorted sequence has the largest key. */
  lemma SortedHeadIsMax<T>(s: seq<T>, key: T -> int, y: T)
    requires SortedDesc(s, key) && y in multiset(s)
    ensures key(y) <= key(s[0])
  {
    var k :| 0 <= k < |s| && s[k] == y;
  }

  /** Where InsertDesc puts its element relative to the head of the list. */
  lemma InsertDescHead<T>(x: T, t: seq<T>, key: T -> int)
    ensures InsertDesc(x, t, key) != []
    ensures InsertDesc(x, t, key)[0] == if t == [] || key(t[0]) <= key(x) then x else t[0]
  {
  }

  /**
   * `OrderByDescending(key).FirstOrDefault()` on a non-empty list is its first
   * element of maximum key.
   */
  lemma {:induction false} SortDescHead<T>(s: seq<T>, key: T -> int)
    requires s != []
    ensures exists i :: IsFirstMax(s, key, i) && SortDesc(s, key)[0] == s[i]
  {
    var t := SortDesc(s[1..], key);
    InsertDescHead(s[0], t, key);
    assert SortDesc(s, key) == InsertDesc(s[0], t, key);
    if t == [] || key(t[0]) <= key(s[0]) {
      HeadFirstMax(s, key, t);
    } else {
      SortDescHead(s[1..], key);
      var i :| IsFirstMax(s[1..], key, i) && t[0] == s[1..][i];
      ShiftFirstMax(s, key, i);
    }
  }

  /** The first element is the first maximum when no later key exceeds it. */
  lemma HeadFirstMax<T>(s: seq<T>, key: T -> int, t: seq<T>)
    requires s != [] && SortedDesc(t, key) && multiset(t) == multiset(s[1..])
    requires t == [] || key(t[0]) <= key(s[0])
    ensures IsFirstMax(s, key, 0)
  {
    forall j | 0 <= j < |s| ensures key(s[j]) <= key(s[0]) {
      if j > 0 {
        assert s[j] == s[1..][j - 1];
        assert s[j] in multiset(t);
        SortedHeadIsMax(t, key, s[j]);
      }
    }
  }

  /** A first maximum of the tail that beats the first element is the first maximum of all. */
  lemma ShiftFirstMax<T>(s: seq<T>, key: T -> int, i: int)
    requires s != [] && IsFirstMax(s[1..], key, i) && key(s[0]) < key(s[1..][i])
    ensures IsFirstMax(s, key, i + 1)
  {
    forall j | 0 < j < |s| ensures s[j] == s[1..][j - 1] {
    }
  }

  /** Nothing passes a filter no element satisfies. */
  lemma {:induction false} FilterNone<T>(s: seq<T>, p: T -> bool)
    requires forall i :: 0 <= i < |s| ==> !p(s[i])
    ensures Filter(s, p) == []
  {
    if s != [] {
      FilterNone(s[1..], p);
    }
  }

  /** When every key is the same, sorting leaves the first element in front. */
  lemma ConstantKeyHead<T>(s: seq<T>, key: T -> int)
    requires s != [] && forall i :: 0 <= i < |s| ==> key(s[i]) == key(s[0])
    ensures SortDesc(s, key)[0] == s[0]
  {
    SortDescHead(s, key);
    var i :| IsFirstMax(s, key, i) && SortDesc(s, key)[0] == s[i];
    assert IsFirstMax(s, key, 0);
    FirstMaxUnique(s, key, i, 0);
  }
}
