/**
 * Ordering by an integer key, as `Array.prototype.sort` with a subtracting
 * comparator and as the `orderBy` of a query do it. The sort is an insertion
 * sort; it is stable, so already ordered input comes back unchanged.
 */
module Sorting {

  ghost predicate SortedBy<T>(s: seq<T>, key: T -> int)
  {
    forall i, j :: 0 <= i < j < |s| ==> key(s[i]) <= key(s[j])
  }

  /** `x` placed before the first element of `s` whose key is not below its own. */
  function Insert<T>(x: T, s: seq<T>, key: T -> int): (r: seq<T>)
    requires SortedBy(s, key)
    ensures SortedBy(r, key)
    ensures multiset(r) == multiset(s) + multiset{x}
    ensures |r| == |s| + 1
  {
    if s == [] || key(x) <= key(s[0]) then
      PrependSorted(x, s, key);
      [x] + s
    else
      var t := Insert(x, s[1..], key);
      assert s == [s[0]] + s[1..];
      KeysAtLeast(key(s[0]), x, s[1..], t, key);
      PrependSorted(s[0], t, key);
      [s[0]] + t
  }

  /** An element whose key is at most every key of a sorted sequence keeps it sorted in front. */
  lemma PrependSorted<T>(x: T, s: seq<T>, key: T -> int)
    requires SortedBy(s, key)
    requires s == [] || key(x) <= key(s[0])
    ensures SortedBy([x] + s, key)
  {
    var r := [x] + s;
    forall i, j | 0 <= i < j < |r| ensures key(r[i]) <= key(r[j]) {
      if i > 0 {
        assert r[i] == s[i - 1] && r[j] == s[j - 1];
      } else if j > 1 {
        assert r[j] == s[j - 1];
      }
    }
  }

  /** A lower bound on the keys of `s` and of `x` bounds the keys of any rearrangement of them. */
  lemma KeysAtLeast<T>(b: int, x: T, s: seq<T>, t: seq<T>, key: T -> int)
    requires multiset(t) == multiset(s) + multiset{x}
    requires b <= key(x) && forall i :: 0 <= i < |s| ==> b <= key(s[i])
    ensures forall k :: 0 <= k < |t| ==> b <= key(t[k])
  {
    forall k | 0 <= k < |t| ensures b <= key(t[k]) {
      var y := t[k];
      assert y in multiset(t);
      if y != x {
        assert y in multiset(s);
        var j :| 0 <= j < |s| && s[j] == y;
      }
    }
  }

  /** The elements of `s` in ascending order of their keys. */
  function SortBy<T>(s: seq<T>, key: T -> int): (r: seq<T>)
    ensures SortedBy(r, key)
    ensures multiset(r) == multiset(s)
    ensures |r| == |s|
  {
    if s == [] then []
    else
      assert s == [s[0]] + s[1..];
      Insert(s[0], SortBy(s[1..], key), key)
  }

  /** Sorting what is already in order changes nothing. */
  lemma {:induction false} SortedIsUnchanged<T>(s: seq<T>, key: T -> int)
    requires SortedBy(s, key)
    ensures SortBy(s, key) == s
  {
    if s != [] {
      SortedIsUnchanged(s[1..], key);
      assert s == [s[0]] + s[1..];
    }
  }

  /** `s.reverse()`: the elements of `s` last to first. */
  function Reversed<T>(s: seq<T>): (r: seq<T>)
    ensures |r| == |s|
    ensures forall k :: 0 <= k < |s| ==> r[k] == s[|s| - 1 - k]
  {
    if s == [] then [] else Reversed(s[1..]) + [s[0]]
  }

  /** An element whose key exceeds every key of a sorted sequence goes to its end. */
  lemma {:induction false} InsertLast<T>(x: T, t: seq<T>, key: T -> int)
    requires SortedBy(t, key)
    requires forall k :: 0 <= k < |t| ==> key(t[k]) < key(x)
    ensures Insert(x, t, key) == t + [x]
  {
    if t != [] {
      InsertLast(x, t[1..], key);
      assert t == [t[0]] + t[1..];
    }
  }

  /** Sorting a sequence whose keys strictly decrease reverses it. */
  lemma {:induction false} SortDescending<T>(s: seq<T>, key: T -> int)
    requires forall i, j :: 0 <= i < j < |s| ==> key(s[i]) > key(s[j])
    ensures SortBy(s, key) == Reversed(s)
  {
    if s != [] {
      var rest := s[1..];
      assert forall i, j :: 0 <= i < j < |rest| ==> key(rest[i]) > key(rest[j]) by {
        forall i, j | 0 <= i < j < |rest| ensures key(rest[i]) > key(rest[j]) {
          assert rest[i] == s[i + 1] && rest[j] == s[j + 1];
        }
      }
      SortDescending(rest, key);
      var t := SortBy(rest, key);
      forall k | 0 <= k < |t| ensures key(t[k]) < key(s[0]) {
        var j := |rest| - 1 - k;
        assert t[k] == rest[j];
        assert rest[j] == s[j + 1];
      }
      InsertLast(s[0], t, key);
      assert SortBy(s, key) == Insert(s[0], t, key);
      assert Reversed(s) == Reversed(rest) + [s[0]];
    }
  }
}
