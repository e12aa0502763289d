/** The query shapes the services use on their collections: filter, count, sort newest first
    and limit. */
module Collections {
  import opened Common

  /** `find(query)`: the elements satisfying the query, in store order. */
  function Filter<T>(s: seq<T>, p: T -> bool): (r: seq<T>)
    ensures |r| <= |s|
    ensures forall i :: 0 <= i < |r| ==> r[i] in s && p(r[i])
    ensures forall i :: 0 <= i < |s| && p(s[i]) ==> s[i] in r
    ensures multiset(r) <= multiset(s)
  {
    if s == [] then []
    else
      assert s == [s[0]] + s[1..];
      if p(s[0]) then [s[0]] + Filter(s[1..], p) else Filter(s[1..], p)
  }

  /** Filtering keeps store order: the result is a subsequence of the input. */
  lemma {:induction false} FilterAppend<T>(s: seq<T>, t: seq<T>, p: T -> bool)
    ensures Filter(s + t, p) == Filter(s, p) + Filter(t, p)
  {
    if s != [] {
      var st := s + t;
      assert st[0] == s[0] && st[1..] == s[1..] + t;
      FilterAppend(s[1..], t, p);
      if p(s[0]) {
        assert Filter(st, p) == [s[0]] + Filter(st[1..], p);
        assert Filter(s, p) == [s[0]] + Filter(s[1..], p);
        AppendAssociative([s[0]], Filter(s[1..], p), Filter(t, p));
      } else {
        assert Filter(st, p) == Filter(st[1..], p);
        assert Filter(s, p) == Filter(s[1..], p);
      }
    } else {
      assert s + t == t;
    }
  }

  /** Pushing the next element of `t` onto `s + t[..j]`. */
  lemma PushStep<T>(s: seq<T>, t: seq<T>, j: nat)
    requires j < |t|
    ensures s + t[..j + 1] == (s + t[..j]) + [t[j]]
  {
    assert t[..j + 1] == t[..j] + [t[j]];
  }

  /** Concatenation is associative. */
  lemma AppendAssociative<T>(x: seq<T>, y: seq<T>, z: seq<T>)
    ensures (x + y) + z == x + (y + z)
  {
  }

  /** `findOne(query)` without a sort, and `Array.prototype.find`: the index of the first element
      satisfying the query, |s| when there is none. */
  function FirstIndex<T>(s: seq<T>, p: T -> bool): (k: nat)
    ensures k <= |s|
    ensures k < |s| ==> p(s[k])
    ensures forall j :: 0 <= j < k ==> !p(s[j])
  {
    if s == [] then 0
    else if p(s[0]) then 0
    else 1 + FirstIndex(s[1..], p)
  }

  /** `countDocuments(query)`. */
  function Count<T>(s: seq<T>, p: T -> bool): (n: nat)
    ensures n <= |s|
    ensures n == |Filter(s, p)|
    ensures n > 0 <==> exists i :: 0 <= i < |s| && p(s[i])
  {
    if s == [] then 0
    else
      (if p(s[0]) then 1 else 0) + Count(s[1..], p)
  }

  /** Replacing one element changes the count by what the old and new element contribute. */
  lemma {:induction false} CountUpdate<T>(s: seq<T>, k: nat, x: T, p: T -> bool)
    requires k < |s|
    ensures Count(s[k := x], p) == Count(s, p) - (if p(s[k]) then 1 else 0) + (if p(x) then 1 else 0)
  {
    var u := s[k := x];
    assert Count(u, p) == (if p(u[0]) then 1 else 0) + Count(u[1..], p);
    assert Count(s, p) == (if p(s[0]) then 1 else 0) + Count(s[1..], p);
    if k > 0 {
      assert u[0] == s[0] && u[1..] == s[1..][k - 1 := x];
      CountUpdate(s[1..], k - 1, x, p);
    } else {
      assert u[0] == x && u[1..] == s[1..];
    }
  }

  /** Appending one element adds its contribution to the count. */
  lemma {:induction false} CountAppend<T>(s: seq<T>, x: T, p: T -> bool)
    ensures Count(s + [x], p) == Count(s, p) + (if p(x) then 1 else 0)
  {
    if s != [] {
      assert (s + [x])[1..] == s[1..] + [x];
      CountAppend(s[1..], x, p);
    }
  }

  /** Every element's key is at least every later element's key. */
  ghost predicate SortedDesc<T>(s: seq<T>, key: T -> int)
  {
    forall i, j :: 0 <= i < j < |s| ==> key(s[i]) >= key(s[j])
  }

  /** No element's key exceeds `b`. */
  ghost predicate KeysAtMost<T>(s: seq<T>, key: T -> int, b: int)
  {
    forall i :: 0 <= i < |s| ==> key(s[i]) <= b
  }

  /** Places `x` before the first element whose key is not greater than its own. */
  function InsertDesc<T>(x: T, s: seq<T>, key: T -> int): (r: seq<T>)
    ensures |r| == |s| + 1
  {
    if s == [] || key(x) >= key(s[0]) then [x] + s else [s[0]] + InsertDesc(x, s[1..], key)
  }

  /** Inserting adds exactly the inserted element. */
  lemma {:induction false} InsertDescPermutes<T>(x: T, s: seq<T>, key: T -> int)
    ensures multiset(InsertDesc(x, s, key)) == multiset(s) + multiset{x}
  {
    if s == [] || key(x) >= key(s[0]) {
      assert multiset([x] + s) == multiset{x} + multiset(s);
    } else {
      assert s == [s[0]] + s[1..];
      InsertDescPermutes(x, s[1..], key);
      assert multiset([s[0]] + InsertDesc(x, s[1..], key)) == multiset{s[0]} + multiset(InsertDesc(x, s[1..], key));
    }
  }

  /** Inserting a key no greater than a bound keeps every key within the bound. */
  lemma {:induction false} InsertDescBounded<T>(x: T, s: seq<T>, key: T -> int, b: int)
    requires KeysAtMost(s, key, b) && key(x) <= b
    ensures KeysAtMost(InsertDesc(x, s, key), key, b)
  {
    if s != [] && key(x) < key(s[0]) {
      assert KeysAtMost(s[1..], key, b);
      InsertDescBounded(x, s[1..], key, b);
      var r := InsertDesc(x, s, key);
      assert forall j :: 1 <= j < |r| ==> r[j] == InsertDesc(x, s[1..], key)[j - 1];
    }
  }

  /** Inserting into a descending list keeps it descending. */
  lemma {:induction false} InsertDescSorted<T>(x: T, s: seq<T>, key: T -> int)
    requires SortedDesc(s, key)
    ensures SortedDesc(InsertDesc(x, s, key), key)
  {
    if s != [] && key(x) < key(s[0]) {
      var rest := InsertDesc(x, s[1..], key);
      assert SortedDesc(s[1..], key);
      assert KeysAtMost(s[1..], key, key(s[0]));
      InsertDescSorted(x, s[1..], key);
      InsertDescBounded(x, s[1..], key, key(s[0]));
      var r := InsertDesc(x, s, key);
      assert r == [s[0]] + rest;
      assert forall j :: 1 <= j < |r| ==> r[j] == rest[j - 1];
    }
  }

  /** `.sort({ key: -1 })`: an insertion sort, newest first; equal keys keep store order. */
  function SortDesc<T>(s: seq<T>, key: T -> int): (r: seq<T>)
    ensures SortedDesc(r, key)
    ensures multiset(r) == multiset(s)
    ensures |r| == |s|
  {
    if s == [] then []
    else
      var rest := SortDesc(s[1..], key);
      assert s == [s[0]] + s[1..];
      InsertDescSorted(s[0], rest, key);
      InsertDescPermutes(s[0], rest, key);
      InsertDesc(s[0], rest, key)
  }

  /** `find(query).sort({ key: -1 })`: exactly the matching elements, newest first. */
  function SelectSorted<T>(s: seq<T>, p: T -> bool, key: T -> int): (r: seq<T>)
    ensures SortedDesc(r, key)
    ensures multiset(r) == multiset(Filter(s, p))
    ensures forall k :: 0 <= k < |r| ==> r[k] in s && p(r[k])
    ensures forall k :: 0 <= k < |s| && p(s[k]) ==> s[k] in r
  {
    var m := Filter(s, p);
    var r := SortDesc(m, key);
    forall k | 0 <= k < |r|
      ensures r[k] in s && p(r[k])
    {
      assert r[k] in multiset(m);
    }
    forall k | 0 <= k < |s| && p(s[k])
      ensures s[k] in r
    {
      assert s[k] in multiset(r);
    }
    r
  }

  /** `findOne(query).sort({ key: -1 })`: a matching element with the greatest key, none when
      nothing matches; among equal keys the first in store order. */
  function NewestMatch<T>(s: seq<T>, p: T -> bool, key: T -> int): (r: Option<T>)
    ensures r.None? <==> forall k :: 0 <= k < |s| ==> !p(s[k])
    ensures r.Some? ==> r.value in s && p(r.value)
    ensures r.Some? ==> forall k :: 0 <= k < |s| && p(s[k]) ==> key(s[k]) <= key(r.value)
  {
    var sorted := SelectSorted(s, p, key);
    if sorted == [] then None
    else
      forall k | 0 <= k < |s| && p(s[k])
        ensures key(s[k]) <= key(sorted[0])
      {
        var m :| 0 <= m < |sorted| && sorted[m] == s[k];
        assert m == 0 || key(sorted[0]) >= key(sorted[m]);
      }
      assert sorted[0] in s && p(sorted[0]);
      Some(sorted[0])
  }

  /** `find(query).sort({ key: -1 }).limit(n)`: the newest matches, all of them when n is 0 or
      when fewer than n match. */
  function NewestMatches<T>(s: seq<T>, p: T -> bool, key: T -> int, n: nat): (r: seq<T>)
    ensures n > 0 ==> |r| <= n
    ensures |r| == if n == 0 || Count(s, p) <= n then Count(s, p) else n
    ensures forall k :: 0 <= k < |r| ==> r[k] in s && p(r[k])
    ensures SortedDesc(r, key)
    ensures (n > 0 && |r| == n) || forall k :: 0 <= k < |s| && p(s[k]) ==> s[k] in r
    ensures n == 0 ==> multiset(r) == multiset(Filter(s, p))
    ensures multiset(r) <= multiset(Filter(s, p))
    ensures forall k, i :: 0 <= k < |s| && p(s[k]) && s[k] !in r && 0 <= i < |r| ==> key(s[k]) <= key(r[i])
  {
    var sorted := SelectSorted(s, p, key);
    var r := Limit(sorted, n);
    assert |sorted| == |multiset(sorted)| == |multiset(Filter(s, p))| == |Filter(s, p)|;
    LimitOfDescending(sorted, n, key);
    forall k, i | 0 <= k < |s| && p(s[k]) && s[k] !in r && 0 <= i < |r|
      ensures key(s[k]) <= key(r[i])
    {
      var j :| 0 <= j < |sorted| && sorted[j] == s[k];
    }
    r
  }

  /** A cut descending list is a prefix of it: still descending, part of it, and each kept
      element at least as new as every element cut off. */
  lemma LimitOfDescending<T>(sorted: seq<T>, n: nat, key: T -> int)
    requires SortedDesc(sorted, key)
    ensures var r := Limit(sorted, n);
            && SortedDesc(r, key)
            && multiset(r) <= multiset(sorted)
            && (forall i :: 0 <= i < |r| ==> r[i] == sorted[i])
            && (forall j, i :: |r| <= j < |sorted| && 0 <= i < |r| ==> key(sorted[j]) <= key(r[i]))
  {
    var r := Limit(sorted, n);
    assert sorted == r + sorted[|r|..];
  }

  /** The single newest match and the head of the unlimited newest-first listing agree, for any
      two ways of writing the same query. */
  lemma NewestMatchHeadsListing<T>(s: seq<T>, p: T -> bool, q: T -> bool, key: T -> int)
    requires forall x :: p(x) == q(x)
    ensures var listing := NewestMatches(s, q, key, 0);
            var newest := NewestMatch(s, p, key);
            (newest.Some? <==> listing != []) && (newest.Some? ==> key(newest.value) == key(listing[0]))
  {
    var listing := NewestMatches(s, q, key, 0);
    var newest := NewestMatch(s, p, key);
    if listing != [] {
      var i :| 0 <= i < |s| && s[i] == listing[0];
      assert p(s[i]);
    }
    if newest.Some? {
      var k :| 0 <= k < |s| && s[k] == newest.value;
      assert q(s[k]);
      var j :| 0 <= j < |listing| && listing[j] == newest.value;
      assert j == 0 || key(listing[0]) >= key(listing[j]);
    }
  }

  /** `.limit(n)` where 0 means no limit. */
  function Limit<T>(s: seq<T>, n: nat): (r: seq<T>)
    ensures n == 0 || |s| <= n ==> r == s
    ensures 0 < n < |s| ==> r == s[..n]
    ensures |r| <= |s| && (n > 0 ==> |r| <= n)
  {
    if n == 0 || |s| <= n then s else s[..n]
  }
}
