/** Python's stable `sorted` over records keyed by a pair of integers compared
    lexicographically (one key is written as the pair (k, 0)), plus counting and
    filtering over sequences. */
module Sorting {

  predicate KeyLe(a: (int, int), b: (int, int))
  {
    a.0 < b.0 || (a.0 == b.0 && a.1 <= b.1)
  }

  predicate SortedBy<T>(s: seq<T>, key: T -> (int, int))
  {
    forall i, j :: 0 <= i < j < |s| ==> KeyLe(key(s[i]), key(s[j]))
  }

  /** Places `x` before the first element whose key is not smaller, so an element
      inserted this way precedes the equal-keyed ones already in place. */
  function Insert<T>(x: T, s: seq<T>, key: T -> (int, int)): (r: seq<T>)
    ensures |r| == |s| + 1
    ensures multiset(r) == multiset(s) + multiset{x}
  {
    if s == [] then [x]
    else if KeyLe(key(x), key(s[0])) then [x] + s
    else
      assert s == [s[0]] + s[1..];
      [s[0]] + Insert(x, s[1..], key)
  }

  lemma {:induction false} InsertSorted<T>(x: T, s: seq<T>, key: T -> (int, int))
    requires SortedBy(s, key)
    ensures SortedBy(Insert(x, s, key), key)
  {
    if s != [] && !KeyLe(key(x), key(s[0])) {
      var t := Insert(x, s[1..], key);
      InsertSorted(x, s[1..], key);
      assert SortedBy(s[1..], key) by {
        forall i, j | 0 <= i < j < |s[1..]| ensures KeyLe(key(s[1..][i]), key(s[1..][j])) {
          assert s[1..][i] == s[i + 1] && s[1..][j] == s[j + 1];
        }
      }
      forall k | 0 <= k < |t| ensures KeyLe(key(s[0]), key(t[k])) {
        assert t[k] in multiset(t);
        if t[k] != x {
          assert t[k] in multiset(s[1..]);
          var m :| 0 <= m < |s[1..]| && s[1..][m] == t[k];
          assert s[1..][m] == s[m + 1];
        }
      }
      var r := [s[0]] + t;
      forall i, j | 0 <= i < j < |r| ensures KeyLe(key(r[i]), key(r[j])) {
        if i == 0 {
          assert r[j] == t[j - 1];
        } else {
          assert r[i] == t[i - 1] && r[j] == t[j - 1];
        }
      }
    }
  }

  function Sort<T>(s: seq<T>, key: T -> (int, int)): (r: seq<T>)
    ensures |r| == |s|
    ensures multiset(r) == multiset(s)
  {
    if s == [] then []
    else
      assert s == [s[0]] + s[1..];
      Insert(s[0], Sort(s[1..], key), key)
  }

  lemma {:induction false} SortSorted<T>(s: seq<T>, key: T -> (int, int))
    ensures SortedBy(Sort(s, key), key)
  {
    if s != [] {
      SortSorted(s[1..], key);
      InsertSorted(s[0], Sort(s[1..], key), key);
    }
  }

  lemma SortedElements<T>(s: seq<T>, key: T -> (int, int))
    ensures forall x :: x in Sort(s, key) <==> x in s
  {
    var r := Sort(s, key);
    forall x ensures x in r <==> x in s {
      assert x in r <==> x in multiset(r);
      assert x in s <==> x in multiset(s);
    }
  }

  /** The first element of a sorted copy has the smallest key. */
  lemma SortMinimum<T>(s: seq<T>, key: T -> (int, int), x: T)
    requires x in s
    ensures KeyLe(key(Sort(s, key)[0]), key(x))
  {
    var r := Sort(s, key);
    assert x in r by {
      assert x in multiset(s);
      assert x in multiset(r);
    }
    SortSorted(s, key);
    var k :| 0 <= k < |r| && r[k] == x;
    if k > 0 {
      assert KeyLe(key(r[0]), key(r[k]));
    }
  }

  /** An already sorted sequence is its own sorted copy. */
  lemma {:induction false} SortIdentity<T>(s: seq<T>, key: T -> (int, int))
    requires SortedBy(s, key)
    ensures Sort(s, key) == s
  {
    if s != [] {
      assert SortedBy(s[1..], key) by {
        forall i, j | 0 <= i < j < |s[1..]| ensures KeyLe(key(s[1..][i]), key(s[1..][j])) {
          assert s[1..][i] == s[i + 1] && s[1..][j] == s[j + 1];
        }
      }
      SortIdentity(s[1..], key);
      if |s| > 1 {
        assert KeyLe(key(s[0]), key(s[1]));
      }
      assert s == [s[0]] + s[1..];
    }
  }

  function Map<T, U>(s: seq<T>, f: T -> U): (r: seq<U>)
    ensures |r| == |s|
    ensures forall i :: 0 <= i < |s| ==> r[i] == f(s[i])
  {
    if s == [] then [] else [f(s[0])] + Map(s[1..], f)
  }

  lemma {:induction false} InsertMap<T>(x: T, s: seq<T>, key: T -> (int, int), f: T -> T)
    requires forall y :: key(f(y)) == key(y)
    ensures Insert(f(x), Map(s, f), key) == Map(Insert(x, s, key), f)
  {
    if s != [] {
      assert Map(s, f)[1..] == Map(s[1..], f);
      if !KeyLe(key(x), key(s[0])) {
        InsertMap(x, s[1..], key, f);
      }
    }
  }

  /** Sorting commutes with a change that keeps every key. */
  lemma {:induction false} SortMap<T>(s: seq<T>, key: T -> (int, int), f: T -> T)
    requires forall y :: key(f(y)) == key(y)
    ensures Sort(Map(s, f), key) == Map(Sort(s, key), f)
  {
    if s != [] {
      assert Map(s, f)[1..] == Map(s[1..], f);
      SortMap(s[1..], key, f);
      InsertMap(s[0], Sort(s[1..], key), key, f);
    }
  }

  function Count<T>(s: seq<T>, p: T -> bool): (n: nat)
    ensures n <= |s|
  {
    if s == [] then 0 else (if p(s[0]) then 1 else 0) + Count(s[1..], p)
  }

  function Filter<T(!new)>(s: seq<T>, p: T -> bool): (r: seq<T>)
    ensures |r| == Count(s, p)
    ensures forall x :: x in r <==> x in s && p(x)
  {
    if s == [] then [] else if p(s[0]) then [s[0]] + Filter(s[1..], p) else Filter(s[1..], p)
  }

  lemma {:induction false} CountInsert<T>(x: T, s: seq<T>, key: T -> (int, int), p: T -> bool)
    ensures Count(Insert(x, s, key), p) == (if p(x) then 1 else 0) + Count(s, p)
  {
    if s != [] && !KeyLe(key(x), key(s[0])) {
      CountInsert(x, s[1..], key, p);
    }
  }

  /** Sorting neither adds nor drops an element satisfying any condition. */
  lemma {:induction false} CountSort<T>(s: seq<T>, key: T -> (int, int), p: T -> bool)
    ensures Count(Sort(s, key), p) == Count(s, p)
  {
    if s != [] {
      CountSort(s[1..], key, p);
      CountInsert(s[0], Sort(s[1..], key), key, p);
    }
  }

  lemma {:induction false} CountZero<T>(s: seq<T>, p: T -> bool)
    ensures Count(s, p) == 0 <==> forall i :: 0 <= i < |s| ==> !p(s[i])
  {
    if s != [] {
      CountZero(s[1..], p);
      assert forall i :: 1 <= i < |s| ==> s[i] == s[1..][i - 1];
    }
  }

  lemma {:induction false} CountTwo<T>(s: seq<T>, p: T -> bool, i: int, j: int)
    requires 0 <= i < j < |s| && p(s[i]) && p(s[j])
    ensures Count(s, p) >= 2
  {
    if i == 0 {
      CountAtLeastOne(s[1..], p, j - 1);
    } else {
      CountTwo(s[1..], p, i - 1, j - 1);
    }
  }

  lemma {:induction false} CountAtLeastOne<T>(s: seq<T>, p: T -> bool, i: int)
    requires 0 <= i < |s| && p(s[i])
    ensures Count(s, p) >= 1
  {
    if i > 0 {
      CountAtLeastOne(s[1..], p, i - 1);
    }
  }

  lemma {:induction false} CountImplies<T>(s: seq<T>, p: T -> bool, q: T -> bool)
    requires forall x :: x in s && p(x) ==> q(x)
    ensures Count(s, p) <= Count(s, q)
  {
    if s != [] {
      CountImplies(s[1..], p, q);
    }
  }
}
