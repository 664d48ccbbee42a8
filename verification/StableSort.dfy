/** The one sorting order used in the repository: ascending by an integer key, equal keys in their
    original order. Python's `sorted` (the replay tool) and the browser's `Array.sort` (the event
    views) are both stable sorts. */
module StableSort {

  ghost predicate Sorted<T(!new)>(key: T -> int, s: seq<T>) {
    forall i, j :: 0 <= i < j < |s| ==> key(s[i]) <= key(s[j])
  }

  // Strictly ascending keys: sorted, and no key twice.
  ghost predicate Ascending<T(!new)>(key: T -> int, s: seq<T>) {
    forall i, j :: 0 <= i < j < |s| ==> key(s[i]) < key(s[j])
  }

  function Insert<T(!new)>(key: T -> int, x: T, s: seq<T>): (r: seq<T>)
    ensures |r| == |s| + 1
  {
    if s == [] || key(x) <= key(s[0]) then [x] + s else [s[0]] + Insert(key, x, s[1..])
  }

  function Sort<T(!new)>(key: T -> int, s: seq<T>): (r: seq<T>)
    ensures |r| == |s|
  {
    if s == [] then [] else Insert(key, s[0], Sort(key, s[1..]))
  }

  // The elements with key `k`, in order.
  function WithKey<T(!new)>(key: T -> int, s: seq<T>, k: int): (r: seq<T>)
    ensures forall x :: x in r <==> x in s && key(x) == k
  {
    if s == [] then []
    else if key(s[0]) == k then [s[0]] + WithKey(key, s[1..], k)
    else WithKey(key, s[1..], k)
  }

  lemma {:induction false} InsertSorts<T(!new)>(key: T -> int, x: T, s: seq<T>)
    requires Sorted(key, s)
    ensures Sorted(key, Insert(key, x, s))
    ensures multiset(Insert(key, x, s)) == multiset{x} + multiset(s)
  {
    if s != [] && key(s[0]) < key(x) {
      InsertSorts(key, x, s[1..]);
      var t := Insert(key, x, s[1..]);
      assert s == [s[0]] + s[1..];
      forall e | e in t
        ensures key(s[0]) <= key(e)
      {
        assert e in multiset(t);
        if e != x {
          assert e in multiset(s[1..]);
          assert e in s[1..];
        }
      }
    } else {
      assert [x] + s == Insert(key, x, s);
    }
  }

  lemma {:induction false} SortSorts<T(!new)>(key: T -> int, s: seq<T>)
    ensures Sorted(key, Sort(key, s))
    ensures multiset(Sort(key, s)) == multiset(s)
  {
    if s == [] {
    } else {
      SortSorts(key, s[1..]);
      InsertSorts(key, s[0], Sort(key, s[1..]));
      assert s == [s[0]] + s[1..];
    }
  }

  lemma {:induction false} InsertIsStable<T(!new)>(key: T -> int, x: T, s: seq<T>, k: int)
    ensures WithKey(key, Insert(key, x, s), k)
         == (if key(x) == k then [x] else []) + WithKey(key, s, k)
  {
    if s == [] || key(x) <= key(s[0]) {
      assert ([x] + s)[1..] == s;
    } else {
      InsertIsStable(key, x, s[1..], k);
      assert ([s[0]] + Insert(key, x, s[1..]))[1..] == Insert(key, x, s[1..]);
    }
  }

  // Stability: among elements with the same key, sorting changes nothing.
  lemma {:induction false} SortIsStable<T(!new)>(key: T -> int, s: seq<T>, k: int)
    ensures WithKey(key, Sort(key, s), k) == WithKey(key, s, k)
  {
    if s != [] {
      SortIsStable(key, s[1..], k);
      InsertIsStable(key, s[0], Sort(key, s[1..]), k);
    }
  }

  lemma {:induction false} SortedIsFixed<T(!new)>(key: T -> int, s: seq<T>)
    requires Sorted(key, s)
    ensures Sort(key, s) == s
  {
    if s != [] {
      var t := s[1..];
      assert forall i :: 0 <= i < |t| ==> t[i] == s[i + 1];
      SortedIsFixed(key, t);
      assert t != [] ==> key(s[0]) <= key(t[0]);
      assert Insert(key, s[0], t) == [s[0]] + t == s;
    }
  }

  lemma MembersOfSort<T(!new)>(key: T -> int, s: seq<T>)
    ensures forall x :: x in Sort(key, s) <==> x in s
  {
    SortSorts(key, s);
    forall x
      ensures x in Sort(key, s) <==> x in s
    {
      assert x in Sort(key, s) <==> x in multiset(Sort(key, s));
    }
  }

  lemma AscendingAppend<T(!new)>(key: T -> int, s: seq<T>, x: T)
    requires Ascending(key, s) && (s != [] ==> key(s[|s| - 1]) < key(x))
    ensures Ascending(key, s + [x])
  {
    forall i, j | 0 <= i < j < |s + [x]|
      ensures key((s + [x])[i]) < key((s + [x])[j])
    {
      assert i < |s| - 1 ==> key(s[i]) < key(s[|s| - 1]);
    }
  }

  lemma AscendingIsSorted<T(!new)>(key: T -> int, s: seq<T>)
    requires Ascending(key, s)
    ensures Sorted(key, s)
  {
  }

  lemma AscendingPrefix<T(!new)>(key: T -> int, s: seq<T>, n: nat)
    requires Ascending(key, s) && n <= |s|
    ensures Ascending(key, s[..n])
    ensures forall x :: n < |s| && x in s[..n] ==> key(x) < key(s[n])
  {
    forall x | n < |s| && x in s[..n]
      ensures key(x) < key(s[n])
    {
      var i :| 0 <= i < n && s[..n][i] == x;
      assert s[i] == x;
    }
  }

  lemma SortedFront<T(!new)>(key: T -> int, s: seq<T>)
    requires Sorted(key, s) && s != []
    ensures Sorted(key, s[..|s| - 1])
    ensures forall x :: x in s ==> key(x) <= key(s[|s| - 1])
  {
    var n := |s| - 1;
    forall x | x in s
      ensures key(x) <= key(s[n])
    {
      var i :| 0 <= i < |s| && s[i] == x;
    }
  }

  // Two strictly ascending lists with the same members are the same list.
  lemma {:induction false} AscendingIsUnique<T(!new)>(key: T -> int, s: seq<T>, t: seq<T>)
    requires Ascending(key, s) && Ascending(key, t)
    requires forall x :: x in s <==> x in t
    ensures s == t
  {
    assert t != [] ==> t[0] in t;
    if s != [] {
      assert s[0] in t;
      assert t[0] in s;
      assert s[0] == t[0];
      assert s == [s[0]] + s[1..];
      assert t == [t[0]] + t[1..];
      forall x
        ensures x in s[1..] <==> x in t[1..]
      {
        if x in s[1..] { assert x in s; assert x in t; }
        if x in t[1..] { assert x in t; assert x in s; }
      }
      AscendingIsUnique(key, s[1..], t[1..]);
    }
  }
}
