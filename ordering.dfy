/** Sort orders of the document queries (`.sort({createdAt: -1})` and friends) and the
    query loop that selects matching documents of a collection in that order. */
module Ordering {
  import opened Common

  /** `le(a, b)`: a may be listed before b. A sort key must give a total preorder. */
  ghost predicate TotalPreorder<T(!new)>(le: (T, T) -> bool) {
    && (forall a, b :: le(a, b) || le(b, a))
    && (forall a, b, c :: le(a, b) && le(b, c) ==> le(a, c))
  }

  predicate SortedBy<T>(s: seq<T>, le: (T, T) -> bool) {
    forall i, j :: 0 <= i < j < |s| ==> le(s[i], s[j])
  }

  /** Puts x in front of the first element it may precede. */
  function Insert<T(==)>(x: T, s: seq<T>, le: (T, T) -> bool): (r: seq<T>)
    ensures |r| == |s| + 1
    ensures multiset(r) == multiset(s) + multiset{x}
  {
    if s == [] then [x]
    else if le(x, s[0]) then [x] + s
    else
      assert s == [s[0]] + s[1..];
      [s[0]] + Insert(x, s[1..], le)
  }

  /** Insertion sort: a fixed arrangement of s in the order le. */
  function SortBy<T(==)>(s: seq<T>, le: (T, T) -> bool): (r: seq<T>)
    ensures |r| == |s|
    ensures multiset(r) == multiset(s)
  {
    if s == [] then []
    else
      assert s == [s[0]] + s[1..];
      Insert(s[0], SortBy(s[1..], le), le)
  }

  /** Inserting into a sorted sequence keeps it sorted. */
  lemma {:induction false} InsertSorted<T(!new)>(x: T, s: seq<T>, le: (T, T) -> bool)
    requires TotalPreorder(le)
    requires SortedBy(s, le)
    ensures SortedBy(Insert(x, s, le), le)
  {
    if s != [] && !le(x, s[0]) {
      var t := s[1..];
      InsertSorted(x, t, le);
      var tail := Insert(x, t, le);
      assert le(s[0], x);
      forall y | y in tail ensures le(s[0], y) {
        assert y in multiset(tail);
        if y != x {
          assert y in multiset(t);
          var j :| 0 <= j < |t| && t[j] == y;
          assert s[j + 1] == y;
        }
      }
    }
  }

  lemma {:induction false} SortBySorted<T(!new)>(s: seq<T>, le: (T, T) -> bool)
    requires TotalPreorder(le)
    ensures SortedBy(SortBy(s, le), le)
  {
    if s != [] {
      SortBySorted(s[1..], le);
      InsertSorted(s[0], SortBy(s[1..], le), le);
    }
  }

  lemma NoDupCons<T>(a: T, t: seq<T>)
    requires NoDup(t) && a !in t
    ensures NoDup([a] + t)
  {
    var r := [a] + t;
    forall i, j | 0 <= i < j < |r| ensures r[i] != r[j] {
      assert r[j] == t[j - 1];
      if i > 0 {
        assert r[i] == t[i - 1];
      }
    }
  }

  lemma NoDupTail<T>(s: seq<T>)
    requires NoDup(s) && s != []
    ensures NoDup(s[1..]) && s[0] !in s[1..]
  {
    var t := s[1..];
    forall i, j | 0 <= i < j < |t| ensures t[i] != t[j] {
      assert t[i] == s[i + 1] && t[j] == s[j + 1];
    }
    forall j | 0 <= j < |t| ensures t[j] != s[0] {
      assert t[j] == s[j + 1];
    }
  }

  /** Inserting a new element into a duplicate-free sequence keeps it duplicate-free. */
  lemma {:induction false} InsertNoDup<T>(x: T, s: seq<T>, le: (T, T) -> bool)
    requires NoDup(s) && x !in s
    ensures NoDup(Insert(x, s, le))
  {
    if s == [] || le(x, s[0]) {
      NoDupCons(x, s);
    } else {
      var t := s[1..];
      NoDupTail(s);
      assert x !in t by {
        forall j | 0 <= j < |t| ensures t[j] != x { assert t[j] == s[j + 1]; }
      }
      InsertNoDup(x, t, le);
      var tail := Insert(x, t, le);
      assert s[0] != x by {
        assert s[0] in s;
      }
      assert s[0] !in tail by {
        assert s[0] !in multiset(t) + multiset{x};
      }
      NoDupCons(s[0], tail);
    }
  }

  /** `find(...).sort(...).limit(n)`: the n first documents in the order le. Every document
      returned may be listed before every document left out. */
  function Newest<T(==,!new)>(s: seq<T>, le: (T, T) -> bool, n: nat): (r: seq<T>)
    requires TotalPreorder(le)
    ensures |r| == if n < |s| then n else |s|
    ensures SortedBy(r, le)
    ensures multiset(r) <= multiset(s)
    ensures forall x :: x in r ==> x in s
    ensures forall x, y :: x in r && y in multiset(s) - multiset(r) ==> le(x, y)
  {
    SortBySorted(s, le);
    var sorted := SortBy(s, le);
    NewestSplit(sorted, le, n);
    Take(sorted, n)
  }

  /** A sorted sequence splits into its first n and the rest, and the first n precede the rest. */
  lemma NewestSplit<T>(sorted: seq<T>, le: (T, T) -> bool, n: nat)
    requires SortedBy(sorted, le)
    ensures var r := Take(sorted, n);
      && multiset(r) <= multiset(sorted)
      && (forall x :: x in r ==> x in multiset(sorted))
      && (forall x, y :: x in r && y in multiset(sorted) - multiset(r) ==> le(x, y))
  {
    var r := Take(sorted, n);
    var rest := sorted[|r|..];
    assert sorted == r + rest;
    assert multiset(sorted) == multiset(r) + multiset(rest);
    forall x, y | x in r && y in multiset(sorted) - multiset(r) ensures le(x, y) {
      var i :| 0 <= i < |r| && r[i] == x;
      assert y in multiset(rest);
      var j :| 0 <= j < |rest| && rest[j] == y;
      assert sorted[i] == x && sorted[|r| + j] == y;
    }
  }

  /** The first n of a sorted listing may each be listed before every element after them. */
  lemma PrefixPrecedesRest<T>(s: seq<T>, le: (T, T) -> bool, n: nat, i: nat, j: nat)
    requires SortedBy(s, le) && i < |Take(s, n)| <= j < |s|
    ensures le(Take(s, n)[i], s[j])
  {
    assert Take(s, n)[i] == s[i];
  }

  /** Runs a query over a collection keyed by document id: every document that `keep`
      accepts, each once, in the order le. */
  method SelectSorted<K(==), V(==,!new)>(m: map<K, V>, keep: V -> bool, le: (V, V) -> bool, key: V -> K)
    returns (r: seq<V>)
    requires TotalPreorder(le)
    requires forall k :: k in m ==> key(m[k]) == k
    ensures SortedBy(r, le) && NoDup(r)
    ensures forall k :: k in m ==> (m[k] in r <==> keep(m[k]))
    ensures forall x :: x in r ==> key(x) in m && m[key(x)] == x
  {
    r := [];
    var todo := m.Keys;
    while todo != {}
      invariant todo <= m.Keys
      invariant SortedBy(r, le) && NoDup(r)
      invariant forall k :: k in m && k !in todo ==> (m[k] in r <==> keep(m[k]))
      invariant forall x :: x in r ==> key(x) in m && key(x) !in todo && m[key(x)] == x && keep(x)
      decreases todo
    {
      var k :| k in todo;
      if keep(m[k]) {
        var x := m[k];
        assert x !in r;
        InsertSorted(x, r, le);
        InsertNoDup(x, r, le);
        var r' := Insert(x, r, le);
        forall y | y in r' ensures y == x || y in r {
          assert y in multiset(r');
        }
        forall y | y in r ensures y in r' {
          assert y in multiset(r');
        }
        assert x in multiset(r');
        r := r';
      }
      todo := todo - {k};
    }
  }
}
