/** `list.sort(key=k, reverse=True)`: Python's sort is stable, also in reverse. */
module Sorting {

  predicate SortedDesc<T>(s: seq<T>, key: T -> real) {
    forall i, j :: 0 <= i < j < |s| ==> key(s[i]) >= key(s[j])
  }

  /** The elements of `s` whose key is `v`, in order. A sort is stable when it
      keeps every such subsequence as it was. */
  function Ties<T>(s: seq<T>, key: T -> real, v: real): seq<T>
    decreases |s|
  {
    if |s| == 0 then [] else (if key(s[0]) == v then [s[0]] else []) + Ties(s[1..], key, v)
  }

  ghost predicate IsPrefix<T>(a: seq<T>, b: seq<T>) {
    |a| <= |b| && a == b[..|a|]
  }

  lemma TiesCons<T>(x: T, s: seq<T>, key: T -> real, v: real)
    ensures Ties([x] + s, key, v) == (if key(x) == v then [x] else []) + Ties(s, key, v)
  {
    assert ([x] + s)[1..] == s;
  }

  /** Insert `x` in front of the first element whose key is not larger than its own. */
  function Insert<T>(x: T, s: seq<T>, key: T -> real): (r: seq<T>)
    requires SortedDesc(s, key)
    ensures |r| == |s| + 1
    ensures forall k :: 0 <= k < |r| ==> r[k] == x || r[k] in s
    ensures SortedDesc(r, key)
    ensures multiset(r) == multiset(s) + multiset{x}
    decreases |s|
  {
    if |s| == 0 then [x]
    else if key(s[0]) > key(x) then
      var t := Insert(x, s[1..], key);
      InsertHead(x, s, t, key);
      [s[0]] + t
    else
      [x] + s
  }

  lemma InsertHead<T>(x: T, s: seq<T>, t: seq<T>, key: T -> real)
    requires |s| > 0 && SortedDesc(s, key) && key(s[0]) > key(x)
    requires SortedDesc(t, key)
    requires forall k :: 0 <= k < |t| ==> t[k] == x || t[k] in s[1..]
    requires multiset(t) == multiset(s[1..]) + multiset{x}
    ensures SortedDesc([s[0]] + t, key)
    ensures multiset([s[0]] + t) == multiset(s) + multiset{x}
    ensures forall k :: 0 <= k < |t| + 1 ==> ([s[0]] + t)[k] == x || ([s[0]] + t)[k] in s
  {
    assert s == [s[0]] + s[1..];
    var r := [s[0]] + t;
    forall i, j | 0 <= i < j < |r| ensures key(r[i]) >= key(r[j]) {
      if i == 0 {
        assert r[j] == t[j - 1];
        if t[j - 1] != x {
          var m :| 0 <= m < |s[1..]| && s[1..][m] == t[j - 1];
          assert s[m + 1] == t[j - 1];
        }
      } else {
        assert r[i] == t[i - 1] && r[j] == t[j - 1];
      }
    }
  }

  /** `x` goes in front of every element with its own key. */
  lemma {:induction false} InsertTies<T>(x: T, s: seq<T>, key: T -> real, v: real)
    requires SortedDesc(s, key)
    ensures Ties(Insert(x, s, key), key, v) == (if key(x) == v then [x] else []) + Ties(s, key, v)
    decreases |s|
  {
    if |s| == 0 {
      TiesCons(x, [], key, v);
    } else if key(s[0]) > key(x) {
      var t := Insert(x, s[1..], key);
      assert Insert(x, s, key) == [s[0]] + t;
      InsertTies(x, s[1..], key, v);
      TiesCons(s[0], t, key, v);
      TiesSwap(s[0], x, Ties(s[1..], key, v), key, v);
    } else {
      TiesCons(x, s, key, v);
    }
  }

  /** Ties of a larger key and a smaller one can trade places. */
  lemma TiesSwap<T>(a: T, x: T, rest: seq<T>, key: T -> real, v: real)
    requires key(a) > key(x)
    ensures (if key(a) == v then [a] else []) + ((if key(x) == v then [x] else []) + rest)
            == (if key(x) == v then [x] else []) + ((if key(a) == v then [a] else []) + rest)
  {
  }

  /** Stable descending sort by `key`: elements with equal keys keep their order. */
  function SortDesc<T>(s: seq<T>, key: T -> real): (r: seq<T>)
    ensures SortedDesc(r, key)
    ensures multiset(r) == multiset(s)
    ensures forall v :: Ties(r, key, v) == Ties(s, key, v)
    decreases |s|
  {
    if |s| == 0 then []
    else
      assert s == [s[0]] + s[1..];
      var t := SortDesc(s[1..], key);
      assert forall v :: Ties(Insert(s[0], t, key), key, v) == Ties(s, key, v) by {
        forall v ensures Ties(Insert(s[0], t, key), key, v) == Ties(s, key, v) {
          InsertTies(s[0], t, key, v);
          TiesCons(s[0], s[1..], key, v);
        }
      }
      Insert(s[0], t, key)
  }

  /** `sorted(s, key, reverse=True)[:n]`: the `n` largest elements, largest first. */
  function TopN<T>(s: seq<T>, key: T -> real, n: nat): (r: seq<T>)
    ensures |r| == if n < |s| then n else |s|
    ensures SortedDesc(r, key)
    ensures multiset(r) <= multiset(s)
    ensures forall x, k :: x in s && x !in r && 0 <= k < |r| ==> key(x) <= key(r[k])
    ensures forall v :: IsPrefix(Ties(r, key, v), Ties(s, key, v))
  {
    var t := SortDesc(s, key);
    assert |t| == |multiset(t)| == |s|;
    var m := if n < |t| then n else |t|;
    PrefixMultiset(t, m);
    forall v ensures IsPrefix(Ties(t[..m], key, v), Ties(s, key, v)) {
      TiesPrefix(t, m, key, v);
    }
    forall x | x in s && x !in t[..m] ensures forall k :: 0 <= k < m ==> key(x) <= key(t[..m][k]) {
      assert x in multiset(s);
      PrefixDominates(t, key, m, x);
    }
    t[..m]
  }

  /** The ties of a prefix are a prefix of the ties. */
  lemma {:induction false} TiesPrefix<T>(t: seq<T>, m: nat, key: T -> real, v: real)
    requires m <= |t|
    ensures IsPrefix(Ties(t[..m], key, v), Ties(t, key, v))
    decreases m
  {
    if m > 0 {
      assert t[..m][1..] == t[1..][..m - 1];
      TiesPrefix(t[1..], m - 1, key, v);
    }
  }

  lemma PrefixMultiset<T>(t: seq<T>, m: nat)
    requires m <= |t|
    ensures multiset(t[..m]) <= multiset(t)
  {
    assert t == t[..m] + t[m..];
  }

  /** In a sorted sequence, an element outside the first `m` is no larger than any of them. */
  lemma PrefixDominates<T>(t: seq<T>, key: T -> real, m: nat, x: T)
    requires SortedDesc(t, key) && m <= |t|
    requires x in t && x !in t[..m]
    ensures forall k :: 0 <= k < m ==> key(x) <= key(t[..m][k])
  {
    var j :| 0 <= j < |t| && t[j] == x;
    assert forall k :: 0 <= k < m ==> t[..m][k] == t[k];
  }
}
