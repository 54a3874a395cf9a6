/** Sequence operations the source performs with list comprehensions,
    `set`-based de-duplication and `list.sort(key=..., reverse=True)`. */
module Seqs {

  /** `[x for x in s if p(x)]`. */
  function Filter<T(!new)>(s: seq<T>, p: T -> bool): (r: seq<T>)
    ensures |r| <= |s|
    ensures forall x :: x in r <==> x in s && p(x)
    decreases |s|
  {
    if |s| == 0 then []
    else (if p(s[0]) then [s[0]] else []) + Filter(s[1..], p)
  }

  /** `sum(1 for x in s if p(x))`. */
  function Count<T>(s: seq<T>, p: T -> bool): (n: nat)
    ensures n <= |s|
    decreases |s|
  {
    if |s| == 0 then 0
    else (if p(s[0]) then 1 else 0) + Count(s[1..], p)
  }

  lemma {:induction false} CountIsFilterLength<T(!new)>(s: seq<T>, p: T -> bool)
    ensures Count(s, p) == |Filter(s, p)|
    decreases |s|
  {
    if |s| > 0 {
      CountIsFilterLength(s[1..], p);
    }
  }

  /** Two predicates that never hold together count at most `|s|` between them. */
  lemma {:induction false} CountDisjoint<T>(s: seq<T>, p: T -> bool, q: T -> bool)
    requires forall x :: x in s ==> !(p(x) && q(x))
    ensures Count(s, p) + Count(s, q) <= |s|
    decreases |s|
  {
    if |s| > 0 {
      CountDisjoint(s[1..], p, q);
    }
  }

  /** A predicate implied by another counts at least as many elements. */
  lemma {:induction false} CountMonotone<T>(s: seq<T>, p: T -> bool, q: T -> bool)
    requires forall x :: x in s && p(x) ==> q(x)
    ensures Count(s, p) <= Count(s, q)
    decreases |s|
  {
    if |s| > 0 {
      CountMonotone(s[1..], p, q);
    }
  }

  lemma {:induction false} CountAppend<T>(s: seq<T>, t: seq<T>, p: T -> bool)
    ensures Count(s + t, p) == Count(s, p) + Count(t, p)
    decreases |s|
  {
    if |s| > 0 {
      assert (s + t)[1..] == s[1..] + t;
      CountAppend(s[1..], t, p);
    } else {
      assert s + t == t;
    }
  }

  predicate NoDuplicates<T(==)>(s: seq<T>) {
    forall i, j :: 0 <= i < j < |s| ==> s[i] != s[j]
  }

  /** Whether some element of `s` has key `k`. */
  predicate HasKey<T, K(==)>(s: seq<T>, key: T -> K, k: K) {
    exists j :: 0 <= j < |s| && key(s[j]) == k
  }

  /** Keep the first element of `s` for every key, in order: the
      `seen = set(); if k not in seen: keep; seen.add(k)` loop. */
  function DedupBy<T(!new), K(==)>(s: seq<T>, key: T -> K): (r: seq<T>)
    ensures |r| <= |s|
    ensures forall i, j :: 0 <= i < j < |r| ==> key(r[i]) != key(r[j])
    ensures forall x :: x in r ==> x in s
    ensures forall i :: 0 <= i < |s| ==> HasKey(r, key, key(s[i]))
    decreases |s|
  {
    if |s| == 0 then []
    else
      var d := DedupBy(s[..|s| - 1], key);
      var x := s[|s| - 1];
      assert forall i :: 0 <= i < |s| - 1 ==> s[..|s| - 1][i] == s[i];
      if HasKey(d, key, key(x)) then d
      else
        var r := d + [x];
        assert forall i :: 0 <= i < |s| ==> HasKey(r, key, key(s[i])) by {
          forall i | 0 <= i < |s| ensures HasKey(r, key, key(s[i])) {
            if i < |s| - 1 {
              assert HasKey(d, key, key(s[..|s| - 1][i]));
              var j :| 0 <= j < |d| && key(d[j]) == key(s[i]);
              assert r[j] == d[j];
            } else {
              assert r[|d|] == x;
            }
          }
        }
        r
  }

  /** No element before position `i` of `s` shares the key of `s[i]`. */
  predicate FirstWithKey<T, K(==)>(s: seq<T>, key: T -> K, i: int)
    requires 0 <= i < |s|
  {
    forall i' :: 0 <= i' < i ==> key(s[i']) != key(s[i])
  }

  /** Every element kept by `DedupBy` is the first element of `s` with its key. */
  lemma {:induction false} DedupByKeepsFirst<T(!new), K>(s: seq<T>, key: T -> K, j: int)
    requires 0 <= j < |DedupBy(s, key)|
    ensures exists i :: 0 <= i < |s| && s[i] == DedupBy(s, key)[j] && FirstWithKey(s, key, i)
    decreases |s|
  {
    var d := DedupBy(s[..|s| - 1], key);
    var x := s[|s| - 1];
    var r := DedupBy(s, key);
    if j < |d| {
      assert r[j] == d[j];
      DedupByKeepsFirst(s[..|s| - 1], key, j);
      var i :| 0 <= i < |s| - 1 && s[..|s| - 1][i] == d[j] && FirstWithKey(s[..|s| - 1], key, i);
      assert s[i] == r[j];
      forall i' | 0 <= i' < i ensures key(s[i']) != key(s[i]) {
        assert s[i'] == s[..|s| - 1][i'];
      }
      assert FirstWithKey(s, key, i);
    } else {
      assert r == d + [x] && r[j] == x;
      forall i' | 0 <= i' < |s| - 1 ensures key(s[i']) != key(x) {
        assert s[i'] == s[..|s| - 1][i'];
        assert HasKey(d, key, key(s[..|s| - 1][i']));
      }
      assert FirstWithKey(s, key, |s| - 1);
    }
  }

  /** `s[:n]`. */
  function Take<T>(s: seq<T>, n: nat): (r: seq<T>)
    ensures |r| == if n < |s| then n else |s|
    ensures forall i :: 0 <= i < |r| ==> r[i] == s[i]
  {
    if n < |s| then s[..n] else s
  }

  /** `part / whole` for a non-empty part of a whole: a proportion in (0, 1]. */
  function Proportion(part: nat, whole: nat): (r: real)
    requires 0 < part <= whole
    ensures r == part as real / whole as real
    ensures r * whole as real == part as real
    ensures 0.0 < r <= 1.0
  {
    var r := part as real / whole as real;
    assert r * whole as real == part as real;
    assert r <= 1.0 by {
      if r > 1.0 {
        assert r * whole as real > 1.0 * whole as real;
      }
    }
    r
  }

  /** `v / n > num / den` in integer form. */
  lemma RatioAbove(v: nat, n: nat, num: nat, den: nat)
    requires n > 0 && den > 0
    ensures v as real / n as real > num as real / den as real <==> den * v > num * n
  {
    var q := v as real / n as real;
    assert q * n as real == v as real;
    var t := num as real / den as real;
    assert t * den as real == num as real;
    if q > t {
      assert q * (n * den) as real > t * (n * den) as real;
    } else {
      assert q * (n * den) as real <= t * (n * den) as real;
    }
  }

  /** Counting does not depend on the order of the elements. */
  lemma {:induction false} CountPermutation<T>(s: seq<T>, t: seq<T>, p: T -> bool)
    requires multiset(s) == multiset(t)
    ensures Count(s, p) == Count(t, p)
    decreases |s|
  {
    if |s| == 0 {
      assert |t| == |multiset(t)| == 0;
    } else {
      assert s[0] in multiset(t);
      var j :| 0 <= j < |t| && t[j] == s[0];
      var t' := t[..j] + t[j + 1..];
      RemoveAt(s, t, j);
      CountPermutation(s[1..], t', p);
      CountRemoveAt(t, j, p);
    }
  }

  lemma RemoveAt<T>(s: seq<T>, t: seq<T>, j: int)
    requires |s| > 0 && 0 <= j < |t| && t[j] == s[0]
    requires multiset(s) == multiset(t)
    ensures multiset(t[..j] + t[j + 1..]) == multiset(s[1..])
  {
    var x := s[0];
    assert t == t[..j] + [x] + t[j + 1..] by {
      assert t == t[..j] + t[j..];
      assert t[j..] == [x] + t[j + 1..];
    }
    assert s == [x] + s[1..];
    var a := multiset(t[..j] + t[j + 1..]);
    var b := multiset(s[1..]);
    assert multiset(t) == a + multiset{x};
    assert multiset(s) == b + multiset{x};
    forall y ensures a[y] == b[y] {
      assert (a + multiset{x})[y] == (b + multiset{x})[y];
    }
    assert a == b;
  }

  lemma CountRemoveAt<T>(t: seq<T>, j: int, p: T -> bool)
    requires 0 <= j < |t|
    ensures Count(t, p) == Count(t[..j] + t[j + 1..], p) + (if p(t[j]) then 1 else 0)
  {
    var a, x, b := t[..j], [t[j]], t[j + 1..];
    assert t == a + (x + b) by {
      assert t == t[..j] + t[j..];
      assert t[j..] == x + b;
    }
    CountAppend(a, x + b, p);
    CountAppend(x, b, p);
    CountAppend(a, b, p);
    CountSingleton(t[j], p);
  }

  lemma CountSingleton<T>(y: T, p: T -> bool)
    ensures Count([y], p) == if p(y) then 1 else 0
  {
    assert [y][1..] == [];
  }
}
