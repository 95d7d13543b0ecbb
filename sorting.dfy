/** `Array.prototype.sort` with a numeric comparator, as the client stores
    and the data table use it: a stable sort by an integer key. A descending
    sort is the ascending sort by the negated key. */
module Sorting {

  /** `s` is ordered by `key`, smallest first. */
  predicate SortedBy<T>(s: seq<T>, key: T -> int) {
    forall i, j :: 0 <= i < j < |s| ==> key(s[i]) <= key(s[j])
  }

  /** The elements of `s` whose key is `k`, in their order in `s`. */
  function WithKey<T>(s: seq<T>, key: T -> int, k: int): (r: seq<T>)
    ensures |r| <= |s|
  {
    if s == [] then [] else WithKey(s[..|s| - 1], key, k) + (if key(s[|s| - 1]) == k then [s[|s| - 1]] else [])
  }

  lemma {:induction false} WithKeyAppend<T>(a: seq<T>, b: seq<T>, key: T -> int, k: int)
    ensures WithKey(a + b, key, k) == WithKey(a, key, k) + WithKey(b, key, k)
    decreases |b|
  {
    if b == [] {
      assert a + b == a;
    } else {
      assert (a + b)[..|a + b| - 1] == a + b[..|b| - 1];
      WithKeyAppend(a, b[..|b| - 1], key, k);
    }
  }

  /** `x` placed after every element of `s`, from the end, whose key is
      not larger than its own. */
  function Insert<T>(s: seq<T>, x: T, key: T -> int): (r: seq<T>)
    ensures multiset(r) == multiset(s) + multiset{x} && |r| == |s| + 1
  {
    if s == [] then [x]
    else if key(s[|s| - 1]) <= key(x) then s + [x]
    else
      assert s == s[..|s| - 1] + [s[|s| - 1]];
      Insert(s[..|s| - 1], x, key) + [s[|s| - 1]]
  }

  /** Inserting into a sorted sequence keeps it sorted. */
  lemma {:induction false} InsertSorted<T>(s: seq<T>, x: T, key: T -> int)
    requires SortedBy(s, key)
    ensures SortedBy(Insert(s, x, key), key)
    decreases |s|
  {
    if s != [] && key(s[|s| - 1]) > key(x) {
      var init, last := s[..|s| - 1], s[|s| - 1];
      InsertSorted(init, x, key);
      var rest := Insert(init, x, key);
      var r := rest + [last];
      assert r == Insert(s, x, key);
      forall i, j | 0 <= i < j < |r| ensures key(r[i]) <= key(r[j]) {
        if j == |rest| {
          assert r[i] == rest[i] && r[j] == last;
          assert rest[i] in multiset(rest);
          if rest[i] != x {
            assert rest[i] in multiset(init);
            var m :| 0 <= m < |init| && init[m] == rest[i];
            assert s[m] == init[m];
          }
        } else {
          assert r[i] == rest[i] && r[j] == rest[j];
        }
      }
    }
  }

  /** A single element is kept exactly when its key is `k`. */
  lemma WithKeySingle<T>(x: T, key: T -> int, k: int)
    ensures WithKey([x], key, k) == if key(x) == k then [x] else []
  {
    assert [x][..0] == [];
  }

  /** Putting an element after an inserted one keeps the elements of key
      `k` in order when its key is the larger. */
  lemma StableStep<T>(front: seq<T>, init: seq<T>, last: T, x: T, key: T -> int, k: int)
    requires key(x) < key(last)
    requires WithKey(front, key, k) == WithKey(init, key, k) + (if key(x) == k then [x] else [])
    ensures WithKey(front + [last], key, k) == WithKey(init + [last], key, k) + (if key(x) == k then [x] else [])
  {
    WithKeyAppend(front, [last], key, k);
    WithKeyAppend(init, [last], key, k);
    WithKeySingle(last, key, k);
    var w := WithKey(init, key, k);
    if key(x) == k {
      assert WithKey([last], key, k) == [];
      assert WithKey(front + [last], key, k) == w + [x];
      assert WithKey(init + [last], key, k) == w;
    } else {
      assert WithKey(front, key, k) == w;
    }
  }

  /** Insertion keeps the elements of each key in order, the new one last. */
  lemma {:induction false} InsertStable<T>(s: seq<T>, x: T, key: T -> int, k: int)
    ensures WithKey(Insert(s, x, key), key, k) == WithKey(s, key, k) + (if key(x) == k then [x] else [])
    decreases |s|
  {
    if s == [] {
      WithKeySingle(x, key, k);
    } else if key(s[|s| - 1]) <= key(x) {
      WithKeyAppend(s, [x], key, k);
      WithKeySingle(x, key, k);
    } else {
      var init, last := s[..|s| - 1], s[|s| - 1];
      InsertStable(init, x, key, k);
      assert s == init + [last];
      assert Insert(s, x, key) == Insert(init, x, key) + [last];
      StableStep(Insert(init, x, key), init, last, x, key, k);
    }
  }

  /** The stable sort by `key`. */
  function SortBy<T>(s: seq<T>, key: T -> int): (r: seq<T>)
    ensures SortedBy(r, key)
    ensures multiset(r) == multiset(s) && |r| == |s|
  {
    if s == [] then []
    else
      assert s == s[..|s| - 1] + [s[|s| - 1]];
      InsertSorted(SortBy(s[..|s| - 1], key), s[|s| - 1], key);
      Insert(SortBy(s[..|s| - 1], key), s[|s| - 1], key)
  }

  /** Elements with equal keys keep their original order. */
  lemma {:induction false} SortByStable<T>(s: seq<T>, key: T -> int, k: int)
    ensures WithKey(SortBy(s, key), key, k) == WithKey(s, key, k)
    decreases |s|
  {
    if s != [] {
      SortByStable(s[..|s| - 1], key, k);
      InsertStable(SortBy(s[..|s| - 1], key), s[|s| - 1], key, k);
    }
  }

  /** `Array.prototype.filter`: the elements satisfying `p`, in order. */
  function Keep<T>(s: seq<T>, p: T -> bool): (r: seq<T>)
    ensures |r| <= |s| && multiset(r) <= multiset(s)
    ensures forall i :: 0 <= i < |r| ==> r[i] in s && p(r[i])
    ensures forall i :: 0 <= i < |s| && p(s[i]) ==> s[i] in r
    ensures (forall i :: 0 <= i < |s| ==> p(s[i])) ==> r == s
  {
    if s == [] then []
    else
      var rest := Keep(s[1..], p);
      KeepStep(s, p, rest);
      if p(s[0]) then [s[0]] + rest else rest
  }

  /** One step of the filter: what holds of the filtered tail holds of the
      filtered sequence. */
  lemma KeepStep<T>(s: seq<T>, p: T -> bool, rest: seq<T>)
    requires s != []
    requires |rest| <= |s[1..]| && multiset(rest) <= multiset(s[1..])
    requires forall i :: 0 <= i < |rest| ==> rest[i] in s[1..] && p(rest[i])
    requires forall i :: 0 <= i < |s[1..]| && p(s[1..][i]) ==> s[1..][i] in rest
    requires (forall i :: 0 <= i < |s[1..]| ==> p(s[1..][i])) ==> rest == s[1..]
    ensures var r := if p(s[0]) then [s[0]] + rest else rest;
      |r| <= |s| && multiset(r) <= multiset(s)
      && (forall i :: 0 <= i < |r| ==> r[i] in s && p(r[i]))
      && (forall i :: 0 <= i < |s| && p(s[i]) ==> s[i] in r)
      && ((forall i :: 0 <= i < |s| ==> p(s[i])) ==> r == s)
  {
    var t := s[1..];
    assert s == [s[0]] + t;
    var r := if p(s[0]) then [s[0]] + rest else rest;
    forall i | 0 <= i < |r| ensures r[i] in s && p(r[i]) {
      if p(s[0]) && i == 0 {
      } else {
        var j := if p(s[0]) then i - 1 else i;
        assert r[i] == rest[j];
      }
    }
    forall i | 0 <= i < |s| && p(s[i]) ensures s[i] in r {
      if i > 0 {
        assert s[i] == t[i - 1];
      }
    }
    if forall i :: 0 <= i < |s| ==> p(s[i]) {
      assert forall i :: 0 <= i < |t| ==> p(t[i]) by {
        forall i | 0 <= i < |t| ensures p(t[i]) {
          assert t[i] == s[i + 1];
        }
      }
    }
  }

  /** Membership in a filtered sequence. */
  lemma KeepIn<T>(s: seq<T>, p: T -> bool, x: T)
    ensures x in Keep(s, p) <==> x in s && p(x)
  {
    var r := Keep(s, p);
    if x in r {
      var k :| 0 <= k < |r| && r[k] == x;
    }
    if x in s && p(x) {
      var k :| 0 <= k < |s| && s[k] == x;
    }
  }

  /** Filtering works piece by piece. */
  lemma {:induction false} KeepAppend<T>(a: seq<T>, b: seq<T>, p: T -> bool)
    ensures Keep(a + b, p) == Keep(a, p) + Keep(b, p)
  {
    if a == [] {
      assert a + b == b;
    } else {
      assert (a + b)[1..] == a[1..] + b;
      KeepAppend(a[1..], b, p);
    }
  }
}
