/** Python's `sorted(..., key=k, reverse=True)` and `list.sort(key=k,
    reverse=True)`: a stable sort into non-increasing key order. Keys are
    compared as tuples, lexicographically; a single integer key `k` is the
    tuple `(k, 0, 0)`. */
module StableSort {

  datatype Key = Key(k1: int, k2: int, k3: int)

  /** Tuple comparison `a >= b`. */
  predicate Ge(a: Key, b: Key)
  {
    a.k1 > b.k1 || (a.k1 == b.k1 && (a.k2 > b.k2 || (a.k2 == b.k2 && a.k3 >= b.k3)))
  }

  lemma GeTotalPreorder(a: Key, b: Key, c: Key)
    ensures Ge(a, a)
    ensures Ge(a, b) || Ge(b, a)
    ensures Ge(a, b) && Ge(b, c) ==> Ge(a, c)
    ensures Ge(a, b) && Ge(b, a) <==> a == b
  {
  }

  /** Non-increasing key order. */
  ghost predicate SortedDesc<T>(s: seq<T>, key: T -> Key)
  {
    forall i, j :: 0 <= i < j < |s| ==> Ge(key(s[i]), key(s[j]))
  }

  /** The elements of `s` whose key is `k`, in order. */
  function WithKey<T>(s: seq<T>, key: T -> Key, k: Key): seq<T>
  {
    if s == [] then [] else (if key(s[0]) == k then [s[0]] else []) + WithKey(s[1..], key, k)
  }

  /** Places `x` after every element whose key is at least its own. */
  function Insert<T>(s: seq<T>, x: T, key: T -> Key): (r: seq<T>)
    ensures |r| == |s| + 1
  {
    if s == [] then [x]
    else if Ge(key(s[0]), key(x)) then [s[0]] + Insert(s[1..], x, key)
    else [x] + s
  }

  /** Insertion sort from the left; each element goes after the equal-keyed
      elements that preceded it. */
  function SortDesc<T>(s: seq<T>, key: T -> Key): (r: seq<T>)
    ensures |r| == |s|
  {
    if s == [] then [] else Insert(SortDesc(s[..|s| - 1], key), s[|s| - 1], key)
  }

  lemma {:induction false} InsertMultiset<T>(s: seq<T>, x: T, key: T -> Key)
    ensures multiset(Insert(s, x, key)) == multiset(s) + multiset{x}
  {
    if s != [] && Ge(key(s[0]), key(x)) {
      InsertMultiset(s[1..], x, key);
      assert s == [s[0]] + s[1..];
    }
  }

  lemma {:induction false} InsertSorted<T>(s: seq<T>, x: T, key: T -> Key)
    requires SortedDesc(s, key)
    ensures SortedDesc(Insert(s, x, key), key)
  {
    if s != [] {
      if Ge(key(s[0]), key(x)) {
        InsertSorted(s[1..], x, key);
        var r := Insert(s[1..], x, key);
        InsertMultiset(s[1..], x, key);
        forall j | 0 <= j < |r| ensures Ge(key(s[0]), key(r[j])) {
          assert r[j] in multiset(r);
          if r[j] == x {
          } else {
            assert r[j] in multiset(s[1..]);
            var m :| 0 <= m < |s[1..]| && s[1..][m] == r[j];
            assert s[m + 1] == r[j];
          }
        }
      } else {
        forall j | 0 <= j < |s| ensures Ge(key(x), key(s[j])) {
          GeTotalPreorder(key(x), key(s[0]), key(s[j]));
        }
      }
    }
  }

  lemma {:induction false} WithKeyAppend<T>(a: seq<T>, b: seq<T>, key: T -> Key, k: Key)
    ensures WithKey(a + b, key, k) == WithKey(a, key, k) + WithKey(b, key, k)
  {
    if a == [] {
      assert a + b == b;
    } else {
      assert (a + b)[1..] == a[1..] + b;
      WithKeyAppend(a[1..], b, key, k);
    }
  }

  /** No element of `s` has key `k` when all keys are below `k`. */
  lemma {:induction false} WithKeyNone<T>(s: seq<T>, key: T -> Key, k: Key)
    requires forall i :: 0 <= i < |s| ==> key(s[i]) != k
    ensures WithKey(s, key, k) == []
  {
    if s != [] {
      WithKeyNone(s[1..], key, k);
    }
  }

  lemma {:induction false} InsertStable<T>(s: seq<T>, x: T, key: T -> Key, k: Key)
    requires SortedDesc(s, key)
    ensures WithKey(Insert(s, x, key), key, k) == WithKey(s, key, k) + (if key(x) == k then [x] else [])
  {
    if s == [] {
    } else if Ge(key(s[0]), key(x)) {
      InsertStable(s[1..], x, key, k);
      assert s == [s[0]] + s[1..];
    } else {
      // Every element of s has a key strictly below x's.
      if key(x) == k {
        forall i | 0 <= i < |s| ensures key(s[i]) != k {
          GeTotalPreorder(key(s[0]), key(s[i]), key(x));
        }
        WithKeyNone(s, key, k);
      }
      assert ([x] + s)[1..] == s;
    }
  }

  /** The result is in non-increasing key order and is a permutation of the
      input. */
  lemma {:induction false} SortDescCorrect<T>(s: seq<T>, key: T -> Key)
    ensures SortedDesc(SortDesc(s, key), key)
    ensures multiset(SortDesc(s, key)) == multiset(s)
  {
    if s != [] {
      var init := s[..|s| - 1];
      SortDescCorrect(init, key);
      InsertSorted(SortDesc(init, key), s[|s| - 1], key);
      InsertMultiset(SortDesc(init, key), s[|s| - 1], key);
      assert s == init + [s[|s| - 1]];
    }
  }

  /** Stability: the elements sharing any one key keep their input order. */
  lemma {:induction false} SortDescStable<T>(s: seq<T>, key: T -> Key, k: Key)
    ensures WithKey(SortDesc(s, key), key, k) == WithKey(s, key, k)
  {
    if s != [] {
      var init := s[..|s| - 1];
      SortDescStable(init, key, k);
      SortDescCorrect(init, key);
      InsertStable(SortDesc(init, key), s[|s| - 1], key, k);
      assert s == init + [s[|s| - 1]];
      WithKeyAppend(init, [s[|s| - 1]], key, k);
    }
  }

  /** What holds of every element of the input holds of every element of
      the sorted output. */
  lemma SortDescKeeps<T>(s: seq<T>, key: T -> Key, p: T -> bool)
    requires forall i :: 0 <= i < |s| ==> p(s[i])
    ensures forall i :: 0 <= i < |SortDesc(s, key)| ==> p(SortDesc(s, key)[i])
  {
    SortDescCorrect(s, key);
    forall i | 0 <= i < |SortDesc(s, key)| ensures p(SortDesc(s, key)[i]) {
      assert SortDesc(s, key)[i] in multiset(s);
    }
  }
}
