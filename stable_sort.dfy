/** JavaScript's `Array.prototype.sort` with the comparator `(a, b) => key(a) - key(b)`, which the
    language requires to be stable: a stable insertion sort, and the facts that pin it down. */
module StableSort {

  /** Ascending by `key`. */
  predicate SortedBy<T>(key: T -> int, s: seq<T>) {
    forall i, j :: 0 <= i < j < |s| ==> key(s[i]) <= key(s[j])
  }

  /** The elements of `s` whose key is `k`, in their order in `s`. */
  function WithKey<T>(key: T -> int, k: int, s: seq<T>): seq<T> {
    if s == [] then [] else (if key(s[0]) == k then [s[0]] else []) + WithKey(key, k, s[1..])
  }

  /** `r` is what a stable sort of `s` returns: ascending, and for every key the elements holding it
      appear in the same order as in `s` (so `r` also holds exactly the elements of `s`). */
  ghost predicate IsStableSortOf<T>(key: T -> int, r: seq<T>, s: seq<T>) {
    SortedBy(key, r) && forall k :: WithKey(key, k, r) == WithKey(key, k, s)
  }

  /** Where `x` goes when it is inserted after everything that is not slower than it: behind the
      last element, counted from the end, whose key is at most `key(x)`. */
  function InsertPos<T>(key: T -> int, s: seq<T>, x: T): (p: nat)
    ensures p <= |s|
    ensures forall i :: p <= i < |s| ==> key(s[i]) > key(x)
    ensures p > 0 ==> key(s[p - 1]) <= key(x)
  {
    if s == [] || key(s[|s| - 1]) <= key(x) then |s| else InsertPos(key, s[..|s| - 1], x)
  }

  function InsertBy<T>(key: T -> int, s: seq<T>, x: T): seq<T> {
    var p := InsertPos(key, s, x);
    s[..p] + [x] + s[p..]
  }

  /** Stable insertion sort: each element is inserted behind the earlier ones with a key at most its own. */
  function SortBy<T>(key: T -> int, s: seq<T>): (r: seq<T>)
    ensures |r| == |s|
  {
    if s == [] then [] else InsertBy(key, SortBy(key, s[..|s| - 1]), s[|s| - 1])
  }

  lemma {:induction false} WithKeyAppend<T>(key: T -> int, k: int, a: seq<T>, b: seq<T>)
    ensures WithKey(key, k, a + b) == WithKey(key, k, a) + WithKey(key, k, b)
  {
    if a == [] {
      assert a + b == b;
    } else {
      var head := if key(a[0]) == k then [a[0]] else [];
      assert (a + b)[0] == a[0] && (a + b)[1..] == a[1..] + b;
      assert WithKey(key, k, a + b) == head + WithKey(key, k, a[1..] + b);
      WithKeyAppend(key, k, a[1..], b);
      assert head + (WithKey(key, k, a[1..]) + WithKey(key, k, b)) == (head + WithKey(key, k, a[1..])) + WithKey(key, k, b);
    }
  }

  lemma {:induction false} WithKeyAbsent<T>(key: T -> int, k: int, s: seq<T>)
    requires forall i :: 0 <= i < |s| ==> key(s[i]) != k
    ensures WithKey(key, k, s) == []
  {
    if s != [] {
      WithKeyAbsent(key, k, s[1..]);
    }
  }

  /** On a sorted sequence the insertion point splits it into the part not slower than `x` and the
      part strictly slower, and the result is still sorted. */
  lemma InsertBySorted<T>(key: T -> int, s: seq<T>, x: T)
    requires SortedBy(key, s)
    ensures SortedBy(key, InsertBy(key, s, x))
    ensures forall i :: 0 <= i < InsertPos(key, s, x) ==> key(s[i]) <= key(x)
  {
    var p := InsertPos(key, s, x);
    var r := InsertBy(key, s, x);
    assert forall i :: 0 <= i < p ==> key(s[i]) <= key(x) by {
      forall i | 0 <= i < p ensures key(s[i]) <= key(x) {
        assert key(s[i]) <= key(s[p - 1]);
      }
    }
    forall i, j | 0 <= i < j < |r| ensures key(r[i]) <= key(r[j]) {
      if j < p || i > p {
      } else if i == p {
        assert r[j] == s[j - 1];
      } else if j == p {
        assert r[i] == s[i];
      } else {
        assert r[i] == s[i] && r[j] == s[j - 1];
      }
    }
  }

  /** Inserting `x` adds it to the elements with its own key at the end, and changes no other key's elements. */
  lemma WithKeyInsert<T>(key: T -> int, k: int, s: seq<T>, x: T)
    ensures WithKey(key, k, InsertBy(key, s, x)) == WithKey(key, k, s) + (if key(x) == k then [x] else [])
  {
    var p := InsertPos(key, s, x);
    assert s == s[..p] + s[p..];
    WithKeyAppend(key, k, s[..p], s[p..]);
    WithKeyAppend(key, k, s[..p] + [x], s[p..]);
    WithKeyAppend(key, k, s[..p], [x]);
    assert WithKey(key, k, [x]) == (if key(x) == k then [x] else []) by {
      assert [x][1..] == [];
    }
    if key(x) == k {
      WithKeyAbsent(key, k, s[p..]);
    }
  }

  lemma {:induction false} SortByIsSorted<T>(key: T -> int, s: seq<T>)
    ensures SortedBy(key, SortBy(key, s))
  {
    if s != [] {
      SortByIsSorted(key, s[..|s| - 1]);
      InsertBySorted(key, SortBy(key, s[..|s| - 1]), s[|s| - 1]);
    }
  }

  lemma {:induction false} SortByIsStable<T>(key: T -> int, k: int, s: seq<T>)
    ensures WithKey(key, k, SortBy(key, s)) == WithKey(key, k, s)
  {
    if s != [] {
      var init, last := s[..|s| - 1], s[|s| - 1];
      SortByIsStable(key, k, init);
      WithKeyInsert(key, k, SortBy(key, init), last);
      assert s == init + [last];
      WithKeyAppend(key, k, init, [last]);
      assert WithKey(key, k, [last]) == (if key(last) == k then [last] else []) by {
        assert [last][1..] == [];
      }
    }
  }

  lemma InsertByMultiset<T>(key: T -> int, s: seq<T>, x: T)
    ensures multiset(InsertBy(key, s, x)) == multiset(s) + multiset{x}
  {
    var p := InsertPos(key, s, x);
    calc {
      multiset(InsertBy(key, s, x));
      multiset(s[..p] + [x] + s[p..]);
      multiset(s[..p]) + multiset{x} + multiset(s[p..]);
      { assert s == s[..p] + s[p..]; }
      multiset(s) + multiset{x};
    }
  }

  lemma {:induction false} SortByPermutes<T>(key: T -> int, s: seq<T>)
    ensures multiset(SortBy(key, s)) == multiset(s)
  {
    if s != [] {
      var init, last := s[..|s| - 1], s[|s| - 1];
      SortByPermutes(key, init);
      InsertByMultiset(key, SortBy(key, init), last);
      assert s == init + [last];
    }
  }

  /** Sorting brings in nothing new: every entry of the result is an entry of the input. */
  lemma SortByMembers<T>(key: T -> int, s: seq<T>)
    ensures forall i :: 0 <= i < |SortBy(key, s)| ==> SortBy(key, s)[i] in s
  {
    var r := SortBy(key, s);
    SortByPermutes(key, s);
    forall i | 0 <= i < |r| ensures r[i] in s {
      assert r[i] in multiset(r);
    }
  }

  /** The sort returns a stable sort of its input, holding exactly the input's elements. */
  lemma SortByCorrect<T>(key: T -> int, s: seq<T>)
    ensures IsStableSortOf(key, SortBy(key, s), s)
    ensures multiset(SortBy(key, s)) == multiset(s)
  {
    SortByIsSorted(key, s);
    forall k ensures WithKey(key, k, SortBy(key, s)) == WithKey(key, k, s) {
      SortByIsStable(key, k, s);
    }
    SortByPermutes(key, s);
  }

  /** In a sorted sequence no element has a key below that of its first element. */
  lemma NothingBelowHead<T>(key: T -> int, r: seq<T>)
    requires SortedBy(key, r) && r != []
    ensures forall k :: k < key(r[0]) ==> WithKey(key, k, r) == []
  {
    forall k | k < key(r[0]) ensures WithKey(key, k, r) == [] {
      WithKeyAbsent(key, k, r);
    }
  }

  /** There is only one stable sort of a sequence, so any stable sort (such as the engine's built-in one)
      agrees with `SortBy`. */
  lemma {:induction false} StableSortUnique<T>(key: T -> int, r1: seq<T>, r2: seq<T>)
    requires SortedBy(key, r1) && SortedBy(key, r2)
    requires forall k :: WithKey(key, k, r1) == WithKey(key, k, r2)
    ensures r1 == r2
    decreases |r1|
  {
    // A non-empty side holds an element whose key an empty side lacks.
    assert r1 != [] ==> WithKey(key, key(r1[0]), r1) != [];
    assert r2 != [] ==> WithKey(key, key(r2[0]), r2) != [];
    if r1 != [] && r2 != [] {
      var k1, k2 := key(r1[0]), key(r2[0]);
      NothingBelowHead(key, r1);
      NothingBelowHead(key, r2);
      assert k1 == k2;
      assert WithKey(key, k1, r1)[0] == r1[0];
      assert WithKey(key, k1, r2)[0] == r2[0];
      assert r1[0] == r2[0];
      forall k ensures WithKey(key, k, r1[1..]) == WithKey(key, k, r2[1..]) {
        var a, b := WithKey(key, k, r1[1..]), WithKey(key, k, r2[1..]);
        assert WithKey(key, k, r1) == (if k == k1 then [r1[0]] else []) + a;
        assert WithKey(key, k, r2) == (if k == k1 then [r2[0]] else []) + b;
        if k == k1 {
          assert ([r1[0]] + a)[1..] == a;
          assert ([r2[0]] + b)[1..] == b;
        } else {
          assert [] + a == a && [] + b == b;
        }
      }
      StableSortUnique(key, r1[1..], r2[1..]);
      assert r1 == [r1[0]] + r1[1..];
      assert r2 == [r2[0]] + r2[1..];
    }
  }

  /** Sorting an already sorted sequence leaves it as it is. */
  lemma {:induction false} SortBySortedIdentity<T>(key: T -> int, s: seq<T>)
    requires SortedBy(key, s)
    ensures SortBy(key, s) == s
  {
    if s != [] {
      var init, last := s[..|s| - 1], s[|s| - 1];
      assert SortedBy(key, init);
      SortBySortedIdentity(key, init);
      assert InsertPos(key, init, last) == |init|;
      assert init + [last] == s;
    }
  }

  /** Pushing `x` onto a sorted sequence and sorting inserts `x` behind every element not slower than
      it and ahead of every strictly slower one. */
  lemma PushThenSort<T>(key: T -> int, s: seq<T>, x: T)
    requires SortedBy(key, s)
    ensures SortBy(key, s + [x]) == InsertBy(key, s, x)
    ensures SortedBy(key, SortBy(key, s + [x]))
  {
    assert (s + [x])[..|s|] == s;
    SortBySortedIdentity(key, s);
    InsertBySorted(key, s, x);
  }
}
