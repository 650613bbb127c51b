// Python's `sorted` with a key: the one stable, ordered rearrangement of a list.
module Ordering {

  /** Sort keys are pairs compared lexicographically; a single integer k is (k, 0). */
  type Key = (int, int)

  predicate Before(a: Key, b: Key) {
    a.0 < b.0 || (a.0 == b.0 && a.1 < b.1)
  }

  ghost predicate Ordered<T>(xs: seq<T>, key: T -> Key) {
    forall i, j :: 0 <= i < j < |xs| ==> !Before(key(xs[j]), key(xs[i]))
  }

  /** The elements of `xs` that carry key `k`, in the order they stand in. */
  function WithKey<T>(xs: seq<T>, key: T -> Key, k: Key): (ys: seq<T>)
    ensures forall y :: y in ys ==> y in xs && key(y) == k
  {
    if xs == [] then []
    else (if key(xs[0]) == k then [xs[0]] else []) + WithKey(xs[1..], key, k)
  }

  /** Ordered by key, and elements with equal keys keep their order (so it is a permutation too). */
  ghost predicate StableSortOf<T>(xs: seq<T>, ys: seq<T>, key: T -> Key) {
    && Ordered(ys, key)
    && forall k :: WithKey(ys, key, k) == WithKey(xs, key, k)
  }

  function Insert<T>(x: T, ys: seq<T>, key: T -> Key): seq<T> {
    if ys != [] && Before(key(ys[0]), key(x)) then [ys[0]] + Insert(x, ys[1..], key)
    else [x] + ys
  }

  function SortBy<T>(xs: seq<T>, key: T -> Key): seq<T> {
    if xs == [] then [] else Insert(xs[0], SortBy(xs[1..], key), key)
  }

  lemma {:induction false} InsertAdds<T>(x: T, ys: seq<T>, key: T -> Key)
    ensures multiset(Insert(x, ys, key)) == multiset(ys) + multiset{x}
  {
    if ys == [] || !Before(key(ys[0]), key(x)) {
    } else {
      InsertAdds(x, ys[1..], key);
      assert ys == [ys[0]] + ys[1..];
    }
  }

  lemma {:induction false} InsertOrdered<T>(x: T, ys: seq<T>, key: T -> Key)
    requires Ordered(ys, key)
    ensures Ordered(Insert(x, ys, key), key)
  {
    if ys == [] || !Before(key(ys[0]), key(x)) {
    } else {
      var rest := Insert(x, ys[1..], key);
      InsertOrdered(x, ys[1..], key);
      InsertAdds(x, ys[1..], key);
      forall j | 0 <= j < |rest| ensures !Before(key(rest[j]), key(ys[0])) {
        assert rest[j] in multiset(rest);
        assert rest[j] == x || rest[j] in ys[1..];
      }
    }
  }

  /** The newcomer goes in front of the elements whose key it shares. */
  lemma {:induction false} InsertInFront<T>(x: T, ys: seq<T>, key: T -> Key, k: Key)
    ensures WithKey(Insert(x, ys, key), key, k) == (if key(x) == k then [x] else []) + WithKey(ys, key, k)
  {
    if ys != [] && Before(key(ys[0]), key(x)) {
      InsertInFront(x, ys[1..], key, k);
      assert Insert(x, ys, key)[1..] == Insert(x, ys[1..], key);
    } else {
      assert Insert(x, ys, key)[1..] == ys;
    }
  }

  lemma {:induction false} SortByOrders<T>(xs: seq<T>, key: T -> Key)
    ensures Ordered(SortBy(xs, key), key)
  {
    if xs == [] {
    } else {
      SortByOrders(xs[1..], key);
      InsertOrdered(xs[0], SortBy(xs[1..], key), key);
    }
  }

  lemma {:induction false} SortByKeepsRuns<T>(xs: seq<T>, key: T -> Key, k: Key)
    ensures WithKey(SortBy(xs, key), key, k) == WithKey(xs, key, k)
  {
    if xs == [] {
    } else {
      SortByKeepsRuns(xs[1..], key, k);
      InsertInFront(xs[0], SortBy(xs[1..], key), key, k);
    }
  }

  lemma {:induction false} SortByKeepsElements<T>(xs: seq<T>, key: T -> Key)
    ensures multiset(SortBy(xs, key)) == multiset(xs)
  {
    if xs == [] {
    } else {
      SortByKeepsElements(xs[1..], key);
      InsertAdds(xs[0], SortBy(xs[1..], key), key);
      assert xs == [xs[0]] + xs[1..];
    }
  }

  /** `SortBy` is a stable sort and keeps every element. */
  lemma SortByIsStable<T>(xs: seq<T>, key: T -> Key)
    ensures StableSortOf(xs, SortBy(xs, key), key)
    ensures multiset(SortBy(xs, key)) == multiset(xs)
    ensures |SortBy(xs, key)| == |xs|
  {
    SortByOrders(xs, key);
    forall k ensures WithKey(SortBy(xs, key), key, k) == WithKey(xs, key, k) {
      SortByKeepsRuns(xs, key, k);
    }
    SortByKeepsElements(xs, key);
    assert |multiset(SortBy(xs, key))| == |multiset(xs)|;
  }

  lemma HeadHasSmallestKey<T>(ys: seq<T>, key: T -> Key)
    requires Ordered(ys, key)
    ensures ys != [] ==> WithKey(ys, key, key(ys[0])) == [ys[0]] + WithKey(ys[1..], key, key(ys[0]))
    ensures forall k :: WithKey(ys, key, k) != [] ==> ys != [] && !Before(k, key(ys[0]))
  {
    forall k | WithKey(ys, key, k) != [] ensures ys != [] && !Before(k, key(ys[0])) {
      var y := WithKey(ys, key, k)[0];
      assert y in ys && key(y) == k;
    }
  }

  lemma {:induction false} PlaceWithKey<T>(ys: seq<T>, key: T -> Key, j: nat) returns (a: nat)
    requires j < |ys|
    ensures a < |WithKey(ys, key, key(ys[j]))| && WithKey(ys, key, key(ys[j]))[a] == ys[j]
  {
    var head := if key(ys[0]) == key(ys[j]) then [ys[0]] else [];
    assert WithKey(ys, key, key(ys[j])) == head + WithKey(ys[1..], key, key(ys[j]));
    if j == 0 {
      a := 0;
    } else {
      var c := PlaceWithKey(ys[1..], key, j - 1);
      a := c + |head|;
    }
  }

  /** Elements with one key stand among those with that key in the order they have in the list. */
  lemma {:induction false} PlacesWithKey<T>(ys: seq<T>, key: T -> Key, i: nat, j: nat) returns (a: nat, b: nat)
    requires i < j < |ys| && key(ys[i]) == key(ys[j])
    ensures var run := WithKey(ys, key, key(ys[i])); a < b < |run| && run[a] == ys[i] && run[b] == ys[j]
  {
    var k := key(ys[i]);
    var head := if key(ys[0]) == k then [ys[0]] else [];
    assert WithKey(ys, key, k) == head + WithKey(ys[1..], key, k);
    if i == 0 {
      a := 0;
      var c := PlaceWithKey(ys[1..], key, j - 1);
      b := c + 1;
    } else {
      var c, d := PlacesWithKey(ys[1..], key, i - 1, j - 1);
      a, b := c + |head|, d + |head|;
    }
  }

  /** And the other way round. */
  lemma {:induction false} PlacesOfRun<T>(xs: seq<T>, key: T -> Key, k: Key, a: nat, b: nat) returns (i: nat, j: nat)
    requires a < b < |WithKey(xs, key, k)|
    ensures i < j < |xs| && xs[i] == WithKey(xs, key, k)[a] && xs[j] == WithKey(xs, key, k)[b]
  {
    var head := if key(xs[0]) == k then [xs[0]] else [];
    assert WithKey(xs, key, k) == head + WithKey(xs[1..], key, k);
    if a < |head| {
      var y := WithKey(xs[1..], key, k)[b - 1];
      assert y in xs[1..];
      var c :| 0 <= c < |xs[1..]| && xs[1..][c] == y;
      i, j := 0, c + 1;
    } else {
      var c, d := PlacesOfRun(xs[1..], key, k, a - |head|, b - |head|);
      i, j := c + 1, d + 1;
    }
  }

  /** A stable sort leaves elements with equal keys in the order of the list it sorts. */
  lemma StableKeepsOrder<T>(xs: seq<T>, ys: seq<T>, key: T -> Key, i: nat, j: nat) returns (a: nat, b: nat)
    requires StableSortOf(xs, ys, key) && i < j < |ys| && key(ys[i]) == key(ys[j])
    ensures a < b < |xs| && xs[a] == ys[i] && xs[b] == ys[j]
  {
    var c, d := PlacesWithKey(ys, key, i, j);
    assert WithKey(ys, key, key(ys[i])) == WithKey(xs, key, key(ys[i]));
    a, b := PlacesOfRun(xs, key, key(ys[i]), c, d);
  }

  /** There is only one stable sort of a list, so `SortBy` is what Python's `sorted` returns. */
  lemma {:induction false} StableSortIsUnique<T>(ys: seq<T>, zs: seq<T>, key: T -> Key)
    requires Ordered(ys, key) && Ordered(zs, key)
    requires forall k :: WithKey(ys, key, k) == WithKey(zs, key, k)
    ensures ys == zs
  {
    HeadHasSmallestKey(ys, key);
    HeadHasSmallestKey(zs, key);
    if ys == [] || zs == [] {
    } else {
      assert WithKey(zs, key, key(ys[0])) != [] && WithKey(ys, key, key(zs[0])) != [];
      assert key(ys[0]) == key(zs[0]);
      forall k ensures WithKey(ys[1..], key, k) == WithKey(zs[1..], key, k) {
        var head := if key(ys[0]) == k then [ys[0]] else [];
        assert WithKey(ys, key, k) == head + WithKey(ys[1..], key, k);
        assert WithKey(ys, key, k)[|head|..] == WithKey(ys[1..], key, k);
        assert WithKey(zs, key, k)[|head|..] == WithKey(zs[1..], key, k);
      }
      StableSortIsUnique(ys[1..], zs[1..], key);
      assert ys == [ys[0]] + ys[1..] && zs == [zs[0]] + zs[1..];
    }
  }

  function Keys<T>(xs: seq<T>, key: T -> Key): (ks: seq<Key>)
    ensures |ks| == |xs|
    ensures forall i :: 0 <= i < |xs| ==> ks[i] == key(xs[i])
  {
    seq(|xs|, i requires 0 <= i < |xs| => key(xs[i]))
  }

  function Without<T>(xs: seq<T>, j: nat): (rest: seq<T>)
    requires j < |xs|
    ensures |rest| == |xs| - 1
  {
    xs[..j] + xs[j + 1..]
  }

  lemma MultisetWithout<T>(xs: seq<T>, j: nat)
    requires j < |xs|
    ensures multiset(Without(xs, j)) == multiset(xs) - multiset{xs[j]}
  {
    assert xs == xs[..j] + ([xs[j]] + xs[j + 1..]);
  }

  /** The head of one list, and what else the two lists hold. */
  lemma SameRest<T>(xs: seq<T>, ys: seq<T>) returns (j: nat)
    requires xs != [] && multiset(xs) == multiset(ys)
    ensures j < |ys| && ys[j] == xs[0]
    ensures multiset(Without(xs, 0)) == multiset(Without(ys, j))
  {
    assert xs[0] in multiset(ys);
    j :| 0 <= j < |ys| && ys[j] == xs[0];
    MultisetWithout(xs, 0);
    MultisetWithout(ys, j);
  }

  lemma KeysConcat<T>(a: seq<T>, b: seq<T>, key: T -> Key)
    ensures Keys(a + b, key) == Keys(a, key) + Keys(b, key)
  {
  }

  lemma KeysWithout<T>(xs: seq<T>, j: nat, key: T -> Key)
    requires j < |xs|
    ensures Keys(Without(xs, j), key) == Without(Keys(xs, key), j)
  {
    KeysConcat(xs[..j], xs[j + 1..], key);
    assert Keys(xs, key)[..j] == Keys(xs[..j], key) && Keys(xs, key)[j + 1..] == Keys(xs[j + 1..], key);
  }

  lemma {:induction false} KeyCounts<T>(ys: seq<T>, zs: seq<T>, key: T -> Key)
    requires multiset(ys) == multiset(zs)
    ensures multiset(Keys(ys, key)) == multiset(Keys(zs, key))
    decreases |ys|
  {
    assert |multiset(ys)| == |multiset(zs)|;
    if ys == [] {
    } else {
      var j := SameRest(ys, zs);
      KeyCounts(Without(ys, 0), Without(zs, j), key);
      KeysWithout(ys, 0, key);
      KeysWithout(zs, j, key);
      MultisetWithout(Keys(ys, key), 0);
      MultisetWithout(Keys(zs, key), j);
      assert multiset(Keys(ys, key)) == multiset(Without(Keys(ys, key), 0)) + multiset{key(ys[0])};
      assert multiset(Keys(zs, key)) == multiset(Without(Keys(zs, key), j)) + multiset{key(zs[j])};
    }
  }

  /** No key comes before an earlier one. */
  predicate KeysInOrder(keys: seq<Key>) {
    forall i, j :: 0 <= i < j < |keys| ==> !Before(keys[j], keys[i])
  }

  /** The first key of a list in order is no greater than any other. */
  lemma HeadIsLeast(keys: seq<Key>, k: Key)
    requires KeysInOrder(keys) && k in multiset(keys)
    ensures keys != [] && !Before(k, keys[0])
  {
    var i :| 0 <= i < |keys| && keys[i] == k;
    assert i > 0 ==> !Before(keys[i], keys[0]);
  }

  lemma SameHead(a: seq<Key>, b: seq<Key>)
    requires a != [] && multiset(a) == multiset(b) && KeysInOrder(a) && KeysInOrder(b)
    ensures b != [] && a[0] == b[0]
  {
    assert a[0] in multiset(a);
    HeadIsLeast(b, a[0]);
    assert b[0] in multiset(b);
    HeadIsLeast(a, b[0]);
  }

  lemma SameTails(a: seq<Key>, b: seq<Key>)
    requires a != [] && b != [] && a[0] == b[0] && multiset(a) == multiset(b)
    ensures multiset(a[1..]) == multiset(b[1..])
  {
    assert a == [a[0]] + a[1..] && b == [b[0]] + b[1..];
    assert multiset(a[1..]) == multiset(a) - multiset{a[0]} && multiset(b[1..]) == multiset(b) - multiset{b[0]};
  }

  lemma {:induction false} SameKeyMultiset(a: seq<Key>, b: seq<Key>)
    requires multiset(a) == multiset(b) && KeysInOrder(a) && KeysInOrder(b)
    ensures a == b
  {
    if a == [] {
      assert |multiset(b)| == 0;
    } else {
      SameHead(a, b);
      SameTails(a, b);
      SameKeyMultiset(a[1..], b[1..]);
      assert a == [a[0]] + a[1..] && b == [b[0]] + b[1..];
    }
  }

  /** Any two ordered rearrangements of one list agree on the keys at every position. */
  lemma OrderedKeysAgree<T>(ys: seq<T>, zs: seq<T>, key: T -> Key)
    requires Ordered(ys, key) && Ordered(zs, key)
    requires multiset(ys) == multiset(zs)
    ensures |ys| == |zs|
    ensures Keys(ys, key) == Keys(zs, key)
  {
    assert |multiset(ys)| == |multiset(zs)|;
    KeyCounts(ys, zs, key);
    SameKeyMultiset(Keys(ys, key), Keys(zs, key));
  }
}
