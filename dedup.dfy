/**
 * First-occurrence de-duplication by a key, threaded through a set of keys
 * already seen. The storefront does this three times: `Array.from(new Set(...))`
 * for the material and size pickers, the `seen` set in the search modal, and
 * the `existingIds` set in the material merge of the product search.
 */
module Dedup {

  /** The keys of the elements of `s`. */
  function KeysOf<T, K>(s: seq<T>, key: T -> K): set<K> {
    set i | 0 <= i < |s| :: key(s[i])
  }

  lemma KeysOfCons<T, K>(x: T, s: seq<T>, key: T -> K)
    ensures KeysOf([x] + s, key) == {key(x)} + KeysOf(s, key)
  {
    var c := [x] + s;
    forall k | k in KeysOf(c, key) ensures k in {key(x)} + KeysOf(s, key) {
      var i :| 0 <= i < |c| && key(c[i]) == k;
      if i > 0 { assert c[i] == s[i - 1]; }
    }
    forall k | k in KeysOf(s, key) ensures k in KeysOf(c, key) {
      var i :| 0 <= i < |s| && key(s[i]) == k;
      assert c[i + 1] == s[i];
    }
    assert c[0] == x;
  }

  lemma KeysOfSnoc<T, K>(s: seq<T>, x: T, key: T -> K)
    ensures KeysOf(s + [x], key) == KeysOf(s, key) + {key(x)}
  {
    var c := s + [x];
    forall k | k in KeysOf(s, key) ensures k in KeysOf(c, key) {
      var i :| 0 <= i < |s| && key(s[i]) == k;
      assert c[i] == s[i];
    }
    assert c[|s|] == x;
  }

  lemma KeysOfAppend<T, K>(a: seq<T>, b: seq<T>, key: T -> K)
    ensures KeysOf(a + b, key) == KeysOf(a, key) + KeysOf(b, key)
  {
    var c := a + b;
    forall k | k in KeysOf(c, key) ensures k in KeysOf(a, key) + KeysOf(b, key) {
      var i :| 0 <= i < |c| && key(c[i]) == k;
      if i >= |a| {
        assert c[i] == b[i - |a|];
      } else {
        assert c[i] == a[i];
      }
    }
    forall k | k in KeysOf(a, key) ensures k in KeysOf(c, key) {
      var i :| 0 <= i < |a| && key(a[i]) == k;
      assert c[i] == a[i];
    }
    forall k | k in KeysOf(b, key) ensures k in KeysOf(c, key) {
      var i :| 0 <= i < |b| && key(b[i]) == k;
      assert c[|a| + i] == b[i];
    }
  }

  /**
   * Walk `s` from the front; keep an element when its key is not yet seen,
   * then mark that key as seen.
   */
  function FirstByKey<T(==), K(==)>(s: seq<T>, key: T -> K, seen: set<K>): (r: seq<T>)
    ensures |r| <= |s|
    ensures forall x | x in r :: x in s && key(x) !in seen
  {
    if s == [] then []
    else if key(s[0]) in seen then FirstByKey(s[1..], key, seen)
    else [s[0]] + FirstByKey(s[1..], key, seen + {key(s[0])})
  }

  /** One step of the walk, taken at position `i` of `s`. */
  lemma FirstByKeyStep<T, K>(s: seq<T>, i: nat, key: T -> K, seen: set<K>)
    requires i < |s|
    ensures FirstByKey(s[i..], key, seen) ==
      if key(s[i]) in seen then FirstByKey(s[i + 1..], key, seen)
      else [s[i]] + FirstByKey(s[i + 1..], key, seen + {key(s[i])})
  {
    assert s[i..][0] == s[i];
    assert s[i..][1..] == s[i + 1..];
  }

  /**
   * One turn of a loop that walks `s` keeping unseen keys: with `seen` the
   * initial keys plus those of `s[..i]`, and `done` what has been kept so far,
   * keeping `s[i]` exactly when its key is new leaves the rest of the walk
   * producing the same `target`.
   */
  lemma DedupLoopStep<T, K>(s: seq<T>, i: nat, key: T -> K, seen0: set<K>, seen: set<K>, done: seq<T>, target: seq<T>)
    requires i < |s|
    requires seen == seen0 + KeysOf(s[..i], key)
    requires done + FirstByKey(s[i..], key, seen) == target
    ensures seen + {key(s[i])} == seen0 + KeysOf(s[..i + 1], key)
    ensures key(s[i]) in seen ==> seen + {key(s[i])} == seen
    ensures (if key(s[i]) in seen then done else done + [s[i]])
      + FirstByKey(s[i + 1..], key, seen + {key(s[i])}) == target
  {
    FirstByKeyStep(s, i, key, seen);
    assert s[..i + 1] == s[..i] + [s[i]];
    KeysOfSnoc(s[..i], s[i], key);
  }

  /** `a` is `b` with some elements left out, the rest in their original order. */
  predicate IsSubsequence<T(==)>(a: seq<T>, b: seq<T>) {
    a == [] || (b != [] && (IsSubsequence(a, b[1..]) || (a[0] == b[0] && IsSubsequence(a[1..], b[1..]))))
  }

  predicate DistinctKeys<T, K(==)>(s: seq<T>, key: T -> K) {
    forall i, j | 0 <= i < j < |s| :: key(s[i]) != key(s[j])
  }

  /** No two kept elements share a key. */
  lemma {:induction false} FirstByKeyDistinct<T, K>(s: seq<T>, key: T -> K, seen: set<K>)
    ensures DistinctKeys(FirstByKey(s, key, seen), key)
  {
    if s != [] {
      if key(s[0]) in seen {
        FirstByKeyDistinct(s[1..], key, seen);
      } else {
        var rest := FirstByKey(s[1..], key, seen + {key(s[0])});
        FirstByKeyDistinct(s[1..], key, seen + {key(s[0])});
        var r := [s[0]] + rest;
        forall i, j | 0 <= i < j < |r| ensures key(r[i]) != key(r[j]) {
          if i == 0 {
            assert r[j] in rest;
          } else {
            assert r[i] == rest[i - 1] && r[j] == rest[j - 1];
          }
        }
      }
    }
  }

  /** Every key of `s` that was not already seen is the key of some kept element. */
  lemma {:induction false} FirstByKeyKeys<T, K>(s: seq<T>, key: T -> K, seen: set<K>)
    ensures KeysOf(FirstByKey(s, key, seen), key) == KeysOf(s, key) - seen
  {
    if s != [] {
      var k := key(s[0]);
      var r := FirstByKey(s, key, seen);
      assert s == [s[0]] + s[1..];
      KeysOfCons(s[0], s[1..], key);
      if k in seen {
        FirstByKeyKeys(s[1..], key, seen);
      } else {
        var rest := FirstByKey(s[1..], key, seen + {k});
        FirstByKeyKeys(s[1..], key, seen + {k});
        assert r == [s[0]] + rest;
        KeysOfCons(s[0], rest, key);
      }
    }
  }

  /** The kept elements appear in `s`, in the order they have there. */
  lemma {:induction false} FirstByKeySubsequence<T, K>(s: seq<T>, key: T -> K, seen: set<K>)
    ensures IsSubsequence(FirstByKey(s, key, seen), s)
  {
    if s != [] {
      var r := FirstByKey(s, key, seen);
      if key(s[0]) in seen {
        FirstByKeySubsequence(s[1..], key, seen);
      } else {
        FirstByKeySubsequence(s[1..], key, seen + {key(s[0])});
        assert r[0] == s[0] && r[1..] == FirstByKey(s[1..], key, seen + {key(s[0])});
      }
    }
  }

  /** The index of the first element of `s` whose key is `k`. */
  ghost function FirstIndex<T, K>(s: seq<T>, key: T -> K, k: K): (i: nat)
    requires k in KeysOf(s, key)
    ensures i < |s| && key(s[i]) == k
    ensures forall i' | 0 <= i' < i :: key(s[i']) != k
  {
    if key(s[0]) == k then 0
    else
      assert k in KeysOf(s[1..], key) by {
        var i :| 0 <= i < |s| && key(s[i]) == k;
        assert s[1..][i - 1] == s[i];
      }
      1 + FirstIndex(s[1..], key, k)
  }

  /**
   * Every element of `r` is the first element of `s` with its key, and they
   * come in the order in which those first occurrences appear in `s`.
   */
  ghost predicate FirstOccurrencesInOrder<T, K>(r: seq<T>, s: seq<T>, key: T -> K) {
    && (forall j | 0 <= j < |r| :: key(r[j]) in KeysOf(s, key) && r[j] == s[FirstIndex(s, key, key(r[j]))])
    && (forall j1, j2 | 0 <= j1 < j2 < |r| ::
          key(r[j1]) in KeysOf(s, key) && key(r[j2]) in KeysOf(s, key)
          && FirstIndex(s, key, key(r[j1])) < FirstIndex(s, key, key(r[j2])))
  }

  /** The kept elements are first occurrences, in the order of `s`. */
  lemma {:induction false} FirstByKeyFirstOccurrences<T, K>(s: seq<T>, key: T -> K, seen: set<K>)
    ensures FirstOccurrencesInOrder(FirstByKey(s, key, seen), s, key)
  {
    if s != [] {
      var r := FirstByKey(s, key, seen);
      var k := key(s[0]);
      var seen' := if k in seen then seen else seen + {k};
      var rest := FirstByKey(s[1..], key, seen');
      FirstByKeyFirstOccurrences(s[1..], key, seen');
      KeysOfCons(s[0], s[1..], key);
      assert s == [s[0]] + s[1..];
      // Past the first element, first indices in `s` are one more than in `s[1..]`.
      forall j | 0 <= j < |rest|
        ensures key(rest[j]) != k
        ensures key(rest[j]) in KeysOf(s, key)
        ensures FirstIndex(s, key, key(rest[j])) == 1 + FirstIndex(s[1..], key, key(rest[j]))
        ensures s[FirstIndex(s, key, key(rest[j]))] == rest[j]
      {
        assert rest[j] in rest;
        var i' := FirstIndex(s[1..], key, key(rest[j]));
        assert rest[j] == s[1..][i'];
        assert s[1 + i'] == s[1..][i'];
      }
      if k in seen {
        assert r == rest;
      } else {
        assert r == [s[0]] + rest;
        assert FirstIndex(s, key, k) == 0;
        forall j | 0 < j < |r| ensures r[j] == rest[j - 1] { }
      }
    }
  }

  /**
   * De-duplicating a concatenation is de-duplicating the first part, then the
   * second part with every key of the first part already seen.
   */
  lemma {:induction false} FirstByKeyAppend<T, K>(a: seq<T>, b: seq<T>, key: T -> K, seen: set<K>)
    ensures FirstByKey(a + b, key, seen) == FirstByKey(a, key, seen) + FirstByKey(b, key, seen + KeysOf(a, key))
  {
    if a == [] {
      assert a + b == b;
      assert KeysOf(a, key) == {};
      assert seen + KeysOf(a, key) == seen;
    } else {
      var k := key(a[0]);
      assert (a + b)[1..] == a[1..] + b;
      assert a == [a[0]] + a[1..];
      KeysOfCons(a[0], a[1..], key);
      if k in seen {
        FirstByKeyAppend(a[1..], b, key, seen);
        assert seen + KeysOf(a[1..], key) == seen + KeysOf(a, key);
      } else {
        FirstByKeyAppend(a[1..], b, key, seen + {k});
        assert seen + {k} + KeysOf(a[1..], key) == seen + KeysOf(a, key);
      }
    }
  }

  /** A list whose keys are distinct and unseen is kept whole. */
  lemma {:induction false} FirstByKeyOfDistinct<T, K>(s: seq<T>, key: T -> K, seen: set<K>)
    requires DistinctKeys(s, key)
    requires forall i | 0 <= i < |s| :: key(s[i]) !in seen
    ensures FirstByKey(s, key, seen) == s
  {
    if s != [] {
      var k := key(s[0]);
      forall i | 0 <= i < |s[1..]| ensures key(s[1..][i]) !in seen + {k} {
        assert s[1..][i] == s[i + 1];
      }
      forall i, j | 0 <= i < j < |s[1..]| ensures key(s[1..][i]) != key(s[1..][j]) {
        assert s[1..][i] == s[i + 1] && s[1..][j] == s[j + 1];
      }
      FirstByKeyOfDistinct(s[1..], key, seen + {k});
      assert s == [s[0]] + s[1..];
    }
  }
}
