/**
 * The list operations of lodash that the task list relies on: `union`
 * (`uniq` of a concatenation, deduplicating by value) and `unionBy`
 * (deduplicating by an iteratee). Both keep the FIRST element of each key,
 * in input order; that is `UniqBy` below.
 */
module Lists {

  /** The identity iteratee: `union` is `unionBy` with it. */
  function Id<T>(x: T): T { x }

  /** Some element of `s` has key `k`. */
  predicate HasKey<T(!new), K(==,!new)>(s: seq<T>, key: T -> K, k: K) {
    exists i :: 0 <= i < |s| && key(s[i]) == k
  }

  /** No two elements of `s` share a key. */
  predicate DistinctKeys<T(!new), K(==,!new)>(s: seq<T>, key: T -> K) {
    forall i, j :: 0 <= i < j < |s| ==> key(s[i]) != key(s[j])
  }

  lemma HasKeyAppend<T(!new), K(!new)>(a: seq<T>, b: seq<T>, key: T -> K, k: K)
    ensures HasKey(a + b, key, k) <==> HasKey(a, key, k) || HasKey(b, key, k)
  {
    if HasKey(a + b, key, k) {
      var i :| 0 <= i < |a + b| && key((a + b)[i]) == k;
      if i >= |a| { assert key(b[i - |a|]) == k; }
    }
    if HasKey(a, key, k) {
      var i :| 0 <= i < |a| && key(a[i]) == k;
      assert key((a + b)[i]) == k;
    }
    if HasKey(b, key, k) {
      var i :| 0 <= i < |b| && key(b[i]) == k;
      assert key((a + b)[|a| + i]) == k;
    }
  }

  /**
   * lodash's `uniqBy`: walks `s` and keeps an element only when no element
   * kept so far has its key.
   */
  function UniqBy<T(!new), K(==,!new)>(s: seq<T>, key: T -> K): (r: seq<T>)
    ensures DistinctKeys(r, key)
    ensures forall x :: x in r ==> x in s
    ensures forall k :: HasKey(r, key, k) <==> HasKey(s, key, k)
    ensures |r| <= |s|
    decreases |s|
  {
    if s == [] then []
    else
      var init := s[..|s| - 1];
      var u := UniqBy(init, key);
      var x := s[|s| - 1];
      assert s == init + [x];
      HasKeyAppend(init, [x], key, key(x));
      assert forall k :: HasKey(s, key, k) <==> HasKey(init, key, k) || key(x) == k by {
        forall k ensures HasKey(s, key, k) <==> HasKey(init, key, k) || key(x) == k {
          HasKeyAppend(init, [x], key, k);
          assert HasKey([x], key, k) <==> key(x) == k;
        }
      }
      if HasKey(u, key, key(x)) then u
      else
        assert forall k :: HasKey(u + [x], key, k) <==> HasKey(u, key, k) || key(x) == k by {
          forall k ensures HasKey(u + [x], key, k) <==> HasKey(u, key, k) || key(x) == k {
            HasKeyAppend(u, [x], key, k);
            assert HasKey([x], key, k) <==> key(x) == k;
          }
        }
        u + [x]
  }

  /** lodash's `union(a, b)`: the distinct values of `a` then `b`, first occurrence first. */
  function Union<T(==,!new)>(a: seq<T>, b: seq<T>): (r: seq<T>)
    ensures forall x :: x in r <==> x in a || x in b
    ensures DistinctKeys(r, Id)
  {
    var r := UniqBy(a + b, Id);
    assert forall x :: x in r <==> x in a + b by {
      forall x ensures x in r <==> x in a + b {
        if x in a + b {
          var i :| 0 <= i < |a + b| && (a + b)[i] == x;
          assert Id((a + b)[i]) == x;
          assert HasKey(r, Id, x);
        }
      }
    }
    r
  }

  /** The elements of `s` whose key no element of `t` has, in order. */
  function WithoutKeysOf<T(!new), K(==,!new)>(s: seq<T>, t: seq<T>, key: T -> K): (r: seq<T>)
    ensures forall x :: x in r <==> x in s && !HasKey(t, key, key(x))
    ensures forall k :: HasKey(r, key, k) <==> HasKey(s, key, k) && !HasKey(t, key, k)
    decreases |s|
  {
    if s == [] then []
    else
      var init := s[..|s| - 1];
      var w := WithoutKeysOf(init, t, key);
      var x := s[|s| - 1];
      assert s == init + [x];
      assert forall k :: HasKey(s, key, k) <==> HasKey(init, key, k) || key(x) == k by {
        forall k ensures HasKey(s, key, k) <==> HasKey(init, key, k) || key(x) == k {
          HasKeyAppend(init, [x], key, k);
          assert HasKey([x], key, k) <==> key(x) == k;
        }
      }
      if HasKey(t, key, key(x)) then w
      else
        assert forall k :: HasKey(w + [x], key, k) <==> HasKey(w, key, k) || key(x) == k by {
          forall k ensures HasKey(w + [x], key, k) <==> HasKey(w, key, k) || key(x) == k {
            HasKeyAppend(w, [x], key, k);
            assert HasKey([x], key, k) <==> key(x) == k;
          }
        }
        w + [x]
  }

  /** A list whose keys are already distinct is left as it is. */
  lemma {:induction false} UniqByDistinct<T(!new), K(!new)>(s: seq<T>, key: T -> K)
    requires DistinctKeys(s, key)
    ensures UniqBy(s, key) == s
  {
    if s != [] {
      var init := s[..|s| - 1];
      UniqByDistinct(init, key);
      var x := s[|s| - 1];
      assert s == init + [x];
    }
  }

  /** Dropping elements keeps the keys of a key-distinct list distinct. */
  lemma {:induction false} WithoutKeysOfDistinct<T(!new), K(!new)>(s: seq<T>, t: seq<T>, key: T -> K)
    requires DistinctKeys(s, key)
    ensures DistinctKeys(WithoutKeysOf(s, t, key), key)
    decreases |s|
  {
    if s != [] {
      var init := s[..|s| - 1];
      var x := s[|s| - 1];
      assert s == init + [x];
      WithoutKeysOfDistinct(init, t, key);
    }
  }

  /** One more element: `UniqBy` keeps it exactly when its key is new. */
  lemma UniqBySnoc<T(!new), K(!new)>(s: seq<T>, x: T, key: T -> K)
    ensures UniqBy(s + [x], key) == if HasKey(s, key, key(x)) then UniqBy(s, key) else UniqBy(s, key) + [x]
  {
    assert (s + [x])[..|s + [x]| - 1] == s;
  }

  lemma WithoutKeysOfSnoc<T(!new), K(!new)>(s: seq<T>, x: T, t: seq<T>, key: T -> K)
    ensures WithoutKeysOf(s + [x], t, key) == if HasKey(t, key, key(x)) then WithoutKeysOf(s, t, key) else WithoutKeysOf(s, t, key) + [x]
  {
    assert (s + [x])[..|s + [x]| - 1] == s;
  }

  /**
   * Deduplicating a concatenation: the distinct prefix of `a`, then the
   * distinct elements of `b` whose key `a` does not already have.
   */
  lemma {:induction false} UniqByAppend<T(!new), K(!new)>(a: seq<T>, b: seq<T>, key: T -> K)
    ensures UniqBy(a + b, key) == UniqBy(a, key) + UniqBy(WithoutKeysOf(b, a, key), key)
    decreases |b|
  {
    if b == [] {
      assert a + b == a;
    } else {
      var b' := b[..|b| - 1];
      var y := b[|b| - 1];
      assert b == b' + [y];
      assert a + b == (a + b') + [y];
      UniqByAppend(a, b', key);
      UniqByAppendStep(a, b', y, key);
    }
  }

  /** The inductive step of `UniqByAppend`: one more element at the end of `b`. */
  lemma UniqByAppendStep<T(!new), K(!new)>(a: seq<T>, b: seq<T>, y: T, key: T -> K)
    requires UniqBy(a + b, key) == UniqBy(a, key) + UniqBy(WithoutKeysOf(b, a, key), key)
    ensures UniqBy((a + b) + [y], key) == UniqBy(a, key) + UniqBy(WithoutKeysOf(b + [y], a, key), key)
  {
    HasKeyAppend(a, b, key, key(y));
    if HasKey(a, key, key(y)) {
      UniqByAppendOld(a, b, y, key);
    } else {
      UniqByAppendNew(a, b, y, key);
    }
  }

  lemma UniqByAppendOld<T(!new), K(!new)>(a: seq<T>, b: seq<T>, y: T, key: T -> K)
    requires HasKey(a, key, key(y)) && HasKey(a + b, key, key(y))
    ensures UniqBy((a + b) + [y], key) == UniqBy(a + b, key)
    ensures WithoutKeysOf(b + [y], a, key) == WithoutKeysOf(b, a, key)
  {
    UniqBySnoc(a + b, y, key);
    WithoutKeysOfSnoc(b, y, a, key);
  }

  lemma UniqByAppendNew<T(!new), K(!new)>(a: seq<T>, b: seq<T>, y: T, key: T -> K)
    requires !HasKey(a, key, key(y)) && (HasKey(a + b, key, key(y)) <==> HasKey(b, key, key(y)))
    requires UniqBy(a + b, key) == UniqBy(a, key) + UniqBy(WithoutKeysOf(b, a, key), key)
    ensures UniqBy((a + b) + [y], key) == UniqBy(a, key) + UniqBy(WithoutKeysOf(b + [y], a, key), key)
  {
    var w := WithoutKeysOf(b, a, key);
    var u, v := UniqBy(a, key), UniqBy(w, key);
    UniqBySnoc(a + b, y, key);
    WithoutKeysOfSnoc(b, y, a, key);
    assert WithoutKeysOf(b + [y], a, key) == w + [y];
    UniqBySnoc(w, y, key);
    assert HasKey(w, key, key(y)) <==> HasKey(b, key, key(y));
    if !HasKey(b, key, key(y)) {
      AppendAssoc(u, v, [y]);
    }
  }

  lemma AppendAssoc<T>(u: seq<T>, v: seq<T>, w: seq<T>)
    ensures u + (v + w) == (u + v) + w
  {
  }

  /** `union(a, b)` of a duplicate-free `a`: `a` unchanged, then the new values of `b` in order. */
  lemma UnionExtends<T(!new)>(a: seq<T>, b: seq<T>)
    requires DistinctKeys(a, Id)
    ensures Union(a, b) == a + UniqBy(WithoutKeysOf(b, a, Id), Id)
  {
    UniqByAppend(a, b, Id);
    UniqByDistinct(a, Id);
  }

  /** `union(a, [x])` of a duplicate-free `a` appends `x` unless it is already there. */
  lemma UnionSingle<T(!new)>(a: seq<T>, x: T)
    requires DistinctKeys(a, Id)
    ensures Union(a, [x]) == if x in a then a else a + [x]
  {
    UnionExtends(a, [x]);
    assert HasKey(a, Id, Id(x)) <==> x in a by {
      if x in a {
        var i :| 0 <= i < |a| && a[i] == x;
        assert Id(a[i]) == Id(x);
      }
    }
    WithoutKeysOfSnoc([], x, a, Id);
    UniqBySnoc([], x, Id);
    assert [] + [x] == [x];
  }

}
