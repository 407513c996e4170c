/** Finite sums over the values of a map. */
module MapSum {

  /**
   The sum of `f` over all values of `m`, taking the keys in an arbitrary order. The definition is
   spread over several functions so that the verifier does not unfold every sum it meets.
   */
  ghost function Sum<K, V>(m: map<K, V>, f: V -> real): real
    decreases |m.Keys|, 3
  {
    SumAll(m, f)
  }

  ghost function SumAll<K, V>(m: map<K, V>, f: V -> real): real
    decreases |m.Keys|, 2
  {
    SumSplit(m, f)
  }

  ghost function SumSplit<K, V>(m: map<K, V>, f: V -> real): real
    decreases |m.Keys|, 1
  {
    if m.Keys == {} then 0.0 else SumFrom(m, f, Pick(m))
  }

  ghost function Pick<K, V>(m: map<K, V>): (k: K)
    requires m.Keys != {}
    ensures k in m
  {
    var k :| k in m;
    k
  }

  ghost function SumFrom<K, V>(m: map<K, V>, f: V -> real, k: K): real
    requires k in m
    decreases |m.Keys|, 0
  {
    f(m[k]) + Sum(m - {k}, f)
  }

  lemma SumEmpty<K, V>(m: map<K, V>, f: V -> real)
    requires m.Keys == {}
    ensures Sum(m, f) == 0.0
  {
    assert Sum(m, f) == SumAll(m, f) == SumSplit(m, f);
  }

  /** Any key may be taken out first. */
  lemma {:induction false} SumTake<K, V>(m: map<K, V>, k: K, f: V -> real)
    requires k in m
    ensures Sum(m, f) == f(m[k]) + Sum(m - {k}, f)
    decreases |m.Keys|
  {
    var j := Pick(m);
    assert Sum(m, f) == SumAll(m, f) == SumSplit(m, f) == SumFrom(m, f, j) == f(m[j]) + Sum(m - {j}, f);
    if j != k {
      SumTake(m - {j}, k, f);
      SumTake(m - {k}, j, f);
      assert m - {j} - {k} == m - {k} - {j};
    }
  }

  lemma SumPut<K, V>(m: map<K, V>, k: K, v: V, f: V -> real)
    ensures Sum(m[k := v], f) == f(v) + Sum(m - {k}, f)
    ensures Sum(m[k := v], f) == Sum(m, f) + f(v) - (if k in m then f(m[k]) else 0.0)
  {
    SumTake(m[k := v], k, f);
    assert m[k := v] - {k} == m - {k};
    if k in m {
      SumTake(m, k, f);
    } else {
      assert m - {k} == m;
    }
  }

  /** Functions that agree on the values present give the same sum. */
  lemma {:induction false} SumAgree<K, V>(m: map<K, V>, f: V -> real, g: V -> real)
    requires forall k | k in m :: f(m[k]) == g(m[k])
    ensures Sum(m, f) == Sum(m, g)
    decreases |m.Keys|
  {
    if m == map[] {
      SumEmpty(m, f);
      SumEmpty(m, g);
    } else {
      var k := Pick(m);
      SumTake(m, k, f);
      SumTake(m, k, g);
      SumAgree(m - {k}, f, g);
    }
  }

  /** Two maps with the same keys, whose values are worth the same. */
  lemma {:induction false} SumMatch<K, V, W>(m: map<K, V>, n: map<K, W>, f: V -> real, g: W -> real)
    requires m.Keys == n.Keys && forall k | k in m :: f(m[k]) == g(n[k])
    ensures Sum(m, f) == Sum(n, g)
    decreases |m.Keys|
  {
    if m.Keys == {} {
      SumEmpty(m, f);
      SumEmpty(n, g);
    } else {
      var k := Pick(m);
      SumTake(m, k, f);
      SumTake(n, k, g);
      SumMatch(m - {k}, n - {k}, f, g);
    }
  }

  /** `part` holds a subset of the bindings of `whole`. */
  ghost predicate Within<K, V>(part: map<K, V>, whole: map<K, V>) {
    forall k | k in part :: k in whole && part[k] == whole[k]
  }

  /** With positive values, a part sums to at most the whole, and to the same only if it is the whole. */
  lemma {:induction false} SumWithin<K, V>(part: map<K, V>, whole: map<K, V>, f: V -> real)
    requires Within(part, whole)
    requires forall k | k in whole :: f(whole[k]) > 0.0
    ensures 0.0 <= Sum(part, f) <= Sum(whole, f)
    ensures Sum(part, f) == Sum(whole, f) <==> part == whole
    decreases |whole.Keys|
  {
    if whole == map[] {
      assert part == map[];
      SumEmpty(whole, f);
    } else if part == map[] {
      SumEmpty(part, f);
      var k :| k in whole;
      SumTake(whole, k, f);
      SumWithin(map[], whole - {k}, f);
    } else {
      var k :| k in part;
      SumTake(part, k, f);
      SumTake(whole, k, f);
      SumWithin(part - {k}, whole - {k}, f);
      if part - {k} == whole - {k} {
        assert part == (part - {k})[k := part[k]];
        assert whole == (whole - {k})[k := part[k]];
      }
    }
  }

  lemma {:induction false} SumJoin<K, V>(a: map<K, V>, b: map<K, V>, f: V -> real)
    requires a.Keys !! b.Keys
    ensures Sum(a + b, f) == Sum(a, f) + Sum(b, f)
    decreases |b.Keys|
  {
    if b == map[] {
      SumEmpty(b, f);
      assert a + b == a;
    } else {
      var k := Pick(b);
      SumJoin(a, b - {k}, f);
      SumJoinStep(a, b, k, f);
    }
  }

  lemma SumJoinStep<K, V>(a: map<K, V>, b: map<K, V>, k: K, f: V -> real)
    requires k in b && k !in a
    ensures Sum(a + b, f) == f(b[k]) + Sum(a + (b - {k}), f)
    ensures Sum(b, f) == f(b[k]) + Sum(b - {k}, f)
  {
    SumTake(b, k, f);
    SumTake(a + b, k, f);
    JoinPut(a, b, k);
  }

  lemma JoinPut<K, V>(a: map<K, V>, b: map<K, V>, k: K)
    requires k in b && k !in a
    ensures (a + b) - {k} == a + (b - {k})
  {
    var left, right := (a + b) - {k}, a + (b - {k});
    assert left.Keys == right.Keys;
    assert forall j | j in left :: left[j] == right[j];
  }

  /** The number of keys of a submap. */
  lemma WithinSize<K, V>(part: map<K, V>, whole: map<K, V>)
    requires Within(part, whole)
    ensures |part.Keys| <= |whole.Keys|
  {
    assert part.Keys <= whole.Keys;
    SubsetSize(part.Keys, whole.Keys);
  }

  lemma {:induction false} SubsetSize<T>(a: set<T>, b: set<T>)
    requires a <= b
    ensures |a| <= |b|
    decreases |b|
  {
    if a != {} {
      var x :| x in a;
      SubsetSize(a - {x}, b - {x});
    }
  }
}
