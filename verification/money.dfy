/** Money over the reals: decimal rounding and sums over dict values and
    sequences. Rounding is half-up; the facts proved about it hold for any
    rounding to the nearest multiple of 10^-d, so none of them depends on
    how Python breaks ties between two binary floats. */
module Money {

  /** 10^d for any integer d (Python's `round` accepts negative places). */
  function Scale(d: int): (r: real)
    ensures r > 0.0
    decreases if d < 0 then -d else d
  {
    if d == 0 then 1.0
    else if d > 0 then 10.0 * Scale(d - 1)
    else Scale(d + 1) / 10.0
  }

  /** The number of 10^-d units `round(x, d)` lands on. */
  function Units(x: real, d: int): int
  {
    (x * Scale(d) + 0.5).Floor
  }

  /** `round(x, d)`: the nearest multiple of 10^-d. */
  function Round(x: real, d: int): real
  {
    Units(x, d) as real / Scale(d)
  }

  lemma MulMono(x: real, y: real, p: real)
    requires x <= y && p > 0.0
    ensures x * p <= y * p
  {
  }

  /** Scaling by a non-negative factor on the left keeps the order. */
  lemma MulMonoLeft(p: real, x: real, y: real)
    requires x <= y && p >= 0.0
    ensures p * x <= p * y
  {
    assert p * y - p * x == p * (y - x);
  }

  lemma DivMono(x: real, y: real, p: real)
    requires x <= y && p > 0.0
    ensures x / p <= y / p
  {
    assert x / p * p == x && y / p * p == y;
  }

  /** Rounding never moves a value by more than half a unit of the last
      place: |Round(x, d) - x| <= 0.5 * 10^-d, stated in units of 10^-d. */
  lemma RoundClose(x: real, d: int)
    ensures x * Scale(d) - 0.5 <= Round(x, d) * Scale(d) <= x * Scale(d) + 0.5
  {
    var p := Scale(d);
    var z := x * p + 0.5;
    var q := Units(x, d) as real;
    assert q <= z < q + 1.0;
    assert Round(x, d) == q / p;
    assert q / p * p == q;
  }

  /** Rounding lands on the 10^-d grid: the result is a whole number of
      units of the last kept place. */
  lemma RoundOnGrid(x: real, d: int)
    ensures Round(x, d) * Scale(d) == Units(x, d) as real
    ensures Round(x, d) * Scale(d) == (Round(x, d) * Scale(d)).Floor as real
  {
  }

  /** Rounding preserves order (not strictly: two values may round together). */
  lemma RoundMonotone(x: real, y: real, d: int)
    requires x <= y
    ensures Round(x, d) <= Round(y, d)
  {
    var p := Scale(d);
    MulMono(x, y, p);
    var a := Units(x, d);
    var b := Units(y, d);
    assert a <= b;
    DivMono(a as real, b as real, p);
  }

  /** A value that is already a whole number of units is left unchanged. */
  lemma RoundExact(k: int, d: int)
    ensures Round(k as real / Scale(d), d) == k as real / Scale(d)
  {
    var p := Scale(d);
    var x := k as real / p;
    assert x * p == k as real;
    assert Units(x, d) == k;
  }

  lemma {:induction false} ScaleWhole(d: nat)
    ensures Scale(d) == Scale(d).Floor as real
  {
    if d > 0 {
      ScaleWhole(d - 1);
      var m := Scale(d - 1).Floor;
      assert Scale(d) == 10.0 * (m as real) == (10 * m) as real;
    }
  }

  /** A whole number is unchanged by rounding to d >= 0 places. */
  lemma RoundWhole(k: int, d: nat)
    ensures Round(k as real, d) == k as real
  {
    var p := Scale(d);
    ScaleWhole(d);
    var m := p.Floor;
    assert k as real * p == (k * m) as real;
    assert Units(k as real, d) == k * m;
    assert (k * m) as real / p == k as real;
  }

  lemma RoundZero(d: int)
    ensures Round(0.0, d) == 0.0
  {
    var p := Scale(d);
    assert Units(0.0, d) == 0;
  }

  /** Rounding a non-negative value gives a non-negative value. */
  lemma RoundNonNegative(x: real, d: int)
    requires x >= 0.0
    ensures Round(x, d) >= 0.0
  {
    RoundZero(d);
    RoundMonotone(0.0, x, d);
  }

  /** The sum of a dict's values, independent of the order the dict is
      iterated in (see SumValuesAnyKey). */
  ghost function SumValues<K>(m: map<K, real>): real
    decreases |m|
  {
    if m == map[] then 0.0
    else var k :| k in m; m[k] + SumValues(m - {k})
  }

  /** Any key may be taken first: the sum does not depend on key order. */
  lemma {:induction false} SumValuesAnyKey<K>(m: map<K, real>, k: K)
    requires k in m
    ensures SumValues(m) == m[k] + SumValues(m - {k})
    decreases |m|
  {
    var j :| j in m && SumValues(m) == m[j] + SumValues(m - {j});
    if j != k {
      var mj := m - {j};
      var mk := m - {k};
      assert k in mj && j in mk;
      SumValuesAnyKey(mj, k);
      SumValuesAnyKey(mk, j);
      assert mj - {k} == mk - {j};
    }
  }

  /** Adding a fresh key adds its value. */
  lemma SumValuesAdd<K>(m: map<K, real>, k: K, v: real)
    requires k !in m
    ensures SumValues(m[k := v]) == SumValues(m) + v
  {
    SumValuesAnyKey(m[k := v], k);
    assert m[k := v] - {k} == m;
  }

  lemma SumValuesZero<K>(m: map<K, real>)
    requires forall k :: k in m ==> m[k] == 0.0
    ensures SumValues(m) == 0.0
    decreases |m|
  {
    if m != map[] {
      var k :| k in m;
      SumValuesAnyKey(m, k);
      SumValuesZero(m - {k});
    }
  }

  /** Σ f(x) over a sequence, first to last. */
  function SumBy<T>(s: seq<T>, f: T -> real): real
  {
    if |s| == 0 then 0.0 else f(s[0]) + SumBy(s[1..], f)
  }

  lemma {:induction false} SumByAppend<T>(a: seq<T>, b: seq<T>, f: T -> real)
    ensures SumBy(a + b, f) == SumBy(a, f) + SumBy(b, f)
  {
    if |a| == 0 {
      assert a + b == b;
    } else {
      assert (a + b)[1..] == a[1..] + b;
      SumByAppend(a[1..], b, f);
    }
  }

  /** Taking out the element at index j. */
  lemma {:induction false} SumByRemove<T>(s: seq<T>, j: nat, f: T -> real)
    requires j < |s|
    ensures SumBy(s, f) == f(s[j]) + SumBy(s[..j] + s[j + 1..], f)
  {
    var a, x, b := s[..j], [s[j]], s[j + 1..];
    assert s == (a + x) + b;
    SumByAppend(a + x, b, f);
    SumByAppend(a, x, f);
    assert x[1..] == [];
    assert SumBy(x, f) == f(s[j]);
    SumByAppend(a, b, f);
  }

  lemma MultisetRemove<T>(t: seq<T>, j: nat)
    requires j < |t|
    ensures multiset(t[..j] + t[j + 1..]) == multiset(t) - multiset{t[j]}
  {
    assert t == t[..j] + [t[j]] + t[j + 1..];
  }

  /** Permuting a sequence does not change its sum. */
  lemma {:induction false} SumByPermutation<T>(s: seq<T>, t: seq<T>, f: T -> real)
    requires multiset(s) == multiset(t)
    ensures SumBy(s, f) == SumBy(t, f)
    decreases |s|
  {
    if |s| > 0 {
      assert s[0] in multiset(t);
      var j :| 0 <= j < |t| && t[j] == s[0];
      MultisetRemove(t, j);
      assert s == [s[0]] + s[1..];
      assert multiset(s[1..]) == multiset(s) - multiset{s[0]};
      SumByPermutation(s[1..], t[..j] + t[j + 1..], f);
      SumByRemove(t, j, f);
    } else {
      assert |t| == |multiset(t)| == 0;
    }
  }
}
