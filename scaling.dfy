/** Normalisation of raw answers onto the common 0..100 complexity scale:
    the clamp, the five linear numeric scalers and the multi-select
    fraction. Both scoring variants define these identically. */
module Scaling {
  import opened ClassifierTypes

  /** `Math.max(lo, Math.min(hi, x))`. */
  function Clamp(x: real, lo: real, hi: real): real {
    var m := if x < hi then x else hi;
    if lo < m then m else lo
  }

  /** The default range of the source's `clamp`. */
  function Clamp100(x: real): real {
    Clamp(x, 0.0, 100.0)
  }

  /** Over a proper range the clamp lands in it, keeps values already in it
      and sends values outside it to the nearer end. */
  lemma ClampSpec(x: real, lo: real, hi: real)
    requires lo <= hi
    ensures lo <= Clamp(x, lo, hi) <= hi
    ensures lo <= x <= hi ==> Clamp(x, lo, hi) == x
    ensures x < lo ==> Clamp(x, lo, hi) == lo
    ensures hi < x ==> Clamp(x, lo, hi) == hi
  {
  }

  lemma ClampIdempotent(x: real, lo: real, hi: real)
    requires lo <= hi
    ensures Clamp(Clamp(x, lo, hi), lo, hi) == Clamp(x, lo, hi)
  {
  }

  lemma ClampMonotone(x: real, y: real, lo: real, hi: real)
    requires x <= y
    ensures Clamp(x, lo, hi) <= Clamp(y, lo, hi)
  {
  }

  function ScaleSkuCount(n: real): real { Clamp100(n / 2000.0 * 100.0) }
  function ScaleOrderVolume(n: real): real { Clamp100(n / 20000.0 * 100.0) }
  function ScaleOrderPeak(n: real): real { Clamp100(n / 40000.0 * 100.0) }
  function ScaleRetourPct(n: real): real { Clamp100(n) }
  function ScaleAfdelingen(n: real): real { Clamp100((n - 1.0) / 6.0 * 100.0) }

  /** Every numeric scaler lands in 0..100 and is nondecreasing. */
  lemma NumericScalersSpec(x: real, y: real)
    requires x <= y
    ensures 0.0 <= ScaleSkuCount(x) <= ScaleSkuCount(y) <= 100.0
    ensures 0.0 <= ScaleOrderVolume(x) <= ScaleOrderVolume(y) <= 100.0
    ensures 0.0 <= ScaleOrderPeak(x) <= ScaleOrderPeak(y) <= 100.0
    ensures 0.0 <= ScaleRetourPct(x) <= ScaleRetourPct(y) <= 100.0
    ensures 0.0 <= ScaleAfdelingen(x) <= ScaleAfdelingen(y) <= 100.0
  {
    ClampMonotone(x / 2000.0 * 100.0, y / 2000.0 * 100.0, 0.0, 100.0);
    ClampMonotone(x / 20000.0 * 100.0, y / 20000.0 * 100.0, 0.0, 100.0);
    ClampMonotone(x / 40000.0 * 100.0, y / 40000.0 * 100.0, 0.0, 100.0);
    ClampMonotone(x, y, 0.0, 100.0);
    ClampMonotone((x - 1.0) / 6.0 * 100.0, (y - 1.0) / 6.0 * 100.0, 0.0, 100.0);
  }

  /** Departments: 1 maps to 0, 7 to 100, linear between, clamped outside. */
  lemma ScaleAfdelingenEnds(n: real)
    ensures n <= 1.0 ==> ScaleAfdelingen(n) == 0.0
    ensures n >= 7.0 ==> ScaleAfdelingen(n) == 100.0
    ensures 1.0 <= n <= 7.0 ==> ScaleAfdelingen(n) == (n - 1.0) * 100.0 / 6.0
  {
  }

  /** The options that are ticked. */
  function Ticked(m: MultiOptions): set<string> {
    set k | k in m && m[k]
  }

  /** Fraction of ticked options times 100; an empty option set scores 0. */
  function ScaleMulti(m: MultiOptions): real {
    if |m| == 0 then 0.0
    else Clamp100(|Ticked(m)| as real / |m| as real * 100.0)
  }

  lemma TickedBound(m: MultiOptions)
    ensures Ticked(m) <= m.Keys
    ensures |Ticked(m)| <= |m|
  {
    assert Ticked(m) <= m.Keys;
    SubsetCard(Ticked(m), m.Keys);
  }

  lemma {:induction false} SubsetCard<T>(a: set<T>, b: set<T>)
    requires a <= b
    ensures |a| <= |b|
    decreases |b|
  {
    if a != {} {
      var x :| x in a;
      SubsetCard(a - {x}, b - {x});
    }
  }

  /** The multi-select score is in 0..100 and is exactly the ticked fraction
      (the clamp never cuts it). */
  lemma ScaleMultiSpec(m: MultiOptions)
    ensures 0.0 <= ScaleMulti(m) <= 100.0
    ensures |m| == 0 ==> ScaleMulti(m) == 0.0
    ensures |m| > 0 ==> ScaleMulti(m) == |Ticked(m)| as real * 100.0 / |m| as real
  {
    TickedBound(m);
    if |m| > 0 {
      var t, n := |Ticked(m)| as real, |m| as real;
      var q := t / n;
      DivMonotone(0.0, t, n);
      DivMonotone(t, n, n);
      assert n / n == 1.0;
      assert q * 100.0 == t * 100.0 / n;
      ClampSpec(q * 100.0, 0.0, 100.0);
    }
  }

  /** Ticking one option (present or new) never lowers the multi-select score. */
  lemma ScaleMultiTickMonotone(m: MultiOptions, o: string)
    ensures ScaleMulti(m) <= ScaleMulti(m[o := true])
  {
    var m' := m[o := true];
    TickedBound(m);
    ScaleMultiSpec(m);
    ScaleMultiSpec(m');
    TickCounts(m, o);
    if |m| > 0 {
      var t, n := |Ticked(m)| as real, |m| as real;
      if |m'| == |m| {
        DivMonotone(t * 100.0, |Ticked(m')| as real * 100.0, n);
      } else {
        FractionGrows(t, n);
      }
    }
  }

  /** How the counts move when option `o` is ticked. */
  lemma TickCounts(m: MultiOptions, o: string)
    ensures o in m && m[o] ==> |Ticked(m[o := true])| == |Ticked(m)| && |m[o := true]| == |m|
    ensures o in m && !m[o] ==> |Ticked(m[o := true])| == |Ticked(m)| + 1 && |m[o := true]| == |m|
    ensures o !in m ==> |Ticked(m[o := true])| == |Ticked(m)| + 1 && |m[o := true]| == |m| + 1
  {
    TickedAdds(m, o);
    if o in m {
      assert m[o := true].Keys == m.Keys;
    } else {
      assert m[o := true].Keys == m.Keys + {o};
    }
  }

  lemma TickedAdds(m: MultiOptions, o: string)
    ensures Ticked(m[o := true]) == Ticked(m) + {o}
    ensures o in Ticked(m) <==> o in m && m[o]
  {
  }

  lemma DivMonotone(a: real, b: real, n: real)
    requires a <= b && n > 0.0
    ensures a / n <= b / n
  {
    assert b / n - a / n == (b - a) / n;
  }

  /** Scaling numerator and denominator by the same positive factor. */
  lemma ScaleFraction(x: real, d: real, k: real)
    requires d > 0.0 && k > 0.0
    ensures (x * k) / (d * k) == x / d
  {
  }

  /** (t+1)/(n+1) >= t/n when 0 <= t <= n and n > 0. */
  lemma FractionGrows(t: real, n: real)
    requires 0.0 <= t <= n && n > 0.0
    ensures (t + 1.0) * 100.0 / (n + 1.0) >= t * 100.0 / n
  {
    var a, b, m := (t + 1.0) * 100.0, t * 100.0, n + 1.0;
    var d := n * m;
    assert a * n - b * m == 100.0 * (n - t);
    ScaleFraction(a, m, n);
    ScaleFraction(b, n, m);
    assert m * n == d;
    DivMonotone(b * m, a * n, d);
  }
}
