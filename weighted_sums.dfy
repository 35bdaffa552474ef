/** Weighted sums and the weighted mean over an ordered list of variables,
    generic in the per-variable score, with their range and monotonicity
    properties. */
module WeightedSums {
  import opened ClassifierTypes
  import opened Scaling

  /** Sum of the weights of `vars`. */
  function SumWeights(vars: seq<Var>, vw: VarWeights): real {
    if vars == [] then 0.0 else SumWeights(vars[..|vars| - 1], vw) + vw(vars[|vars| - 1])
  }

  /** Sum of score times weight over `vars`, for a given per-variable score. */
  function SumWeighted(vars: seq<Var>, sc: Var -> real, vw: VarWeights): real {
    if vars == [] then 0.0
    else
      var k := vars[|vars| - 1];
      SumWeighted(vars[..|vars| - 1], sc, vw) + sc(k) * vw(k)
  }

  /** `Σ(s·w) / Σw` when `Σw > 0`, otherwise 0. */
  function WeightedMean(vars: seq<Var>, sc: Var -> real, vw: VarWeights): real {
    var tw := SumWeights(vars, vw);
    if tw > 0.0 then SumWeighted(vars, sc, vw) / tw else 0.0
  }

  /** One loop step: extending the prefix by the next variable, whose score
      is `x` and weight `w`, adds `w` to the weight sum and `x * w` to the
      weighted sum. */
  lemma SumsStep(vars: seq<Var>, i: nat, sc: Var -> real, vw: VarWeights, x: real, w: real)
    requires i < |vars| && x == sc(vars[i]) && w == vw(vars[i])
    ensures SumWeights(vars[..i + 1], vw) == SumWeights(vars[..i], vw) + w
    ensures SumWeighted(vars[..i + 1], sc, vw) == SumWeighted(vars[..i], sc, vw) + x * w
  {
    assert vars[..i + 1][..i] == vars[..i];
  }

  predicate NonNegVarWeights(vw: VarWeights) {
    forall k :: vw(k) >= 0.0
  }

  predicate ScoresBounded(sc: Var -> real) {
    forall k :: 0.0 <= sc(k) <= 100.0
  }

  /** The record kept per variable: its key, score, weight and product. */
  function ContributionOf(k: Var, sc: Var -> real, vw: VarWeights): Contribution {
    Contribution(k, sc(k), vw(k), sc(k) * vw(k))
  }

  lemma ContributionAt(k: Var, sc: Var -> real, vw: VarWeights, s: real, w: real)
    requires s == sc(k) && w == vw(k)
    ensures ContributionOf(k, sc, vw) == Contribution(k, s, w, s * w)
  {
  }

  /** One contribution per variable, in list order. */
  function Contributions(vars: seq<Var>, sc: Var -> real, vw: VarWeights): seq<Contribution> {
    seq(|vars|, i requires 0 <= i < |vars| => ContributionOf(vars[i], sc, vw))
  }

  /** With bounded scores, each contribution names its variable, in list
      order, has a score in 0..100 and is that score times the weight. */
  lemma ContributionsSpec(vars: seq<Var>, sc: Var -> real, vw: VarWeights)
    requires ScoresBounded(sc)
    ensures |Contributions(vars, sc, vw)| == |vars|
    ensures forall i :: 0 <= i < |vars| ==>
      var c := Contributions(vars, sc, vw)[i];
      && c.key == vars[i]
      && 0.0 <= c.score <= 100.0
      && c.weight == vw(vars[i])
      && c.contribution == c.score * c.weight
  {
  }

  lemma MulBounds(s: real, w: real)
    requires 0.0 <= s <= 100.0 && 0.0 <= w
    ensures 0.0 <= s * w <= 100.0 * w
  {
  }

  lemma {:induction false} SumWeightedBounds(vars: seq<Var>, sc: Var -> real, vw: VarWeights)
    requires ScoresBounded(sc) && NonNegVarWeights(vw)
    ensures 0.0 <= SumWeighted(vars, sc, vw) <= 100.0 * SumWeights(vars, vw)
    ensures 0.0 <= SumWeights(vars, vw)
  {
    if vars != [] {
      var pre, k := vars[..|vars| - 1], vars[|vars| - 1];
      SumWeightedBounds(pre, sc, vw);
      var x, w := sc(k), vw(k);
      MulBounds(x, w);
      AddBounds(SumWeighted(pre, sc, vw), SumWeights(pre, vw), x * w, w);
    }
  }

  /** The linear step of the bound: both sums grow by a term within bounds. */
  lemma AddBounds(a: real, tw: real, p: real, w: real)
    requires 0.0 <= a <= 100.0 * tw && 0.0 <= tw
    requires 0.0 <= p <= 100.0 * w && 0.0 <= w
    ensures 0.0 <= a + p <= 100.0 * (tw + w) && 0.0 <= tw + w
  {
  }

  /** With bounded scores and nonnegative weights the weighted mean lies in 0..100. */
  lemma WeightedMeanRange(vars: seq<Var>, sc: Var -> real, vw: VarWeights)
    requires ScoresBounded(sc) && NonNegVarWeights(vw)
    ensures 0.0 <= WeightedMean(vars, sc, vw) <= 100.0
  {
    SumWeightedBounds(vars, sc, vw);
    var tw := SumWeights(vars, vw);
    if tw > 0.0 {
      DivMonotone(SumWeighted(vars, sc, vw), 100.0 * tw, tw);
      DivMonotone(0.0, SumWeighted(vars, sc, vw), tw);
    }
  }

  lemma {:induction false} SumWeightedMonotone(vars: seq<Var>, sc1: Var -> real, sc2: Var -> real, vw: VarWeights)
    requires NonNegVarWeights(vw)
    requires forall k :: sc1(k) <= sc2(k)
    ensures SumWeighted(vars, sc1, vw) <= SumWeighted(vars, sc2, vw)
  {
    if vars != [] {
      var k := vars[|vars| - 1];
      SumWeightedMonotone(vars[..|vars| - 1], sc1, sc2, vw);
      MulMonotone(sc1(k), sc2(k), vw(k));
    }
  }

  /** The linear step of monotonicity: a larger running sum plus a larger
      score at the same nonnegative weight stays larger. */
  lemma StepMonotone(a1: real, a2: real, s1: real, s2: real, w: real)
    requires a1 <= a2 && s1 <= s2 && 0.0 <= w
    ensures a1 + s1 * w <= a2 + s2 * w
  {
    var p1, p2 := s1 * w, s2 * w;
    assert (s2 - s1) * w >= 0.0;
    assert p2 - p1 == (s2 - s1) * w;
    assert p1 <= p2;
  }

  lemma MulMonotone(a: real, b: real, w: real)
    requires a <= b && 0.0 <= w
    ensures a * w <= b * w
  {
  }


  /** The loop over a group's members: the running weight total, the running
      weighted sum, and one contribution pushed per member. */
  method SumMembers(vars: seq<Var>, sc: Var -> real, varW: VarWeights)
    returns (totalW: real, sum: real, contributions: seq<Contribution>)
    ensures totalW == SumWeights(vars, varW)
    ensures sum == SumWeighted(vars, sc, varW)
    ensures contributions == Contributions(vars, sc, varW)
  {
    totalW, sum := 0.0, 0.0;
    contributions := [];
    for i := 0 to |vars|
      invariant totalW == SumWeights(vars[..i], varW)
      invariant sum == SumWeighted(vars[..i], sc, varW)
      invariant |contributions| == i
      invariant forall j :: 0 <= j < i ==> contributions[j] == ContributionOf(vars[j], sc, varW)
    {
      var k := vars[i];
      var s := sc(k);
      var w := varW(k);
      SumsStep(vars, i, sc, varW, s, w);
      ContributionAt(k, sc, varW, s, w);
      totalW := totalW + w;
      sum := sum + s * w;
      contributions := contributions + [Contribution(k, s, w, s * w)];
    }
    assert vars[..|vars|] == vars;
  }
}
