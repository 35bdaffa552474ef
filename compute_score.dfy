/** The exported scoring service: the same variables, scalers and groups as
    the configurable engine, but every group member weighs `1/n`, every
    unlisted categorical value scores 50, "API" is not a listed platform,
    the group weights and tier bounds are fixed, and exactly three top
    contributors are reported. */
module ComputeScore {
  import opened ClassifierTypes
  import opened Scaling
  import opened Ranking
  import opened WeightedSums
  import OC = OnboardingClassifier

  // ---------- Option tables ----------

  /** The option table of each categorical field: the configurable engine's
      table, except that the platform table has no "API" entry. */
  function OptionTable(k: Var): map<string, real>
    requires IsCategorical(k)
  {
    if k.PlatformType? then OC.PlatformScores - {"API"} else OC.Table(k)
  }

  /** `table[value] ?? 50`. */
  function GetOptionScore(k: Var, value: string): real
    requires IsCategorical(k)
  {
    OC.Lookup(OptionTable(k), value, 50.0)
  }

  /** A listed value scores its entry, anything else exactly 50; "API" is not
      listed as a platform, and every score lies in 0..100. */
  lemma GetOptionScoreSpec(k: Var, value: string)
    requires IsCategorical(k)
    ensures value in OptionTable(k) ==> GetOptionScore(k, value) == OptionTable(k)[value]
    ensures value !in OptionTable(k) ==> GetOptionScore(k, value) == 50.0
    ensures 0.0 <= GetOptionScore(k, value) <= 100.0
  {
    OC.TablesInRange(k);
    OC.OperationalTablesInRange();
  }

  /** The platform "API" falls back to 50 here but scores 70 in the
      configurable engine. */
  lemma PlatformApiUnlisted()
    ensures "API" !in OptionTable(PlatformType)
    ensures GetOptionScore(PlatformType, "API") == 50.0
    ensures "API" in OC.Table(PlatformType) && OC.Table(PlatformType)["API"] == 70.0
  {
  }

  // ---------- Variable scores ----------

  /** The multi-select fraction of an optional option map; a missing map
      counts as empty. */
  function ScaleMultiOpt(o: Option<MultiOptions>): real {
    match o
    case None => 0.0
    case Some(m) => ScaleMulti(m)
  }

  lemma ScaleMultiOptSpec(o: Option<MultiOptions>)
    ensures o.None? ==> ScaleMultiOpt(o) == 0.0
    ensures o.Some? && |o.value| == 0 ==> ScaleMultiOpt(o) == 0.0
    ensures 0.0 <= ScaleMultiOpt(o) <= 100.0
  {
    if o.Some? {
      ScaleMultiSpec(o.value);
    }
  }

  /** The scaler of each numeric field. */
  function NumericScale(k: Var, x: real): real
    requires IsNumeric(k)
  {
    match k
    case SkuCount => ScaleSkuCount(x)
    case OrderVolume => ScaleOrderVolume(x)
    case OrderPeak => ScaleOrderPeak(x)
    case RetourPercentage => ScaleRetourPct(x)
    case AantalAfdelingen => ScaleAfdelingen(x)
  }

  /** Normalised 0..100 score of one variable (the service's `switch`). */
  function ScoreVariable(k: Var, inp: ClassifierInput): real {
    if IsNumeric(k) then NumericScale(k, Get(inp, k).n)
    else if IsMulti(k) then
      var f := ScaleMultiOpt(Some(Get(inp, k).m));
      if k.PostnlApis? then Clamp100(100.0 - f) else f
    else GetOptionScore(k, Get(inp, k).s)
  }

  /** Every variable score lies in 0..100. */
  lemma ScoreVariableRange(k: Var, inp: ClassifierInput)
    ensures 0.0 <= ScoreVariable(k, inp) <= 100.0
  {
    if IsNumeric(k) {
      var x := Get(inp, k).n;
      NumericScalersSpec(x, x);
    } else if IsMulti(k) {
      ScaleMultiOptSpec(Some(Get(inp, k).m));
    } else {
      GetOptionScoreSpec(k, Get(inp, k).s);
    }
  }

  /** The two engines score numeric and multi-select fields identically, and
      a categorical value identically whenever both tables list it. */
  lemma AgreesWithConfigurable(k: Var, inp: ClassifierInput)
    ensures !IsCategorical(k) ==> ScoreVariable(k, inp) == OC.VariableScore(k, inp)
    ensures IsCategorical(k) && Get(inp, k).s in OptionTable(k) ==>
      ScoreVariable(k, inp) == OC.VariableScore(k, inp)
  {
    if IsNumeric(k) {
      NumericAgrees(k, inp);
    } else if IsMulti(k) {
      OC.MultiScore(k, inp);
    } else {
      OC.CategoricalScore(k, inp);
      GetOptionScoreSpec(k, Get(inp, k).s);
    }
  }

  lemma NumericAgrees(k: Var, inp: ClassifierInput)
    requires IsNumeric(k)
    ensures ScoreVariable(k, inp) == OC.VariableScore(k, inp)
  {
    match k
    case SkuCount =>
    case OrderVolume =>
    case OrderPeak =>
    case RetourPercentage =>
    case AantalAfdelingen =>
  }

  // ---------- Groups: equal weights ----------

  /** The variable scores of one input, as a function of the variable. */
  function Scores(inp: ClassifierInput): Var -> real {
    k => ScoreVariable(k, inp)
  }

  lemma ScoresAt(inp: ClassifierInput, k: Var)
    ensures Scores(inp)(k) == ScoreVariable(k, inp)
  {
  }

  lemma ScoresInRange(inp: ClassifierInput)
    ensures ScoresBounded(Scores(inp))
  {
    forall k ensures 0.0 <= Scores(inp)(k) <= 100.0 {
      ScoreVariableRange(k, inp);
    }
  }

  /** `1 / variables.length`: every member of the group weighs the same. */
  function EqualWeight(g: Group): real {
    1.0 / |OC.GroupVars(g)| as real
  }

  function EqualWeights(g: Group): VarWeights {
    k => EqualWeight(g)
  }

  lemma EqualWeightsAt(g: Group, k: Var)
    ensures EqualWeights(g)(k) == 1.0 / |OC.GroupVars(g)| as real
  {
  }

  /** The group's score: the running total of score times `1/n`. */
  function GroupScore(g: Group, inp: ClassifierInput): real {
    SumWeighted(OC.GroupVars(g), Scores(inp), EqualWeights(g))
  }

  /** One contribution per member in list order, and their running total. */
  method ComputeGroupScore(group: Group, input: ClassifierInput)
    returns (score: real, contributions: seq<Contribution>)
    ensures contributions == Contributions(OC.GroupVars(group), Scores(input), EqualWeights(group))
    ensures score == GroupScore(group, input)
  {
    var variables := OC.GroupVars(group);
    assert |variables| > 0;
    var weight := 1.0 / |variables| as real;
    forall k ensures EqualWeights(group)(k) == weight {
      EqualWeightsAt(group, k);
    }
    score, contributions := SumEqualWeights(variables, input, weight, EqualWeights(group));
  }

  /** The `forEach` over the members: each contributes its score times the
      common weight. */
  method SumEqualWeights(variables: seq<Var>, input: ClassifierInput, weight: real, ghost vw: VarWeights)
    returns (total: real, contributions: seq<Contribution>)
    requires forall k :: vw(k) == weight
    ensures contributions == Contributions(variables, Scores(input), vw)
    ensures total == SumWeighted(variables, Scores(input), vw)
  {
    ghost var sc := Scores(input);
    total := 0.0;
    contributions := [];
    for i := 0 to |variables|
      invariant total == SumWeighted(variables[..i], sc, vw)
      invariant |contributions| == i
      invariant forall j :: 0 <= j < i ==> contributions[j] == ContributionOf(variables[j], sc, vw)
    {
      var variable := variables[i];
      var s := ScoreVariable(variable, input);
      var contribution := s * weight;
      ScoresAt(input, variable);
      SumsStep(variables, i, sc, vw, s, weight);
      ContributionAt(variable, sc, vw, s, weight);
      total := total + contribution;
      contributions := contributions + [Contribution(variable, s, weight, contribution)];
    }
    assert variables[..|variables|] == variables;
  }

  /** Sum of the member scores. */
  function SumScores(vars: seq<Var>, sc: Var -> real): real {
    if vars == [] then 0.0 else SumScores(vars[..|vars| - 1], sc) + sc(vars[|vars| - 1])
  }

  /** With one weight `w` for every member, the weighted sum is `w` times
      the plain sum and the weights add up to `w` times the count. */
  lemma {:induction false} ConstantWeights(vars: seq<Var>, sc: Var -> real, vw: VarWeights, w: real)
    requires forall k :: vw(k) == w
    ensures SumWeighted(vars, sc, vw) == w * SumScores(vars, sc)
    ensures SumWeights(vars, vw) == w * |vars| as real
  {
    if vars != [] {
      var pre, k := vars[..|vars| - 1], vars[|vars| - 1];
      ConstantWeights(pre, sc, vw, w);
      var x, a, b := sc(k), SumScores(pre, sc), |pre| as real;
      assert vw(k) == w;
      Distribute(w, a, x, b);
    }
  }

  lemma Distribute(w: real, a: real, x: real, b: real)
    ensures w * a + x * w == w * (a + x)
    ensures w * b + w == w * (b + 1.0)
  {
  }

  /** Weights `1/n` over `n` members: the weighted sum is the arithmetic
      mean, the weights sum to 1, so it equals the normalised mean. */
  lemma EqualWeightsMean(vars: seq<Var>, sc: Var -> real, vw: VarWeights, w: real)
    requires |vars| > 0 && w == 1.0 / |vars| as real
    requires forall k :: vw(k) == w
    ensures SumWeighted(vars, sc, vw) == SumScores(vars, sc) / |vars| as real
    ensures SumWeights(vars, vw) == 1.0
    ensures SumWeighted(vars, sc, vw) == WeightedMean(vars, sc, vw)
  {
    ConstantWeights(vars, sc, vw, w);
    Reciprocal(|vars| as real, w, SumScores(vars, sc));
  }

  lemma Reciprocal(n: real, w: real, s: real)
    requires n > 0.0 && w == 1.0 / n
    ensures w * n == 1.0 && w * s == s / n && w > 0.0
  {
  }

  /** The group score is the arithmetic mean of the member scores, hence the
      (normalised) weighted mean with equal weights. */
  lemma GroupScoreIsMean(g: Group, inp: ClassifierInput)
    ensures GroupScore(g, inp) == SumScores(OC.GroupVars(g), Scores(inp)) / |OC.GroupVars(g)| as real
    ensures GroupScore(g, inp) == WeightedMean(OC.GroupVars(g), Scores(inp), EqualWeights(g))
  {
    var vars, sc, vw := OC.GroupVars(g), Scores(inp), EqualWeights(g);
    var w := EqualWeight(g);
    assert |vars| > 0;
    forall k ensures vw(k) == w {
      EqualWeightsAt(g, k);
    }
    EqualWeightsMean(vars, sc, vw, w);
  }

  /** Every group score lies in 0..100. */
  lemma GroupScoreRange(g: Group, inp: ClassifierInput)
    ensures 0.0 <= GroupScore(g, inp) <= 100.0
  {
    var vars, sc, vw := OC.GroupVars(g), Scores(inp), EqualWeights(g);
    var w := EqualWeight(g);
    assert |vars| > 0;
    Reciprocal(|vars| as real, w, 0.0);
    GroupScoreIsMean(g, inp);
    ScoresInRange(inp);
    forall k ensures vw(k) >= 0.0 {
      EqualWeightsAt(g, k);
    }
    WeightedMeanRange(vars, sc, vw);
  }

  // ---------- Fixed group weights and total ----------

  function GroupWeight(g: Group): real {
    match g
    case Operationeel => 0.25
    case Technisch => 0.15
    case Configuratie => 0.15
    case Organisatie => 0.14
    case Processen => 0.11
    case Rapportage => 0.1
    case Contract => 0.1
  }

  /** The fixed group weights add up to exactly 1, and they are the
      configurable engine's defaults (which therefore raise no warning). */
  lemma GroupWeightsSumToOne()
    ensures OC.WeightSum(Groups, GroupWeight) == 1.0
    ensures forall g :: GroupWeight(g) == OC.DefaultGroupWeight(g)
    ensures !OC.GroupWarning(OC.DefaultGroupWeight)
  {
    var gs: seq<Group> := [];
    for i := 0 to |Groups|
      invariant gs == Groups[..i]
      invariant OC.WeightSum(gs, GroupWeight) == [0.0, 0.25, 0.4, 0.55, 0.69, 0.8, 0.9, 1.0][i]
      invariant OC.WeightSum(gs, OC.DefaultGroupWeight) == OC.WeightSum(gs, GroupWeight)
    {
      assert (gs + [Groups[i]])[..i] == gs;
      gs := gs + [Groups[i]];
    }
    assert gs == Groups;
    forall g ensures GroupWeight(g) == OC.DefaultGroupWeight(g) { }
  }

  function EntryOf(g: Group, inp: ClassifierInput): OC.GroupEntry {
    OC.GroupEntry(g, GroupScore(g, inp), Contributions(OC.GroupVars(g), Scores(inp), EqualWeights(g)))
  }

  /** The group computations, in group enumeration order. */
  function Entries(inp: ClassifierInput): seq<OC.GroupEntry> {
    seq(|Groups|, i requires 0 <= i < |Groups| => EntryOf(Groups[i], inp))
  }

  /** `Σ group.score · GROUP_WEIGHTS[group]`, not clamped. */
  function TotalScore(inp: ClassifierInput): real {
    OC.Total(Entries(inp), GroupWeight)
  }

  /** Since the group scores lie in 0..100 and the weights sum to 1, so does
      the total. */
  lemma TotalScoreRange(inp: ClassifierInput)
    ensures 0.0 <= TotalScore(inp) <= 100.0
  {
    var es := Entries(inp);
    forall i | 0 <= i < |es|
      ensures 0.0 <= es[i].score <= 100.0
    {
      GroupScoreRange(Groups[i], inp);
    }
    forall g ensures GroupWeight(g) >= 0.0 { }
    OC.TotalBounds(es, GroupWeight);
    OC.KeyWeightSumOfEntries(es, Groups, GroupWeight);
    GroupWeightsSumToOne();
  }

  // ---------- Classification ----------

  /** Clamp, then the fixed inclusive cascade 20/35/50/65/80. */
  function Classify(value: real): Classification {
    var score := Clamp100(value);
    if score <= 20.0 then TierClassification(A1)
    else if score <= 35.0 then TierClassification(A2)
    else if score <= 50.0 then TierClassification(A3)
    else if score <= 65.0 then TierClassification(B1)
    else if score <= 80.0 then TierClassification(B2)
    else TierClassification(C1)
  }

  /** The fixed cascade is the configurable one at its default thresholds,
      whatever the (unused) C1 bound. */
  lemma ClassifyIsDefault(value: real, c: real)
    ensures Classify(value) == OC.Classify(value, OC.DefaultThresholds.(C1 := c))
  {
  }

  /** The boundaries are inclusive: 20 is A1, just above 20 is A2, 80 is B2,
      anything above 80 is C1, and out-of-range inputs are clamped first. */
  lemma ClassifyBoundaries(value: real)
    ensures Classify(20.0).code == A1
    ensures Classify(20.0001).code == A2
    ensures Classify(80.0).code == B2
    ensures value > 80.0 ==> Classify(value).code == C1
    ensures value < 0.0 ==> Classify(value).code == A1
  {
  }

  // ---------- Result ----------

  /** `GROUP_TITLES`: the display title of each group. */
  function GroupTitle(g: Group): string {
    match g
    case Operationeel => "Operationeel"
    case Technisch => "Technisch"
    case Configuratie => "Configuratie"
    case Organisatie => "Organisatie"
    case Processen => "Processen"
    case Rapportage => "Rapportage"
    case Contract => "Contract"
  }

  function AllContributions(inp: ClassifierInput): seq<Ranked> {
    OC.Flatten(Entries(inp), GroupWeight)
  }

  function ToGroupOut(e: OC.GroupEntry): GroupScoreOut {
    GroupScoreOut(e.key, GroupTitle(e.key), e.score, Clamp100(e.score))
  }

  /** The result record. The total is reported unclamped, but because the
      group scores lie in 0..100 and the fixed group weights sum to 1 it
      already lies in 0..100, so its progress value equals it; likewise each
      group's progress equals its score. The top contributors are the three
      largest contributions in ranked order (see `TopContributorsSpec`), and the tier is the fixed cascade applied to the total, with
      its lead time, colour and the label "code — lead". */
  function ComputeScore(inp: ClassifierInput): (r: ClassifierResult)
    ensures r.totalScore == TotalScore(inp)
    ensures 0.0 <= r.totalScore <= 100.0 && r.totalScoreProgress == r.totalScore
    ensures r.classification.code == Classify(r.totalScore).code
    ensures r.classification.lead == TierLead(r.classification.code)
    ensures r.classification.color == TierColor(r.classification.code)
    ensures r.classification.labelText == TierCode(r.classification.code) + " \U{2014} " + r.classification.lead
    ensures |r.topContributors| == |Top3(AllContributions(inp))| == 3
    ensures forall i :: 0 <= i < |r.topContributors| ==> r.topContributors[i] == OC.ToTop(Top3(AllContributions(inp))[i])
    ensures |r.groupScores| == |Groups|
    ensures forall i :: 0 <= i < |Groups| ==>
      && r.groupScores[i].key == Groups[i]
      && r.groupScores[i].title == GroupTitle(Groups[i])
      && r.groupScores[i].score == GroupScore(Groups[i], inp)
      && r.groupScores[i].progress == r.groupScores[i].score
  {
    var es := Entries(inp);
    var total := OC.Total(es, GroupWeight);
    var top := Top3(OC.Flatten(es, GroupWeight));
    TopContributorsSpec(inp);
    TotalScoreRange(inp);
    ClampSpec(total, 0.0, 100.0);
    ClampRange(inp);
    ClassifierResult(
      total,
      Clamp100(total),
      OC.ToOut(Classify(total)),
      seq(|top|, i requires 0 <= i < |top| => OC.ToTop(top[i])),
      seq(|es|, i requires 0 <= i < |es| => ToGroupOut(es[i])))
  }

  lemma ClampRange(inp: ClassifierInput)
    ensures forall i :: 0 <= i < |Groups| ==> Clamp100(Entries(inp)[i].score) == Entries(inp)[i].score
  {
    forall i | 0 <= i < |Groups| ensures Clamp100(Entries(inp)[i].score) == Entries(inp)[i].score {
      var x := Entries(inp)[i].score;
      GroupScoreRange(Groups[i], inp);
      ClampSpec(x, 0.0, 100.0);
    }
  }

  /** There are 24 contributions, so exactly three are reported, ordered by
      non-increasing magnitude, none smaller than any left out; each
      magnitude is `|contribution · groupWeight|`. */
  lemma TopContributorsSpec(inp: ClassifierInput)
    ensures |AllContributions(inp)| == 24
    ensures |Top3(AllContributions(inp))| == 3
    ensures SortedDesc(Top3(AllContributions(inp)))
    ensures forall x | x in multiset(AllContributions(inp)) - multiset(Top3(AllContributions(inp))) ::
      x.magnitude <= Top3(AllContributions(inp))[2].magnitude
  {
    OC.FlattenLength(Entries(inp), GroupWeight, Groups);
    OC.GroupVarsCount();
    Top3Spec(AllContributions(inp));
    Top3Omitted(AllContributions(inp));
  }
}
