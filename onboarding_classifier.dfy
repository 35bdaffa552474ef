/** The configurable scoring engine the app renders: per-variable scores,
    the weighted in-group average with user variable weights, the
    group-weighted total, the threshold cascade and the top-3 ranking. */
module OnboardingClassifier {
  import opened ClassifierTypes
  import opened Scaling
  import opened Ranking
  import opened WeightedSums
  import opened UniqueLists

  // ---------- Category tables (value -> score) ----------

  const SkuComplexityScores: map<string, real> := map["standaard" := 10.0, "varianten" := 50.0, "bundels" := 80.0]
  const SeizoenScores: map<string, real> := map["laag" := 10.0, "medium" := 45.0, "hoog" := 80.0]
  const PlatformScores: map<string, real> :=
    map["Shopify" := 20.0, "Magento" := 60.0, "WooCommerce" := 40.0, "Lightspeed" := 25.0, "Bol.com" := 50.0, "API" := 70.0]
  const KoppelingScores: map<string, real> := map["API" := 70.0, "SFTP" := 40.0, "plugin" := 30.0, "handmatig" := 80.0]
  const ConfigDoorScores: map<string, real> := map["klant" := 60.0, "postnl" := 30.0, "hybride" := 50.0]
  const MaatwerkScores: map<string, real> := map["geen" := 10.0, "licht" := 45.0, "zwaar" := 85.0]
  const MappingScores: map<string, real> := map["standaard" := 20.0, "custom" := 60.0, "dynamisch" := 80.0]
  const TestCapScores: map<string, real> := map["laag" := 80.0, "gemiddeld" := 45.0, "hoog" := 20.0]
  const VoorraadScores: map<string, real> := map["realtime" := 30.0, "batch" := 55.0, "handmatig" := 85.0]
  const ReplScores: map<string, real> := map["geautomatiseerd" := 30.0, "periodiek" := 55.0, "handmatig" := 80.0]
  const VerzendScores: map<string, real> := map["standaard" := 25.0, "maatwerk" := 65.0, "externe" := 75.0]
  const RetourProcScores: map<string, real> := map["portaal" := 35.0, "handmatig" := 75.0]
  const DashUseScores: map<string, real> := map["dagelijks" := 20.0, "wekelijks" := 45.0, "zelden" := 70.0]
  const RapportScores: map<string, real> := map["standaard" := 30.0, "uitgebreid" := 55.0, "maatwerk" := 80.0]
  const ServiceExpScores: map<string, real> := map["nee" := 30.0, "ja" := 75.0]
  const ScopeScores: map<string, real> := map["weinig" := 30.0, "gemiddeld" := 55.0, "veel" := 80.0]

  /** `table[value] ?? fallback` over the table's own keys. */
  function Lookup(table: map<string, real>, value: string, fallback: real): real {
    if value in table then table[value] else fallback
  }

  /** Normalised 0..100 score of one variable (the source's `switch`). */
  function VariableScore(k: Var, v: ClassifierInput): real {
    match k
    case SkuCount => ScaleSkuCount(v.skuCount)
    case OrderVolume => ScaleOrderVolume(v.orderVolume)
    case OrderPeak => ScaleOrderPeak(v.orderPeak)
    case RetourPercentage => ScaleRetourPct(v.retourPercentage)
    case AantalAfdelingen => ScaleAfdelingen(v.aantalAfdelingen)
    case SkuComplexity => Lookup(SkuComplexityScores, v.skuComplexity, 40.0)
    case Seizoensinvloed => Lookup(SeizoenScores, v.seizoensinvloed, 45.0)
    case PlatformType => Lookup(PlatformScores, v.platformType, 50.0)
    case TypeKoppeling => Lookup(KoppelingScores, v.typeKoppeling, 50.0)
    case ConfigDoor => Lookup(ConfigDoorScores, v.configDoor, 50.0)
    case MateMaatwerk => Lookup(MaatwerkScores, v.mateMaatwerk, 50.0)
    case MappingComplexiteit => Lookup(MappingScores, v.mappingComplexiteit, 50.0)
    case TestCapaciteit => Lookup(TestCapScores, v.testCapaciteit, 50.0)
    case VoorraadBeheer => Lookup(VoorraadScores, v.voorraadBeheer, 50.0)
    case Replenishment => Lookup(ReplScores, v.replenishment, 50.0)
    case VerzendMethoden => Lookup(VerzendScores, v.verzendMethoden, 50.0)
    case RetourProces => Lookup(RetourProcScores, v.retourProces, 55.0)
    case DashboardGebruik => Lookup(DashUseScores, v.dashboardGebruik, 45.0)
    case RapportageBehoefte => Lookup(RapportScores, v.rapportageBehoefte, 55.0)
    case ServiceUitbreiding => Lookup(ServiceExpScores, v.serviceUitbreiding, 30.0)
    case VasActiviteiten => ScaleMulti(v.vasActiviteiten)
    case InboundBijzonderheden => ScaleMulti(v.inboundBijzonderheden)
    case PostnlApis => Clamp100(100.0 - ScaleMulti(v.postnlApis))
    case ScopeWijzigingen => Lookup(ScopeScores, v.scopeWijzigingen, 55.0)
  }

  /** The category table each categorical field is looked up in. */
  function Table(k: Var): map<string, real>
    requires IsCategorical(k)
  {
    match k
    case SkuComplexity => SkuComplexityScores
    case Seizoensinvloed => SeizoenScores
    case PlatformType => PlatformScores
    case TypeKoppeling => KoppelingScores
    case ConfigDoor => ConfigDoorScores
    case MateMaatwerk => MaatwerkScores
    case MappingComplexiteit => MappingScores
    case TestCapaciteit => TestCapScores
    case VoorraadBeheer => VoorraadScores
    case Replenishment => ReplScores
    case VerzendMethoden => VerzendScores
    case RetourProces => RetourProcScores
    case DashboardGebruik => DashUseScores
    case RapportageBehoefte => RapportScores
    case ServiceUitbreiding => ServiceExpScores
    case ScopeWijzigingen => ScopeScores
    case _ => map[]
  }

  /** The documented score of an unrecognised value, per field. */
  function Fallback(k: Var): real
    requires IsCategorical(k)
  {
    if k == SkuComplexity then 40.0
    else if k in {Seizoensinvloed, DashboardGebruik} then 45.0
    else if k in {RetourProces, RapportageBehoefte, ScopeWijzigingen} then 55.0
    else if k == ServiceUitbreiding then 30.0
    else 50.0
  }

  /** A categorical field scores its table entry when the value is listed and
      that field's own fallback otherwise. */
  lemma CategoricalScore(k: Var, v: ClassifierInput)
    requires IsCategorical(k)
    ensures Get(v, k).s in Table(k) ==> VariableScore(k, v) == Table(k)[Get(v, k).s]
    ensures Get(v, k).s !in Table(k) ==> VariableScore(k, v) == Fallback(k)
  {
    match k
    case SkuComplexity | Seizoensinvloed | PlatformType | TypeKoppeling => CategoricalScore1(k, v);
    case ConfigDoor | MateMaatwerk | MappingComplexiteit | TestCapaciteit => CategoricalScore2(k, v);
    case VoorraadBeheer | Replenishment | VerzendMethoden | RetourProces => CategoricalScore3(k, v);
    case DashboardGebruik | RapportageBehoefte | ServiceUitbreiding | ScopeWijzigingen => CategoricalScore4(k, v);
  }

  lemma CategoricalScore1(k: Var, v: ClassifierInput)
    requires k.SkuComplexity? || k.Seizoensinvloed? || k.PlatformType? || k.TypeKoppeling?
    ensures Get(v, k).s in Table(k) ==> VariableScore(k, v) == Table(k)[Get(v, k).s]
    ensures Get(v, k).s !in Table(k) ==> VariableScore(k, v) == Fallback(k)
  {
  }

  lemma CategoricalScore2(k: Var, v: ClassifierInput)
    requires k.ConfigDoor? || k.MateMaatwerk? || k.MappingComplexiteit? || k.TestCapaciteit?
    ensures Get(v, k).s in Table(k) ==> VariableScore(k, v) == Table(k)[Get(v, k).s]
    ensures Get(v, k).s !in Table(k) ==> VariableScore(k, v) == Fallback(k)
  {
  }

  lemma CategoricalScore3(k: Var, v: ClassifierInput)
    requires k.VoorraadBeheer? || k.Replenishment? || k.VerzendMethoden? || k.RetourProces?
    ensures Get(v, k).s in Table(k) ==> VariableScore(k, v) == Table(k)[Get(v, k).s]
    ensures Get(v, k).s !in Table(k) ==> VariableScore(k, v) == Fallback(k)
  {
  }

  lemma CategoricalScore4(k: Var, v: ClassifierInput)
    requires k.DashboardGebruik? || k.RapportageBehoefte? || k.ServiceUitbreiding? || k.ScopeWijzigingen?
    ensures Get(v, k).s in Table(k) ==> VariableScore(k, v) == Table(k)[Get(v, k).s]
    ensures Get(v, k).s !in Table(k) ==> VariableScore(k, v) == Fallback(k)
  {
  }

  /** An unknown platform scores exactly 50; "API" is a listed platform here. */
  lemma PlatformExamples(v: ClassifierInput)
    ensures v.platformType == "UnknownPlatform" ==> VariableScore(PlatformType, v) == 50.0
    ensures v.platformType == "API" ==> VariableScore(PlatformType, v) == 70.0
  {
    assert "UnknownPlatform" !in PlatformScores;
  }

  predicate ScoresInRange(t: map<string, real>) {
    forall v | v in t :: 0.0 <= t[v] <= 100.0
  }

  lemma OperationalTablesInRange()
    ensures ScoresInRange(SkuComplexityScores) && ScoresInRange(SeizoenScores)
    ensures ScoresInRange(PlatformScores) && ScoresInRange(KoppelingScores)
  {
  }

  lemma ConfigTablesInRange()
    ensures ScoresInRange(ConfigDoorScores) && ScoresInRange(MaatwerkScores)
    ensures ScoresInRange(MappingScores) && ScoresInRange(TestCapScores)
  {
  }

  lemma ProcessTablesInRange()
    ensures ScoresInRange(VoorraadScores) && ScoresInRange(ReplScores)
    ensures ScoresInRange(VerzendScores) && ScoresInRange(RetourProcScores)
  {
  }

  lemma ReportTablesInRange()
    ensures ScoresInRange(DashUseScores) && ScoresInRange(RapportScores)
    ensures ScoresInRange(ServiceExpScores) && ScoresInRange(ScopeScores)
  {
  }

  /** Every table entry and every fallback lies in 0..100. */
  lemma TablesInRange(k: Var)
    requires IsCategorical(k)
    ensures 0.0 <= Fallback(k) <= 100.0
    ensures ScoresInRange(Table(k))
  {
    OperationalTablesInRange();
    ConfigTablesInRange();
    ProcessTablesInRange();
    ReportTablesInRange();
  }

  /** Every variable score lies in 0..100. */
  lemma VariableScoreRange(k: Var, v: ClassifierInput)
    ensures 0.0 <= VariableScore(k, v) <= 100.0
  {
    if IsNumeric(k) {
      NumericScoreRange(k, v);
    } else if IsMulti(k) {
      MultiScoreRange(k, v);
    } else {
      CategoricalScoreRange(k, v);
    }
  }

  lemma MultiScoreRange(k: Var, v: ClassifierInput)
    requires IsMulti(k)
    ensures 0.0 <= VariableScore(k, v) <= 100.0
  {
    MultiScore(k, v);
    ScaleMultiSpec(Get(v, k).m);
  }

  lemma CategoricalScoreRange(k: Var, v: ClassifierInput)
    requires IsCategorical(k)
    ensures 0.0 <= VariableScore(k, v) <= 100.0
  {
    TablesInRange(k);
    CategoricalScore(k, v);
  }

  lemma NumericScoreRange(k: Var, v: ClassifierInput)
    requires IsNumeric(k)
    ensures 0.0 <= VariableScore(k, v) <= 100.0
  {
    var x := Get(v, k).n;
    NumericScalersSpec(x, x);
    match k
    case SkuCount => assert VariableScore(k, v) == ScaleSkuCount(x);
    case OrderVolume => assert VariableScore(k, v) == ScaleOrderVolume(x);
    case OrderPeak => assert VariableScore(k, v) == ScaleOrderPeak(x);
    case RetourPercentage => assert VariableScore(k, v) == ScaleRetourPct(x);
    case AantalAfdelingen => assert VariableScore(k, v) == ScaleAfdelingen(x);
  }

  /** A multi-select field scores its ticked fraction; the PostNL API field
      is inverted, scoring 100 minus that fraction. */
  lemma MultiScore(k: Var, v: ClassifierInput)
    requires IsMulti(k)
    ensures k.PostnlApis? ==> VariableScore(k, v) == Clamp100(100.0 - ScaleMulti(Get(v, k).m))
    ensures !k.PostnlApis? ==> VariableScore(k, v) == ScaleMulti(Get(v, k).m)
  {
  }

  /** Ticking a PostNL API never raises its score: the inverted variable. */
  lemma PostnlTickLowers(v: ClassifierInput, o: string)
    ensures VariableScore(PostnlApis, v.(postnlApis := v.postnlApis[o := true])) <= VariableScore(PostnlApis, v)
  {
    var m, m' := v.postnlApis, v.postnlApis[o := true];
    PostnlScore(v);
    PostnlScore(v.(postnlApis := m'));
    ScaleMultiTickMonotone(m, o);
    ClampMonotone(100.0 - ScaleMulti(m'), 100.0 - ScaleMulti(m), 0.0, 100.0);
  }

  lemma PostnlScore(v: ClassifierInput)
    ensures VariableScore(PostnlApis, v) == Clamp100(100.0 - ScaleMulti(v.postnlApis))
  {
  }

  /** Ticking a VAS activity never lowers its score. */
  lemma VasTickRaises(v: ClassifierInput, o: string)
    ensures VariableScore(VasActiviteiten, v) <= VariableScore(VasActiviteiten, v.(vasActiviteiten := v.vasActiviteiten[o := true]))
  {
    MultiScore(VasActiviteiten, v);
    assert Get(v, VasActiviteiten).m == v.vasActiviteiten;
    VasScoreAfter(v, v.vasActiviteiten[o := true]);
    ScaleMultiTickMonotone(v.vasActiviteiten, o);
  }

  lemma VasScoreAfter(v: ClassifierInput, m: MultiOptions)
    ensures VariableScore(VasActiviteiten, v.(vasActiviteiten := m)) == ScaleMulti(m)
  {
    var v' := v.(vasActiviteiten := m);
    MultiScore(VasActiviteiten, v');
    assert Get(v', VasActiviteiten).m == m;
  }

  /** Ticking an inbound particularity never lowers its score. */
  lemma InboundTickRaises(v: ClassifierInput, o: string)
    ensures VariableScore(InboundBijzonderheden, v)
         <= VariableScore(InboundBijzonderheden, v.(inboundBijzonderheden := v.inboundBijzonderheden[o := true]))
  {
    MultiScore(InboundBijzonderheden, v);
    assert Get(v, InboundBijzonderheden).m == v.inboundBijzonderheden;
    InboundScoreAfter(v, v.inboundBijzonderheden[o := true]);
    ScaleMultiTickMonotone(v.inboundBijzonderheden, o);
  }

  lemma InboundScoreAfter(v: ClassifierInput, m: MultiOptions)
    ensures VariableScore(InboundBijzonderheden, v.(inboundBijzonderheden := m)) == ScaleMulti(m)
  {
    var v' := v.(inboundBijzonderheden := m);
    MultiScore(InboundBijzonderheden, v');
    assert Get(v', InboundBijzonderheden).m == m;
  }

  // ---------- Group membership ----------

  /** The fixed, ordered member list of each group. */
  function GroupVars(g: Group): seq<Var> {
    match g
    case Operationeel =>
      [SkuCount, OrderVolume, OrderPeak, RetourPercentage, SkuComplexity, Seizoensinvloed, VasActiviteiten, InboundBijzonderheden]
    case Technisch => [PlatformType, TypeKoppeling, PostnlApis]
    case Configuratie => [ConfigDoor, MateMaatwerk, MappingComplexiteit, TestCapaciteit]
    case Organisatie => [AantalAfdelingen, ScopeWijzigingen]
    case Processen => [VoorraadBeheer, Replenishment, VerzendMethoden, RetourProces]
    case Rapportage => [DashboardGebruik, RapportageBehoefte]
    case Contract => [ServiceUitbreiding]
  }

  /** Reference assignment of each variable to its group. */
  function GroupOf(k: Var): Group {
    match k
    case SkuCount | OrderVolume | OrderPeak | RetourPercentage | SkuComplexity
       | Seizoensinvloed | VasActiviteiten | InboundBijzonderheden => Operationeel
    case PlatformType | TypeKoppeling | PostnlApis => Technisch
    case ConfigDoor | MateMaatwerk | MappingComplexiteit | TestCapaciteit => Configuratie
    case AantalAfdelingen | ScopeWijzigingen => Organisatie
    case VoorraadBeheer | Replenishment | VerzendMethoden | RetourProces => Processen
    case DashboardGebruik | RapportageBehoefte => Rapportage
    case ServiceUitbreiding => Contract
  }

  /** The membership lists partition the 24 variables: each variable is in
      exactly one group's list, once. */
  lemma GroupVarsPartition(k: Var, g: Group)
    ensures k in GroupVars(g) <==> g == GroupOf(k)
    ensures NoDuplicates(GroupVars(g))
  {
    GroupVarsMembership(k, g);
    GroupVarsDistinct(g);
  }

  lemma GroupVarsMembership(k: Var, g: Group)
    ensures k in GroupVars(g) <==> g == GroupOf(k)
  {
  }

  lemma GroupVarsDistinct(g: Group)
    ensures NoDuplicates(GroupVars(g))
  {
  }

  /** There are 24 variables across the seven groups. */
  lemma GroupVarsCount()
    ensures MemberCount(Groups) == 24
  {
    var p1 := [Operationeel];
    MemberCountSnoc([], Operationeel);
    assert [] + p1 == p1;
    var p2 := p1 + [Technisch];
    MemberCountSnoc(p1, Technisch);
    var p3 := p2 + [Configuratie];
    MemberCountSnoc(p2, Configuratie);
    var p4 := p3 + [Organisatie];
    MemberCountSnoc(p3, Organisatie);
    var p5 := p4 + [Processen];
    MemberCountSnoc(p4, Processen);
    var p6 := p5 + [Rapportage];
    MemberCountSnoc(p5, Rapportage);
    var p7 := p6 + [Contract];
    MemberCountSnoc(p6, Contract);
    assert p7 == Groups;
  }

  lemma MemberCountSnoc(gs: seq<Group>, g: Group)
    ensures MemberCount(gs + [g]) == MemberCount(gs) + |GroupVars(g)|
  {
    assert (gs + [g])[..|gs|] == gs;
  }

  function MemberCount(gs: seq<Group>): nat {
    if gs == [] then 0 else MemberCount(gs[..|gs| - 1]) + |GroupVars(gs[|gs| - 1])|
  }

  // ---------- Default weights and thresholds ----------

  function DefaultGroupWeight(g: Group): real {
    match g
    case Operationeel => 0.25
    case Technisch => 0.15
    case Configuratie => 0.15
    case Organisatie => 0.14
    case Processen => 0.11
    case Rapportage => 0.1
    case Contract => 0.1
  }

  function DefaultVarWeight(k: Var): real {
    match k
    case SkuCount => 0.25
    case OrderVolume => 0.2
    case OrderPeak => 0.1
    case RetourPercentage => 0.1
    case SkuComplexity => 0.15
    case Seizoensinvloed => 0.05
    case VasActiviteiten => 0.15
    case InboundBijzonderheden => 0.1
    case PlatformType => 0.4
    case TypeKoppeling => 0.4
    case PostnlApis => 0.2
    case ConfigDoor => 0.3
    case MateMaatwerk => 0.3
    case MappingComplexiteit => 0.25
    case TestCapaciteit => 0.15
    case AantalAfdelingen => 0.5
    case ScopeWijzigingen => 0.5
    case VoorraadBeheer => 0.35
    case Replenishment => 0.3
    case VerzendMethoden => 0.2
    case RetourProces => 0.15
    case DashboardGebruik => 0.5
    case RapportageBehoefte => 0.5
    case ServiceUitbreiding => 1.0
  }

  const DefaultThresholds: Thresholds := Thresholds(20.0, 35.0, 50.0, 65.0, 80.0, 100.0)

  // ---------- Group aggregation ----------

  /** The variable scores of one input, as a function of the variable. */
  function Scores(inp: ClassifierInput): Var -> real {
    k => VariableScore(k, inp)
  }

  function GroupScoreOf(g: Group, inp: ClassifierInput, vw: VarWeights): real {
    WeightedMean(GroupVars(g), Scores(inp), vw)
  }

  /** The group's score and one contribution per member, in member order. */
  method ComputeGroupScore(group: Group, inputs: ClassifierInput, varW: VarWeights)
    returns (groupScore: real, contributions: seq<Contribution>)
    ensures contributions == Contributions(GroupVars(group), Scores(inputs), varW)
    ensures groupScore == GroupScoreOf(group, inputs, varW)
  {
    var totalW, sum;
    totalW, sum, contributions := SumMembers(GroupVars(group), Scores(inputs), varW);
    groupScore := if totalW > 0.0 then sum / totalW else 0.0;
  }

  lemma ScoresInRange100(inp: ClassifierInput)
    ensures ScoresBounded(Scores(inp))
  {
    forall k ensures 0.0 <= Scores(inp)(k) <= 100.0 {
      VariableScoreRange(k, inp);
    }
  }

  /** With nonnegative variable weights every group score lies in 0..100. */
  lemma GroupScoreRange(g: Group, inp: ClassifierInput, vw: VarWeights)
    requires NonNegVarWeights(vw)
    ensures 0.0 <= GroupScoreOf(g, inp, vw) <= 100.0
  {
    ScoresInRange100(inp);
    WeightedMeanRange(GroupVars(g), Scores(inp), vw);
  }

  // ---------- Classification ----------

  /** Clamp, then the first tier whose bound is not exceeded; C1 otherwise. */
  function Classify(score: real, th: Thresholds): Classification {
    var s := Clamp100(score);
    if s <= th.A1 then TierClassification(A1)
    else if s <= th.A2 then TierClassification(A2)
    else if s <= th.A3 then TierClassification(A3)
    else if s <= th.B1 then TierClassification(B1)
    else if s <= th.B2 then TierClassification(B2)
    else TierClassification(C1)
  }

  /** Exactly when each tier is chosen, in terms of the clamped score. */
  lemma ClassifySpec(score: real, th: Thresholds)
    ensures var s, t := Clamp100(score), Classify(score, th).code;
      && (t == A1 <==> s <= th.A1)
      && (t == A2 <==> th.A1 < s <= th.A2)
      && (t == A3 <==> th.A1 < s && th.A2 < s <= th.A3)
      && (t == B1 <==> th.A1 < s && th.A2 < s && th.A3 < s <= th.B1)
      && (t == B2 <==> th.A1 < s && th.A2 < s && th.A3 < s && th.B1 < s <= th.B2)
      && (t == C1 <==> th.A1 < s && th.A2 < s && th.A3 < s && th.B1 < s && th.B2 < s)
    ensures Classify(score, th) == TierClassification(Classify(score, th).code)
  {
  }

  /** A score equal to the A1 bound is A1 (inclusive bounds). */
  lemma ClassifyAtA1(th: Thresholds)
    requires 0.0 <= th.A1
    ensures Classify(th.A1, th).code == A1
  {
  }

  /** The C1 bound is never consulted. */
  lemma ClassifyIgnoresC1(score: real, th: Thresholds, c: real)
    ensures Classify(score, th) == Classify(score, th.(C1 := c))
  {
  }

  predicate Ordered(th: Thresholds) {
    th.A1 <= th.A2 <= th.A3 <= th.B1 <= th.B2
  }

  /** With ordered thresholds, a score above B2 is C1, and the tier never
      goes down as the score goes up. */
  lemma ClassifyMonotone(x: real, y: real, th: Thresholds)
    requires Ordered(th)
    requires x <= y
    ensures TierRank(Classify(x, th).code) <= TierRank(Classify(y, th).code)
    ensures th.B2 < Clamp100(y) ==> Classify(y, th).code == C1
  {
    ClampMonotone(x, y, 0.0, 100.0);
  }

  // ---------- Pipeline: per-group entries, total, ranking ----------

  datatype GroupEntry = GroupEntry(key: Group, score: real, contribs: seq<Contribution>)

  function EntryOf(g: Group, inp: ClassifierInput, vw: VarWeights): GroupEntry {
    GroupEntry(g, GroupScoreOf(g, inp, vw), Contributions(GroupVars(g), Scores(inp), vw))
  }

  /** The entries of all groups, in group enumeration order. */
  function Entries(inp: ClassifierInput, vw: VarWeights): seq<GroupEntry> {
    seq(|Groups|, i requires 0 <= i < |Groups| => EntryOf(Groups[i], inp, vw))
  }

  /** One entry per group pushed in enumeration order. */
  method ComputeEntries(inputs: ClassifierInput, vw: VarWeights) returns (entries: seq<GroupEntry>)
    ensures entries == Entries(inputs, vw)
  {
    entries := [];
    for i := 0 to |Groups|
      invariant |entries| == i
      invariant forall j :: 0 <= j < i ==> entries[j] == EntryOf(Groups[j], inputs, vw)
    {
      var g := Groups[i];
      var groupScore, contributions := ComputeGroupScore(g, inputs, vw);
      entries := entries + [GroupEntry(g, groupScore, contributions)];
    }
  }

  /** `entries.reduce((acc, e) => acc + e.score * gw[e.key], 0)` */
  function Total(es: seq<GroupEntry>, gw: GroupWeights): real {
    if es == [] then 0.0
    else Total(es[..|es| - 1], gw) + es[|es| - 1].score * gw(es[|es| - 1].key)
  }

  /** The raw, unclamped total. */
  function TotalScore(inp: ClassifierInput, gw: GroupWeights, vw: VarWeights): real {
    Total(Entries(inp, vw), gw)
  }

  /** `Object.values(gw).reduce((a, b) => a + b, 0)` */
  function WeightSum(gs: seq<Group>, gw: GroupWeights): real {
    if gs == [] then 0.0 else WeightSum(gs[..|gs| - 1], gw) + gw(gs[|gs| - 1])
  }

  /** The advisory warning shown when the group weights do not sum to 1. */
  function GroupWarning(gw: GroupWeights): bool {
    var d := 1.0 - WeightSum(Groups, gw);
    (if d < 0.0 then -d else d) > 0.0001
  }

  function Abs(x: real): real { if x < 0.0 then -x else x }

  function RankedOf(e: GroupEntry, gw: GroupWeights): seq<Ranked> {
    seq(|e.contribs|, j requires 0 <= j < |e.contribs| =>
      var c := e.contribs[j];
      Ranked(c.key, e.key, c.score, c.weight, gw(e.key), Abs(c.score * c.weight * gw(e.key))))
  }

  /** `entries.flatMap(...)`: every contribution tagged with its group. */
  function Flatten(es: seq<GroupEntry>, gw: GroupWeights): seq<Ranked> {
    if es == [] then [] else Flatten(es[..|es| - 1], gw) + RankedOf(es[|es| - 1], gw)
  }

  function AllContributions(inp: ClassifierInput, gw: GroupWeights, vw: VarWeights): seq<Ranked> {
    Flatten(Entries(inp, vw), gw)
  }

  function ToTop(r: Ranked): TopContributor {
    TopContributor(r.key, r.key, r.score, r.weight, r.group, r.groupWeight)
  }

  function ToGroupOut(e: GroupEntry): GroupScoreOut {
    GroupScoreOut(e.key, GroupKeyName(e.key), e.score, Clamp100(e.score))
  }

  function ToOut(c: Classification): ClassificationOut {
    ClassificationOut(c.code, c.lead, c.color, Label(c))
  }

  /** The memoised pipeline and the result record built from it. */
  method ComputeResult(inputs: ClassifierInput, gw: GroupWeights, vw: VarWeights, th: Thresholds)
    returns (res: ClassifierResult)
    ensures res.totalScore == Clamp100(TotalScore(inputs, gw, vw))
    ensures res.totalScoreProgress == res.totalScore
    ensures res.classification == ToOut(Classify(TotalScore(inputs, gw, vw), th))
    ensures |res.topContributors| == |Top3(AllContributions(inputs, gw, vw))|
    ensures forall i :: 0 <= i < |res.topContributors| ==>
      res.topContributors[i] == ToTop(Top3(AllContributions(inputs, gw, vw))[i])
    ensures |res.groupScores| == |Groups|
    ensures forall i :: 0 <= i < |Groups| ==>
      res.groupScores[i] == GroupScoreOut(Groups[i], GroupKeyName(Groups[i]), GroupScoreOf(Groups[i], inputs, vw),
                                          Clamp100(GroupScoreOf(Groups[i], inputs, vw)))
  {
    var entries := ComputeEntries(inputs, vw);
    var total := Total(entries, gw);
    var contribs := Flatten(entries, gw);
    var cls := Classify(total * 1.0, th);
    var totalScore := Clamp100(total);
    var top3 := Top3(contribs);
    ClampIdempotent(total, 0.0, 100.0);
    res := ClassifierResult(
      totalScore,
      Clamp100(totalScore),
      ToOut(cls),
      seq(|top3|, i requires 0 <= i < |top3| => ToTop(top3[i])),
      seq(|entries|, i requires 0 <= i < |entries| => ToGroupOut(entries[i])));
  }

  // ---------- Properties of the total ----------

  predicate NonNegGroupWeights(gw: GroupWeights) {
    forall g :: gw(g) >= 0.0
  }

  function KeyWeightSum(es: seq<GroupEntry>, gw: GroupWeights): real {
    if es == [] then 0.0 else KeyWeightSum(es[..|es| - 1], gw) + gw(es[|es| - 1].key)
  }

  lemma {:induction false} TotalBounds(es: seq<GroupEntry>, gw: GroupWeights)
    requires NonNegGroupWeights(gw)
    requires forall i :: 0 <= i < |es| ==> 0.0 <= es[i].score <= 100.0
    ensures 0.0 <= Total(es, gw) <= 100.0 * KeyWeightSum(es, gw)
    ensures 0.0 <= KeyWeightSum(es, gw)
  {
    if es != [] {
      var pre, e := es[..|es| - 1], es[|es| - 1];
      TotalBounds(pre, gw);
      var s, w := e.score, gw(e.key);
      MulBounds(s, w);
      AddBounds(Total(pre, gw), KeyWeightSum(pre, gw), s * w, w);
    }
  }

  lemma {:induction false} KeyWeightSumOfEntries(es: seq<GroupEntry>, gs: seq<Group>, gw: GroupWeights)
    requires |es| == |gs|
    requires forall i :: 0 <= i < |es| ==> es[i].key == gs[i]
    ensures KeyWeightSum(es, gw) == WeightSum(gs, gw)
  {
    if es != [] {
      KeyWeightSumOfEntries(es[..|es| - 1], gs[..|gs| - 1], gw);
    }
  }

  /** With nonnegative weights the raw total lies between 0 and 100 times the
      group-weight sum: it is not renormalised, so it stays within 0..100
      exactly when the group weights sum to at most 1. */
  lemma TotalRange(inp: ClassifierInput, gw: GroupWeights, vw: VarWeights)
    requires NonNegVarWeights(vw) && NonNegGroupWeights(gw)
    ensures 0.0 <= TotalScore(inp, gw, vw) <= 100.0 * WeightSum(Groups, gw)
    ensures WeightSum(Groups, gw) <= 1.0 ==> TotalScore(inp, gw, vw) <= 100.0
  {
    var es := Entries(inp, vw);
    forall i | 0 <= i < |es|
      ensures 0.0 <= es[i].score <= 100.0
    {
      GroupScoreRange(Groups[i], inp, vw);
    }
    TotalBounds(es, gw);
    KeyWeightSumOfEntries(es, Groups, gw);
  }

  lemma {:induction false} TotalScaled(es: seq<GroupEntry>, gw: GroupWeights, gw2: GroupWeights, c: real)
    requires forall g :: gw2(g) == c * gw(g)
    ensures Total(es, gw2) == c * Total(es, gw)
  {
    if es != [] {
      TotalScaled(es[..|es| - 1], gw, gw2, c);
    }
  }

  /** No renormalisation: multiplying every group weight by `c` multiplies
      the total by `c`. */
  lemma TotalNotRenormalised(inp: ClassifierInput, gw: GroupWeights, gw2: GroupWeights, vw: VarWeights, c: real)
    requires forall g :: gw2(g) == c * gw(g)
    ensures TotalScore(inp, gw2, vw) == c * TotalScore(inp, gw, vw)
  {
    TotalScaled(Entries(inp, vw), gw, gw2, c);
  }

  // ---------- Monotonicity in the SKU count ----------

  lemma SkuCountRaisesScores(k: Var, inp: ClassifierInput, x: real)
    requires inp.skuCount <= x
    ensures VariableScore(k, inp) <= VariableScore(k, inp.(skuCount := x))
  {
    if k == SkuCount {
      NumericScalersSpec(inp.skuCount, x);
    } else {
      assert Get(inp, k) == Get(inp.(skuCount := x), k);
    }
  }

  lemma {:induction false} TotalMonotone(es1: seq<GroupEntry>, es2: seq<GroupEntry>, gw: GroupWeights)
    requires NonNegGroupWeights(gw)
    requires |es1| == |es2|
    requires forall i :: 0 <= i < |es1| ==> es1[i].key == es2[i].key && es1[i].score <= es2[i].score
    ensures Total(es1, gw) <= Total(es2, gw)
  {
    if es1 != [] {
      var n := |es1| - 1;
      TotalMonotone(es1[..n], es2[..n], gw);
      var s1, s2, w := es1[n].score, es2[n].score, gw(es1[n].key);
      assert gw(es2[n].key) == w && w >= 0.0;
      var t1, t2 := Total(es1[..n], gw), Total(es2[..n], gw);
      StepMonotone(t1, t2, s1, s2, w);
      assert Total(es1, gw) == t1 + s1 * w;
      assert Total(es2, gw) == t2 + s2 * w;
    }
  }

  /** Raising the SKU count never lowers the total, for nonnegative weights. */
  lemma TotalMonotoneInSkuCount(inp: ClassifierInput, x: real, gw: GroupWeights, vw: VarWeights)
    requires inp.skuCount <= x
    requires NonNegVarWeights(vw) && NonNegGroupWeights(gw)
    ensures TotalScore(inp, gw, vw) <= TotalScore(inp.(skuCount := x), gw, vw)
  {
    var inp' := inp.(skuCount := x);
    var es1, es2 := Entries(inp, vw), Entries(inp', vw);
    forall k ensures Scores(inp)(k) <= Scores(inp')(k) {
      SkuCountRaisesScores(k, inp, x);
    }
    forall i | 0 <= i < |es1|
      ensures es1[i].key == es2[i].key && es1[i].score <= es2[i].score
    {
      var vars := GroupVars(Groups[i]);
      SumWeightedMonotone(vars, Scores(inp), Scores(inp'), vw);
      var tw := SumWeights(vars, vw);
      if tw > 0.0 {
        DivMonotone(SumWeighted(vars, Scores(inp), vw), SumWeighted(vars, Scores(inp'), vw), tw);
      }
    }
    TotalMonotone(es1, es2, gw);
  }

  // ---------- Properties of the ranking ----------

  lemma {:induction false} FlattenLength(es: seq<GroupEntry>, gw: GroupWeights, gs: seq<Group>)
    requires |es| == |gs|
    requires forall i :: 0 <= i < |es| ==> |es[i].contribs| == |GroupVars(gs[i])|
    ensures |Flatten(es, gw)| == MemberCount(gs)
  {
    if es != [] {
      FlattenLength(es[..|es| - 1], gw, gs[..|gs| - 1]);
    }
  }

  /** There are 24 contributions, so the top list always has exactly three
      entries, ordered by non-increasing magnitude, none smaller than any
      contribution left out. */
  lemma TopContributorsSpec(inp: ClassifierInput, gw: GroupWeights, vw: VarWeights)
    ensures |AllContributions(inp, gw, vw)| == 24
    ensures |Top3(AllContributions(inp, gw, vw))| == 3
    ensures SortedDesc(Top3(AllContributions(inp, gw, vw)))
    ensures forall x | x in multiset(AllContributions(inp, gw, vw)) - multiset(Top3(AllContributions(inp, gw, vw))) ::
      x.magnitude <= Top3(AllContributions(inp, gw, vw))[2].magnitude
  {
    FlattenLength(Entries(inp, vw), gw, Groups);
    GroupVarsCount();
    Top3Spec(AllContributions(inp, gw, vw));
    Top3Omitted(AllContributions(inp, gw, vw));
  }
}
