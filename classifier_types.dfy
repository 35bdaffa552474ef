/** Shared data model of the onboarding classifier: the seven groups, the
    24 scored variables (which are exactly the fields of a classifier input
    and the keys of the variable weights), the input record, thresholds,
    tiers and the result shape both scoring variants produce. */
module ClassifierTypes {

  datatype Option<T> = None | Some(value: T)

  /** The seven fixed groups, declared in the order the source enumerates them. */
  datatype Group = Operationeel | Technisch | Configuratie | Organisatie | Processen | Rapportage | Contract

  /** Group enumeration order (the key order of the group membership table). */
  const Groups: seq<Group> := [Operationeel, Technisch, Configuratie, Organisatie, Processen, Rapportage, Contract]

  /** The object key that names each group. */
  function GroupKeyName(g: Group): string {
    match g
    case Operationeel => "operationeel"
    case Technisch => "technisch"
    case Configuratie => "configuratie"
    case Organisatie => "organisatie"
    case Processen => "processen"
    case Rapportage => "rapportage"
    case Contract => "contract"
  }

  /** The 24 scored variables; each is also a field of the classifier input. */
  datatype Var =
    | SkuCount | OrderVolume | OrderPeak | RetourPercentage | AantalAfdelingen
    | SkuComplexity | Seizoensinvloed | PlatformType | TypeKoppeling | ConfigDoor
    | MateMaatwerk | MappingComplexiteit | TestCapaciteit | VoorraadBeheer
    | Replenishment | VerzendMethoden | RetourProces | DashboardGebruik
    | RapportageBehoefte | ServiceUitbreiding | ScopeWijzigingen
    | VasActiviteiten | InboundBijzonderheden | PostnlApis

  predicate IsNumeric(k: Var) {
    k.SkuCount? || k.OrderVolume? || k.OrderPeak? || k.RetourPercentage? || k.AantalAfdelingen?
  }

  predicate IsMulti(k: Var) {
    k.VasActiviteiten? || k.InboundBijzonderheden? || k.PostnlApis?
  }

  predicate IsCategorical(k: Var) {
    !IsNumeric(k) && !IsMulti(k)
  }

  /** A multi-select field: option label to ticked or not. */
  type MultiOptions = map<string, bool>

  /** The questionnaire answers. */
  datatype ClassifierInput = ClassifierInput(
    skuCount: real,
    orderVolume: real,
    orderPeak: real,
    retourPercentage: real,
    aantalAfdelingen: real,
    skuComplexity: string,
    seizoensinvloed: string,
    platformType: string,
    typeKoppeling: string,
    configDoor: string,
    mateMaatwerk: string,
    mappingComplexiteit: string,
    testCapaciteit: string,
    voorraadBeheer: string,
    replenishment: string,
    verzendMethoden: string,
    retourProces: string,
    dashboardGebruik: string,
    rapportageBehoefte: string,
    serviceUitbreiding: string,
    scopeWijzigingen: string,
    vasActiviteiten: MultiOptions,
    inboundBijzonderheden: MultiOptions,
    postnlApis: MultiOptions)

  /** The value of one input field, tagged by its kind. */
  datatype Value = Num(n: real) | Cat(s: string) | Multi(m: MultiOptions)

  /** A value may be stored in field `k` only when its kind matches the field's. */
  predicate Fits(k: Var, v: Value) {
    (IsNumeric(k) && v.Num?) || (IsCategorical(k) && v.Cat?) || (IsMulti(k) && v.Multi?)
  }

  /** Reads field `k` of an input. */
  function Get(inp: ClassifierInput, k: Var): (v: Value)
    ensures Fits(k, v)
  {
    match k
    case SkuCount => Num(inp.skuCount)
    case OrderVolume => Num(inp.orderVolume)
    case OrderPeak => Num(inp.orderPeak)
    case RetourPercentage => Num(inp.retourPercentage)
    case AantalAfdelingen => Num(inp.aantalAfdelingen)
    case SkuComplexity => Cat(inp.skuComplexity)
    case Seizoensinvloed => Cat(inp.seizoensinvloed)
    case PlatformType => Cat(inp.platformType)
    case TypeKoppeling => Cat(inp.typeKoppeling)
    case ConfigDoor => Cat(inp.configDoor)
    case MateMaatwerk => Cat(inp.mateMaatwerk)
    case MappingComplexiteit => Cat(inp.mappingComplexiteit)
    case TestCapaciteit => Cat(inp.testCapaciteit)
    case VoorraadBeheer => Cat(inp.voorraadBeheer)
    case Replenishment => Cat(inp.replenishment)
    case VerzendMethoden => Cat(inp.verzendMethoden)
    case RetourProces => Cat(inp.retourProces)
    case DashboardGebruik => Cat(inp.dashboardGebruik)
    case RapportageBehoefte => Cat(inp.rapportageBehoefte)
    case ServiceUitbreiding => Cat(inp.serviceUitbreiding)
    case ScopeWijzigingen => Cat(inp.scopeWijzigingen)
    case VasActiviteiten => Multi(inp.vasActiviteiten)
    case InboundBijzonderheden => Multi(inp.inboundBijzonderheden)
    case PostnlApis => Multi(inp.postnlApis)
  }

  /** A partial input: the fields it names, each with a value of the field's kind. */
  type InputPatch = map<Var, Value>

  predicate PatchFits(p: InputPatch) {
    forall k | k in p :: Fits(k, p[k])
  }

  function NumOr(p: InputPatch, k: Var, d: real): real {
    if k in p && p[k].Num? then p[k].n else d
  }

  function CatOr(p: InputPatch, k: Var, d: string): string {
    if k in p && p[k].Cat? then p[k].s else d
  }

  function MultiOr(p: InputPatch, k: Var, d: MultiOptions): MultiOptions {
    if k in p && p[k].Multi? then p[k].m else d
  }

  /** Object spread `{...inp, ...p}`: every field the patch names is
      overwritten with the patch's value, every other field is kept. */
  function ApplyPatch(inp: ClassifierInput, p: InputPatch): ClassifierInput {
    ClassifierInput(
      NumOr(p, SkuCount, inp.skuCount),
      NumOr(p, OrderVolume, inp.orderVolume),
      NumOr(p, OrderPeak, inp.orderPeak),
      NumOr(p, RetourPercentage, inp.retourPercentage),
      NumOr(p, AantalAfdelingen, inp.aantalAfdelingen),
      CatOr(p, SkuComplexity, inp.skuComplexity),
      CatOr(p, Seizoensinvloed, inp.seizoensinvloed),
      CatOr(p, PlatformType, inp.platformType),
      CatOr(p, TypeKoppeling, inp.typeKoppeling),
      CatOr(p, ConfigDoor, inp.configDoor),
      CatOr(p, MateMaatwerk, inp.mateMaatwerk),
      CatOr(p, MappingComplexiteit, inp.mappingComplexiteit),
      CatOr(p, TestCapaciteit, inp.testCapaciteit),
      CatOr(p, VoorraadBeheer, inp.voorraadBeheer),
      CatOr(p, Replenishment, inp.replenishment),
      CatOr(p, VerzendMethoden, inp.verzendMethoden),
      CatOr(p, RetourProces, inp.retourProces),
      CatOr(p, DashboardGebruik, inp.dashboardGebruik),
      CatOr(p, RapportageBehoefte, inp.rapportageBehoefte),
      CatOr(p, ServiceUitbreiding, inp.serviceUitbreiding),
      CatOr(p, ScopeWijzigingen, inp.scopeWijzigingen),
      MultiOr(p, VasActiviteiten, inp.vasActiviteiten),
      MultiOr(p, InboundBijzonderheden, inp.inboundBijzonderheden),
      MultiOr(p, PostnlApis, inp.postnlApis))
  }

  /** Field `k` after a patch holds the patch's value when the patch names
      `k`, and the old value otherwise. */
  lemma ApplyPatchGet(inp: ClassifierInput, p: InputPatch, k: Var)
    requires PatchFits(p)
    ensures Get(ApplyPatch(inp, p), k) == if k in p then p[k] else Get(inp, k)
  {
    match k
    case SkuCount | OrderVolume | OrderPeak | RetourPercentage | AantalAfdelingen => PatchNumeric(inp, p, k);
    case SkuComplexity | Seizoensinvloed | PlatformType | TypeKoppeling | ConfigDoor | MateMaatwerk | MappingComplexiteit | TestCapaciteit => PatchCategoricalA(inp, p, k);
    case VoorraadBeheer | Replenishment | VerzendMethoden | RetourProces | DashboardGebruik | RapportageBehoefte | ServiceUitbreiding | ScopeWijzigingen => PatchCategoricalB(inp, p, k);
    case VasActiviteiten | InboundBijzonderheden | PostnlApis => PatchMulti(inp, p, k);
  }

  /** `ApplyPatchGet` for the numeric fields. */
  lemma PatchNumeric(inp: ClassifierInput, p: InputPatch, k: Var)
    requires k in p ==> Fits(k, p[k])
    requires k.SkuCount? || k.OrderVolume? || k.OrderPeak? || k.RetourPercentage? || k.AantalAfdelingen?
    ensures Get(ApplyPatch(inp, p), k) == if k in p then p[k] else Get(inp, k)
  {
    var r := ApplyPatch(inp, p);
    match k
    case SkuCount => assert r.skuCount == NumOr(p, k, inp.skuCount);
    case OrderVolume => assert r.orderVolume == NumOr(p, k, inp.orderVolume);
    case OrderPeak => assert r.orderPeak == NumOr(p, k, inp.orderPeak);
    case RetourPercentage => assert r.retourPercentage == NumOr(p, k, inp.retourPercentage);
    case AantalAfdelingen => assert r.aantalAfdelingen == NumOr(p, k, inp.aantalAfdelingen);
  }

  /** `ApplyPatchGet` for the first eight categorical fields. */
  lemma PatchCategoricalA(inp: ClassifierInput, p: InputPatch, k: Var)
    requires k in p ==> Fits(k, p[k])
    requires k.SkuComplexity? || k.Seizoensinvloed? || k.PlatformType? || k.TypeKoppeling? || k.ConfigDoor? || k.MateMaatwerk? || k.MappingComplexiteit? || k.TestCapaciteit?
    ensures Get(ApplyPatch(inp, p), k) == if k in p then p[k] else Get(inp, k)
  {
    var r := ApplyPatch(inp, p);
    match k
    case SkuComplexity => assert r.skuComplexity == CatOr(p, k, inp.skuComplexity);
    case Seizoensinvloed => assert r.seizoensinvloed == CatOr(p, k, inp.seizoensinvloed);
    case PlatformType => assert r.platformType == CatOr(p, k, inp.platformType);
    case TypeKoppeling => assert r.typeKoppeling == CatOr(p, k, inp.typeKoppeling);
    case ConfigDoor => assert r.configDoor == CatOr(p, k, inp.configDoor);
    case MateMaatwerk => assert r.mateMaatwerk == CatOr(p, k, inp.mateMaatwerk);
    case MappingComplexiteit => assert r.mappingComplexiteit == CatOr(p, k, inp.mappingComplexiteit);
    case TestCapaciteit => assert r.testCapaciteit == CatOr(p, k, inp.testCapaciteit);
  }

  /** `ApplyPatchGet` for the last eight categorical fields. */
  lemma PatchCategoricalB(inp: ClassifierInput, p: InputPatch, k: Var)
    requires k in p ==> Fits(k, p[k])
    requires k.VoorraadBeheer? || k.Replenishment? || k.VerzendMethoden? || k.RetourProces? || k.DashboardGebruik? || k.RapportageBehoefte? || k.ServiceUitbreiding? || k.ScopeWijzigingen?
    ensures Get(ApplyPatch(inp, p), k) == if k in p then p[k] else Get(inp, k)
  {
    var r := ApplyPatch(inp, p);
    match k
    case VoorraadBeheer => assert r.voorraadBeheer == CatOr(p, k, inp.voorraadBeheer);
    case Replenishment => assert r.replenishment == CatOr(p, k, inp.replenishment);
    case VerzendMethoden => assert r.verzendMethoden == CatOr(p, k, inp.verzendMethoden);
    case RetourProces => assert r.retourProces == CatOr(p, k, inp.retourProces);
    case DashboardGebruik => assert r.dashboardGebruik == CatOr(p, k, inp.dashboardGebruik);
    case RapportageBehoefte => assert r.rapportageBehoefte == CatOr(p, k, inp.rapportageBehoefte);
    case ServiceUitbreiding => assert r.serviceUitbreiding == CatOr(p, k, inp.serviceUitbreiding);
    case ScopeWijzigingen => assert r.scopeWijzigingen == CatOr(p, k, inp.scopeWijzigingen);
  }

  /** `ApplyPatchGet` for the multi-select fields. */
  lemma PatchMulti(inp: ClassifierInput, p: InputPatch, k: Var)
    requires k in p ==> Fits(k, p[k])
    requires k.VasActiviteiten? || k.InboundBijzonderheden? || k.PostnlApis?
    ensures Get(ApplyPatch(inp, p), k) == if k in p then p[k] else Get(inp, k)
  {
    var r := ApplyPatch(inp, p);
    match k
    case VasActiviteiten => assert r.vasActiviteiten == MultiOr(p, k, inp.vasActiviteiten);
    case InboundBijzonderheden => assert r.inboundBijzonderheden == MultiOr(p, k, inp.inboundBijzonderheden);
    case PostnlApis => assert r.postnlApis == MultiOr(p, k, inp.postnlApis);
  }

  /** An empty patch changes nothing. */
  lemma ApplyEmptyPatch(inp: ClassifierInput)
    ensures ApplyPatch(inp, map[]) == inp
  {
  }

  /** Group weights (one per group) and variable weights (one per variable). */
  type GroupWeights = Group -> real
  type VarWeights = Var -> real

  /** Inclusive upper bounds of the tiers, checked in declaration order. */
  datatype Thresholds = Thresholds(A1: real, A2: real, A3: real, B1: real, B2: real, C1: real)

  datatype Tier = A1 | A2 | A3 | B1 | B2 | C1

  /** Position of a tier in the cascade, lowest first. */
  function TierRank(t: Tier): nat {
    match t
    case A1 => 0
    case A2 => 1
    case A3 => 2
    case B1 => 3
    case B2 => 4
    case C1 => 5
  }

  function TierCode(t: Tier): string {
    match t
    case A1 => "A1"
    case A2 => "A2"
    case A3 => "A3"
    case B1 => "B1"
    case B2 => "B2"
    case C1 => "C1"
  }

  /** Lead-time text of each tier ("2–3 weken" and so on). */
  function TierLead(t: Tier): string {
    match t
    case A1 => "2\U{2013}3 weken"
    case A2 => "3\U{2013}4 weken"
    case A3 => "4\U{2013}6 weken"
    case B1 => "4\U{2013}5 weken"
    case B2 => "5\U{2013}7 weken"
    case C1 => "8\U{2013}12 weken"
  }

  function TierColor(t: Tier): string {
    match t
    case A1 => "#16a34a"
    case A2 => "#22c55e"
    case A3 => "#84cc16"
    case B1 => "#f59e0b"
    case B2 => "#f97316"
    case C1 => "#ef4444"
  }

  /** What `classify` returns: the tier with its lead time and colour. */
  datatype Classification = Classification(code: Tier, lead: string, color: string)

  function TierClassification(t: Tier): Classification {
    Classification(t, TierLead(t), TierColor(t))
  }

  /** One variable's entry in a group computation. */
  datatype Contribution = Contribution(key: Var, score: real, weight: real, contribution: real)

  /** A contribution tagged with its group, as ranked for the top three. */
  datatype Ranked = Ranked(key: Var, group: Group, score: real, weight: real, groupWeight: real, magnitude: real)

  /** The result record handed to the presentation layer (formatted labels
      are kept as the numbers they are formatted from). */
  datatype ClassificationOut = ClassificationOut(code: Tier, lead: string, color: string, labelText: string)
  datatype TopContributor = TopContributor(key: Var, title: Var, score: real, weight: real, group: Group, groupWeight: real)
  datatype GroupScoreOut = GroupScoreOut(key: Group, title: string, score: real, progress: real)
  datatype ClassifierResult = ClassifierResult(
    totalScore: real,
    totalScoreProgress: real,
    classification: ClassificationOut,
    topContributors: seq<TopContributor>,
    groupScores: seq<GroupScoreOut>)

  /** "<code> — <lead>" */
  function Label(c: Classification): string {
    TierCode(c.code) + " \U{2014} " + c.lead
  }
}
