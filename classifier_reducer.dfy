/** The classifier page's state and its reducer: a pure function from the
    current state and one action to the next state. */
module ClassifierReducer {
  import opened ClassifierTypes

  datatype State = State(
    input: ClassifierInput,
    result: Option<ClassifierResult>,
    selectedPresetId: Option<string>,
    isDirty: bool,
    isBusy: bool)

  /** The six actions, plus any other action tag a caller might dispatch. */
  datatype Action =
    | SetInputPartial(patch: InputPatch)
    | RecalcResult(result: Option<ClassifierResult>)
    | SelectPreset(id: Option<string>)
    | MarkDirty
    | ClearDirty
    | SetBusy(value: bool)
    | Unknown(tag: string)

  /** Placeholder input: numbers 0, choices empty, option sets empty. */
  function CreateInitialInput(): ClassifierInput {
    ClassifierInput(
      0.0, 0.0, 0.0, 0.0, 0.0,
      "", "", "", "", "", "", "", "", "", "", "", "", "", "", "", "",
      map[], map[], map[])
  }

  /** Every field of the initial input holds the empty value of its kind. */
  lemma InitialInputSpec(k: Var)
    ensures IsNumeric(k) ==> Get(CreateInitialInput(), k) == Num(0.0)
    ensures IsCategorical(k) ==> Get(CreateInitialInput(), k) == Cat("")
    ensures IsMulti(k) ==> Get(CreateInitialInput(), k) == Multi(map[])
  {
  }

  function CreateInitialState(): State {
    State(CreateInitialInput(), None, None, false, false)
  }

  function Reduce(state: State, action: Action): State {
    match action
    case SetInputPartial(patch) => state.(input := ApplyPatch(state.input, patch))
    case RecalcResult(result) => state.(result := result)
    case SelectPreset(id) => state.(selectedPresetId := id)
    case MarkDirty => state.(isDirty := true)
    case ClearDirty => state.(isDirty := false)
    case SetBusy(value) => state.(isBusy := value)
    case Unknown(_) => state
  }

  /** The part of the state each action writes. */
  datatype Slot = InputSlot | ResultSlot | PresetSlot | DirtySlot | BusySlot

  function Writes(action: Action): set<Slot> {
    match action
    case SetInputPartial(_) => {InputSlot}
    case RecalcResult(_) => {ResultSlot}
    case SelectPreset(_) => {PresetSlot}
    case MarkDirty => {DirtySlot}
    case ClearDirty => {DirtySlot}
    case SetBusy(_) => {BusySlot}
    case Unknown(_) => {}
  }

  /** Every action leaves the slots it does not write unchanged, and sets the
      slot it writes to the value it carries: the patched fields take the
      patch's values and every other input field keeps its value. */
  lemma ReduceSpec(state: State, action: Action, k: Var)
    requires action.SetInputPartial? ==> PatchFits(action.patch)
    ensures var next := Reduce(state, action);
      && (InputSlot !in Writes(action) ==> next.input == state.input)
      && (ResultSlot !in Writes(action) ==> next.result == state.result)
      && (PresetSlot !in Writes(action) ==> next.selectedPresetId == state.selectedPresetId)
      && (DirtySlot !in Writes(action) ==> next.isDirty == state.isDirty)
      && (BusySlot !in Writes(action) ==> next.isBusy == state.isBusy)
    ensures action.SetInputPartial? ==>
      Get(Reduce(state, action).input, k) == if k in action.patch then action.patch[k] else Get(state.input, k)
    ensures action.RecalcResult? ==> Reduce(state, action).result == action.result
    ensures action.SelectPreset? ==> Reduce(state, action).selectedPresetId == action.id
    ensures action.MarkDirty? ==> Reduce(state, action).isDirty
    ensures action.ClearDirty? ==> !Reduce(state, action).isDirty
    ensures action.SetBusy? ==> Reduce(state, action).isBusy == action.value
    ensures action.Unknown? ==> Reduce(state, action) == state
  {
    if action.SetInputPartial? {
      ApplyPatchGet(state.input, action.patch, k);
    }
  }

  /** Dispatching the same action twice has the effect of dispatching it once. */
  lemma ReduceIdempotent(state: State, action: Action)
    ensures Reduce(Reduce(state, action), action) == Reduce(state, action)
  {
    if action.SetInputPartial? {
      PatchIdempotent(state.input, action.patch);
    }
  }

  lemma PatchIdempotent(inp: ClassifierInput, p: InputPatch)
    ensures ApplyPatch(ApplyPatch(inp, p), p) == ApplyPatch(inp, p)
  {
  }

  /** Two successive partial updates amount to one update with the merged
      patch, the later patch winning on shared fields. */
  lemma PatchesMerge(state: State, p: InputPatch, q: InputPatch)
    requires PatchFits(q)
    ensures Reduce(Reduce(state, SetInputPartial(p)), SetInputPartial(q)) == Reduce(state, SetInputPartial(p + q))
  {
    PatchCompose(state.input, p, q);
  }

  lemma PatchCompose(inp: ClassifierInput, p: InputPatch, q: InputPatch)
    requires PatchFits(q)
    ensures ApplyPatch(ApplyPatch(inp, p), q) == ApplyPatch(inp, p + q)
  {
    PatchComposeNumeric(inp, p, q);
    PatchComposeChoices1(inp, p, q);
    PatchComposeChoices2(inp, p, q);
    PatchComposeChoices3(inp, p, q);
    PatchComposeChoices4(inp, p, q);
    PatchComposeMulti(inp, p, q);
  }

  lemma PatchComposeNumeric(inp: ClassifierInput, p: InputPatch, q: InputPatch)
    requires PatchFits(q)
    ensures var a, b := ApplyPatch(ApplyPatch(inp, p), q), ApplyPatch(inp, p + q);
      && a.skuCount == b.skuCount
      && a.orderVolume == b.orderVolume
      && a.orderPeak == b.orderPeak
      && a.retourPercentage == b.retourPercentage
      && a.aantalAfdelingen == b.aantalAfdelingen
  {
    NumOrMerge(p, q, SkuCount, inp.skuCount);
    NumOrMerge(p, q, OrderVolume, inp.orderVolume);
    NumOrMerge(p, q, OrderPeak, inp.orderPeak);
    NumOrMerge(p, q, RetourPercentage, inp.retourPercentage);
    NumOrMerge(p, q, AantalAfdelingen, inp.aantalAfdelingen);
  }

  lemma PatchComposeChoices1(inp: ClassifierInput, p: InputPatch, q: InputPatch)
    requires PatchFits(q)
    ensures var a, b := ApplyPatch(ApplyPatch(inp, p), q), ApplyPatch(inp, p + q);
      && a.skuComplexity == b.skuComplexity
      && a.seizoensinvloed == b.seizoensinvloed
      && a.platformType == b.platformType
      && a.typeKoppeling == b.typeKoppeling
  {
    CatOrMerge(p, q, SkuComplexity, inp.skuComplexity);
    CatOrMerge(p, q, Seizoensinvloed, inp.seizoensinvloed);
    CatOrMerge(p, q, PlatformType, inp.platformType);
    CatOrMerge(p, q, TypeKoppeling, inp.typeKoppeling);
  }

  lemma PatchComposeChoices2(inp: ClassifierInput, p: InputPatch, q: InputPatch)
    requires PatchFits(q)
    ensures var a, b := ApplyPatch(ApplyPatch(inp, p), q), ApplyPatch(inp, p + q);
      && a.configDoor == b.configDoor
      && a.mateMaatwerk == b.mateMaatwerk
      && a.mappingComplexiteit == b.mappingComplexiteit
      && a.testCapaciteit == b.testCapaciteit
  {
    CatOrMerge(p, q, ConfigDoor, inp.configDoor);
    CatOrMerge(p, q, MateMaatwerk, inp.mateMaatwerk);
    CatOrMerge(p, q, MappingComplexiteit, inp.mappingComplexiteit);
    CatOrMerge(p, q, TestCapaciteit, inp.testCapaciteit);
  }

  lemma PatchComposeChoices3(inp: ClassifierInput, p: InputPatch, q: InputPatch)
    requires PatchFits(q)
    ensures var a, b := ApplyPatch(ApplyPatch(inp, p), q), ApplyPatch(inp, p + q);
      && a.voorraadBeheer == b.voorraadBeheer
      && a.replenishment == b.replenishment
      && a.verzendMethoden == b.verzendMethoden
      && a.retourProces == b.retourProces
  {
    CatOrMerge(p, q, VoorraadBeheer, inp.voorraadBeheer);
    CatOrMerge(p, q, Replenishment, inp.replenishment);
    CatOrMerge(p, q, VerzendMethoden, inp.verzendMethoden);
    CatOrMerge(p, q, RetourProces, inp.retourProces);
  }

  lemma PatchComposeChoices4(inp: ClassifierInput, p: InputPatch, q: InputPatch)
    requires PatchFits(q)
    ensures var a, b := ApplyPatch(ApplyPatch(inp, p), q), ApplyPatch(inp, p + q);
      && a.dashboardGebruik == b.dashboardGebruik
      && a.rapportageBehoefte == b.rapportageBehoefte
      && a.serviceUitbreiding == b.serviceUitbreiding
      && a.scopeWijzigingen == b.scopeWijzigingen
  {
    CatOrMerge(p, q, DashboardGebruik, inp.dashboardGebruik);
    CatOrMerge(p, q, RapportageBehoefte, inp.rapportageBehoefte);
    CatOrMerge(p, q, ServiceUitbreiding, inp.serviceUitbreiding);
    CatOrMerge(p, q, ScopeWijzigingen, inp.scopeWijzigingen);
  }

  lemma PatchComposeMulti(inp: ClassifierInput, p: InputPatch, q: InputPatch)
    requires PatchFits(q)
    ensures var a, b := ApplyPatch(ApplyPatch(inp, p), q), ApplyPatch(inp, p + q);
      && a.vasActiviteiten == b.vasActiviteiten
      && a.inboundBijzonderheden == b.inboundBijzonderheden
      && a.postnlApis == b.postnlApis
  {
    MultiOrMerge(p, q, VasActiviteiten, inp.vasActiviteiten);
    MultiOrMerge(p, q, InboundBijzonderheden, inp.inboundBijzonderheden);
    MultiOrMerge(p, q, PostnlApis, inp.postnlApis);
  }

  lemma NumOrMerge(p: InputPatch, q: InputPatch, k: Var, d: real)
    requires k in q ==> q[k].Num?
    ensures NumOr(q, k, NumOr(p, k, d)) == NumOr(p + q, k, d)
  {
    MergedValue(p, q, k);
  }

  lemma CatOrMerge(p: InputPatch, q: InputPatch, k: Var, d: string)
    requires k in q ==> q[k].Cat?
    ensures CatOr(q, k, CatOr(p, k, d)) == CatOr(p + q, k, d)
  {
    MergedValue(p, q, k);
  }

  lemma MultiOrMerge(p: InputPatch, q: InputPatch, k: Var, d: MultiOptions)
    requires k in q ==> q[k].Multi?
    ensures MultiOr(q, k, MultiOr(p, k, d)) == MultiOr(p + q, k, d)
  {
    MergedValue(p, q, k);
  }

  /** The merged patch holds the later patch's value where it has one. */
  lemma MergedValue(p: InputPatch, q: InputPatch, k: Var)
    ensures k in p + q <==> k in p || k in q
    ensures k in q ==> (p + q)[k] == q[k]
    ensures k !in q && k in p ==> (p + q)[k] == p[k]
  {
  }

  /** Actions that write different slots can be dispatched in either order. */
  lemma IndependentActionsCommute(state: State, a: Action, b: Action)
    requires Writes(a) !! Writes(b)
    ensures Reduce(Reduce(state, a), b) == Reduce(Reduce(state, b), a)
  {
  }

  /** The initial state holds the initial input, no result, no preset, and is
      neither dirty nor busy; marking it dirty and clearing it again returns
      to it. */
  lemma InitialStateSpec()
    ensures CreateInitialState().input == CreateInitialInput()
    ensures CreateInitialState().result.None? && CreateInitialState().selectedPresetId.None?
    ensures !CreateInitialState().isDirty && !CreateInitialState().isBusy
    ensures Reduce(Reduce(CreateInitialState(), MarkDirty), ClearDirty) == CreateInitialState()
  {
  }
}
