/** The input form's list logic: the option labels shown for each
    multi-select field (its defaults, then any further keys the current input
    carries, without repeats), the checkbox toggle, and the single-field
    updates the form dispatches. */
module InputsForm {
  import opened ClassifierTypes
  import ClassifierReducer
  import opened UniqueLists

  /** The multi-select fields, in the order the form derives them. */
  const MultiFields: seq<Var> := [VasActiviteiten, InboundBijzonderheden, PostnlApis]

  /** The labels offered by default for each multi-select field. */
  function DefaultOptions(k: Var): seq<string>
    requires IsMulti(k)
  {
    match k
    case VasActiviteiten => ["stickeren", "bundelen", "inspectie", "labelen", "sets bouwen"]
    case InboundBijzonderheden => ["kwaliteitscontrole", "afwijkende verpakking", "barcodering", "douane-documentatie"]
    case PostnlApis => ["Locatie", "Checkout", "Retour", "Track & Trace", "Order Management"]
  }

  /** The derived option list of one field: the defaults, then the input's
      keys, each label once, with one `seen` set shared by both passes.
      `keys` is the key enumeration of the field's option map. */
  method MergeOptions(defaults: seq<string>, keys: seq<string>) returns (options: seq<string>)
    ensures options == Dedup(defaults + keys)
  {
    var all := defaults + keys;
    var seen: set<string>;
    options, seen := PushUnseen(all, 0, |defaults|, [], {});
    options, seen := PushUnseen(all, |defaults|, |all|, options, seen);
    assert all[..|all|] == all;
  }

  /** For every field the derived list starts with the defaults in their
      listed order, contains every default and every key of the input's
      option map, nothing else, and no label twice. `keys` enumerates the
      keys of that map. */
  lemma DerivedOptionsSpec(k: Var, input: ClassifierInput, keys: seq<string>)
    requires IsMulti(k)
    requires forall o :: o in keys <==> o in Get(input, k).m
    ensures var d := Dedup(DefaultOptions(k) + keys);
      && NoDuplicates(d)
      && |DefaultOptions(k)| <= |d| && d[..|DefaultOptions(k)|] == DefaultOptions(k)
      && (forall o :: o in d <==> o in DefaultOptions(k) || o in Get(input, k).m)
  {
    var defaults := DefaultOptions(k);
    DedupSpec(defaults + keys);
    DedupExtends(defaults, keys);
    DefaultsDistinct(k);
    DedupDistinct(defaults);
  }

  lemma DefaultsDistinct(k: Var)
    requires IsMulti(k)
    ensures NoDuplicates(DefaultOptions(k))
  {
  }

  /** The derivation over the three multi-select fields of `input`;
      `keyOrder(k)` enumerates the keys of field `k`'s option map. Each
      derived list holds exactly the defaults and the keys of that map. */
  method DeriveMultiOptions(input: ClassifierInput, keyOrder: Var -> seq<string>) returns (derived: map<Var, seq<string>>)
    requires forall k, o :: IsMulti(k) ==> (o in keyOrder(k) <==> o in Get(input, k).m)
    ensures forall k :: k in derived <==> k in MultiFields
    ensures forall k :: k in derived ==> IsMulti(k) && derived[k] == Dedup(DefaultOptions(k) + keyOrder(k))
    ensures forall k, o :: k in derived ==> (o in derived[k] <==> o in DefaultOptions(k) || o in Get(input, k).m)
  {
    derived := map[];
    for i := 0 to |MultiFields|
      invariant forall k :: k in derived <==> k in MultiFields[..i]
      invariant forall k :: k in derived ==> IsMulti(k) && derived[k] == Dedup(DefaultOptions(k) + keyOrder(k))
    {
      var group := MultiFields[i];
      var options := MergeOptions(DefaultOptions(group), keyOrder(group));
      assert MultiFields[..i + 1] == MultiFields[..i] + [group];
      derived := derived[group := options];
    }
    assert MultiFields[..|MultiFields|] == MultiFields;
    DerivedMembers(derived, input, keyOrder);
  }

  lemma DerivedMembers(derived: map<Var, seq<string>>, input: ClassifierInput, keyOrder: Var -> seq<string>)
    requires forall k, o :: IsMulti(k) ==> (o in keyOrder(k) <==> o in Get(input, k).m)
    requires forall k :: k in derived ==> IsMulti(k) && derived[k] == Dedup(DefaultOptions(k) + keyOrder(k))
    ensures forall k, o :: k in derived ==> (o in derived[k] <==> o in DefaultOptions(k) || o in Get(input, k).m)
  {
    forall k | k in derived
      ensures forall o :: o in derived[k] <==> o in DefaultOptions(k) || o in Get(input, k).m
    {
      DerivedOptionsSpec(k, input, keyOrder(k));
    }
  }

  // ---------- Toggle and single-field updates ----------

  /** `{...current, [option]: !current?.[option]}`. */
  function Toggle(current: MultiOptions, option: string): MultiOptions {
    current[option := !(option in current && current[option])]
  }

  /** Toggling flips the option's truthiness (an absent option becomes
      ticked), keeps every other option, and toggling twice restores the
      option's truthiness. */
  lemma ToggleSpec(current: MultiOptions, option: string)
    ensures var next := Toggle(current, option);
      && next.Keys == current.Keys + {option}
      && next[option] == !(option in current && current[option])
      && (forall o :: o in current && o != option ==> next[o] == current[o])
      && Toggle(next, option)[option] == (option in current && current[option])
  {
  }

  /** Toggling an unticked option is ticking it. */
  lemma ToggleTicks(current: MultiOptions, option: string)
    requires !(option in current && current[option])
    ensures Toggle(current, option) == current[option := true]
  {
  }

  /** `updateInput`: a patch holding one field. */
  function UpdateInput(k: Var, v: Value): ClassifierReducer.Action {
    ClassifierReducer.SetInputPartial(map[k := v])
  }

  /** `Number(text) || 0`: a number that did not parse (NaN) becomes 0; every
      other number is kept. */
  function NumberOrZero(parsed: Option<real>): real {
    match parsed
    case None => 0.0
    case Some(x) => if x == 0.0 then 0.0 else x
  }

  function HandleNumberChange(field: Var, parsed: Option<real>): ClassifierReducer.Action
    requires IsNumeric(field)
  {
    UpdateInput(field, Num(NumberOrZero(parsed)))
  }

  /** A form update sets exactly its own field and leaves the other fields
      and the rest of the state as they were. */
  lemma UpdateInputSpec(state: ClassifierReducer.State, k: Var, v: Value, other: Var)
    requires Fits(k, v)
    ensures var next := ClassifierReducer.Reduce(state, UpdateInput(k, v));
      && Get(next.input, k) == v
      && (other != k ==> Get(next.input, other) == Get(state.input, other))
      && next.(input := state.input) == state
  {
    ClassifierReducer.ReduceSpec(state, UpdateInput(k, v), k);
    ClassifierReducer.ReduceSpec(state, UpdateInput(k, v), other);
  }

  /** A number change stores the parsed number, or 0 when it did not parse. */
  lemma HandleNumberChangeSpec(state: ClassifierReducer.State, field: Var, parsed: Option<real>)
    requires IsNumeric(field)
    ensures var next := ClassifierReducer.Reduce(state, HandleNumberChange(field, parsed));
      Get(next.input, field) == Num(if parsed.Some? then parsed.value else 0.0)
  {
    UpdateInputSpec(state, field, Num(NumberOrZero(parsed)), field);
  }

  /** A checkbox click dispatches the toggled option map of its field. */
  function HandleMultiToggle(input: ClassifierInput, group: Var, option: string): ClassifierReducer.Action
    requires IsMulti(group)
  {
    UpdateInput(group, Multi(Toggle(Get(input, group).m, option)))
  }
}
