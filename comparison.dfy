/** Comparison mode: field-by-field differences between two calculations
    (A and B), and the flag that says whether the comparison view is shown.
    The view's rendering is not modelled; the two tab states it reads from
    storage are parameters. */
module ComparisonMode {
  import opened Wrappers
  import FC = FuelCalculator

  /** The absolute and the percent change from A to B, each rounded to
      hundredths. */
  datatype Difference = Difference(absolute: real, percent: real)

  /** `calculateDifference`; the percent change from 0 is taken as 0. */
  function CalculateDifference(valueA: real, valueB: real): (d: Difference)
    ensures valueB - valueA - 0.005 < d.absolute <= valueB - valueA + 0.005
    ensures FC.IsHundredths(d.absolute) && FC.IsHundredths(d.percent)
    ensures valueA == 0.0 ==> d.percent == 0.0
    ensures valueA != 0.0 ==>
              var p := (valueB - valueA) / valueA * 100.0;
              p - 0.005 < d.percent <= p + 0.005
  {
    var absolute := valueB - valueA;
    var percent := if valueA != 0.0 then absolute / valueA * 100.0 else 0.0;
    FC.RoundTo2KeepsHundredths(0.0);
    Difference(FC.RoundTo2(FC.Finite(absolute)), FC.RoundTo2(FC.Finite(percent)))
  }

  /** Comparing a value with itself shows no change. */
  lemma NoChangeForEqualValues(value: real)
    ensures CalculateDifference(value, value) == Difference(0.0, 0.0)
  {
  }

  /** An increase never shows as a decrease, in either figure. */
  lemma IncreaseShowsNonNegative(valueA: real, valueB: real)
    requires valueA <= valueB
    ensures CalculateDifference(valueA, valueB).absolute >= 0.0
    ensures valueA > 0.0 ==> CalculateDifference(valueA, valueB).percent >= 0.0
  {
  }

  // ---------------------------------------------------------------------
  // compareCalculations
  // ---------------------------------------------------------------------

  datatype OutputField = FlightFuel | VariableReserve | ReserveFuel | TotalFuel

  const InputFields: seq<FC.Field> :=
    [FC.Distance, FC.Speed, FC.FlightTime, FC.FinalReserve, FC.Holding, FC.Contingency]

  const OutputFields: seq<OutputField> := [FlightFuel, VariableReserve, ReserveFuel, TotalFuel]

  const AllOutputFields: set<OutputField> := {FlightFuel, VariableReserve, ReserveFuel, TotalFuel}

  /** A tab's saved state: its name ("" when unnamed) and, once it has been
      calculated, its echoed inputs and its outputs. A saved record may lack
      some fields. */
  datatype TabState = TabState(
    name: string,
    inputs: Option<map<FC.Field, real>>,
    outputs: Option<map<OutputField, real>>)

  /** One row of the comparison: A's value, B's value and the change. */
  datatype Entry = Entry(a: real, b: real, diff: Difference)

  datatype Comparison = Comparison(
    nameA: string, nameB: string,
    inputs: map<FC.Field, Entry>,
    outputs: map<OutputField, Entry>)

  /** `state.inputs?.[field] || 0`: a missing record or field reads as 0. */
  function ValueOrZero<K>(values: Option<map<K, real>>, key: K): (v: real)
    ensures values.Some? && key in values.value ==> v == values.value[key]
    ensures values.None? || key !in values.value ==> v == 0.0
  {
    if values.Some? && key in values.value then values.value[key] else 0.0
  }

  /** `name || fallback`. */
  function NameOr(name: string, fallback: string): (r: string)
    ensures fallback != "" ==> r != ""
    ensures name != "" ==> r == name
    ensures name == "" ==> r == fallback
  {
    if name != "" then name else fallback
  }

  function EntryOf(valueA: real, valueB: real): Entry {
    Entry(valueA, valueB, CalculateDifference(valueA, valueB))
  }

  /** The comparison of two tab states: none unless both have outputs. */
  function Compare(stateA: TabState, stateB: TabState): Option<Comparison> {
    if stateA.outputs.None? || stateB.outputs.None? then None
    else Some(Comparison(
      NameOr(stateA.name, "Calculation A"),
      NameOr(stateB.name, "Calculation B"),
      map f | f in InputFields :: EntryOf(ValueOrZero(stateA.inputs, f), ValueOrZero(stateB.inputs, f)),
      map f | f in OutputFields :: EntryOf(ValueOrZero(stateA.outputs, f), ValueOrZero(stateB.outputs, f))))
  }

  /** `compareCalculations`: one `forEach` over the six input fields and one
      over the four output fields, each filling its dictionary. */
  method CompareCalculations(stateA: TabState, stateB: TabState) returns (comparison: Option<Comparison>)
    ensures comparison == Compare(stateA, stateB)
    ensures comparison.None? <==> stateA.outputs.None? || stateB.outputs.None?
    ensures comparison.Some? ==>
              var c := comparison.value;
              && c.inputs.Keys == FC.AllFields
              && c.outputs.Keys == AllOutputFields
              && c.nameA == NameOr(stateA.name, "Calculation A")
              && c.nameB == NameOr(stateB.name, "Calculation B")
              && (forall f :: f in c.inputs ==>
                    c.inputs[f] == EntryOf(ValueOrZero(stateA.inputs, f), ValueOrZero(stateB.inputs, f)))
              && (forall f :: f in c.outputs ==>
                    c.outputs[f] == EntryOf(ValueOrZero(stateA.outputs, f), ValueOrZero(stateB.outputs, f)))
  {
    if stateA.outputs.None? || stateB.outputs.None? {
      return None;
    }

    var inputs: map<FC.Field, Entry> := map[];
    for k := 0 to |InputFields|
      invariant inputs == map f | f in InputFields[..k] ::
                            EntryOf(ValueOrZero(stateA.inputs, f), ValueOrZero(stateB.inputs, f))
    {
      var field := InputFields[k];
      var valA := ValueOrZero(stateA.inputs, field);
      var valB := ValueOrZero(stateB.inputs, field);
      assert InputFields[..k + 1] == InputFields[..k] + [field];
      inputs := inputs[field := Entry(valA, valB, CalculateDifference(valA, valB))];
    }
    assert InputFields[..|InputFields|] == InputFields;

    var outputs: map<OutputField, Entry> := map[];
    for k := 0 to |OutputFields|
      invariant outputs == map f | f in OutputFields[..k] ::
                             EntryOf(ValueOrZero(stateA.outputs, f), ValueOrZero(stateB.outputs, f))
    {
      var field := OutputFields[k];
      var valA := ValueOrZero(stateA.outputs, field);
      var valB := ValueOrZero(stateB.outputs, field);
      assert OutputFields[..k + 1] == OutputFields[..k] + [field];
      outputs := outputs[field := Entry(valA, valB, CalculateDifference(valA, valB))];
    }
    assert OutputFields[..|OutputFields|] == OutputFields;

    comparison := Some(Comparison(
      NameOr(stateA.name, "Calculation A"), NameOr(stateB.name, "Calculation B"), inputs, outputs));
    assert inputs.Keys == FC.AllFields;
    assert outputs.Keys == AllOutputFields;
  }

  /** A calculated state compared with itself shows no change anywhere. */
  lemma SelfComparisonShowsNoChange(state: TabState)
    requires state.outputs.Some?
    ensures Compare(state, state).Some?
    ensures var c := Compare(state, state).value;
            && (forall f :: f in c.inputs ==> c.inputs[f].diff == Difference(0.0, 0.0))
            && (forall f :: f in c.outputs ==> c.outputs[f].diff == Difference(0.0, 0.0))
  {
  }

  // ---------------------------------------------------------------------
  // The comparison view's state
  // ---------------------------------------------------------------------

  /** The module-level `isComparisonActive` flag and the comparison kept for
      export (`window.currentComparison`). */
  class ComparisonView {
    var isComparisonActive: bool
    var currentComparison: Option<Comparison>

    /** A comparison is kept exactly while the view is shown. */
    ghost predicate Valid()
      reads this
    {
      isComparisonActive <==> currentComparison.Some?
    }

    constructor ()
      ensures Valid()
      ensures !isComparisonActive && currentComparison == None
    {
      isComparisonActive := false;
      currentComparison := None;
    }

    /** `showComparison`: shown only when both tabs have results; otherwise
        nothing changes. */
    method ShowComparison(stateA: TabState, stateB: TabState)
      requires Valid()
      modifies this
      ensures Valid()
      ensures Compare(stateA, stateB).Some? ==>
                isComparisonActive && currentComparison == Compare(stateA, stateB)
      ensures Compare(stateA, stateB).None? ==>
                isComparisonActive == old(isComparisonActive) && currentComparison == old(currentComparison)
    {
      var comparison := CompareCalculations(stateA, stateB);
      if comparison.None? {
        return;
      }
      isComparisonActive := true;
      currentComparison := comparison;
    }

    /** `hideComparison`: always back to the tabs. */
    method HideComparison()
      modifies this
      ensures Valid()
      ensures !isComparisonActive && currentComparison == None
    {
      isComparisonActive := false;
      currentComparison := None;
    }

    /** `toggleComparison`: hide when shown, otherwise try to show. */
    method ToggleComparison(stateA: TabState, stateB: TabState)
      requires Valid()
      modifies this
      ensures Valid()
      ensures old(isComparisonActive) ==> !isComparisonActive && currentComparison == None
      ensures !old(isComparisonActive) && Compare(stateA, stateB).Some? ==>
                isComparisonActive && currentComparison == Compare(stateA, stateB)
      ensures !old(isComparisonActive) && Compare(stateA, stateB).None? ==>
                !isComparisonActive && currentComparison == None
    {
      if isComparisonActive {
        HideComparison();
      } else {
        ShowComparison(stateA, stateB);
      }
    }

    /** `isActive`. */
    function IsActive(): (active: bool)
      reads this
      ensures Valid() ==> (active <==> currentComparison.Some?)
    {
      isComparisonActive
    }

    /** `getCurrentComparison`. */
    function GetCurrentComparison(): (c: Option<Comparison>)
      reads this
      ensures Valid() ==> (c.Some? <==> isComparisonActive)
    {
      currentComparison
    }
  }
}
