/** The calculation engine of the drone fuel calculator: the configuration
    bounds, the two rounding helpers, the flight-time derivation, the three
    fuel formulas, per-field validation and the `calculate` pipeline.
    Numbers are reals; JavaScript's NaN and infinities appear only where the
    code tests for them. */
module FuelCalculator {
  import opened Wrappers

  // ---------------------------------------------------------------------
  // Configuration
  // ---------------------------------------------------------------------

  datatype Config = Config(
    fuelRate: real,               // kg/hr
    variableReservePercent: real, // share of the flight fuel
    minDistance: real, maxDistance: real,
    minSpeed: real, maxSpeed: real,
    minFlightTime: real, maxFlightTime: real,
    minReserve: real,
    maxFinalReserve: real, maxHolding: real, maxContingency: real)

  const CONFIG: Config :=
    Config(1.4, 0.10, 0.01, 10000.0, 0.01, 140.0, 0.01, 24.0, 0.0, 5.0, 10.0, 5.0)

  /** The fuel rate is positive, the variable reserve is a share strictly
      between 0 and 1, the reserve minimum is exactly 0, and every minimum is
      below its maximum. */
  ghost predicate ConsistentBounds(c: Config) {
    && 0.0 < c.fuelRate
    && 0.0 < c.variableReservePercent < 1.0
    && 0.0 < c.minDistance < c.maxDistance
    && 0.0 < c.minSpeed < c.maxSpeed
    && 0.0 < c.minFlightTime < c.maxFlightTime
    && 0.0 == c.minReserve
    && c.minReserve < c.maxFinalReserve
    && c.minReserve < c.maxHolding
    && c.minReserve < c.maxContingency
  }

  /** A copy of the configuration constants. */
  function GetConfig(): (c: Config)
    ensures ConsistentBounds(c)
    ensures c.fuelRate == 1.4 && c.variableReservePercent == 0.10
  {
    CONFIG
  }

  // ---------------------------------------------------------------------
  // Rounding
  // ---------------------------------------------------------------------

  /** A JavaScript number as the rounding helpers see it: finite, or one of
      NaN, +Infinity and -Infinity, which the helpers treat alike. */
  datatype JsNumber = Finite(value: real) | NotFinite

  /** `Math.ceil`: the least integer not below `y`. */
  function Ceil(y: real): (c: int)
    ensures c as real - 1.0 < y <= c as real
  {
    -((-y).Floor)
  }

  /** `Math.round`: the nearest integer, halves going up. */
  function Round(y: real): (n: int)
    ensures y - 0.5 < n as real <= y + 0.5
  {
    (y + 0.5).Floor
  }

  /** `r` is a whole number of tenths. */
  ghost predicate IsTenths(r: real) {
    (r * 10.0).Floor as real == r * 10.0
  }

  /** `r` is a whole number of hundredths. */
  ghost predicate IsHundredths(r: real) {
    (r * 100.0).Floor as real == r * 100.0
  }

  /** Rounds a fuel figure UP to one decimal place; NaN and infinities give 0. */
  function RoundFuelUp(n: JsNumber): (r: real)
    ensures n.NotFinite? ==> r == 0.0
    ensures n.Finite? ==> n.value <= r < n.value + 0.1 && IsTenths(r)
  {
    match n
    case NotFinite => 0.0
    case Finite(x) =>
      var c := Ceil(x * 10.0);
      assert (c as real / 10.0) * 10.0 == c as real;
      c as real / 10.0
  }

  /** Rounds to the nearest hundredth, halves going up; NaN and infinities
      give 0. */
  function RoundTo2(n: JsNumber): (r: real)
    ensures n.NotFinite? ==> r == 0.0
    ensures n.Finite? ==> n.value - 0.005 < r <= n.value + 0.005 && IsHundredths(r)
  {
    match n
    case NotFinite => 0.0
    case Finite(x) =>
      var k := Round(x * 100.0);
      assert (k as real / 100.0) * 100.0 == k as real;
      k as real / 100.0
  }

  // ---------------------------------------------------------------------
  // Fuel formulas
  // ---------------------------------------------------------------------

  /** Hours needed to cover `distance` km at `speed` m/s (3.6 km/h per m/s);
      0 when the distance is 0 (or absent) or the speed is not positive. */
  function CalculateFlightTime(distance: real, speed: real): (t: real)
    ensures distance == 0.0 || speed <= 0.0 ==> t == 0.0
    ensures distance != 0.0 && speed > 0.0 ==> t * (speed * 3.6) == distance
    ensures distance > 0.0 && speed > 0.0 ==> t > 0.0
  {
    if distance == 0.0 || speed <= 0.0 then 0.0 else distance / (speed * 3.6)
  }

  /** Fuel burnt at the fixed rate over `flightTime` hours; none for a
      flight time that is not positive. */
  function CalculateFlightFuel(flightTime: real): (f: real)
    ensures f >= 0.0
    ensures flightTime <= 0.0 ==> f == 0.0
    ensures flightTime > 0.0 ==> f / flightTime == CONFIG.fuelRate
  {
    if flightTime <= 0.0 then 0.0 else flightTime * CONFIG.fuelRate
  }

  /** The variable reserve: one tenth of the flight fuel it is given. */
  function CalculateVariableReserve(flightFuel: real): (v: real)
    ensures v * 10.0 == flightFuel
  {
    flightFuel * CONFIG.variableReservePercent
  }

  /** Fuel for the three reserve allocations together, at the same rate as
      flight fuel. */
  function CalculateReserveFuel(finalReserve: real, holding: real, contingency: real): (r: real)
    ensures finalReserve >= 0.0 && holding >= 0.0 && contingency >= 0.0 ==> r >= 0.0
    ensures finalReserve + holding + contingency >= 0.0 ==>
              r == CalculateFlightFuel(finalReserve + holding + contingency)
  {
    (finalReserve + holding + contingency) * CONFIG.fuelRate
  }

  datatype Outputs = Outputs(flightFuel: real, variableReserve: real, reserveFuel: real, totalFuel: real)

  /** The four fuel figures, in order, each rounded up to a tenth before it
      feeds the next. */
  function ComputeFuel(flightTime: real, finalReserve: real, holding: real, contingency: real): (o: Outputs)
    // each figure is a whole number of tenths
    ensures IsTenths(o.flightFuel) && IsTenths(o.variableReserve)
    ensures IsTenths(o.reserveFuel) && IsTenths(o.totalFuel)
    // never rounded down, and by less than a tenth
    ensures flightTime <= 0.0 ==> o.flightFuel == 0.0
    ensures flightTime > 0.0 ==>
              flightTime * CONFIG.fuelRate <= o.flightFuel < flightTime * CONFIG.fuelRate + 0.1
    ensures o.flightFuel * 0.1 <= o.variableReserve < o.flightFuel * 0.1 + 0.1
    ensures var reserveTime := finalReserve + holding + contingency;
            reserveTime * CONFIG.fuelRate <= o.reserveFuel < reserveTime * CONFIG.fuelRate + 0.1
    // the total is exactly the sum of the rounded components
    ensures o.totalFuel == o.flightFuel + o.variableReserve + o.reserveFuel
    ensures o.flightFuel >= 0.0 && o.variableReserve >= 0.0
    // with a non-negative reserve time, nothing is negative and the total covers each part
    ensures finalReserve + holding + contingency >= 0.0 ==>
              && o.reserveFuel >= 0.0
              && o.totalFuel >= o.flightFuel && o.totalFuel >= o.variableReserve
              && o.totalFuel >= o.reserveFuel
  {
    var flightFuel := RoundFuelUp(Finite(CalculateFlightFuel(flightTime)));
    var variableReserve := RoundFuelUp(Finite(CalculateVariableReserve(flightFuel)));
    var reserveFuel := RoundFuelUp(Finite(CalculateReserveFuel(finalReserve, holding, contingency)));
    var sum := flightFuel + variableReserve + reserveFuel;
    TenthsAdd(flightFuel, variableReserve);
    TenthsAdd(flightFuel + variableReserve, reserveFuel);
    RoundFuelUpKeepsTenths(sum);
    Outputs(flightFuel, variableReserve, reserveFuel, RoundFuelUp(Finite(sum)))
  }

  // ---------------------------------------------------------------------
  // Rounding lemmas
  // ---------------------------------------------------------------------

  lemma TenthsAdd(a: real, b: real)
    requires IsTenths(a) && IsTenths(b)
    ensures IsTenths(a + b)
  {
    var ka, kb := (a * 10.0).Floor, (b * 10.0).Floor;
    assert (a + b) * 10.0 == (ka + kb) as real;
  }

  /** RoundFuelUp gives the LEAST whole number of tenths not below x. */
  lemma RoundFuelUpIsLeast(x: real, y: real)
    requires IsTenths(y) && x <= y
    ensures RoundFuelUp(Finite(x)) <= y
  {
    var k := (y * 10.0).Floor;
    assert x * 10.0 <= k as real;
    assert Ceil(x * 10.0) <= k;
    assert RoundFuelUp(Finite(x)) == Ceil(x * 10.0) as real / 10.0;
  }

  /** A figure that is already a whole number of tenths is left alone. */
  lemma RoundFuelUpKeepsTenths(y: real)
    requires IsTenths(y)
    ensures RoundFuelUp(Finite(y)) == y
  {
    RoundFuelUpIsLeast(y, y);
  }

  /** More fuel before rounding never gives less after it. */
  lemma RoundFuelUpMonotone(x: real, y: real)
    requires x <= y
    ensures RoundFuelUp(Finite(x)) <= RoundFuelUp(Finite(y))
  {
    RoundFuelUpIsLeast(x, RoundFuelUp(Finite(y)));
  }

  /** RoundTo2 never reverses the order of two values. */
  lemma RoundTo2Monotone(x: real, y: real)
    requires x <= y
    ensures RoundTo2(Finite(x)) <= RoundTo2(Finite(y))
  {
    assert (x * 100.0 + 0.5) <= (y * 100.0 + 0.5);
    assert Round(x * 100.0) <= Round(y * 100.0);
  }

  /** A value that is already a whole number of hundredths is left alone. */
  lemma RoundTo2KeepsHundredths(y: real)
    requires IsHundredths(y)
    ensures RoundTo2(Finite(y)) == y
  {
    var k := (y * 100.0).Floor;
    assert y * 100.0 + 0.5 == k as real + 0.5;
    assert Round(y * 100.0) == k;
  }

  // ---------------------------------------------------------------------
  // Validation
  // ---------------------------------------------------------------------

  datatype Field = Distance | Speed | FlightTime | FinalReserve | Holding | Contingency

  const AllFields: set<Field> := {Distance, Speed, FlightTime, FinalReserve, Holding, Contingency}

  /** A raw form value as `calculate` receives it: absent (`null`,
      `undefined`, ''), a finite number, something `parseFloat` turns into
      NaN, or an infinity (which `parseFloat` passes through). */
  datatype Raw = Empty | Num(v: real) | Unparsable | Infinite(negative: bool)

  /** Why a field was rejected; the (fixed) message text is `Message`. */
  datatype ErrorKind = Required | NotANumber | BelowMin | AboveMax

  function Label(f: Field): string {
    match f
    case Distance => "Distance"
    case Speed => "Cruise Speed"
    case FlightTime => "Flight Time"
    case FinalReserve => "Final Reserve"
    case Holding => "Holding"
    case Contingency => "Contingency"
  }

  function Min(f: Field): real {
    match f
    case Distance => CONFIG.minDistance
    case Speed => CONFIG.minSpeed
    case FlightTime => CONFIG.minFlightTime
    case FinalReserve => CONFIG.minReserve
    case Holding => CONFIG.minReserve
    case Contingency => CONFIG.minReserve
  }

  function Max(f: Field): real {
    match f
    case Distance => CONFIG.maxDistance
    case Speed => CONFIG.maxSpeed
    case FlightTime => CONFIG.maxFlightTime
    case FinalReserve => CONFIG.maxFinalReserve
    case Holding => CONFIG.maxHolding
    case Contingency => CONFIG.maxContingency
  }

  /** How JavaScript prints each bound inside a message. */
  function MinText(f: Field): string {
    match f
    case Distance => "0.01"
    case Speed => "0.01"
    case FlightTime => "0.01"
    case _ => "0"
  }

  function MaxText(f: Field): string {
    match f
    case Distance => "10000"
    case Speed => "140"
    case FlightTime => "24"
    case FinalReserve => "5"
    case Holding => "10"
    case Contingency => "5"
  }

  predicate IsRequired(f: Field) {
    f == FlightTime || f == FinalReserve
  }

  /** The text shown for a rejected field. */
  function Message(f: Field, k: ErrorKind): (m: string)
    ensures Label(f) <= m
    ensures k == AboveMax ==> m == Label(f) + " cannot exceed " + MaxText(f)
  {
    Label(f) +
      match k
      case Required => " is required"
      case NotANumber => " must be a valid number"
      case BelowMin => " must be at least " + MinText(f)
      case AboveMax => " cannot exceed " + MaxText(f)
  }

  /** One field's check, in `validateInput`'s order: required and empty; optional
      and empty (accepted); not a number; below the minimum; above the
      maximum. Both bounds are inclusive. */
  function ValidateInput(value: Raw, min: real, max: real, required: bool): (r: Option<ErrorKind>)
    ensures r == Some(Required) <==> required && value.Empty?
    ensures r == Some(NotANumber) <==> value.Unparsable?
    ensures r == Some(BelowMin) <==> (value.Num? && value.v < min) || value == Infinite(true)
    ensures r == Some(AboveMax) <==>
              (value.Num? && min <= value.v && max < value.v) || value == Infinite(false)
    ensures r == None <==> (value.Empty? && !required) || (value.Num? && min <= value.v <= max)
  {
    if required && value.Empty? then Some(Required)
    else if value.Empty? then None
    else if value.Unparsable? then Some(NotANumber)
    else if value.Infinite? then (if value.negative then Some(BelowMin) else Some(AboveMax))
    else if value.v < min then Some(BelowMin)
    else if value.v > max then Some(AboveMax)
    else None
  }

  datatype RawInputs = RawInputs(
    distance: Raw, speed: Raw, flightTime: Raw,
    finalReserve: Raw, holding: Raw, contingency: Raw)

  function RawOf(i: RawInputs, f: Field): Raw {
    match f
    case Distance => i.distance
    case Speed => i.speed
    case FlightTime => i.flightTime
    case FinalReserve => i.finalReserve
    case Holding => i.holding
    case Contingency => i.contingency
  }

  /** The verdict on field `f` of `i`, with that field's bounds. */
  function FieldError(i: RawInputs, f: Field): Option<ErrorKind> {
    ValidateInput(RawOf(i, f), Min(f), Max(f), IsRequired(f))
  }

  /** A raw value field `f` accepts: absent when optional, or a number in
      its closed range. */
  predicate Acceptable(f: Field, raw: Raw) {
    (raw.Empty? && !IsRequired(f)) || (raw.Num? && Min(f) <= raw.v <= Max(f))
  }

  /** Every field of `i` is acceptable. */
  predicate Validated(i: RawInputs) {
    && Acceptable(Distance, i.distance)
    && Acceptable(Speed, i.speed)
    && Acceptable(FlightTime, i.flightTime)
    && Acceptable(FinalReserve, i.finalReserve)
    && Acceptable(Holding, i.holding)
    && Acceptable(Contingency, i.contingency)
  }

  /** The errors of the fields in `fs`. */
  function ErrorsAmong(i: RawInputs, fs: set<Field>): map<Field, ErrorKind> {
    map f | f in fs && FieldError(i, f).Some? :: FieldError(i, f).value
  }

  /** All errors of `i`: every field is checked, none hides another. */
  function Errors(i: RawInputs): (e: map<Field, ErrorKind>)
    ensures forall f :: f in e <==> FieldError(i, f).Some?
    ensures forall f :: f in e ==> Some(e[f]) == FieldError(i, f)
  {
    ErrorsAmong(i, AllFields)
  }

  /** Checking one more field adds exactly that field's error, if any. */
  lemma ErrorsAmongStep(i: RawInputs, fs: set<Field>, f: Field, errors: map<Field, ErrorKind>)
    requires errors == ErrorsAmong(i, fs)
    ensures FieldError(i, f).Some? ==> errors[f := FieldError(i, f).value] == ErrorsAmong(i, fs + {f})
    ensures FieldError(i, f).None? ==> errors == ErrorsAmong(i, fs + {f})
  {
  }

  /** `validateInputs`: six sequential blocks, each adding its field's error
      to the map and clearing `valid`. */
  method ValidateInputs(inputs: RawInputs) returns (valid: bool, errors: map<Field, ErrorKind>)
    ensures errors == Errors(inputs)
    ensures valid <==> errors == map[]
  {
    errors := map[];
    valid := true;
    ghost var checked: set<Field> := {};
    assert errors == ErrorsAmong(inputs, checked);

    ErrorsAmongStep(inputs, checked, Distance, errors);
    var distanceValidation := ValidateInput(inputs.distance, CONFIG.minDistance, CONFIG.maxDistance, false);
    assert distanceValidation == FieldError(inputs, Distance);
    if distanceValidation.Some? {
      errors := errors[Distance := distanceValidation.value];
      valid := false;
    }
    checked := checked + {Distance};
    assert errors == ErrorsAmong(inputs, checked);

    ErrorsAmongStep(inputs, checked, Speed, errors);
    var speedValidation := ValidateInput(inputs.speed, CONFIG.minSpeed, CONFIG.maxSpeed, false);
    assert speedValidation == FieldError(inputs, Speed);
    if speedValidation.Some? {
      errors := errors[Speed := speedValidation.value];
      valid := false;
    }
    checked := checked + {Speed};
    assert errors == ErrorsAmong(inputs, checked);

    ErrorsAmongStep(inputs, checked, FlightTime, errors);
    var flightTimeValidation := ValidateInput(inputs.flightTime, CONFIG.minFlightTime, CONFIG.maxFlightTime, true);
    assert flightTimeValidation == FieldError(inputs, FlightTime);
    if flightTimeValidation.Some? {
      errors := errors[FlightTime := flightTimeValidation.value];
      valid := false;
    }
    checked := checked + {FlightTime};
    assert errors == ErrorsAmong(inputs, checked);

    ErrorsAmongStep(inputs, checked, FinalReserve, errors);
    var finalReserveValidation := ValidateInput(inputs.finalReserve, CONFIG.minReserve, CONFIG.maxFinalReserve, true);
    assert finalReserveValidation == FieldError(inputs, FinalReserve);
    if finalReserveValidation.Some? {
      errors := errors[FinalReserve := finalReserveValidation.value];
      valid := false;
    }
    checked := checked + {FinalReserve};
    assert errors == ErrorsAmong(inputs, checked);

    ErrorsAmongStep(inputs, checked, Holding, errors);
    if !inputs.holding.Empty? {
      var holdingValidation := ValidateInput(inputs.holding, CONFIG.minReserve, CONFIG.maxHolding, false);
      assert holdingValidation == FieldError(inputs, Holding);
      if holdingValidation.Some? {
        errors := errors[Holding := holdingValidation.value];
        valid := false;
      }
    }
    checked := checked + {Holding};
    assert errors == ErrorsAmong(inputs, checked);

    ErrorsAmongStep(inputs, checked, Contingency, errors);
    if !inputs.contingency.Empty? {
      var contingencyValidation := ValidateInput(inputs.contingency, CONFIG.minReserve, CONFIG.maxContingency, false);
      assert contingencyValidation == FieldError(inputs, Contingency);
      if contingencyValidation.Some? {
        errors := errors[Contingency := contingencyValidation.value];
        valid := false;
      }
    }
    checked := checked + {Contingency};
    assert errors == ErrorsAmong(inputs, checked);
    assert checked == AllFields;
  }

  /** No errors exactly when every field is acceptable. */
  lemma NoErrorsIffValidated(i: RawInputs)
    ensures Errors(i) == map[] <==> Validated(i)
  {
    var e := Errors(i);
    if e == map[] {
      assert FieldError(i, Distance).None? && FieldError(i, Speed).None?;
      assert FieldError(i, FlightTime).None? && FieldError(i, FinalReserve).None?;
      assert FieldError(i, Holding).None? && FieldError(i, Contingency).None?;
    } else {
      var f :| f in e;
      assert !Acceptable(f, RawOf(i, f));
    }
  }

  // ---------------------------------------------------------------------
  // calculate
  // ---------------------------------------------------------------------

  datatype Inputs = Inputs(
    distance: real, speed: real, flightTime: real,
    finalReserve: real, holding: real, contingency: real)

  datatype Metadata = Metadata(fuelRate: real, calculatedFlightTime: Option<real>)

  datatype Calculation =
    | Failure(errors: map<Field, ErrorKind>)
    | Success(inputs: Inputs, outputs: Outputs, metadata: Metadata)

  /** `parseFloat(x) || 0` for a value that is not an infinity. */
  function ParsedOrZero(raw: Raw): (x: real)
    requires !raw.Infinite?
    ensures raw.Num? ==> x == raw.v
    ensures !raw.Num? ==> x == 0.0
  {
    if raw.Num? then raw.v else 0.0
  }

  /** `!inputs.flightTime || parseFloat(inputs.flightTime) === 0`: the user
      left flight time blank or zero. */
  predicate NotEntered(raw: Raw) {
    raw.Empty? || raw == Num(0.0)
  }

  /** Validation requires a flight time of at least 0.01, so after it the
      flight time always counts as entered and the derived time never
      replaces it. */
  lemma ValidatedFlightTimeIsEntered(i: RawInputs)
    requires Errors(i) == map[]
    ensures !NotEntered(i.flightTime)
    ensures i.flightTime.Num? && i.flightTime.v >= 0.01
  {
    assert FlightTime !in Errors(i);
  }

  /** `calculate`: validate all six fields; on success derive the flight
      time, compute the four fuel figures and echo the inputs rounded to
      hundredths. */
  method Calculate(raw: RawInputs) returns (result: Calculation)
    ensures result.Failure? <==> Errors(raw) != map[]
    ensures result.Failure? ==> result.errors == Errors(raw)
    ensures result.Success? ==>
              && Validated(raw)
              && raw.flightTime.Num? && raw.finalReserve.Num?
              && var d, s := ParsedOrZero(raw.distance), ParsedOrZero(raw.speed);
                 var t, fr := raw.flightTime.v, raw.finalReserve.v;
                 var h, c := ParsedOrZero(raw.holding), ParsedOrZero(raw.contingency);
                 && result.outputs == ComputeFuel(t, fr, h, c)
                 && result.inputs == Inputs(RoundTo2(Finite(d)), RoundTo2(Finite(s)), RoundTo2(Finite(t)),
                                            RoundTo2(Finite(fr)), RoundTo2(Finite(h)), RoundTo2(Finite(c)))
                 && result.metadata.fuelRate == CONFIG.fuelRate
                 && result.metadata.calculatedFlightTime ==
                      if d > 0.0 && s > 0.0 then Some(RoundTo2(Finite(CalculateFlightTime(d, s)))) else None
  {
    var valid, errors := ValidateInputs(raw);
    if !valid {
      return Failure(errors);
    }
    NoErrorsIffValidated(raw);

    var distance := ParsedOrZero(raw.distance);
    var speed := ParsedOrZero(raw.speed);
    var flightTime := ParsedOrZero(raw.flightTime);
    var finalReserve := ParsedOrZero(raw.finalReserve);
    var holding := ParsedOrZero(raw.holding);
    var contingency := ParsedOrZero(raw.contingency);

    var calculatedFlightTime: Option<real> := None;
    if distance > 0.0 && speed > 0.0 {
      var derivedTime := CalculateFlightTime(distance, speed);
      calculatedFlightTime := Some(derivedTime);
      if NotEntered(raw.flightTime) {
        flightTime := derivedTime;
      }
    }

    var outputs := ComputeFuel(flightTime, finalReserve, holding, contingency);
    var echoed := Inputs(RoundTo2(Finite(distance)), RoundTo2(Finite(speed)), RoundTo2(Finite(flightTime)),
                         RoundTo2(Finite(finalReserve)), RoundTo2(Finite(holding)), RoundTo2(Finite(contingency)));
    var derived := if calculatedFlightTime.Some? && calculatedFlightTime.value != 0.0
                   then Some(RoundTo2(Finite(calculatedFlightTime.value))) else None;
    result := Success(echoed, outputs, Metadata(CONFIG.fuelRate, derived));
  }

  // ---------------------------------------------------------------------
  // Properties of the pipeline
  // ---------------------------------------------------------------------

  /** A longer flight or a longer reserve time never needs less fuel, in
      any of the four figures. */
  lemma {:induction false} FuelMonotone(t1: real, t2: real, fr1: real, h1: real, c1: real,
                                        fr2: real, h2: real, c2: real)
    requires t1 <= t2
    requires fr1 + h1 + c1 <= fr2 + h2 + c2
    ensures var o1, o2 := ComputeFuel(t1, fr1, h1, c1), ComputeFuel(t2, fr2, h2, c2);
            && o1.flightFuel <= o2.flightFuel
            && o1.variableReserve <= o2.variableReserve
            && o1.reserveFuel <= o2.reserveFuel
            && o1.totalFuel <= o2.totalFuel
  {
    var o1, o2 := ComputeFuel(t1, fr1, h1, c1), ComputeFuel(t2, fr2, h2, c2);
    assert CalculateFlightFuel(t1) <= CalculateFlightFuel(t2);
    RoundFuelUpMonotone(CalculateFlightFuel(t1), CalculateFlightFuel(t2));
    assert o1.flightFuel <= o2.flightFuel;
    RoundFuelUpMonotone(CalculateVariableReserve(o1.flightFuel), CalculateVariableReserve(o2.flightFuel));
    RoundFuelUpMonotone(CalculateReserveFuel(fr1, h1, c1), CalculateReserveFuel(fr2, h2, c2));
  }

  /** A field set to either of its bounds is accepted. */
  lemma BoundsAreInclusive(i: RawInputs, f: Field)
    requires RawOf(i, f) == Num(Min(f)) || RawOf(i, f) == Num(Max(f))
    ensures f !in Errors(i)
  {
  }

  /** Leaving out the required flight time fails on that field alone, also
      when distance and speed are given to derive it from. */
  lemma FlightTimeIsRequired()
    ensures Errors(RawInputs(Empty, Empty, Empty, Num(0.5), Empty, Empty)) == map[FlightTime := Required]
    ensures Errors(RawInputs(Num(100.0), Num(20.0), Empty, Num(0.5), Empty, Empty)) == map[FlightTime := Required]
  {
  }

  /** A final reserve of 5 is accepted; 5.01 is rejected with the message
      "Final Reserve cannot exceed 5". */
  lemma FinalReserveUpperBound(i: RawInputs)
    ensures i.finalReserve == Num(5.0) ==> FinalReserve !in Errors(i)
    ensures i.finalReserve == Num(5.01) ==>
              FinalReserve in Errors(i) && Message(FinalReserve, Errors(i)[FinalReserve]) == "Final Reserve cannot exceed 5"
  {
  }

  /** Three hours of flight with half an hour of final reserve. */
  lemma ThreeHourFlight()
    ensures ComputeFuel(3.0, 0.5, 0.0, 0.0) == Outputs(4.2, 0.5, 0.7, 5.4)
    ensures RoundTo2(Finite(CalculateFlightTime(100.0, 20.0))) == 1.39
  {
  }
}
