# Drone fuel calculator: calculation, warning and comparison core

A Dafny model of the domain logic of a browser fuel calculator for drone
missions, with proofs about it. The logic has three parts.

- **FuelCalculator** (`calculator.dfy`, from `js/calculator.js`). It holds the
  configuration constants and the two rounding helpers. Fuel figures are
  rounded UP to a tenth; echoed values are rounded to the nearest hundredth,
  halves going up. It also holds the flight-time derivation
  `distance / (speed * 3.6)` and the three fuel formulas. Per-field validation
  checks requiredness, number-ness and the inclusive range, in that order.
  `validateInputs` checks all six fields and collects every error.
  `calculate` validates, then computes flight fuel, variable reserve, reserve
  fuel and total fuel. Each figure is rounded up before it feeds the next.
- **WarningSystem** (`warnings.dfy`, from `js/warnings.js`). Nine independent
  advisory checks run in a fixed order. `evaluateWarnings` keeps the ones
  that fire, in order. A warning is modelled as its severity, its kind and
  the figure its message quotes.
- **ComparisonMode** (`comparison.dfy`, from `js/comparison.js`). It has the
  absolute and percent difference of two values. It builds the field-by-field
  comparison of two saved tab states over six input fields and four output
  fields. It also keeps the `isComparisonActive` flag that show, hide and
  toggle drive.

`wrappers.dfy` holds the `Option` datatype, which stands for JavaScript's `null`.

Numbers are `real`. A raw form value is `Empty` (`null`, `undefined`, `''`),
`Num(v)`, `Unparsable` (what `parseFloat` turns into NaN) or `Infinite`. Errors
are a `map<Field, ErrorKind>`, and `Message` gives each error's fixed text.

Some behaviour of the code is easy to miss when reading it:

- Flight time is a required field. So `calculate({distance: 100, speed: 20,
  flightTime: null, finalReserve: 0.5})` fails with only "Flight Time is
  required" (`FlightTimeIsRequired`).
- The branch at `js/calculator.js:272-274` puts the derived flight time in
  place of an absent or zero one. It can never run, because validation
  already rejects a flight time that is absent or below 0.01
  (`ValidatedFlightTimeIsEntered`). `Calculate` models the branch all the
  same. Its postcondition shows that the fuel is always computed from the
  entered flight time.
- A final reserve of 0 fires the low-reserve check (`js/warnings.js:61`).
  With no holding or contingency either, it also fires the zero-reserve
  check. So a 13 h flight with no reserve and a total of 60 kg fires four
  warnings: high fuel load, low reserve, excessive flight time and zero
  reserve (`ThirteenHourExample`).
- The application passes the echoed, rounded inputs to the warning checks
  (`js/app.js:206`). So the warnings see hundredth-rounded inputs.

## Model

| member | source | states |
|---|---|---|
| FuelCalculator.GetConfig | js/calculator.js:9-22 | The bounds are consistent: each minimum is below its maximum, the reserve minimum is 0, and the flight-time minimum is positive. The fuel rate is 1.4 and the variable reserve is 10%. |
| FuelCalculator.Ceil | js/calculator.js:34 | `Math.ceil`: the result c is the integer with c − 1 < y ≤ c. |
| FuelCalculator.Round | js/calculator.js:46 | `Math.round`: the result n is the integer with y − 0.5 < n ≤ y + 0.5, so halves go up. |
| FuelCalculator.RoundFuelUp | js/calculator.js:29-35 | For finite x, the result r satisfies x ≤ r < x + 0.1 and is a whole number of tenths. NaN and infinities give 0. |
| FuelCalculator.RoundFuelUpIsLeast | js/calculator.js:34 | No whole number of tenths that is at least x lies below RoundFuelUp(x). So the rounding is the ceiling to a tenth. |
| FuelCalculator.RoundFuelUpKeepsTenths | js/calculator.js:34 | A figure that is already a whole number of tenths is unchanged. |
| FuelCalculator.RoundFuelUpMonotone | js/calculator.js:34 | Rounding up never reverses the order of two figures. |
| FuelCalculator.RoundTo2 | js/calculator.js:42-47 | For finite x, the result r satisfies x − 0.005 < r ≤ x + 0.005 (halves go up) and is a whole number of hundredths. NaN and infinities give 0. |
| FuelCalculator.RoundTo2Monotone | js/calculator.js:46 | Rounding to hundredths never reverses the order of two values. |
| FuelCalculator.RoundTo2KeepsHundredths | js/calculator.js:46 | A value that is already a whole number of hundredths is unchanged. |
| FuelCalculator.CalculateFlightTime | js/calculator.js:55-62 | The result is 0 when the distance is 0 or the speed is not positive. Otherwise it is the time t with t · (speed · 3.6) = distance, and t is positive for positive inputs. |
| FuelCalculator.CalculateFlightFuel | js/calculator.js:69-74 | The result is never negative. It is 0 for a flight time that is not positive; otherwise the fuel per hour is the 1.4 kg/h rate. |
| FuelCalculator.CalculateVariableReserve | js/calculator.js:81-83 | The variable reserve is exactly one tenth of the flight fuel it is given. |
| FuelCalculator.CalculateReserveFuel | js/calculator.js:92-95 | The result is non-negative for non-negative allocations. Whenever the total reserve time is non-negative, including exactly 0, it equals the flight fuel of a flight as long as the three allocations together. |
| FuelCalculator.ComputeFuel | js/calculator.js:277-281 | All four figures are whole tenths. Each lies in [exact, exact + 0.1), where the variable reserve's exact value uses the ROUNDED flight fuel. The total equals exactly the sum of the three rounded components. With a non-negative reserve time, all figures are ≥ 0 and the total is at least each component. |
| FuelCalculator.FuelMonotone | js/calculator.js:277-281 | A longer flight time and a longer total reserve time never give a smaller figure, in any of the four. |
| FuelCalculator.Message | js/calculator.js:108-145 | Every message starts with the field's label. The above-maximum message is "<label> cannot exceed <max>", using the literal bound. |
| FuelCalculator.ValidateInput | js/calculator.js:106-148 | The checks run in `validateInput`'s order: required and empty; optional and empty, which passes; not a number; below min; above max. Both bounds are inclusive. Each outcome is stated as an if-and-only-if over the raw value, infinities included. |
| FuelCalculator.Errors | js/calculator.js:155-242 | A field has an error exactly when its own check fails, and the error is that check's verdict. No field's error hides another's. |
| FuelCalculator.ValidateInputs | js/calculator.js:155-242 | The six sequential blocks give exactly Errors(inputs). The result is valid iff the map is empty. The extra non-empty guard on holding and contingency changes nothing. |
| FuelCalculator.NoErrorsIffValidated | js/calculator.js:106-148 | The error map is empty iff every field is absent and optional, or is a number within its closed range. |
| FuelCalculator.BoundsAreInclusive | js/calculator.js:132-145 | A field set to its own minimum or maximum has no error. |
| FuelCalculator.FlightTimeIsRequired | js/calculator.js:185-196 | Leaving out the flight time fails on that field alone, even when distance and speed are given. |
| FuelCalculator.FinalReserveUpperBound | js/calculator.js:199-209 | A final reserve of 5 is accepted. 5.01 is rejected with "Final Reserve cannot exceed 5". |
| FuelCalculator.ParsedOrZero | js/calculator.js:260-265 | `parseFloat(x) \|\| 0`: a number gives itself; an absent or unparsable value gives 0. |
| FuelCalculator.ValidatedFlightTimeIsEntered | js/calculator.js:272 | When validation passes, the flight time is a number of at least 0.01. So the guard `!inputs.flightTime \|\| parseFloat(inputs.flightTime) === 0` (NotEntered) is false, and the derived time never replaces it. |
| FuelCalculator.Calculate | js/calculator.js:249-306 | It fails iff validation found an error, carrying exactly those errors and no outputs. On success, the inputs were valid and the outputs are ComputeFuel of the ENTERED flight time and reserves. The echoed inputs are the hundredth-rounded parsed values. The reported fuel rate is 1.4. The derived flight time is reported, rounded, iff distance and speed are both positive. |
| FuelCalculator.ThreeHourFlight | js/calculator.js:277-302 | 3 h of flight with a 0.5 h final reserve gives 4.2, 0.5, 0.7 and 5.4 kg. 100 km at 20 m/s reports 1.39 h. |
| WarningSystem.CheckHighFuelLoad | js/warnings.js:29-37 | Fires iff total fuel > 50, with severity caution, quoting the total. |
| WarningSystem.CheckExcessiveReserve | js/warnings.js:45-53 | Fires iff reserve fuel > flight fuel > 0, with severity caution. |
| WarningSystem.CheckLowReserve | js/warnings.js:60-68 | Fires iff 0 ≤ final reserve < 0.3, with severity warning. |
| WarningSystem.CheckExtendedFlight | js/warnings.js:75-83 | Fires iff 8 < flight time ≤ 12, with severity info. |
| WarningSystem.CheckExcessiveFlightTime | js/warnings.js:90-98 | Fires iff flight time > 12, with severity caution. |
| WarningSystem.CheckZeroReserve | js/warnings.js:107-116 | Fires iff the three reserve times sum to 0, with severity warning. |
| WarningSystem.CheckHighFuelRate | js/warnings.js:124-135 | Fires iff flight time > 0 and total fuel > 10 · flight time, with severity info, quoting the effective rate. |
| WarningSystem.CheckLongDistance | js/warnings.js:142-150 | Fires iff distance > 1000, with severity info. |
| WarningSystem.CheckSpeedConcerns | js/warnings.js:157-171 | Fires iff 0 < speed < 3 (low) or speed > 60 (high), giving one warning of the matching kind, with severity info. |
| WarningSystem.Checks | js/warnings.js:183-193 | The fixed list holds exactly nine checks. |
| WarningSystem.EvaluateWarnings | js/warnings.js:179-203 | The loop keeps exactly the non-null checks, in order: the result is Present(Checks). It has at most nine warnings, each with its kind's fixed severity and none with severity error. |
| WarningSystem.PresentLength | js/warnings.js:196-200 | Filtering never lengthens the list. |
| WarningSystem.PresentMembers | js/warnings.js:196-200 | A warning is kept iff some check produced it. |
| WarningSystem.PresentRanked | js/warnings.js:196-200 | When each check's warning has that check's position as its rank, the kept warnings are strictly increasing in rank. |
| WarningSystem.ChecksRanked | js/warnings.js:183-193 | The warning from the j-th check has rank j. |
| WarningSystem.WarningsInCheckOrder | js/warnings.js:179-203 | Warnings appear in the order of the checks, at most one per check. |
| WarningSystem.WarningsAreFixedSeverity | js/warnings.js:179-203 | Each warning has its kind's severity, and no check emits severity error. |
| WarningSystem.FiredAtRank | js/warnings.js:196-200 | Kind k is among the kept warnings iff the check at position Rank(k) produced a warning of kind k. |
| WarningSystem.WarningConditions | js/warnings.js:179-203 | For each of the ten kinds, the result contains that kind iff its condition holds. |
| WarningSystem.ExclusiveWarnings | js/warnings.js:75-98 | Extended flight and excessive flight time never both fire. The low- and high-speed warnings never both fire. |
| WarningSystem.ZeroReserveAlwaysWarns | js/warnings.js:107-116 | With all reserve times 0, the zero-reserve warning (and the low-reserve one) fires whatever the fuel figures are. |
| WarningSystem.ThirteenHourExample | js/warnings.js:179-203 | A 13 h flight with no reserve, distance or speed, paired with a hand-written 60 kg output record, gives exactly: high fuel load, low reserve, excessive flight time, zero reserve. |
| ComparisonMode.CalculateDifference | js/comparison.js:16-25 | The absolute difference is the hundredth nearest to b − a (halves up). The percent is 0 when a = 0, and otherwise the hundredth nearest to (b − a)/a · 100. |
| ComparisonMode.NoChangeForEqualValues | js/comparison.js:16-25 | Equal values give absolute 0 and percent 0. |
| ComparisonMode.IncreaseShowsNonNegative | js/comparison.js:16-25 | When b ≥ a, the absolute difference is ≥ 0. When also a > 0, the percent is ≥ 0. |
| ComparisonMode.ValueOrZero | js/comparison.js:63-64 | `state.inputs?.[field] \|\| 0` (and the same for outputs at lines 76-77): a value that is present is read as itself; a missing record or field reads as 0. |
| ComparisonMode.NameOr | js/comparison.js:52-55 | `name \|\| fallback`: a non-empty name is kept, and an empty one gives the fallback. With a non-empty fallback, the result is never blank. |
| ComparisonMode.CompareCalculations | js/comparison.js:46-87 | The result is null iff either state lacks outputs. Otherwise the names are the tabs' names, defaulting to "Calculation A" and "Calculation B", and it has entries for exactly the six input fields and the four output fields. Each entry holds A's and B's values, missing ones read as 0, and their difference. |
| ComparisonMode.SelfComparisonShowsNoChange | js/comparison.js:46-87 | A calculated state compared with itself shows zero difference in every entry. |
| ComparisonMode.ComparisonView.constructor | js/comparison.js:8 | The view starts hidden, with no stored comparison. |
| ComparisonMode.ComparisonView.ShowComparison | js/comparison.js:211-238 | When the comparison is non-null, the flag is set and the comparison stored. Otherwise nothing changes. |
| ComparisonMode.ComparisonView.HideComparison | js/comparison.js:243-258 | The flag is always cleared and the stored comparison dropped. |
| ComparisonMode.ComparisonView.ToggleComparison | js/comparison.js:263-269 | Dispatches on the flag: if shown, hide; otherwise show, which leaves the view hidden when there is nothing to compare. |
| ComparisonMode.ComparisonView.IsActive | js/comparison.js:275-277 | The flag is set exactly while a comparison is stored. |
| ComparisonMode.ComparisonView.GetCurrentComparison | js/comparison.js:283-285 | A comparison is returned exactly while the view is shown. |

## Left out

- Floating point: numbers are reals. The model knowingly differs from IEEE-754 results at exact tenth and hundredth boundaries. For example, `Math.ceil(0.1*3.0*10)` is 4 in floating point but 3 over the reals.
- `parseFloat` string parsing, such as prefix parsing ("12abc" gives 12): a raw value is already `Num`, `Unparsable`, `Infinite` or `Empty`.
- ParsedOrZero: not defined on an infinite value, where JavaScript would keep the infinity. Validation has already rejected infinities wherever it is used.
- NotEntered: treats an unparsable flight time as entered. JavaScript's answer depends on whether it is NaN or a string. The branch cannot run after validation either way.
- The `fieldName` argument of `validateInput`: the label moves into `Message`.
- CalculateFlightTime, CalculateReserveFuel and CheckZeroReserve take reals, so the `!x` and `x || 0` tests for NaN, `null` and `undefined` arguments are not modelled; an absent value is 0.
- ValueOrZero: NaN fields, which `|| 0` also turns into 0, are not modelled (reals have no NaN).
- NameOr: an `undefined` tab name is modelled as the empty string.
- The warning message text, `formatDifference` and the `formatted` field of `calculateDifference`: they depend on JavaScript number-to-string conversion (`toFixed`, template interpolation). Warnings keep the quoted figure instead.
- `metadata.timestamp` (`new Date()`): it is a clock reading.
- `renderWarnings`, `clearWarnings`, `renderComparison`, `createComparisonRow` and the DOM updates in `showComparison` and `hideComparison`: they are rendering only.
- `TabManager.getTabState`, which show reads through localStorage: the two tab states are parameters of ShowComparison and ToggleComparison.
- `js/export.js`, `js/tabs.js`, `js/app.js` and `js/theme.js` are not part of this model. They are export formatting, storage with debounce timers, DOM form handling and theme switching.
