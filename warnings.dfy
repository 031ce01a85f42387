/** The warning system: nine independent checks over a calculation's echoed
    inputs and its outputs, evaluated in a fixed order. A warning is kept as
    its severity, its kind and the value its message quotes; the message
    text itself is not modelled. */
module WarningSystem {
  import opened Wrappers
  import FC = FuelCalculator

  /** `WARNING_TYPES`: the `type` strings "info", "caution", "warning" and
      "error". */
  datatype Severity = Info | Caution | Warning | Error

  datatype Kind =
    | HighFuelLoad | ExcessiveReserve | LowReserve | ExtendedFlight | ExcessiveFlightTime
    | ZeroReserve | HighFuelRate | LongDistance | LowSpeed | HighSpeed

  /** One warning: how serious, which rule raised it, and the figure its
      message quotes (none for the two messages that quote no figure). */
  datatype Alert = Alert(severity: Severity, kind: Kind, value: Option<real>)

  /** The position of each kind's check in the evaluation order. */
  function Rank(k: Kind): nat {
    match k
    case HighFuelLoad => 0
    case ExcessiveReserve => 1
    case LowReserve => 2
    case ExtendedFlight => 3
    case ExcessiveFlightTime => 4
    case ZeroReserve => 5
    case HighFuelRate => 6
    case LongDistance => 7
    case LowSpeed => 8
    case HighSpeed => 8
  }

  /** The fixed severity of each kind. */
  function SeverityOf(k: Kind): Severity {
    match k
    case HighFuelLoad => Caution
    case ExcessiveReserve => Caution
    case LowReserve => Warning
    case ExtendedFlight => Info
    case ExcessiveFlightTime => Caution
    case ZeroReserve => Warning
    case HighFuelRate => Info
    case LongDistance => Info
    case LowSpeed => Info
    case HighSpeed => Info
  }

  // ---------------------------------------------------------------------
  // The nine checks
  // ---------------------------------------------------------------------

  function CheckHighFuelLoad(totalFuel: real): (r: Option<Alert>)
    ensures r.Some? <==> totalFuel > 50.0
    ensures r.Some? ==> r.value == Alert(SeverityOf(HighFuelLoad), HighFuelLoad, Some(totalFuel))
  {
    if totalFuel > 50.0 then Some(Alert(Caution, HighFuelLoad, Some(totalFuel))) else None
  }

  function CheckExcessiveReserve(reserveFuel: real, flightFuel: real): (r: Option<Alert>)
    ensures r.Some? <==> reserveFuel > flightFuel > 0.0
    ensures r.Some? ==> r.value == Alert(SeverityOf(ExcessiveReserve), ExcessiveReserve, None)
  {
    if reserveFuel > flightFuel && flightFuel > 0.0 then Some(Alert(Caution, ExcessiveReserve, None)) else None
  }

  function CheckLowReserve(finalReserve: real): (r: Option<Alert>)
    ensures r.Some? <==> 0.0 <= finalReserve < 0.3
    ensures r.Some? ==> r.value == Alert(SeverityOf(LowReserve), LowReserve, Some(finalReserve))
  {
    if finalReserve < 0.3 && finalReserve >= 0.0 then Some(Alert(Warning, LowReserve, Some(finalReserve))) else None
  }

  function CheckExtendedFlight(flightTime: real): (r: Option<Alert>)
    ensures r.Some? <==> 8.0 < flightTime <= 12.0
    ensures r.Some? ==> r.value == Alert(SeverityOf(ExtendedFlight), ExtendedFlight, Some(flightTime))
  {
    if flightTime > 8.0 && flightTime <= 12.0 then Some(Alert(Info, ExtendedFlight, Some(flightTime))) else None
  }

  function CheckExcessiveFlightTime(flightTime: real): (r: Option<Alert>)
    ensures r.Some? <==> flightTime > 12.0
    ensures r.Some? ==> r.value == Alert(SeverityOf(ExcessiveFlightTime), ExcessiveFlightTime, Some(flightTime))
  {
    if flightTime > 12.0 then Some(Alert(Caution, ExcessiveFlightTime, Some(flightTime))) else None
  }

  function CheckZeroReserve(finalReserve: real, holding: real, contingency: real): (r: Option<Alert>)
    ensures r.Some? <==> finalReserve + holding + contingency == 0.0
    ensures r.Some? ==> r.value == Alert(SeverityOf(ZeroReserve), ZeroReserve, None)
  {
    if finalReserve + holding + contingency == 0.0 then Some(Alert(Warning, ZeroReserve, None)) else None
  }

  function CheckHighFuelRate(totalFuel: real, flightTime: real): (r: Option<Alert>)
    ensures r.Some? <==> flightTime > 0.0 && totalFuel > 10.0 * flightTime
    ensures r.Some? ==> r.value == Alert(SeverityOf(HighFuelRate), HighFuelRate, Some(totalFuel / flightTime))
  {
    if flightTime > 0.0 then
      var effectiveRate := totalFuel / flightTime;
      assert effectiveRate * flightTime == totalFuel;
      if effectiveRate > 10.0 then Some(Alert(Info, HighFuelRate, Some(effectiveRate))) else None
    else None
  }

  function CheckLongDistance(distance: real): (r: Option<Alert>)
    ensures r.Some? <==> distance > 1000.0
    ensures r.Some? ==> r.value == Alert(SeverityOf(LongDistance), LongDistance, Some(distance))
  {
    if distance > 1000.0 then Some(Alert(Info, LongDistance, Some(distance))) else None
  }

  /** At most one speed warning: a very low one wins over a high one, and
      the two ranges are disjoint anyway. */
  function CheckSpeedConcerns(speed: real): (r: Option<Alert>)
    ensures r.Some? <==> (0.0 < speed < 3.0 || speed > 60.0)
    ensures r.Some? ==> r.value.kind == (if speed < 3.0 then LowSpeed else HighSpeed)
    ensures r.Some? ==> r.value == Alert(SeverityOf(r.value.kind), r.value.kind, Some(speed))
  {
    if speed > 0.0 && speed < 3.0 then Some(Alert(Info, LowSpeed, Some(speed)))
    else if speed > 60.0 then Some(Alert(Info, HighSpeed, Some(speed)))
    else None
  }

  // ---------------------------------------------------------------------
  // evaluateWarnings
  // ---------------------------------------------------------------------

  /** The `checks` array, in its fixed order. */
  function Checks(inputs: FC.Inputs, outputs: FC.Outputs): (checks: seq<Option<Alert>>)
    ensures |checks| == 9
  {
    [ CheckHighFuelLoad(outputs.totalFuel),
      CheckExcessiveReserve(outputs.reserveFuel, outputs.flightFuel),
      CheckLowReserve(inputs.finalReserve),
      CheckExtendedFlight(inputs.flightTime),
      CheckExcessiveFlightTime(inputs.flightTime),
      CheckZeroReserve(inputs.finalReserve, inputs.holding, inputs.contingency),
      CheckHighFuelRate(outputs.totalFuel, inputs.flightTime),
      CheckLongDistance(inputs.distance),
      CheckSpeedConcerns(inputs.speed) ]
  }

  /** The present entries of `s`, in order. */
  function Present(s: seq<Option<Alert>>): seq<Alert> {
    if s == [] then []
    else Present(s[..|s| - 1]) + (if s[|s| - 1].Some? then [s[|s| - 1].value] else [])
  }

  /** What `evaluateWarnings` returns. */
  function Warnings(inputs: FC.Inputs, outputs: FC.Outputs): seq<Alert> {
    Present(Checks(inputs, outputs))
  }

  /** `evaluateWarnings`: run the nine checks and push every non-null
      result, in order. */
  method EvaluateWarnings(inputs: FC.Inputs, outputs: FC.Outputs) returns (warnings: seq<Alert>)
    ensures warnings == Warnings(inputs, outputs)
    ensures |warnings| <= 9
    ensures forall w :: w in warnings ==> w.severity == SeverityOf(w.kind) && w.severity != Error
  {
    var checks := Checks(inputs, outputs);
    warnings := [];
    for k := 0 to |checks|
      invariant warnings == Present(checks[..k])
    {
      assert checks[..k + 1][..k] == checks[..k];
      if checks[k].Some? {
        warnings := warnings + [checks[k].value];
      }
    }
    assert checks[..|checks|] == checks;
    WarningsAreFixedSeverity(inputs, outputs);
    PresentLength(checks);
  }

  // ---------------------------------------------------------------------
  // Properties
  // ---------------------------------------------------------------------

  lemma {:induction false} PresentLength(s: seq<Option<Alert>>)
    ensures |Present(s)| <= |s|
  {
    if s != [] {
      PresentLength(s[..|s| - 1]);
    }
  }

  /** Exactly the present entries are kept. */
  lemma {:induction false} PresentMembers(s: seq<Option<Alert>>)
    ensures forall w :: w in Present(s) <==> Some(w) in s
  {
    if s != [] {
      var init := s[..|s| - 1];
      PresentMembers(init);
      assert s == init + [s[|s| - 1]];
    }
  }

  /** When every present entry's kind has its own index as rank, the kept
      entries come out strictly by rank. */
  lemma {:induction false} PresentRanked(s: seq<Option<Alert>>)
    requires forall j :: 0 <= j < |s| && s[j].Some? ==> Rank(s[j].value.kind) == j
    ensures forall w :: w in Present(s) ==> Rank(w.kind) < |s|
    ensures forall a, b :: 0 <= a < b < |Present(s)| ==> Rank(Present(s)[a].kind) < Rank(Present(s)[b].kind)
  {
    if s != [] {
      var n := |s| - 1;
      var init := s[..n];
      PresentRanked(init);
      PresentMembers(s);
      forall w | w in Present(s) ensures Rank(w.kind) < |s| {
        var j :| 0 <= j < |s| && s[j] == Some(w);
      }
    }
  }

  lemma ChecksRanked(inputs: FC.Inputs, outputs: FC.Outputs)
    ensures var s := Checks(inputs, outputs);
            forall j :: 0 <= j < |s| && s[j].Some? ==> Rank(s[j].value.kind) == j
  {
  }

  /** The warnings come out in the order of the checks, and no check
      contributes more than one. */
  lemma WarningsInCheckOrder(inputs: FC.Inputs, outputs: FC.Outputs)
    ensures var ws := Warnings(inputs, outputs);
            forall a, b :: 0 <= a < b < |ws| ==> Rank(ws[a].kind) < Rank(ws[b].kind)
  {
    ChecksRanked(inputs, outputs);
    PresentRanked(Checks(inputs, outputs));
  }

  /** Every warning has its kind's fixed severity, and none is an error. */
  lemma WarningsAreFixedSeverity(inputs: FC.Inputs, outputs: FC.Outputs)
    ensures forall w :: w in Warnings(inputs, outputs) ==> w.severity == SeverityOf(w.kind) && w.severity != Error
  {
    PresentMembers(Checks(inputs, outputs));
  }

  /** A warning of kind `k` is among `ws`. */
  predicate Fired(ws: seq<Alert>, k: Kind) {
    exists w :: w in ws && w.kind == k
  }

  /** Under ranked checks, kind `k` is among the kept entries exactly when
      the entry at index `Rank(k)` is present and of kind `k`. */
  lemma FiredAtRank(s: seq<Option<Alert>>, k: Kind)
    requires forall j :: 0 <= j < |s| && s[j].Some? ==> Rank(s[j].value.kind) == j
    requires Rank(k) < |s|
    ensures Fired(Present(s), k) <==> s[Rank(k)].Some? && s[Rank(k)].value.kind == k
  {
    PresentMembers(s);
    if Fired(Present(s), k) {
      var w :| w in Present(s) && w.kind == k;
      var j :| 0 <= j < |s| && s[j] == Some(w);
    }
    if s[Rank(k)].Some? && s[Rank(k)].value.kind == k {
      assert s[Rank(k)].value in Present(s);
    }
  }

  /** Each kind fires exactly under its condition. */
  lemma WarningConditions(inputs: FC.Inputs, outputs: FC.Outputs)
    ensures var ws := Warnings(inputs, outputs);
            && (Fired(ws, HighFuelLoad) <==> outputs.totalFuel > 50.0)
            && (Fired(ws, ExcessiveReserve) <==> outputs.reserveFuel > outputs.flightFuel > 0.0)
            && (Fired(ws, LowReserve) <==> 0.0 <= inputs.finalReserve < 0.3)
            && (Fired(ws, ExtendedFlight) <==> 8.0 < inputs.flightTime <= 12.0)
            && (Fired(ws, ExcessiveFlightTime) <==> inputs.flightTime > 12.0)
            && (Fired(ws, ZeroReserve) <==> inputs.finalReserve + inputs.holding + inputs.contingency == 0.0)
            && (Fired(ws, HighFuelRate) <==> inputs.flightTime > 0.0 && outputs.totalFuel > 10.0 * inputs.flightTime)
            && (Fired(ws, LongDistance) <==> inputs.distance > 1000.0)
            && (Fired(ws, LowSpeed) <==> 0.0 < inputs.speed < 3.0)
            && (Fired(ws, HighSpeed) <==> inputs.speed > 60.0)
  {
    var s := Checks(inputs, outputs);
    ChecksRanked(inputs, outputs);
    FiredAtRank(s, HighFuelLoad);
    FiredAtRank(s, ExcessiveReserve);
    FiredAtRank(s, LowReserve);
    FiredAtRank(s, ExtendedFlight);
    FiredAtRank(s, ExcessiveFlightTime);
    FiredAtRank(s, ZeroReserve);
    FiredAtRank(s, HighFuelRate);
    FiredAtRank(s, LongDistance);
    FiredAtRank(s, LowSpeed);
    FiredAtRank(s, HighSpeed);
  }

  /** The extended-flight and excessive-flight-time warnings never appear
      together, and neither do the two speed warnings. */
  lemma ExclusiveWarnings(inputs: FC.Inputs, outputs: FC.Outputs)
    ensures var ws := Warnings(inputs, outputs);
            && !(Fired(ws, ExtendedFlight) && Fired(ws, ExcessiveFlightTime))
            && !(Fired(ws, LowSpeed) && Fired(ws, HighSpeed))
  {
    WarningConditions(inputs, outputs);
  }

  /** With no reserve time at all, the zero-reserve warning fires whatever
      the fuel figures are. */
  lemma ZeroReserveAlwaysWarns(inputs: FC.Inputs, outputs: FC.Outputs)
    requires inputs.finalReserve == 0.0 && inputs.holding == 0.0 && inputs.contingency == 0.0
    ensures Fired(Warnings(inputs, outputs), ZeroReserve)
    ensures Fired(Warnings(inputs, outputs), LowReserve)
  {
    WarningConditions(inputs, outputs);
  }

  /** `evaluateWarnings` takes the output record as given, so this example
      pairs 13 hours with no reserve, distance or speed with a hand-written
      total of 60 kg (more than `calculate` gives for these inputs, which is
      20.1 kg). The result is high fuel load, low reserve, excessive flight
      time and zero reserve, in that order. */
  lemma ThirteenHourExample()
    ensures Warnings(FC.Inputs(0.0, 0.0, 13.0, 0.0, 0.0, 0.0), FC.Outputs(18.2, 1.9, 0.0, 60.0)) ==
              [ Alert(Caution, HighFuelLoad, Some(60.0)),
                Alert(Warning, LowReserve, Some(0.0)),
                Alert(Caution, ExcessiveFlightTime, Some(13.0)),
                Alert(Warning, ZeroReserve, None) ]
  {
    var s := Checks(FC.Inputs(0.0, 0.0, 13.0, 0.0, 0.0, 0.0), FC.Outputs(18.2, 1.9, 0.0, 60.0));
    assert s == [ Some(Alert(Caution, HighFuelLoad, Some(60.0))), None,
                  Some(Alert(Warning, LowReserve, Some(0.0))), None,
                  Some(Alert(Caution, ExcessiveFlightTime, Some(13.0))),
                  Some(Alert(Warning, ZeroReserve, None)), None, None, None ];
    var w0 := Alert(Caution, HighFuelLoad, Some(60.0));
    var w2 := Alert(Warning, LowReserve, Some(0.0));
    var w4 := Alert(Caution, ExcessiveFlightTime, Some(13.0));
    var w5 := Alert(Warning, ZeroReserve, None);
    assert Present(s[..1]) == [w0] by { assert s[..1][..0] == []; }
    assert Present(s[..2]) == [w0] by { assert s[..2][..1] == s[..1]; }
    assert Present(s[..3]) == [w0, w2] by { assert s[..3][..2] == s[..2]; }
    assert Present(s[..4]) == [w0, w2] by { assert s[..4][..3] == s[..3]; }
    assert Present(s[..5]) == [w0, w2, w4] by { assert s[..5][..4] == s[..4]; }
    assert Present(s[..6]) == [w0, w2, w4, w5] by { assert s[..6][..5] == s[..5]; }
    assert Present(s[..7]) == [w0, w2, w4, w5] by { assert s[..7][..6] == s[..6]; }
    assert Present(s[..8]) == [w0, w2, w4, w5] by { assert s[..8][..7] == s[..7]; }
    assert Present(s) == [w0, w2, w4, w5] by { assert s[..8] == s[..|s| - 1]; }
  }
}
