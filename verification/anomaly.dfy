/**
 * The threshold anomaly detector: the newest entry of a window is compared
 * with the window's mean voltage and mean energy.
 */
module Anomaly {
  import opened Common
  import Decimal

  datatype Severity = Low | Medium | High

  datatype Alert = Alert(
    id: string,
    timestamp: nat,       // milliseconds since the epoch
    severity: Severity,
    message: string,
    metric: string,
    value: real,
    expected: real)

  /** One window entry; a missing or falsy field counts as 0. */
  datatype Sample = Sample(voltage: Option<real>, energy: Option<real>)

  const HighVoltageMessage := "Voltage dropped significantly below average. Check sensor connections."
  const LowVoltageMessage := "Voltage is lower than typical. Monitor system performance."
  const EnergyMessage := "Energy generation significantly lower than expected."
  const ZeroMessage := "No energy generation detected. System may be offline."

  function Sum(xs: seq<real>): real
    decreases |xs|
  {
    if |xs| == 0 then 0.0 else Sum(xs[..|xs| - 1]) + xs[|xs| - 1]
  }

  function Mean(xs: seq<real>): real
    requires |xs| > 0
  {
    Sum(xs) / |xs| as real
  }

  function Voltages(w: seq<Sample>): (vs: seq<real>)
    ensures |vs| == |w|
  {
    seq(|w|, i requires 0 <= i < |w| => NumberOr(w[i].voltage, 0.0))
  }

  function Energies(w: seq<Sample>): (es: seq<real>)
    ensures |es| == |w|
  {
    seq(|w|, i requires 0 <= i < |w| => NumberOr(w[i].energy, 0.0))
  }

  function LatestVoltage(w: seq<Sample>): real
    requires |w| > 0
  {
    NumberOr(w[|w| - 1].voltage, 0.0)
  }

  function LatestEnergy(w: seq<Sample>): real
    requires |w| > 0
  {
    NumberOr(w[|w| - 1].energy, 0.0)
  }

  function MeanVoltage(w: seq<Sample>): real
    requires |w| > 0
  {
    Mean(Voltages(w))
  }

  function MeanEnergy(w: seq<Sample>): real
    requires |w| > 0
  {
    Mean(Energies(w))
  }

  /** True when some alert of r reports the given metric. */
  predicate Reports(r: seq<Alert>, metric: string) {
    exists i :: 0 <= i < |r| && r[i].metric == metric
  }

  /** Display order of the checks within one pass. */
  function MetricRank(metric: string): nat {
    if metric == "voltage" then 0 else if metric == "energy" then 1 else 2
  }

  /** The id every alert of a pass at instant `now` starts with. */
  function IdPrefix(now: nat): string {
    "anomaly-" + Decimal.NatToString(now) + "-"
  }

  /** The voltage check: high below half the mean, otherwise medium below 70% of it. */
  function VoltageCheck(w: seq<Sample>, now: nat): (r: seq<Alert>)
    requires |w| > 0
    ensures |r| <= 1
    ensures |r| == 1 <==> LatestVoltage(w) < MeanVoltage(w) * 0.5 || LatestVoltage(w) < MeanVoltage(w) * 0.7
    ensures |r| == 1 ==> r[0].metric == "voltage" && r[0].timestamp == now
    ensures |r| == 1 ==> r[0].id == IdPrefix(now) + "voltage" || r[0].id == IdPrefix(now) + "voltage-low"
    ensures |r| == 1 ==> (r[0].id == IdPrefix(now) + "voltage" <==> r[0].severity == High)
    ensures |r| == 1 ==> (r[0].id == IdPrefix(now) + "voltage-low" <==> r[0].severity == Medium)
    ensures |r| == 1 ==> r[0].value == LatestVoltage(w) && r[0].expected == MeanVoltage(w)
    ensures |r| == 1 ==> (r[0].severity == High <==> LatestVoltage(w) < MeanVoltage(w) * 0.5)
    ensures |r| == 1 ==> (r[0].severity == Medium <==> LatestVoltage(w) >= MeanVoltage(w) * 0.5)
  {
    var avgV := MeanVoltage(w);
    var lv := LatestVoltage(w);
    if lv < avgV * 0.5 then [Alert(IdPrefix(now) + "voltage", now, High, HighVoltageMessage, "voltage", lv, avgV)]
    else if lv < avgV * 0.7 then [Alert(IdPrefix(now) + "voltage-low", now, Medium, LowVoltageMessage, "voltage", lv, avgV)]
    else []
  }

  /** The energy check: medium below 30% of a mean above 0.1. */
  function EnergyCheck(w: seq<Sample>, now: nat): (r: seq<Alert>)
    requires |w| > 0
    ensures |r| <= 1
    ensures |r| == 1 <==> LatestEnergy(w) < MeanEnergy(w) * 0.3 && MeanEnergy(w) > 0.1
    ensures |r| == 1 ==> r[0].metric == "energy" && r[0].timestamp == now && r[0].id == IdPrefix(now) + "energy"
    ensures |r| == 1 ==> r[0].severity == Medium && r[0].value == LatestEnergy(w) && r[0].expected == MeanEnergy(w)
  {
    var avgE := MeanEnergy(w);
    var le := LatestEnergy(w);
    if le < avgE * 0.3 && avgE > 0.1 then [Alert(IdPrefix(now) + "energy", now, Medium, EnergyMessage, "energy", le, avgE)]
    else []
  }

  /** The zero-output check: high when the newest voltage and energy are both zero. */
  function ZeroCheck(w: seq<Sample>, now: nat): (r: seq<Alert>)
    requires |w| > 0
    ensures |r| <= 1
    ensures |r| == 1 <==> LatestVoltage(w) == 0.0 && LatestEnergy(w) == 0.0
    ensures |r| == 1 ==> r[0].metric == "system" && r[0].timestamp == now && r[0].id == IdPrefix(now) + "zero"
    ensures |r| == 1 ==> r[0].severity == High && r[0].value == 0.0 && r[0].expected == MeanEnergy(w)
  {
    if LatestVoltage(w) == 0.0 && LatestEnergy(w) == 0.0 then
      [Alert(IdPrefix(now) + "zero", now, High, ZeroMessage, "system", 0.0, MeanEnergy(w))]
    else []
  }

  /**
   * One detection pass over a window at instant `now` (milliseconds). Each
   * check adds at most one alert, in the order voltage, energy, zero output.
   */
  function Detect(w: seq<Sample>, now: nat): (r: seq<Alert>)
    ensures |w| == 0 ==> r == []
    ensures |r| <= 3
    ensures forall i, j :: 0 <= i < j < |r| ==> MetricRank(r[i].metric) < MetricRank(r[j].metric)
    ensures forall i, j :: 0 <= i < j < |r| ==> r[i].id != r[j].id
    ensures forall i :: 0 <= i < |r| ==> r[i].timestamp == now
  {
    if |w| == 0 then []
    else
      var voltage := VoltageCheck(w, now);
      var energy := EnergyCheck(w, now);
      var zero := ZeroCheck(w, now);
      var r := voltage + energy + zero;
      var p := IdPrefix(now);
      assert (p + "voltage")[|p|] == 'v' && (p + "voltage-low")[|p|] == 'v';
      assert (p + "energy")[|p|] == 'e' && (p + "zero")[|p|] == 'z';
      ThreeParts(voltage, energy, zero);
      r
  }

  /** Detect is the three checks' alerts, in order. */
  lemma DetectLayout(w: seq<Sample>, now: nat)
    requires |w| > 0
    ensures var r := Detect(w, now);
      var v := VoltageCheck(w, now);
      var e := EnergyCheck(w, now);
      var z := ZeroCheck(w, now);
      && r == v + e + z
      && (forall i :: 0 <= i < |r| ==> r[i] == (if i < |v| then v[0] else if i < |v| + |e| then e[0] else z[0]))
      && (|v| == 1 ==> r[0] == v[0])
      && (|e| == 1 ==> r[|v|] == e[0])
      && (|z| == 1 ==> r[|v| + |e|] == z[0])
  {
    ThreeParts(VoltageCheck(w, now), EnergyCheck(w, now), ZeroCheck(w, now));
  }

  /**
   * The voltage tier: an alert on voltage exactly when the newest voltage is
   * under 50% (high) or else under 70% (medium) of the window mean.
   */
  lemma DetectVoltageTiers(w: seq<Sample>, now: nat)
    requires |w| > 0
    ensures Reports(Detect(w, now), "voltage") <==>
              LatestVoltage(w) < MeanVoltage(w) * 0.5 || LatestVoltage(w) < MeanVoltage(w) * 0.7
    ensures forall a :: a in Detect(w, now) && a.metric == "voltage" ==>
              && a.value == LatestVoltage(w)
              && a.expected == MeanVoltage(w)
              && (a.severity == High <==> LatestVoltage(w) < MeanVoltage(w) * 0.5)
              && (a.severity == Medium <==> LatestVoltage(w) >= MeanVoltage(w) * 0.5)
  {
    DetectLayout(w, now);
  }

  /** The energy check: a medium alert exactly when energy is under 30% of a mean above 0.1. */
  lemma DetectEnergyCheck(w: seq<Sample>, now: nat)
    requires |w| > 0
    ensures Reports(Detect(w, now), "energy") <==> LatestEnergy(w) < MeanEnergy(w) * 0.3 && MeanEnergy(w) > 0.1
    ensures forall a :: a in Detect(w, now) && a.metric == "energy" ==>
              a.severity == Medium && a.value == LatestEnergy(w) && a.expected == MeanEnergy(w)
  {
    DetectLayout(w, now);
  }

  /** The zero-output check, additive to the others: newest voltage and energy both 0. */
  lemma DetectZeroOutput(w: seq<Sample>, now: nat)
    requires |w| > 0
    ensures Reports(Detect(w, now), "system") <==> LatestVoltage(w) == 0.0 && LatestEnergy(w) == 0.0
    ensures forall a :: a in Detect(w, now) && a.metric == "system" ==>
              a.severity == High && a.value == 0.0 && a.expected == MeanEnergy(w)
  {
    DetectLayout(w, now);
  }

  /** Where each part of a concatenation of at most-one-element parts lands. */
  lemma ThreeParts(a: seq<Alert>, b: seq<Alert>, c: seq<Alert>)
    requires |a| <= 1 && |b| <= 1 && |c| <= 1
    ensures forall i :: 0 <= i < |a + b + c| ==>
      (a + b + c)[i] == (if i < |a| then a[0] else if i < |a| + |b| then b[0] else c[0])
    ensures |a| == 1 ==> (a + b + c)[0] == a[0]
    ensures |b| == 1 ==> (a + b + c)[|a|] == b[0]
    ensures |c| == 1 ==> (a + b + c)[|a| + |b|] == c[0]
  {
  }

  /** The sum of n copies of x. */
  lemma {:induction false} SumOfConstant(xs: seq<real>, x: real)
    requires forall i :: 0 <= i < |xs| ==> xs[i] == x
    ensures Sum(xs) == |xs| as real * x
    decreases |xs|
  {
    if |xs| > 0 {
      SumOfConstant(xs[..|xs| - 1], x);
    }
  }

  lemma CancelCount(n: real, x: real)
    requires n > 0.0
    ensures n * x / n == x
  {
  }

  /**
   * A steady window, every entry reporting the same voltage and energy, is
   * its own baseline: it raises no alert unless both readings are zero.
   */
  lemma SteadyWindowIsQuiet(w: seq<Sample>, now: nat)
    requires |w| > 0
    requires forall i :: 0 <= i < |w| ==> w[i] == w[0]
    requires NumberOr(w[0].voltage, 0.0) >= 0.0 && NumberOr(w[0].energy, 0.0) >= 0.0
    requires NumberOr(w[0].voltage, 0.0) != 0.0 || NumberOr(w[0].energy, 0.0) != 0.0
    ensures Detect(w, now) == []
  {
    var v := NumberOr(w[0].voltage, 0.0);
    var e := NumberOr(w[0].energy, 0.0);
    var n := |w| as real;
    SumOfConstant(Voltages(w), v);
    SumOfConstant(Energies(w), e);
    CancelCount(n, v);
    CancelCount(n, e);
    assert MeanVoltage(w) == v;
    assert MeanEnergy(w) == e;
  }
}
