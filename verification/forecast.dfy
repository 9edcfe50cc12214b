/**
 * Short-horizon energy forecasts: the hour-of-day heuristic used when the
 * text-completion backend is off or fails, and the mapping of the
 * backend's JSON predictions into forecast points.
 */
module Forecast {
  import opened Common
  import Text

  const HourMs: int := 3600000

  datatype ForecastPoint = ForecastPoint(timestamp: int, predictedEnergy: real, confidence: real)

  /** One element of the parsed prediction array; `Null` is `null` or `undefined`. */
  datatype Prediction = Entry(energy: Option<real>, confidence: Option<real>) | Null

  /** Base energy for an hour of the day: work hours 8..18 inclusive are busier. */
  function BaseEnergy(hour: int): real {
    if 8 <= hour <= 18 then 0.8 else 0.3
  }

  /** What the heuristic promises for a horizon of `hours` starting at `now`, local hour `hour0`. */
  ghost predicate IsMockForecast(r: seq<ForecastPoint>, hours: int, now: int, hour0: nat, rand: seq<real>) {
    && |r| == (if hours < 0 then 0 else hours)
    && |r| <= |rand|
    && forall i :: 0 <= i < |r| ==>
         && r[i].timestamp == now + i * HourMs
         && r[i].confidence == 0.7
         && r[i].predictedEnergy == BaseEnergy((hour0 + i) % 24) + rand[i] * 0.2
  }

  /** `Math.random()` draws lie in [0, 1). */
  predicate UnitDraws(rand: seq<real>) {
    forall i :: 0 <= i < |rand| ==> 0.0 <= rand[i] < 1.0
  }

  /**
   * The heuristic forecast; `rand[i]` is the i-th `Math.random()` draw and
   * `hour0` the local hour of `now`.
   */
  method MockForecast(hours: int, now: int, hour0: nat, rand: seq<real>) returns (r: seq<ForecastPoint>)
    requires hours <= |rand| && UnitDraws(rand)
    ensures IsMockForecast(r, hours, now, hour0, rand)
    ensures forall i :: 0 <= i < |r| ==> 0.3 <= r[i].predictedEnergy < 1.0
  {
    r := [];
    var i := 0;
    while i < hours
      invariant 0 <= i <= (if hours < 0 then 0 else hours)
      invariant |r| == i
      invariant forall k :: 0 <= k < i ==>
        && r[k].timestamp == now + k * HourMs
        && r[k].confidence == 0.7
        && r[k].predictedEnergy == BaseEnergy((hour0 + k) % 24) + rand[k] * 0.2
      invariant forall k :: 0 <= k < i ==> 0.3 <= r[k].predictedEnergy < 1.0
      decreases hours - i
    {
      var hour := (hour0 + i) % 24;
      var base := BaseEnergy(hour);
      r := r + [ForecastPoint(now + i * HourMs, base + rand[i] * 0.2, 0.7)];
      i := i + 1;
    }
  }

  /** Consecutive heuristic points are exactly one hour apart. */
  lemma MockForecastIsHourly(r: seq<ForecastPoint>, hours: int, now: int, hour0: nat, rand: seq<real>)
    requires IsMockForecast(r, hours, now, hour0, rand)
    ensures forall i :: 0 < i < |r| ==> r[i].timestamp == r[i - 1].timestamp + HourMs
  {
  }

  /** The end index of JavaScript's `a.slice(0, end)` on an array of length n. */
  function SliceEnd(n: nat, end: int): (k: nat)
    ensures k <= n
    ensures end >= 0 ==> k == if end <= n then end else n
    ensures end < 0 ==> k == if n + end >= 0 then n + end else 0
  {
    if end >= 0 then (if end <= n then end else n)
    else if n + end >= 0 then n + end else 0
  }

  /** Some kept prediction is `null`, so reading its `.energy` throws. */
  predicate HasNull(preds: seq<Prediction>, k: nat)
    requires k <= |preds|
  {
    exists i :: 0 <= i < k && preds[i].Null?
  }

  /** What the backend path promises: the kept predictions, hourly from `now`, with defaults. */
  ghost predicate IsAiForecast(r: seq<ForecastPoint>, preds: seq<Prediction>, hours: int, now: int) {
    && |r| == SliceEnd(|preds|, hours)
    && forall i :: 0 <= i < |r| ==>
         && preds[i].Entry?
         && r[i].timestamp == now + i * HourMs
         && r[i].predictedEnergy == NumberOr(preds[i].energy, 0.0)
         && r[i].confidence == NumberOr(preds[i].confidence, 0.5)
  }

  /** `predictions.slice(0, hours).map(...)`, failing when a kept element is `null`. */
  method MapPredictions(preds: seq<Prediction>, hours: int, now: int) returns (r: Option<seq<ForecastPoint>>)
    ensures r.None? <==> HasNull(preds, SliceEnd(|preds|, hours))
    ensures r.Some? ==> IsAiForecast(r.value, preds, hours, now)
  {
    var k := SliceEnd(|preds|, hours);
    var out: seq<ForecastPoint> := [];
    var i := 0;
    while i < k
      invariant 0 <= i <= k
      invariant |out| == i
      invariant forall j :: 0 <= j < i ==> preds[j].Entry?
      invariant forall j :: 0 <= j < i ==>
        && out[j].timestamp == now + j * HourMs
        && out[j].predictedEnergy == NumberOr(preds[j].energy, 0.0)
        && out[j].confidence == NumberOr(preds[j].confidence, 0.5)
    {
      if preds[i].Null? {
        return None;
      }
      out := out + [ForecastPoint(now + i * HourMs, NumberOr(preds[i].energy, 0.0), NumberOr(preds[i].confidence, 0.5))];
      i := i + 1;
    }
    r := Some(out);
  }

  /**
   * `forecastEnergy(hours)`: the backend's predictions when it answers with
   * a parsable array, the heuristic otherwise. `parse` is `JSON.parse` on
   * the extracted text, `None` when it throws.
   */
  method ForecastEnergy(
    reply: Reply, parse: string -> Option<seq<Prediction>>,
    hours: int, now: int, hour0: nat, rand: seq<real>)
    returns (r: seq<ForecastPoint>)
    requires hours <= |rand| && UnitDraws(rand)
    ensures !reply.Replied? ==> IsMockForecast(r, hours, now, hour0, rand)
    ensures reply.Replied? && Text.ExtractJsonArray(reply.text).None? ==> IsMockForecast(r, hours, now, hour0, rand)
    ensures reply.Replied? && Text.ExtractJsonArray(reply.text).Some? ==>
      var preds := parse(Text.ExtractJsonArray(reply.text).value);
      && (preds.None? ==> IsMockForecast(r, hours, now, hour0, rand))
      && (preds.Some? && HasNull(preds.value, SliceEnd(|preds.value|, hours)) ==> IsMockForecast(r, hours, now, hour0, rand))
      && (preds.Some? && !HasNull(preds.value, SliceEnd(|preds.value|, hours)) ==> IsAiForecast(r, preds.value, hours, now))
  {
    if reply.Replied? {
      var found := Text.ExtractJsonArray(reply.text);
      if found.Some? {
        var preds := parse(found.value);
        if preds.Some? {
          var mapped := MapPredictions(preds.value, hours, now);
          if mapped.Some? {
            return mapped.value;
          }
        }
      }
    }
    r := MockForecast(hours, now, hour0, rand);
  }
}
