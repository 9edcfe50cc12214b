/**
 * The pure reshaping the dashboard applies to REST responses once they
 * have arrived: date labels, hour-bucket series, the storage gauge, step
 * estimates and defaults for missing fields.
 */
module Api {
  import opened Common
  import Decimal
  import Text

  /** A calendar day as the aggregation endpoints return it in `_id`. */
  datatype DayId = DayId(year: nat, month: nat, day: nat)

  /** An element of a daily aggregate: `{ _id: {year, month, day}, totalEnergy }`. */
  datatype DayTotal = DayTotal(id: DayId, totalEnergy: real)

  /** An element of the weekly aggregate: `{ _id: week, totalEnergy }`. */
  datatype WeekTotal = WeekTotal(id: nat, totalEnergy: real)

  datatype EnergyPoint = EnergyPoint(time: string, energy: real, voltage: real)
  datatype DailyRecord = DailyRecord(date: string, energy: real, steps: int)
  datatype WeeklyRecord = WeeklyRecord(week: string, energy: real, avgSteps: int)
  datatype Storage = Storage(current: real, capacity: real, percentage: real)
  datatype BestDay = BestDay(date: string, energy: real, efficiency: real)
  datatype DailyAverage = DailyAverage(avgEnergy: real, avgSteps: real)

  /** Storage capacity in mWh (200 Wh). */
  const StorageCapacity: real := 200000.0

  /** `String(n).padStart(2, '0')`. */
  function Pad2(n: nat): (r: string)
    ensures Decimal.AllDigits(r) && Decimal.Value(r) == n
    ensures n < 100 ==> |r| == 2
    ensures n >= 10 ==> r == Decimal.NatToString(n)
  {
    var s := Decimal.NatToString(n);
    Decimal.ValueOfNatToString(n);
    if |s| < 2 then
      Decimal.LeadingZeroValue(s);
      "0" + s
    else
      s
  }

  /** `${year}-${pad2(month)}-${pad2(day)}`. */
  function DateString(d: DayId): (r: string)
    ensures r == Decimal.NatToString(d.year) + "-" + Pad2(d.month) + "-" + Pad2(d.day)
    ensures |r| > |Decimal.NatToString(d.year)| && r[|Decimal.NatToString(d.year)|] == '-'
    ensures r[..|Decimal.NatToString(d.year)|] == Decimal.NatToString(d.year)
    ensures d.month < 100 && d.day < 100 ==>
      var n := |Decimal.NatToString(d.year)|;
      && |r| == n + 6 && r[n + 3] == '-'
      && Decimal.AllDigits(r[n + 1..n + 3]) && Decimal.Value(r[n + 1..n + 3]) == d.month
      && Decimal.AllDigits(r[n + 4..]) && Decimal.Value(r[n + 4..]) == d.day
  {
    var y, m, dd := Decimal.NatToString(d.year), Pad2(d.month), Pad2(d.day);
    DashJoin(y, m, dd);
    y + "-" + m + "-" + dd
  }

  /** Where the three parts of a dash-joined label sit. */
  lemma DashJoin(y: string, m: string, d: string)
    ensures var r := y + "-" + m + "-" + d;
      && |r| == |y| + |m| + |d| + 2
      && r[..|y|] == y && r[|y|] == '-' && r[|y| + 1..|y| + 1 + |m|] == m
      && r[|y| + 1 + |m|] == '-' && r[|y| + 2 + |m|..] == d
  {
    var r := y + "-" + m + "-" + d;
    assert r[..|y|] == y;
    assert r[|y| + 1..|y| + 1 + |m|] == m;
    assert r[|y| + 2 + |m|..] == d;
  }

  /** A non-empty digit string's value. */
  function ParseNat(s: string): Option<nat> {
    if |s| > 0 && Decimal.AllDigits(s) then Some(Decimal.Value(s)) else None
  }

  /** Reads a date label back: three digit runs separated by '-'. */
  function ParseDate(s: string): Option<DayId> {
    match Text.FindFirst(s, '-', 0)
    case None => None
    case Some(i) =>
      match Text.FindFirst(s, '-', i + 1)
      case None => None
      case Some(j) =>
        match (ParseNat(s[..i]), ParseNat(s[i + 1..j]), ParseNat(s[j + 1..]))
        case (Some(y), Some(m), Some(dd)) => Some(DayId(y, m, dd))
        case _ => None
  }

  /** FindFirst lands on the first '-' at or after `from`. */
  lemma FirstDashAt(s: string, from: nat, i: nat)
    requires from <= i < |s| && s[i] == '-'
    requires forall k :: from <= k < i ==> s[k] != '-'
    ensures Text.FindFirst(s, '-', from) == Some(i)
  {
  }

  /** Three digit runs joined by '-' parse back into their values. */
  lemma ParseJoined(y: string, m: string, d: string)
    requires |y| > 0 && |m| > 0 && |d| > 0
    requires Decimal.AllDigits(y) && Decimal.AllDigits(m) && Decimal.AllDigits(d)
    ensures ParseDate(y + "-" + m + "-" + d) == Some(DayId(Decimal.Value(y), Decimal.Value(m), Decimal.Value(d)))
  {
    var s := y + "-" + m + "-" + d;
    var i := |y|;
    var j := |y| + 1 + |m|;
    assert s[..i] == y;
    assert s[i + 1..j] == m;
    assert s[j + 1..] == d;
    FirstDashAt(s, 0, i);
    FirstDashAt(s, i + 1, j);
  }

  /** Date labels carry the whole day: parsing one gives back the day it was built from. */
  lemma DateRoundTrip(d: DayId)
    ensures ParseDate(DateString(d)) == Some(d)
  {
    Decimal.ValueOfNatToString(d.year);
    ParseJoined(Decimal.NatToString(d.year), Pad2(d.month), Pad2(d.day));
  }

  /** The hour key a series label was built from: the label minus its ":00" suffix. */
  function HourOf(time: string): Option<string> {
    if |time| >= 3 && time[|time| - 3..] == ":00" then Some(time[..|time| - 3]) else None
  }

  /** `Object.entries(data).map(([hour, energy]) => ({ time: hour + ":00", energy, voltage: 0 }))`. */
  function EnergySeries(entries: seq<(string, real)>): (r: seq<EnergyPoint>)
    ensures |r| == |entries|
    ensures forall i :: 0 <= i < |r| ==>
      HourOf(r[i].time) == Some(entries[i].0) && r[i].energy == entries[i].1 && r[i].voltage == 0.0
  {
    seq(|entries|, i requires 0 <= i < |entries| => EnergyPoint(entries[i].0 + ":00", entries[i].1, 0.0))
  }

  /** The voltage series: the same shape with energy forced to 0. */
  function VoltageSeries(entries: seq<(string, real)>): (r: seq<EnergyPoint>)
    ensures |r| == |entries|
    ensures forall i :: 0 <= i < |r| ==>
      HourOf(r[i].time) == Some(entries[i].0) && r[i].voltage == entries[i].1 && r[i].energy == 0.0
  {
    seq(|entries|, i requires 0 <= i < |entries| => EnergyPoint(entries[i].0 + ":00", 0.0, entries[i].1))
  }

  /** The storage gauge: percentage of a 200 Wh capacity, capped at 100. */
  function StorageOf(estimatedStorage: real): (r: Storage)
    ensures r.current == estimatedStorage && r.capacity == StorageCapacity
    ensures r.percentage <= 100.0
    ensures r.percentage == 100.0 <==> estimatedStorage >= StorageCapacity
    ensures estimatedStorage < StorageCapacity ==> r.percentage * 2000.0 == estimatedStorage
    ensures estimatedStorage >= 0.0 ==> r.percentage >= 0.0
  {
    var pct := estimatedStorage / StorageCapacity * 100.0;
    Storage(estimatedStorage, StorageCapacity, if pct <= 100.0 then pct else 100.0)
  }

  /** `Math.floor(x)` on an exact real. */
  function FloorOf(x: real): (n: int)
    ensures n as real <= x < n as real + 1.0
  {
    x.Floor
  }

  /** A daily record: the date label and `floor(totalEnergy * 2)` estimated steps. */
  function DailyRecordOf(t: DayTotal): (r: DailyRecord)
    ensures r.date == DateString(t.id) && ParseDate(r.date) == Some(t.id)
    ensures r.energy == t.totalEnergy
    ensures r.steps as real <= t.totalEnergy * 2.0 < r.steps as real + 1.0
  {
    DateRoundTrip(t.id);
    DailyRecord(DateString(t.id), t.totalEnergy, FloorOf(t.totalEnergy * 2.0))
  }

  /** The 7-day breakdown and the recent-activity list: one daily record per element, in order. */
  function DailyRecords(data: seq<DayTotal>): (r: seq<DailyRecord>)
    ensures |r| == |data|
    ensures forall i :: 0 <= i < |r| ==> r[i] == DailyRecordOf(data[i])
  {
    seq(|data|, i requires 0 <= i < |data| => DailyRecordOf(data[i]))
  }

  /** A weekly record: "Week <id>" and `floor(totalEnergy * 2 / 7)` average daily steps. */
  function WeeklyRecordOf(t: WeekTotal): (r: WeeklyRecord)
    ensures r.week == "Week " + Decimal.NatToString(t.id)
    ensures |r.week| > 5 && r.week[..5] == "Week "
    ensures ParseNat(r.week[5..]) == Some(t.id)
    ensures r.week[5] == '0' <==> t.id == 0
    ensures r.energy == t.totalEnergy
    ensures r.avgSteps as real <= t.totalEnergy * 2.0 / 7.0 < r.avgSteps as real + 1.0
  {
    var week := "Week " + Decimal.NatToString(t.id);
    assert week[5..] == Decimal.NatToString(t.id);
    Decimal.ValueOfNatToString(t.id);
    WeeklyRecord(week, t.totalEnergy, FloorOf(t.totalEnergy * 2.0 / 7.0))
  }

  function WeeklyRecords(data: seq<WeekTotal>): (r: seq<WeeklyRecord>)
    ensures |r| == |data|
    ensures forall i :: 0 <= i < |r| ==> r[i] == WeeklyRecordOf(data[i])
  {
    seq(|data|, i requires 0 <= i < |data| => WeeklyRecordOf(data[i]))
  }

  /** The best day, with its efficiency fixed at 96. */
  function BestPerformance(t: DayTotal): (r: BestDay)
    ensures r.date == DateString(t.id) && ParseDate(r.date) == Some(t.id)
    ensures r.energy == t.totalEnergy && r.efficiency == 96.0
  {
    DateRoundTrip(t.id);
    BestDay(DateString(t.id), t.totalEnergy, 96.0)
  }

  /** Average daily output: a missing or zero average is 0, and steps are twice the energy, unrounded. */
  function AverageDailyOutput(avgEnergy: Option<real>): (r: DailyAverage)
    ensures r.avgSteps == 2.0 * r.avgEnergy
    ensures avgEnergy.None? ==> r.avgEnergy == 0.0
    ensures avgEnergy.Some? ==> r.avgEnergy == avgEnergy.value
  {
    var e := NumberOr(avgEnergy, 0.0);
    DailyAverage(e, e * 2.0)
  }
}
