/**
 * The anomaly alert panel: each check replaces the alert list with a fresh
 * detection pass over the 24-hour energy series, the viewer can dismiss
 * alerts by id, and severities pick the colour and icon.
 */
module AlertPanel {
  import opened Common
  import Anomaly
  import Api

  datatype Panel = Panel(alerts: seq<Anomaly.Alert>, loading: bool)

  datatype Colour = Red | Yellow | Blue
  datatype Icon = XCircle | AlertTriangle | Info

  /** Before the first check completes the panel is loading and empty. */
  function Initial(): (p: Panel)
    ensures p.loading && p.alerts == []
  {
    Panel([], true)
  }

  /** The detector reads `voltage` and `energy` of each series point. */
  function AsWindow(series: seq<Api.EnergyPoint>): (w: seq<Anomaly.Sample>)
    ensures |w| == |series|
    ensures forall i :: 0 <= i < |w| ==> w[i] == Anomaly.Sample(Some(series[i].voltage), Some(series[i].energy))
  {
    seq(|series|, i requires 0 <= i < |series| => Anomaly.Sample(Some(series[i].voltage), Some(series[i].energy)))
  }

  /**
   * `checkAnomalies()`: `fetched` is the 24-hour energy response, or None
   * when the request threw. A fetched response replaces the alerts
   * wholesale; a failed one keeps them. Either way loading ends.
   */
  function CheckAnomalies(p: Panel, fetched: Option<seq<(string, real)>>, now: nat): (r: Panel)
    ensures !r.loading
    ensures fetched.None? ==> r.alerts == p.alerts
    ensures fetched.Some? ==> r.alerts == Anomaly.Detect(AsWindow(Api.EnergySeries(fetched.value)), now)
  {
    match fetched
    case None => p.(loading := false)
    case Some(entries) => Panel(Anomaly.Detect(AsWindow(Api.EnergySeries(entries)), now), false)
  }

  /**
   * The energy series carries voltage 0 everywhere, so a check on it can
   * never raise a voltage alert: only the energy and zero-output checks are
   * live in this panel.
   */
  lemma NoVoltageAlertFromEnergySeries(p: Panel, entries: seq<(string, real)>, now: nat)
    ensures !Anomaly.Reports(CheckAnomalies(p, Some(entries), now).alerts, "voltage")
  {
    var w := AsWindow(Api.EnergySeries(entries));
    if |w| > 0 {
      Anomaly.SumOfConstant(Anomaly.Voltages(w), 0.0);
      assert Anomaly.MeanVoltage(w) == 0.0;
      assert Anomaly.LatestVoltage(w) == 0.0;
      Anomaly.DetectVoltageTiers(w, now);
    }
  }

  /** a is b with some elements left out, order kept. */
  predicate SubsequenceOf<T(==)>(a: seq<T>, b: seq<T>)
    decreases |b|
  {
    if |a| == 0 then true
    else if |b| == 0 then false
    else if a[0] == b[0] then SubsequenceOf(a[1..], b[1..])
    else SubsequenceOf(a, b[1..])
  }

  /** `s.filter(keep)`: the elements keep accepts, in their original order. */
  function Filter<T(!new)>(s: seq<T>, keep: T -> bool): (r: seq<T>)
    ensures SubsequenceOf(r, s)
    ensures forall i :: 0 <= i < |r| ==> keep(r[i])
    ensures forall a :: multiset(r)[a] == if keep(a) then multiset(s)[a] else 0
    decreases |s|
  {
    if |s| == 0 then []
    else
      var x := s[0];
      var rest := Filter(s[1..], keep);
      assert s == [x] + s[1..];
      CountsOfCons(x, s[1..]);
      if !keep(x) then
        SubsequenceOfTail(rest, s);
        rest
      else
        CountsOfCons(x, rest);
        [x] + rest
  }

  /** `alerts.filter(a => a.id !== id)`. */
  function Without(alerts: seq<Anomaly.Alert>, id: string): (r: seq<Anomaly.Alert>)
    ensures SubsequenceOf(r, alerts)
    ensures forall i :: 0 <= i < |r| ==> r[i].id != id
    ensures forall a :: multiset(r)[a] == if a.id == id then 0 else multiset(alerts)[a]
  {
    Filter(alerts, (a: Anomaly.Alert) => a.id != id)
  }

  /** Element counts of a sequence with one element in front. */
  lemma CountsOfCons<T>(x: T, s: seq<T>)
    ensures |[x] + s| > 0 && ([x] + s)[0] == x && ([x] + s)[1..] == s
    ensures forall a :: multiset([x] + s)[a] == multiset(s)[a] + (if a == x then 1 else 0)
  {
    assert ([x] + s)[1..] == s;
  }

  /** A subsequence of b's tail is a subsequence of b. */
  lemma {:induction false} SubsequenceOfTail<T>(a: seq<T>, b: seq<T>)
    requires |b| > 0 && SubsequenceOf(a, b[1..])
    ensures SubsequenceOf(a, b)
    decreases |b|, 0
  {
    if |a| > 0 && a[0] == b[0] {
      SubsequenceDropHead(a, b[1..]);
    }
  }

  /** Leaving out a's first element keeps it a subsequence. */
  lemma {:induction false} SubsequenceDropHead<T>(a: seq<T>, c: seq<T>)
    requires |a| > 0 && SubsequenceOf(a, c)
    ensures SubsequenceOf(a[1..], c)
    decreases |c|, 1
  {
    if a[0] != c[0] {
      SubsequenceDropHead(a, c[1..]);
    }
    SubsequenceOfTail(a[1..], c);
  }

  /** The viewer dismisses every alert with the given id; nothing else changes. */
  function Dismiss(p: Panel, id: string): (r: Panel)
    ensures r.loading == p.loading
    ensures SubsequenceOf(r.alerts, p.alerts)
    ensures forall i :: 0 <= i < |r.alerts| ==> r.alerts[i].id != id
    ensures forall a :: a in p.alerts && a.id != id ==> a in r.alerts
  {
    var r := Panel(Without(p.alerts, id), p.loading);
    assert forall a :: a in p.alerts ==> multiset(p.alerts)[a] > 0;
    r
  }

  /** Filtering out an id no alert carries leaves the list as it was. */
  lemma {:induction false} WithoutAbsent(alerts: seq<Anomaly.Alert>, id: string)
    requires forall i :: 0 <= i < |alerts| ==> alerts[i].id != id
    ensures Without(alerts, id) == alerts
    decreases |alerts|
  {
    if |alerts| > 0 {
      WithoutAbsent(alerts[1..], id);
      assert alerts == [alerts[0]] + alerts[1..];
    }
  }

  /** Dismissing an id that is not shown changes nothing. */
  lemma DismissAbsentId(p: Panel, id: string)
    requires forall i :: 0 <= i < |p.alerts| ==> p.alerts[i].id != id
    ensures Dismiss(p, id) == p
  {
    WithoutAbsent(p.alerts, id);
  }

  /** Dismissing twice is dismissing once. */
  lemma DismissIdempotent(p: Panel, id: string)
    ensures Dismiss(Dismiss(p, id), id) == Dismiss(p, id)
  {
    WithoutAbsent(Dismiss(p, id).alerts, id);
  }

  function SeverityColour(s: Anomaly.Severity): (c: Colour)
    ensures c == Red <==> s == Anomaly.High
    ensures c == Yellow <==> s == Anomaly.Medium
  {
    match s
    case High => Red
    case Medium => Yellow
    case Low => Blue
  }

  function SeverityIcon(s: Anomaly.Severity): (i: Icon)
    ensures i == XCircle <==> s == Anomaly.High
    ensures i == AlertTriangle <==> s == Anomaly.Medium
  {
    match s
    case High => XCircle
    case Medium => AlertTriangle
    case Low => Info
  }
}
