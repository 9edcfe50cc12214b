/**
 * Ranked insights: the fixed fallback list, the backend path, the
 * descending-priority ordering the insights panel applies, and the icon,
 * badge and colour each insight type is shown with.
 */
module Insights {
  import opened Common
  import Text

  /** `kind` is the insight's `type`: "positive", "neutral" or "warning" as the backend sends it. */
  datatype Insight = Insight(title: string, description: string, kind: string, priority: int)

  datatype Panel = Panel(insights: seq<Insight>, loading: bool)

  datatype Icon = TrendingUp | AlertTriangle | Info
  datatype BadgeVariant = Default | Destructive | Secondary
  datatype Colour = Green | Yellow | Blue

  const MorningTitle := "Strong Morning Performance"
  const MorningText :=
    "Energy generation peaks between 8-10 AM. Consider optimizing sensor placement for morning foot traffic."
  const VoltageTitle := "Voltage Stability Good"
  const VoltageText := "System voltage remains stable around 3.5V. No calibration needed."
  const WeekendTitle := "Weekend Drop Normal"
  const WeekendText :=
    "Energy generation drops 40% on weekends due to reduced foot traffic. This is expected behavior."

  /** The canned list shown whenever the backend cannot be used. */
  function MockInsights(): (r: seq<Insight>)
    ensures |r| == 3
    ensures r[0].priority == 8 && r[1].priority == 5 && r[2].priority == 3
    ensures r[0].kind == "positive" && r[1].kind == "positive" && r[2].kind == "neutral"
  {
    [ Insight(MorningTitle, MorningText, "positive", 8),
      Insight(VoltageTitle, VoltageText, "positive", 5),
      Insight(WeekendTitle, WeekendText, "neutral", 3) ]
  }

  /**
   * `generateInsights()`: the parsed array from the backend's reply (which
   * may be empty), or the canned list when the backend is off, throws,
   * sends no bracketed array, or sends one that does not parse.
   */
  function GenerateInsights(reply: Reply, parse: string -> Option<seq<Insight>>): (r: seq<Insight>)
    ensures !reply.Replied? ==> r == MockInsights()
    ensures reply.Replied? && !Text.HasBracketPair(reply.text) ==> r == MockInsights()
    ensures reply.Replied? && Text.HasBracketPair(reply.text) ==>
      exists i, j :: Text.GreedyBracketMatch(reply.text, i, j) &&
        r == parse(reply.text[i..j + 1]).GetOr(MockInsights())
  {
    if reply.Replied? then
      var found := Text.ExtractJsonArray(reply.text);
      if found.Some? then parse(found.value).GetOr(MockInsights()) else MockInsights()
    else
      MockInsights()
  }

  predicate SortedByPriority(s: seq<Insight>) {
    forall i, j :: 0 <= i < j < |s| ==> s[i].priority >= s[j].priority
  }

  /** Inserts x before the first element of lower priority than x. */
  function Insert(x: Insight, s: seq<Insight>): (r: seq<Insight>)
    requires SortedByPriority(s)
    ensures SortedByPriority(r)
    ensures multiset(r) == multiset(s) + multiset{x}
    ensures |r| == |s| + 1
    decreases |s|
  {
    if |s| == 0 || x.priority >= s[0].priority then [x] + s
    else
      var rest := Insert(x, s[1..]);
      assert s == [s[0]] + s[1..];
      forall k | 0 <= k < |rest|
        ensures rest[k].priority <= s[0].priority
      {
        assert rest[k] in multiset(rest);
      }
      ConsSorted(s[0], rest);
      [s[0]] + rest
  }

  /** An element no lower than everything in a sorted list can go in front of it. */
  lemma ConsSorted(y: Insight, t: seq<Insight>)
    requires SortedByPriority(t)
    requires forall k :: 0 <= k < |t| ==> t[k].priority <= y.priority
    ensures SortedByPriority([y] + t)
  {
  }

  /** `data.sort((a, b) => b.priority - a.priority)`: highest priority first. */
  function SortByPriority(s: seq<Insight>): (r: seq<Insight>)
    ensures SortedByPriority(r)
    ensures multiset(r) == multiset(s)
    ensures |r| == |s|
    decreases |s|
  {
    if |s| == 0 then []
    else
      assert s == [s[0]] + s[1..];
      Insert(s[0], SortByPriority(s[1..]))
  }

  /**
   * `loadInsights()`: the panel shows the generated insights, highest
   * priority first, and is no longer loading.
   */
  function LoadInsights(p: Panel, reply: Reply, parse: string -> Option<seq<Insight>>): (r: Panel)
    ensures !r.loading
    ensures SortedByPriority(r.insights)
    ensures multiset(r.insights) == multiset(GenerateInsights(reply, parse))
  {
    Panel(SortByPriority(GenerateInsights(reply, parse)), false)
  }

  /** Sorting a list already in priority order leaves it exactly as it was. */
  lemma {:induction false} SortKeepsSortedList(s: seq<Insight>)
    requires SortedByPriority(s)
    ensures SortByPriority(s) == s
    decreases |s|
  {
    if |s| > 0 {
      SortKeepsSortedList(s[1..]);
      assert s == [s[0]] + s[1..];
    }
  }

  /** Generated insights already in priority order are shown exactly as generated. */
  lemma LoadKeepsSortedInsights(p: Panel, reply: Reply, parse: string -> Option<seq<Insight>>)
    requires SortedByPriority(GenerateInsights(reply, parse))
    ensures LoadInsights(p, reply, parse).insights == GenerateInsights(reply, parse)
  {
    SortKeepsSortedList(GenerateInsights(reply, parse));
  }

  /** With the backend off the panel shows the three canned insights in their given order. */
  lemma FallbackPanel(p: Panel, parse: string -> Option<seq<Insight>>)
    ensures LoadInsights(p, Disabled, parse).insights == MockInsights()
  {
    LoadKeepsSortedInsights(p, Disabled, parse);
  }

  function IconFor(kind: string): (r: Icon)
    ensures r == TrendingUp <==> kind == "positive"
    ensures r == AlertTriangle <==> kind == "warning"
  {
    if kind == "positive" then TrendingUp else if kind == "warning" then AlertTriangle else Info
  }

  function BadgeFor(kind: string): (r: BadgeVariant)
    ensures r == Default <==> kind == "positive"
    ensures r == Destructive <==> kind == "warning"
  {
    if kind == "positive" then Default else if kind == "warning" then Destructive else Secondary
  }

  function ColourFor(kind: string): (r: Colour)
    ensures r == Green <==> kind == "positive"
    ensures r == Yellow <==> kind == "warning"
  {
    if kind == "positive" then Green else if kind == "warning" then Yellow else Blue
  }

  /** Icon, badge and colour always tell the same story about an insight. */
  lemma StylesAgree(kind: string)
    ensures IconFor(kind) == Info <==> BadgeFor(kind) == Secondary
    ensures BadgeFor(kind) == Secondary <==> ColourFor(kind) == Blue
    ensures IconFor(kind) == AlertTriangle <==> ColourFor(kind) == Yellow
  {
  }
}
