/**
 * The streaming page's own simulated feed: a one-second tick appends a
 * sample to a 20-entry window while streaming, and the Start, Pause and
 * Stop buttons toggle it.
 */
module StreamingPage {
  import RingBuffer

  datatype Point = Point(timestamp: string, voltage: real, current: real, power: real, temperature: real)

  datatype Page = Page(streaming: bool, buffer: seq<Point>, current: Point)

  datatype Status = Connected | Disconnected

  datatype Connections = Connections(stm32: Status, wifi: Status, api: Status)

  datatype Buttons = Buttons(startDisabled: bool, pauseDisabled: bool, stopDisabled: bool)

  /** The page as first rendered: not streaming, empty window, zero reading at 25 degrees. */
  function Initial(now: string): (p: Page)
    ensures !p.streaming && p.buffer == []
    ensures p.current == Point(now, 0.0, 0.0, 0.0, 25.0)
  {
    Page(false, [], Point(now, 0.0, 0.0, 0.0, 25.0))
  }

  /**
   * One tick of the interval with the generated `sample`; the window copy is
   * stamped with the local time of day `localTime`. Without streaming there
   * is no interval, so a tick changes nothing.
   */
  function Tick(p: Page, sample: Point, localTime: string): (r: Page)
    ensures !p.streaming ==> r == p
    ensures p.streaming ==> r.streaming && r.current == sample
    ensures p.streaming ==>
      r.buffer == RingBuffer.LastN(p.buffer + [sample.(timestamp := localTime)], RingBuffer.Capacity)
    ensures |p.buffer| <= RingBuffer.Capacity ==> |r.buffer| <= RingBuffer.Capacity
  {
    if p.streaming then
      p.(current := sample, buffer := RingBuffer.Push(p.buffer, sample.(timestamp := localTime)))
    else p
  }

  function HandleStart(p: Page): (r: Page)
    ensures r.streaming && r.buffer == p.buffer && r.current == p.current
    ensures p.streaming ==> r == p
  {
    p.(streaming := true)
  }

  function HandlePause(p: Page): (r: Page)
    ensures !r.streaming && r.buffer == p.buffer && r.current == p.current
  {
    p.(streaming := false)
  }

  function HandleStop(p: Page): (r: Page)
    ensures !r.streaming && r.buffer == [] && r.current == p.current
  {
    p.(streaming := false, buffer := [])
  }

  /** Which buttons are greyed out. */
  function ButtonsOf(p: Page): (b: Buttons)
    ensures b.startDisabled <==> p.streaming
    ensures b.pauseDisabled <==> !p.streaming
    ensures b.stopDisabled <==> !p.streaming && |p.buffer| == 0
  {
    Buttons(p.streaming, !p.streaming, !p.streaming && |p.buffer| == 0)
  }

  /** Exactly one of Start and Pause is usable, and Stop is usable whenever Pause is. */
  lemma ButtonsAreComplementary(p: Page)
    ensures ButtonsOf(p).startDisabled != ButtonsOf(p).pauseDisabled
    ensures !ButtonsOf(p).pauseDisabled ==> !ButtonsOf(p).stopDisabled
    ensures ButtonsOf(HandleStop(p)).stopDisabled
  {
  }

  /** The three status badges all follow the streaming flag. */
  function ConnectionsOf(p: Page): (c: Connections)
    ensures c.stm32 == Connected <==> p.streaming
    ensures c.wifi == c.stm32 && c.api == c.stm32
  {
    var s := if p.streaming then Connected else Disconnected;
    Connections(s, s, s)
  }

  /** One tick per element of `samples`, with its generated point and local time. */
  function Ticks(p: Page, samples: seq<(Point, string)>): Page
    decreases |samples|
  {
    if |samples| == 0 then p else Ticks(Tick(p, samples[0].0, samples[0].1), samples[1..])
  }

  /** The window copies the ticks add: each sample restamped with its local time. */
  function Stamped(samples: seq<(Point, string)>): (r: seq<Point>)
    ensures |r| == |samples|
  {
    seq(|samples|, i requires 0 <= i < |samples| => samples[i].0.(timestamp := samples[i].1))
  }

  /**
   * While streaming, any run of ticks leaves the newest min(n, 20) samples
   * in the window in order, and the last sample as the current reading.
   */
  lemma {:induction false} TicksKeepMostRecent(p: Page, samples: seq<(Point, string)>)
    requires p.streaming && |p.buffer| <= RingBuffer.Capacity
    ensures Ticks(p, samples).streaming
    ensures Ticks(p, samples).buffer == RingBuffer.LastN(p.buffer + Stamped(samples), RingBuffer.Capacity)
    ensures |samples| > 0 ==> Ticks(p, samples).current == samples[|samples| - 1].0
    decreases |samples|
  {
    if |samples| > 0 {
      var p' := Tick(p, samples[0].0, samples[0].1);
      TicksKeepMostRecent(p', samples[1..]);
      var x := samples[0].0.(timestamp := samples[0].1);
      RingBuffer.LastNAfterTrim(p.buffer + [x], Stamped(samples[1..]), RingBuffer.Capacity);
      assert Stamped(samples) == [x] + Stamped(samples[1..]);
      assert p.buffer + [x] + Stamped(samples[1..]) == p.buffer + Stamped(samples);
    } else {
      assert p.buffer + Stamped(samples) == p.buffer;
    }
  }
}
