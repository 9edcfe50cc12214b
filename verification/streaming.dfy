/**
 * The process-scoped streaming session: the persisted on/off intent, the
 * window of the last 20 readings and the current reading, driven by the
 * three commands and the two events of the server-sent telemetry feed.
 * The feed connection exists exactly while `streaming` is true, so frames
 * and transport errors only reach a streaming session.
 */
module Streaming {
  import opened Common
  import RingBuffer

  /** One telemetry sample after normalisation. */
  datatype Reading = Reading(timestamp: string, voltage: real, current: real, power: real, force: real)

  /** The fields of a sample object as the feed sent them; falsy or missing is None. */
  datatype Fields = Fields(
    timestamp: Option<string>,
    voltage: Option<real>,
    current: Option<real>,
    power: Option<real>,
    force: Option<real>)

  /**
   * A JSON value inside a frame. Any truthy value is an `Obj`; one that is
   * not an object (a nested array, a non-zero number, `true`, a non-empty
   * string) is an `Obj` with no fields. `Falsy` is `null`, `false`, `0` or "".
   */
  datatype Value = Obj(fields: Fields) | Falsy

  /** The payload of one frame: an array, a single value, or text that is not JSON. */
  datatype Frame = Arr(items: seq<Value>) | Single(v: Value) | Malformed

  datatype Event =
    | Start
    | Pause
    | Stop
    | FrameArrived(frame: Frame, now: string)  // `now`: the ingestion instant, ISO formatted
    | TransportError

  datatype Session = Session(streaming: bool, buffer: seq<Reading>, current: Reading)

  /** The session together with the persisted intent cell (absent until first written). */
  datatype Host = Host(session: Session, stored: Option<string>)

  /**
   * The sample a frame contributes: the last element of an array payload, or
   * the payload itself; nothing when that element is falsy, the array is
   * empty, or the text did not parse.
   */
  function Selected(f: Frame): (r: Option<Fields>)
    ensures f.Malformed? ==> r.None?
    ensures f.Arr? ==> (r.Some? <==> |f.items| > 0 && f.items[|f.items| - 1].Obj?)
    ensures f.Arr? && r.Some? ==> r.value == f.items[|f.items| - 1].fields
    ensures f.Single? ==> (r.Some? <==> f.v.Obj?)
    ensures f.Single? && r.Some? ==> r.value == f.v.fields
  {
    match f
    case Malformed => None
    case Single(v) => if v.Obj? then Some(v.fields) else None
    case Arr(items) =>
      if |items| == 0 then None
      else
        var last := items[|items| - 1];
        if last.Obj? then Some(last.fields) else None
  }

  /** Builds the reading: falsy numbers become 0, a falsy timestamp becomes `now`. */
  function Normalize(f: Fields, now: string): (r: Reading)
    ensures r.timestamp == (if f.timestamp.Some? && f.timestamp.value != "" then f.timestamp.value else now)
    ensures f.voltage.None? ==> r.voltage == 0.0
    ensures f.voltage.Some? ==> r.voltage == f.voltage.value
    ensures f.current.None? ==> r.current == 0.0
    ensures f.current.Some? ==> r.current == f.current.value
    ensures f.power.None? ==> r.power == 0.0
    ensures f.power.Some? ==> r.power == f.power.value
    ensures f.force.None? ==> r.force == 0.0
    ensures f.force.Some? ==> r.force == f.force.value
  {
    Reading(
      StringOr(f.timestamp, now),
      NumberOr(f.voltage, 0.0),
      NumberOr(f.current, 0.0),
      NumberOr(f.power, 0.0),
      NumberOr(f.force, 0.0))
  }

  /** The copy kept in the window carries its timestamp as a local time of day. */
  function ForWindow(r: Reading, localTime: string -> string): Reading {
    r.(timestamp := localTime(r.timestamp))
  }

  /** The window entry a frame adds to a streaming session, if any. */
  function Accepted(f: Frame, now: string, localTime: string -> string): seq<Reading> {
    var sel := Selected(f);
    if sel.Some? then [ForWindow(Normalize(sel.value, now), localTime)] else []
  }

  /** The frame handler: a frame that yields no sample leaves everything unchanged. */
  function OnFrame(s: Session, f: Frame, now: string, localTime: string -> string): (r: Session)
    requires s.streaming
    ensures r.streaming
    ensures Selected(f).None? ==> r == s
    ensures Selected(f).Some? ==> r.current == Normalize(Selected(f).value, now)
    ensures |s.buffer| <= RingBuffer.Capacity ==>
              r.buffer == RingBuffer.LastN(s.buffer + Accepted(f, now, localTime), RingBuffer.Capacity)
  {
    match Selected(f)
    case None => s
    case Some(fields) =>
      var reading := Normalize(fields, now);
      s.(current := reading, buffer := RingBuffer.Push(s.buffer, ForWindow(reading, localTime)))
  }

  /**
   * One atomic transition. A frame or transport error reaching a session
   * that is not streaming has no connection to come from and is ignored.
   */
  function Transition(s: Session, e: Event, localTime: string -> string): (r: Session)
    ensures |s.buffer| <= RingBuffer.Capacity ==> |r.buffer| <= RingBuffer.Capacity
    ensures e.Start? ==> r.streaming && r.buffer == s.buffer && r.current == s.current
    ensures e.Start? && s.streaming ==> r == s
    ensures e.Pause? ==> !r.streaming && r.buffer == s.buffer && r.current == s.current
    ensures e.Stop? ==> !r.streaming && r.buffer == [] && r.current == s.current
    ensures e.TransportError? ==> !r.streaming && r.buffer == s.buffer && r.current == s.current
    ensures e.FrameArrived? ==> r.streaming == s.streaming
    ensures e.FrameArrived? && (!s.streaming || e.frame.Malformed?) ==> r == s
  {
    match e
    case Start => s.(streaming := true)
    case Pause => s.(streaming := false)
    case Stop => s.(streaming := false, buffer := [])
    case TransportError => s.(streaming := false)
    case FrameArrived(f, now) => if s.streaming then OnFrame(s, f, now, localTime) else s
  }

  /** How the intent is written: `String(isStreaming)`. */
  function Encode(streaming: bool): (s: string)
    ensures s == "true" || s == "false"
    ensures Decode(Some(s)) == streaming
  {
    if streaming then "true" else "false"
  }

  /** How the intent is read back: only the exact string "true" means streaming. */
  function Decode(saved: Option<string>): (b: bool)
    ensures b <==> saved == Some("true")
  {
    saved.Some? && saved.value == "true"
  }

  /** The persisted cell agrees with the session and the window is within bounds. */
  predicate Consistent(h: Host) {
    && h.stored == Some(Encode(h.session.streaming))
    && |h.session.buffer| <= RingBuffer.Capacity
  }

  /**
   * Provider start-up: the intent is restored from the stored string, the
   * window starts empty, the current reading is all zeros stamped `now`, and
   * the persistence effect writes the restored intent back.
   */
  function Boot(saved: Option<string>, now: string): (h: Host)
    ensures h.session.streaming <==> saved == Some("true")
    ensures h.session.buffer == []
    ensures h.session.current == Reading(now, 0.0, 0.0, 0.0, 0.0)
    ensures Consistent(h)
  {
    var s := Session(Decode(saved), [], Reading(now, 0.0, 0.0, 0.0, 0.0));
    Host(s, Some(Encode(s.streaming)))
  }

  /** A transition followed by the persistence effect, which runs when the intent changed. */
  function Step(h: Host, e: Event, localTime: string -> string): (r: Host)
    ensures Consistent(h) ==> Consistent(r)
    ensures e.TransportError? ==> r.stored == Some("false") || (!h.session.streaming && r.stored == h.stored)
  {
    var s' := Transition(h.session, e, localTime);
    Host(s', if s'.streaming != h.session.streaming then Some(Encode(s'.streaming)) else h.stored)
  }

  /** Applies the events in order. */
  function Run(h: Host, events: seq<Event>, localTime: string -> string): Host
    decreases |events|
  {
    if |events| == 0 then h else Run(Step(h, events[0], localTime), events[1..], localTime)
  }

  /**
   * A transport error always ends streaming and leaves "false" in the
   * persisted cell, whatever the intent was; the data is kept.
   */
  lemma TransportErrorDisablesIntent(h: Host, localTime: string -> string)
    requires Consistent(h)
    ensures Step(h, TransportError, localTime).stored == Some("false")
    ensures !Step(h, TransportError, localTime).session.streaming
    ensures Step(h, TransportError, localTime).session.buffer == h.session.buffer
    ensures Step(h, TransportError, localTime).session.current == h.session.current
  {
  }

  /** Intent written by a session and restored by the next provider start-up round-trips. */
  lemma IntentRoundTrip(h: Host, now: string)
    requires Consistent(h)
    ensures Boot(h.stored, now).session.streaming == h.session.streaming
    ensures Boot(h.stored, now).session.buffer == []
  {
  }

  /** Any history of events from start-up keeps the cell consistent and the window bounded. */
  lemma {:induction false} RunStaysConsistent(h: Host, events: seq<Event>, localTime: string -> string)
    requires Consistent(h)
    ensures Consistent(Run(h, events, localTime))
    decreases |events|
  {
    if |events| > 0 {
      RunStaysConsistent(Step(h, events[0], localTime), events[1..], localTime);
    }
  }

  /** One frame reaching a streaming session. */
  lemma FrameStep(h: Host, e: Event, localTime: string -> string)
    requires h.session.streaming && |h.session.buffer| <= RingBuffer.Capacity
    requires e.FrameArrived?
    ensures Step(h, e, localTime).session.streaming
    ensures Step(h, e, localTime).session.buffer
         == RingBuffer.LastN(h.session.buffer + Accepted(e.frame, e.now, localTime), RingBuffer.Capacity)
  {
    assert Transition(h.session, e, localTime) == OnFrame(h.session, e.frame, e.now, localTime);
  }

  predicate AllFrames(events: seq<Event>) {
    forall i :: 0 <= i < |events| ==> events[i].FrameArrived?
  }

  /** The window entries a run of frames adds, in arrival order. */
  function AcceptedAll(events: seq<Event>, localTime: string -> string): seq<Reading>
    requires AllFrames(events)
    decreases |events|
  {
    if |events| == 0 then []
    else Accepted(events[0].frame, events[0].now, localTime) + AcceptedAll(events[1..], localTime)
  }

  /**
   * While streaming, after any run of frames the window holds the newest
   * min(n, 20) accepted readings, in arrival order.
   */
  lemma {:induction false} FramesKeepMostRecent(h: Host, events: seq<Event>, localTime: string -> string)
    requires h.session.streaming && |h.session.buffer| <= RingBuffer.Capacity
    requires AllFrames(events)
    ensures Run(h, events, localTime).session.streaming
    ensures Run(h, events, localTime).session.buffer
         == RingBuffer.LastN(h.session.buffer + AcceptedAll(events, localTime), RingBuffer.Capacity)
    decreases |events|
  {
    if |events| == 0 {
      assert h.session.buffer + [] == h.session.buffer;
    } else {
      var e := events[0];
      var h' := Step(h, e, localTime);
      FrameStep(h, e, localTime);
      FramesKeepMostRecent(h', events[1..], localTime);
      RingBuffer.LastNAfterTrimAppend(
        h.session.buffer, Accepted(e.frame, e.now, localTime), AcceptedAll(events[1..], localTime), RingBuffer.Capacity);
    }
  }
}
