# Energy-harvesting dashboard: telemetry pipeline model

A Dafny model of the telemetry core of a piezoelectric energy-harvesting
dashboard, covering:

- the process-scoped **streaming session**: the persisted on/off intent, a
  window of the last 20 readings and the current reading. It is driven by
  Start/Pause/Stop and by the frames and transport errors of the
  server-sent telemetry feed;
- the **anomaly detector**: tiered thresholds against the window mean;
- the **forecast engine**: an hour-of-day heuristic fallback, plus the
  mapping of the text-completion backend's JSON predictions;
- the **insight summariser**: a canned fallback, the backend path and the
  descending-priority display order;
- the chatbot's **error-reply policy**;
- the **REST response shaping**: date labels, hour series, storage gauge and
  step estimates;
- the page-local state of the streaming page and the anomaly alert panel.

Every handler is one atomic, pure transition. Clocks, random draws, the
feed, storage, HTTP and the text-completion backend are parameters:

- `now` and `localTime` values stand in for the clock and its formatting;
- `rand` sequences in [0, 1) stand in for `Math.random()`;
- a `Frame` value is one message of the feed;
- `Reply`/`Outcome` values are what the backend did;
- `parse` is `JSON.parse` applied to the extracted text (`None` when it throws).

Voltages and energies are exact `real`s.

Modules, one per concept:

| file | module | models |
|---|---|---|
| common.dfy | `Common` | `Option`, JavaScript's `x \|\| d` on numbers and strings |
| decimal.dfy | `Decimal` | `String(n)` for naturals, digit-string values |
| text.dfy | `Text` | `includes`, the greedy match of `/\[[\s\S]*\]/` |
| ring_buffer.dfy | `RingBuffer` | `[...prev, x].slice(-20)` |
| streaming.dfy | `Streaming` | `StreamingProvider` state, frame handler, intent persistence |
| anomaly.dfy | `Anomaly` | `detectAnomalies` |
| forecast.dfy | `Forecast` | `generateMockForecast`, `forecastEnergy` |
| insights.dfy | `Insights` | `getMockInsights`, `generateInsights`, the insights panel |
| chat.dfy | `Chat` | reply and error classification of `askAIChatbot` |
| api.dfy | `Api` | post-fetch transforms of the dashboard and history APIs |
| streaming_page.dfy | `StreamingPage` | the streaming page's tick, buttons and badges |
| alert_panel.dfy | `AlertPanel` | the anomaly alert panel |

Modelling notes:

- The session's whole connection state is one streaming flag. The feed
  connection is open exactly while the flag is true: setting the flag opens
  it, and clearing the flag closes it. So frames and errors that reach a
  non-streaming session are no-ops.
- JavaScript truthiness is kept:
  - an empty array frame selects `undefined` and changes nothing;
  - a truthy non-object last element (a nested array, a number) is accepted
    as a reading of zeros;
  - a present `0` and a missing field give the same default.
- With a negative mean voltage, the 50% tier can fire where the 70% tier
  would not. The voltage-alert condition is therefore "below 50% or below
  70% of the mean".
- The alert panel feeds the detector the 24-hour energy series, whose
  voltage is forced to 0. From that caller no voltage alert can ever be
  raised (`AlertPanel.NoVoltageAlertFromEnergySeries`).
- In `forecastEnergy`, a `null` among the kept predictions makes `p.energy`
  throw, and the result falls back to the heuristic. A negative horizon
  follows `slice(0, hours)`, which drops elements from the end.

## Model

| member | source | states |
|---|---|---|
| Common.NumberOr | src/contexts/StreamingContext.tsx:59-62 | JavaScript's falsy default on a number: a present non-zero value is kept; a missing value or 0 gives the default |
| Common.StringOr | src/contexts/StreamingContext.tsx:58 | JavaScript's falsy default on a string: a present non-empty string is kept; a missing or empty one gives the default |
| Decimal.NatToString | src/lib/api.ts:153 | `String(n)` is a non-empty digit string with no leading zero except for 0, one digit exactly below 10 |
| Decimal.ValueOfNatToString | src/lib/api.ts:153 | the digits `String(n)` writes have the value n |
| Text.ContainsInfix | src/lib/ai-service.ts:86-92 | `includes` holds for any text that stands between a prefix and a suffix |
| Text.ContainsSplit | src/lib/ai-service.ts:86-92 | when `includes` holds, the container splits into a prefix, the text and a suffix |
| RingBuffer.Push | src/contexts/StreamingContext.tsx:67-73 | the window never exceeds 20; it grows by one until full; the new reading is last; the previous newest 19 stay in order before it |
| RingBuffer.PushAllKeepsMostRecent | src/contexts/StreamingContext.tsx:67-73 | after any run of pushes onto a window within bounds, the window is the newest 20 of everything seen, in arrival order |
| RingBuffer.FromEmptyKeepsMostRecent | src/pages/DataStreaming.tsx:52-55 | from an empty window, n pushes leave exactly the newest min(n, 20) readings in order |
| Streaming.Selected | src/contexts/StreamingContext.tsx:52-56 | an array frame contributes only its last element, a single value is a one-element array; empty arrays, falsy elements and malformed text contribute nothing |
| Streaming.Normalize | src/contexts/StreamingContext.tsx:57-63 | missing or zero voltage/current/power/force become 0; a missing or empty timestamp becomes the ingestion time; present values are copied |
| Streaming.OnFrame | src/contexts/StreamingContext.tsx:50-78 | a frame with no sample changes nothing; otherwise the current reading is the normalised sample and the window is the newest 20 of old window plus its local-time copy |
| Streaming.Transition | src/contexts/StreamingContext.tsx:50-103 | pause clears the flag only; stop clears the flag and empties the window but keeps the current reading; start when streaming is a no-op; an error clears the flag only; frames never change the flag; malformed frames and frames to a stopped session change nothing; the 20 bound is kept |
| Streaming.Encode | src/contexts/StreamingContext.tsx:39 | `String(isStreaming)` is "true" or "false", and decoding it gives back the flag |
| Streaming.Decode | src/contexts/StreamingContext.tsx:24-27 | the restored intent is true exactly when the stored string is "true" |
| Streaming.Boot | src/contexts/StreamingContext.tsx:23-40 | start-up restores the intent from the exact string "true", starts with an empty window and a zero reading, and leaves the cell consistent |
| Streaming.Step | src/contexts/StreamingContext.tsx:37-40 | the persistence effect keeps the stored string equal to String(isStreaming) and the window bounded |
| Streaming.TransportErrorDisablesIntent | src/contexts/StreamingContext.tsx:80-84 | a transport error always leaves the flag false and the stored intent "false", with window and current reading untouched |
| Streaming.IntentRoundTrip | src/contexts/StreamingContext.tsx:24-40 | the intent a session persisted is the intent the next start-up restores, with an empty window |
| Streaming.RunStaysConsistent | src/contexts/StreamingContext.tsx:37-103 | over any history of commands and events, the stored intent matches the flag and the window never exceeds 20 |
| Streaming.FramesKeepMostRecent | src/contexts/StreamingContext.tsx:50-73 | while streaming, any run of frames leaves the newest min(n, 20) accepted readings, in arrival order |
| Anomaly.VoltageCheck | src/lib/ai-service.ts:256-277 | at most one voltage alert: high below half the mean, else medium below 70%, with value = latest and expected = mean; the id ends in "voltage" exactly for high and in "voltage-low" exactly for medium |
| Anomaly.EnergyCheck | src/lib/ai-service.ts:279-290 | a medium energy alert exactly when latest energy < 0.3 x mean and mean > 0.1 |
| Anomaly.ZeroCheck | src/lib/ai-service.ts:292-303 | a high "system" alert exactly when the newest voltage and energy are both 0, with value 0 and expected = mean energy |
| Anomaly.Detect | src/lib/ai-service.ts:240-309 | an empty window gives no alerts; at most 3 alerts, ordered voltage, energy, zero, with distinct ids, all stamped with the pass instant |
| Anomaly.DetectVoltageTiers | src/lib/ai-service.ts:253-277 | a pass reports voltage exactly on the tier conditions, with the right severity, value and baseline |
| Anomaly.DetectEnergyCheck | src/lib/ai-service.ts:280-290 | a pass reports energy exactly when latest < 0.3 x mean and mean > 0.1, as medium |
| Anomaly.DetectZeroOutput | src/lib/ai-service.ts:293-303 | a pass reports zero output exactly when both newest readings are 0, as high, in addition to other alerts |
| Anomaly.SumOfConstant | src/lib/ai-service.ts:250-251 | the reduce-sum of n equal readings is n times the reading |
| Anomaly.SteadyWindowIsQuiet | src/lib/ai-service.ts:247-303 | a window of identical non-negative readings that are not both zero raises no alert |
| Forecast.MockForecast | src/lib/ai-service.ts:148-166 | exactly max(hours, 0) points; point i at now + i hours, confidence 0.7, energy 0.8 in hours 8..18 else 0.3, plus 0.2 x draw; energy in [0.3, 1.0) |
| Forecast.MockForecastIsHourly | src/lib/ai-service.ts:152-162 | consecutive heuristic points are one hour apart |
| Forecast.SliceEnd | src/lib/ai-service.ts:135 | `slice(0, hours)` keeps min(n, hours) for hours >= 0 and drops -hours from the end otherwise |
| Forecast.MapPredictions | src/lib/ai-service.ts:135-139 | fails exactly when a kept prediction is null; otherwise one point per kept prediction, hourly, falsy energy 0 and falsy confidence 0.5 |
| Forecast.ForecastEnergy | src/lib/ai-service.ts:103-146 | backend off, failed, without a bracketed array, unparsable or with a null kept element gives the heuristic; otherwise the mapped predictions, possibly empty |
| Text.ExtractJsonArray | src/lib/ai-service.ts:130 | a match exists iff some '[' precedes a ']'; the match runs from the first '[' to the last ']' inclusive |
| Insights.MockInsights | src/lib/ai-service.ts:214-235 | the fallback is three insights with priorities 8, 5, 3 and types positive, positive, neutral |
| Insights.GenerateInsights | src/lib/ai-service.ts:171-212 | backend off or no bracketed array gives the fallback; otherwise the parse of the greedy match, or the fallback when it does not parse |
| Insights.Insert | src/components/ai/AIInsights.tsx:19 | inserting into a priority-ordered list keeps it ordered and adds exactly that insight |
| Insights.SortByPriority | src/components/ai/AIInsights.tsx:19 | the result is in non-increasing priority order and is a permutation of the input |
| Insights.LoadInsights | src/components/ai/AIInsights.tsx:15-25 | after loading, the panel is not loading and shows a priority-ordered permutation of the generated insights |
| Insights.SortKeepsSortedList | src/components/ai/AIInsights.tsx:19 | sorting a list already in priority order returns it unchanged |
| Insights.LoadKeepsSortedInsights | src/components/ai/AIInsights.tsx:15-25 | generated insights already in order are shown exactly as generated |
| Insights.FallbackPanel | src/lib/ai-service.ts:172-174 | with the backend off the panel shows the canned list in its given order |
| Insights.IconFor | src/components/ai/AIInsights.tsx:27-36 | positive gets TrendingUp, warning AlertTriangle, anything else Info |
| Insights.BadgeFor | src/components/ai/AIInsights.tsx:38-47 | positive gets default, warning destructive, anything else secondary |
| Insights.ColourFor | src/components/ai/AIInsights.tsx:79-83 | positive gets green, warning yellow, anything else blue |
| Insights.StylesAgree | src/components/ai/AIInsights.tsx:27-47 | icon, badge and colour classify every type the same way |
| Chat.AskChatbot | src/lib/ai-service.ts:36-97 | disabled gives the disabled notice; an answer is passed through; an error is classified by the first of "API key", "quota", "blocked" its message contains, else a generic reply |
| Chat.GenericReplyQuotesMessage | src/lib/ai-service.ts:96 | an unclassified error's reply quotes its message right after "Error: " |
| Api.Pad2 | src/lib/api.ts:142 | the padded form has the value of n, is two digits for n < 100, and is unpadded from 10 up |
| Api.DateString | src/lib/api.ts:142 | the label is String(year), '-', the padded month, '-', the padded day; for month and day below 100 it is the year's digits followed by '-', two digits whose value is the month, '-', and two digits whose value is the day |
| Api.DateRoundTrip | src/lib/api.ts:142 | parsing a built date label gives back year, month and day |
| Api.EnergySeries | src/lib/api.ts:79-86 | one point per entry, in entry order, time = key + ":00", energy = value, voltage 0 |
| Api.VoltageSeries | src/lib/api.ts:89-96 | one point per entry, in entry order, time = key + ":00", voltage = value, energy 0 |
| Api.StorageOf | src/lib/api.ts:99-107 | the percentage never exceeds 100, equals 100 iff storage reaches 200000, and is storage/2000 below that |
| Api.FloorOf | src/lib/api.ts:144 | the floor is the greatest integer not above its argument |
| Api.DailyRecordOf | src/lib/api.ts:141-146 | the date is the padded date label of the day and parses back to it; steps = floor(2 x energy) |
| Api.DailyRecords | src/lib/api.ts:139-147 | one daily record per element, in order (the same transform serves recent activity at api.ts:179-187) |
| Api.WeeklyRecordOf | src/lib/api.ts:152-156 | the label is "Week " followed by String(id): canonical digits that parse back to the id, with a leading '0' only for week 0; avgSteps = floor(2 x energy / 7) |
| Api.WeeklyRecords | src/lib/api.ts:150-157 | one weekly record per element, in order |
| Api.BestPerformance | src/lib/api.ts:160-167 | the date is the padded date label of the day and parses back to it; efficiency is 96 |
| Api.AverageDailyOutput | src/lib/api.ts:170-176 | a missing or zero average gives 0, and steps are twice the energy, unrounded |
| StreamingPage.Initial | src/pages/DataStreaming.tsx:26-34 | the page starts not streaming, with an empty window and a zero reading at 25 degrees |
| StreamingPage.Tick | src/pages/DataStreaming.tsx:44-62 | without streaming a tick changes nothing; with it the current reading is the sample and the window is the newest 20 of old window plus the restamped sample |
| StreamingPage.HandleStart | src/pages/DataStreaming.tsx:64-66 | start sets the flag and touches no data; when already streaming it is a no-op |
| StreamingPage.HandlePause | src/pages/DataStreaming.tsx:68-70 | pause clears the flag without touching window or reading |
| StreamingPage.HandleStop | src/pages/DataStreaming.tsx:72-75 | stop clears the flag and the window and keeps the current reading |
| StreamingPage.ButtonsOf | src/pages/DataStreaming.tsx:93-116 | Start disabled iff streaming, Pause iff not streaming, Stop iff not streaming and the window is empty |
| StreamingPage.ButtonsAreComplementary | src/pages/DataStreaming.tsx:95-112 | exactly one of Start and Pause is usable, Stop is usable whenever Pause is, and after stop, Stop is disabled |
| StreamingPage.ConnectionsOf | src/pages/DataStreaming.tsx:77-81 | all three statuses are connected iff streaming |
| StreamingPage.TicksKeepMostRecent | src/pages/DataStreaming.tsx:48-55 | while streaming, any run of ticks leaves the newest min(n, 20) samples in order and the last sample as current reading |
| AlertPanel.Initial | src/components/ai/AnomalyAlerts.tsx:9-10 | the panel starts loading with no alerts |
| AlertPanel.AsWindow | src/components/ai/AnomalyAlerts.tsx:21-22 | the detector window carries each series point's voltage and energy, in order |
| AlertPanel.CheckAnomalies | src/components/ai/AnomalyAlerts.tsx:19-29 | loading always ends; a fetched series replaces the alerts with a fresh detection pass regardless of previous alerts; a failed fetch keeps them |
| AlertPanel.NoVoltageAlertFromEnergySeries | src/components/ai/AnomalyAlerts.tsx:21-22 | a check on the energy series, whose voltage is 0, never raises a voltage alert |
| AlertPanel.Filter | src/components/ai/AnomalyAlerts.tsx:32 | the filtered list is an order-preserving subsequence with exactly the kept elements' counts |
| AlertPanel.Without | src/components/ai/AnomalyAlerts.tsx:32 | removes every alert with the id, keeps every other alert with its multiplicity, in original order |
| AlertPanel.Dismiss | src/components/ai/AnomalyAlerts.tsx:31-33 | after dismissal no alert has the id; every other alert remains, in order; loading is unchanged |
| AlertPanel.DismissAbsentId | src/components/ai/AnomalyAlerts.tsx:32 | dismissing an id no alert carries leaves the panel unchanged |
| AlertPanel.DismissIdempotent | src/components/ai/AnomalyAlerts.tsx:32 | dismissing the same id twice equals dismissing it once |
| AlertPanel.SeverityColour | src/components/ai/AnomalyAlerts.tsx:35-44 | high is red, medium yellow, anything else blue |
| AlertPanel.SeverityIcon | src/components/ai/AnomalyAlerts.tsx:46-55 | high is XCircle, medium AlertTriangle, anything else Info |

## Left out

- Browser and network I/O are not modelled: `EventSource` construction and closing, `localStorage`, `fetch` and its non-ok throw. They are abstract events, a persisted cell and `Option` inputs.
- The Gemini client, prompt texts, chat history role mapping and `generateContent`/`startChat` are not modelled. The backend is a `Reply`/`Outcome` input.
- `JSON.parse` of the extracted text is a `parse` parameter, not a JSON parser.
- `Math.random`, `Date.now`, `new Date()`, `getHours`, `toISOString` and `toLocaleTimeString` are parameters.
- One detection pass uses a single instant for both the id and the timestamp.
- Forecast timestamps are milliseconds, not ISO strings.
- The random 90-98 efficiency of daily and recent-activity records is left out: it is display-only noise.
- IEEE-754 rounding, NaN, `-0` and `toFixed` display strings are left out. Numbers are exact reals.
- Non-numeric frame field values are left out. Frame fields are number-or-missing, and the timestamp is string-or-missing.
- Non-integer forecast horizons are left out.
- React effect scheduling, the 1-second tick interval and the 5-minute re-check timer are not modelled. Each handler is one atomic transition.
- `generateRandomData` on the streaming page is left out. Each tick takes its sample as a parameter.
- `Object.entries` ordering is left out: the hour-bucket response is given as an ordered entry list.
- Pure presentation is not modelled: layout, routing, theming, charts, the forecast panel's averages and the chat panel's send flow.
- AlertPanel.SeverityColour, AlertPanel.SeverityIcon: severity is the three-valued datatype of the alert type, so the "any other value" branch of each switch is reached only by `Low`.
- Insights.SortByPriority: states order and permutation but not stability among equal priorities, which the JavaScript sort also guarantees.
- Insights.GenerateInsights: the backend's insights are taken as already-typed records, because `parse` returns records with integer priorities.
