# OpenADR telemetry middleware: message dispatch and interval generation

This project models the core of a small Node.js middleware (`index.js`). The middleware answers the
callbacks of an OpenADR-style demand-response client (VEN) over HTTP. It covers four parts:

- **Request handling.** `requestHandler` accepts only POST. `parseMessage` decodes the body and turns
  any exception into a 500 "An error occurred". `createResponse` matches `header.messageType` exactly
  against five names and runs the bound handler. Any other type gets a 400 "Message type not supported".
- **Register reports.** `onRegisterReportsMessage` answers with a constant document: a usage report
  with power and energy channels, and a status report with one channel.
- **Query intervals.** `onQueryIntervalsMessage` builds one placeholder reading per (slot, resource)
  pair. It works slot by slot in nested loops, with a start-time accumulator.
- **Acknowledgements.** `startEventInterval`, `endEvent` and `genericResponse` answer 200 with an
  empty body, whatever the payload holds.

Files:

- `wrappers.dfy`: the `Option` type, used for JavaScript values that may be `undefined`.
- `messages.dfy`: the data model. It holds the decoded request (`Payload`), the query, the report
  records, the response documents and the `Outcome` a handler writes (status, optional
  `Content-Type`, body).
- `intervals.dfy`: the interval generator. `GenerateIntervals` is the source's nested loop as a
  method. It computes `numIntervals` in real division, as the source does. It is proved equal to the
  specification function `QueryIntervals`, and the lemmas in the file state what that list holds.
- `register_reports.dfy`: the constant register-reports response and its shape.
- `dispatcher.dfy`: `HandleRequest`, `ParseMessage`, `CreateResponse` and the handlers, as pure
  functions returning an `Outcome`. Its contract states when each of 200, 400 and 500 is returned.

Two behaviours of the code worth noting:

- **Interval count.** The code computes `numIntervals = 1 + (end - start) / granularity` in real
  division (index.js:209) and loops while `i < numIntervals` (index.js:217). This is not a floor. A
  window of width 130 at granularity 60 gets 4 slots; the last one starts after `endTimet`. The model
  counts slots exactly this way, for every sign of width and granularity. `SlotCount` is the integer
  form of the count, and `LoopTest` proves it agrees with the real-valued test.
- **Missing `messageType`.** A header with no `messageType` is not a decode failure. `undefined`
  matches no name, so the request gets the 400 "Message type not supported" (index.js:71, 87-91).
  The 500 comes only from an exception. The model covers four of them: a body that is not JSON, a
  missing or `null` header, a `messageType` that the log line at index.js:80 cannot turn into a
  string (an object such as `{"toString": 0}`), and an `OnQueryIntervals` message without
  `onQueryIntervalsMessage`. Outside the model, the malformed queries and the serialiser
  exceptions listed under "Left out" also give the 500.

## Model

| member | source | states |
|---|---|---|
| `IntervalGenerator.NumIntervals` | index.js:205-210 | `numIntervals` is 1 when the granularity or the width is 0, and otherwise exactly `1 + width / granularity` in real division; `LoopTest` states which `i` pass the loop test against it |
| `IntervalGenerator.SlotCount` | index.js:205-217 | no contract of its own: it is the integer count of slots, and `LoopTest` proves it is the number of `i` with `i < numIntervals` |
| `IntervalGenerator.Reading` | index.js:220-225 | the pushed record has quality "Quality Good - Non Specific", value 0, and the given start time and resource id |
| `IntervalGenerator.Slots` | index.js:217-228 | no contract of its own: `SlotsLength`, `SlotsAt` and `SlotsSnoc` state its length, its entries and its step |
| `IntervalGenerator.QueryIntervals` | index.js:197-228 | no contract of its own: `IntervalCount` and `IntervalAt` state its length and every entry, and `GenerateIntervals` builds it |
| `IntervalGenerator.LoopTest` | index.js:205-217 | the loop test `i < numIntervals` holds exactly for the first `SlotCount(end - start, granularity)` values of `i`; this covers the 0 rules and real division, for any sign of width and granularity |
| `IntervalGenerator.LoopTestPositive` | index.js:209-217 | for a positive granularity, `i < 1 + w/g` in real division is the same as the integer test `i*g < g + w` |
| `IntervalGenerator.SlotCountPositive` | index.js:207-217 | for a positive granularity and any width, the integer test `i*g < g + w` holds exactly below `SlotCount(w, g)`, which is 0 when `g + w <= 0` |
| `IntervalGenerator.Row` | index.js:218-226 | one pass of the inner loop pushes exactly one entry per resource id |
| `IntervalGenerator.RowAt` | index.js:218-226 | entry `j` of a pass is resource `rIds[j]` at the slot's start, so resources keep the caller's order |
| `IntervalGenerator.RowSnoc` | index.js:218-226 | one more inner iteration appends that resource's reading at the end |
| `IntervalGenerator.SlotsLength` | index.js:217-228 | `c` slots give exactly `c * |rIds|` entries |
| `IntervalGenerator.SlotStartIs` | index.js:215-227 | adding the granularity once per slot puts the start of slot `s` at `startTimet + s * granularity` |
| `IntervalGenerator.SlotsSnoc` | index.js:217-228 | one more outer iteration appends one row, at the accumulated start time |
| `IntervalGenerator.SlotsAt` | index.js:214-228 | entry `s*|rIds| + j` is resource `j` of slot `s`, starting at `startTimet + s * granularity` |
| `IntervalGenerator.GenerateIntervals` | index.js:197-228 | the nested loops, with the real `numIntervals` and the `dtStartTimet` accumulator, build exactly `QueryIntervals(query)` |
| `IntervalGenerator.IntervalCount` | index.js:205-228 | the list holds slot count × `|rIds|` entries |
| `IntervalGenerator.IntervalAt` | index.js:214-228 | entry `k` is the reading of `rIds[k % |rIds|]` at `startTimet + (k / |rIds|) * granularity`; a non-empty list implies non-empty `rIds` |
| `IntervalGenerator.CollapsedWindow` | index.js:207 | granularity 0 or a zero-width window gives exactly one row: `|rIds|` entries, all at `startTimet` |
| `IntervalGenerator.NoResources` | index.js:217-218 | empty `rIds` gives an empty list whatever the slot count |
| `IntervalGenerator.WholeMultipleWindow` | index.js:209 | a window of `k` granularities (`k >= 0`, positive granularity) gives `k + 1` slots, e.g. width 3g gives `4 * |rIds|` entries |
| `IntervalGenerator.FractionalWindow` | index.js:209 | width 130 at granularity 60 gives 4 slots, not the 3 of floor division |
| `IntervalGenerator.TwoResourceScenario` | index.js:214-228 | 1000..1120 at 60 s with `[A, B]` gives starts 1000, 1000, 1060, 1060, 1120, 1120 paired with A, B, A, B, A, B |
| `IntervalGenerator.StartsAscend` | index.js:215-227 | for a non-negative granularity, start times never decrease along the list |
| `IntervalGenerator.PlaceholderReadings` | index.js:220-225 | every entry has quality "Quality Good - Non Specific", value 0 and a resource id taken from `rIds` |
| `RegisterReports.OnRegisterReportsMessage` | index.js:102-188 | no contract of its own: `TelemetryReportsShape` states the whole document it answers with |
| `RegisterReports.TelemetryReportsShape` | index.js:102-187 | the response is 200 JSON with exactly two reports. TELEMETRY_USAGE has POWER (W, POWER_REAL) and ENERGY (Wh, ENERGY_REAL); TELEMETRY_STATUS has one STATUS channel with no usage properties. Both cover 60 "M", and every channel samples each minute in market context 1 |
| `Dispatcher.Classify` | index.js:81-87 | a type is recognised only when `messageType` is exactly its name; otherwise it equals no name |
| `Dispatcher.ClassifyName` | index.js:81-86 | round trip: each name is recognised as its own type, and only that exact string is |
| `Dispatcher.OnQueryIntervalsMessage` | index.js:197-241 | throws exactly when `onQueryIntervalsMessage` is missing; otherwise 200 JSON with one report whose intervals are exactly `QueryIntervals(query)`: slot count × `|rIds|` entries, each given by `IntervalAt` |
| `Dispatcher.StartEventInterval` | index.js:250-258 | 200 with no `Content-Type` and an empty body |
| `Dispatcher.EndEvent` | index.js:266-274 | 200 with no `Content-Type` and an empty body |
| `Dispatcher.GenericResponse` | index.js:284-289 | 200 with no `Content-Type` and an empty body |
| `Dispatcher.CreateResponse` | index.js:79-93 | throws exactly when the log line at index.js:80 cannot print `messageType`, or the type is OnQueryIntervals and the query is missing; an unrecognised type gets 400 "Message type not supported"; a recognised one that does not throw gets 200 |
| `Dispatcher.ParseMessage` | index.js:68-77 | the 500 "An error occurred" comes exactly from a fault: a body that is not JSON, a missing header, or an exception in `createResponse` |
| `Dispatcher.HandleRequest` | index.js:45-93 | status is 200, 400 or 500. 200 iff POST with a recognised type and no fault. 400 iff not POST ("Only POST allowed") or an unrecognised type ("Message type not supported"). 500 iff POST with a fault ("An error occurred"). A JSON body, and only it, comes with `Content-Type: application/json`; every non-200 has a non-empty text body |
| `Dispatcher.ResponseForType` | index.js:79-86 | the exact outcome for each of the five types. For a query it is 200 JSON wrapping `reports: [{ reportIntervals }]`, or 500 when the query is missing |
| `Dispatcher.AcknowledgementsIgnorePayload` | index.js:250-289 | OnEventIntervalStart, OnEventComplete and OnError give 200 with an empty body, whatever the payload |
| `Dispatcher.RegisterReportsIsConstant` | index.js:102-188 | every OnRegisterReports request gets the same response |
| `Dispatcher.NonPostIgnoresBody` | index.js:48-59 | a non-POST method gets 400 "Only POST allowed", whatever the body |
| `Dispatcher.UnsupportedTypes` | index.js:71-91 | an absent `messageType`, a wrong-case name and an unknown name all give 400 "Message type not supported" |
| `Dispatcher.UnprintableTypeFails` | index.js:73-80 | a `messageType` the log line cannot print gives the 500, whatever the rest of the envelope holds |
| `Dispatcher.QueryScenario` | index.js:197-241 | the 1000..1120 / 60 s / `[A, B]` query, end to end, gives one report of the six readings |

## Left out

- The HTTP server and `listen` on port 4000 (index.js:28-39): network I/O.
- Collecting the body through `data`/`end` events (index.js:49-54): asynchronous I/O. The model
  starts from the complete, decoded body.
- `JSON.parse` and the property reads of `payload.header` (index.js:70-71): the model starts from
  their result, the `Payload` datatype (not JSON, no usable header, or an envelope).
- The quicktype serialisers `Convert.onRegisterReportsResponseToJson` and
  `Convert.onQueryIntervalsResponseToJson` (index.js:19, 183, 237): foreign code. The body carries
  the structured document instead of its JSON text. Any exception those serialisers could throw
  is not modelled; in the source it would be caught at index.js:73 and give the 500.
- `console.log` and `console.error`: their output is not modelled. Printing a value does not fail,
  with one exception that is modelled: the template literal at index.js:80 converts `messageType`
  to a string, and that conversion throws for an object with neither a callable `toString` nor a
  `valueOf` that yields a primitive. The model reads such a header as `UnprintableType`, and the
  request gets the 500.
- JavaScript number semantics: the query fields are modelled as integers and `rIds` as a list of
  strings. Real division is exact in the model, whereas the source rounds to doubles. Fractional or
  very large values are not modelled, nor are query objects whose fields are missing or of the
  wrong type. In the source these take other paths: a missing `rIds` with a positive slot count
  throws at `rIds.length` (index.js:218) and gives the 500; a missing time or granularity makes
  `numIntervals` `NaN` and generates no slot, unless a test at index.js:207 still holds (granularity
  0, or equal times with the granularity missing), in which case one slot is generated; string
  times are coerced by `-` and `/` (index.js:207-209) but concatenated by `+=` (index.js:227,
  `"1000" += 60` is `"100060"`). The
  only malformed query the model covers is a missing or `null` `onQueryIntervalsMessage`, as the
  exception it raises.
- The contents of the event and error payloads: they are carried as opaque JSON values, since the
  stubs only log them.
