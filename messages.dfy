/**
  The data exchanged by the middleware (index.js): what the envelope decoder
  hands to the dispatcher, the records a handler builds, and the outcome a
  handler writes to the HTTP response.
 */
module Messages {

  import opened Wrappers

  /** A JSON value, used for payloads the handlers receive but never inspect. */
  datatype Json =
    | JNull
    | JBool(b: bool)
    | JNumber(n: int)
    | JString(s: string)
    | JArray(items: seq<Json>)
    | JObject(members: seq<(string, Json)>)

  /** The `onQueryIntervalsMessage` payload, with the fields the handler reads. */
  datatype IntervalQuery = IntervalQuery(
    startTimet: int,
    endTimet: int,
    granularityInSeconds: int,
    rIds: seq<string>)

  /** The `header` object of an envelope, as `createResponse` sees it.
      - `Header`: `messageType` is `None` when the property is absent, or is a
        value that is not a string but prints without error in the log line
        at index.js:80 (it then equals none of the recognised names).  A
        header that is a non-null primitive also reads as `Header(None)`,
        since any property of it is `undefined`.
      - `UnprintableType`: `messageType` is an object or array whose
        conversion to a string throws, such as `{"toString": 0}` (neither
        `toString` nor `valueOf` yields a primitive); the template literal of
        the log line at index.js:80 then raises a `TypeError`. */
  datatype Header =
    | Header(messageType: Option<string>)
    | UnprintableType

  /** The payload members of an envelope that the handlers read; each is
      `None` when absent or `null`. */
  datatype Members = Members(
    onQueryIntervalsMessage: Option<IntervalQuery>,
    onEventIntervalStartMessage: Option<Json>,
    onEventCompleteMessage: Option<Json>,
    onErrorMessage: Option<Json>)

  /** What `JSON.parse` followed by `payload.header` yields for the request body.
      - `Malformed`: the body is not JSON, so `JSON.parse` throws.
      - `Headerless`: the parsed value is `null` or a primitive, or has no
        (or a `null`) `header`, so reading `header.messageType` throws.
      - `Envelope`: an object with a header, and its payload members. */
  datatype Payload =
    | Malformed
    | Headerless
    | Envelope(header: Header, members: Members)

  /** One row of a query-intervals response. */
  datatype ReportInterval = ReportInterval(
    dataQuality: string,
    dtStartTimet: int,
    rId: string,
    value: int)

  datatype Duration = Duration(duration: int, durationModifier: string)

  datatype SamplingPeriod = SamplingPeriod(
    maxSamplingPeriod: int,
    minSamplingPeriod: int,
    samplingPeriodModifier: string,
    onChange: bool)

  datatype Units = Units(
    description: string,
    siScaleCode: string,
    units: string,
    unitType: string)

  datatype UsageIntervalProperties = UsageIntervalProperties(
    readingType: string,
    reportType: string,
    units: Units)

  /** One data channel of a report; only usage reports carry
      `usageIntervalProperties`. */
  datatype IntervalDescription = IntervalDescription(
    rid: string,
    samplingPeriod: SamplingPeriod,
    marketContext: string,
    resourceId: string,
    usageIntervalProperties: Option<UsageIntervalProperties>)

  datatype ReportSpecification = ReportSpecification(
    duration: Duration,
    reportSpecifierId: string,
    reportName: string,
    intervalDescriptions: seq<IntervalDescription>)

  /** One element of `reports` in a query-intervals response. */
  datatype Report = Report(reportIntervals: seq<ReportInterval>)

  /** The two structured response documents, named after their top-level key. */
  datatype ResponseDocument =
    | OnRegisterReportsResponseMessage(telemetryReports: seq<ReportSpecification>)
    | OnQueryIntervalsResponseMessage(reports: seq<Report>)

  /** What `response.write` receives: nothing, plain text, or a document that
      the quicktype serialiser turns into JSON. */
  datatype Body = Empty | Text(text: string) | Document(document: ResponseDocument)

  /** What a handler writes: `writeHead(status[, headers])`, then the body, then `end()`.
      `contentType` is the `Content-Type` header, when `writeHead` is given one. */
  datatype Outcome = Outcome(status: int, contentType: Option<string>, body: Body)

  /** The result of running a handler: either it wrote an outcome, or it threw
      before writing anything. */
  datatype Handled = Responded(outcome: Outcome) | Threw

  const JsonContentType := "application/json"
}
