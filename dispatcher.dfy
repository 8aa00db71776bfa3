/**
  Request handling in index.js: the method check of `requestHandler`
  (index.js:45-60), the try/catch of `parseMessage` (index.js:68-77), the
  dispatch of `createResponse` (index.js:79-93) and the acknowledgement stubs
  (index.js:250-289).  Each handler's writes to the response object are
  modelled as the `Outcome` it returns.
 */
module Dispatcher {

  import opened Wrappers
  import opened Messages
  import IntervalGenerator
  import RegisterReports

  /** The message types `createResponse` recognises. */
  datatype MessageType =
    | OnRegisterReports
    | OnQueryIntervals
    | OnEventIntervalStart
    | OnEventComplete
    | OnError

  /** The `header.messageType` string each type is recognised by. */
  function Name(t: MessageType): string
  {
    match t
    case OnRegisterReports => "OnRegisterReports"
    case OnQueryIntervals => "OnQueryIntervals"
    case OnEventIntervalStart => "OnEventIntervalStart"
    case OnEventComplete => "OnEventComplete"
    case OnError => "OnError"
  }

  /** The `===` chain of `createResponse`: an exact, case-sensitive match of the
      header's `messageType` against the five names, in the source's order. */
  function Classify(messageType: Option<string>): (r: Option<MessageType>)
    ensures r.Some? ==> messageType == Some(Name(r.value))
    ensures r.None? ==> forall t: MessageType :: messageType != Some(Name(t))
  {
    if messageType == Some("OnRegisterReports") then Some(OnRegisterReports)
    else if messageType == Some("OnQueryIntervals") then Some(OnQueryIntervals)
    else if messageType == Some("OnEventIntervalStart") then Some(OnEventIntervalStart)
    else if messageType == Some("OnEventComplete") then Some(OnEventComplete)
    else if messageType == Some("OnError") then Some(OnError)
    else None
  }

  /** The 400 written for a type `createResponse` does not handle. */
  const NotSupported := Outcome(400, None, Text("Message type not supported"))

  /** The 400 `requestHandler` writes for any method other than POST. */
  const OnlyPostAllowed := Outcome(400, None, Text("Only POST allowed"))

  /** What `createErrorResponse` writes. */
  const ErrorResponse := Outcome(500, None, Text("An error occurred"))

  /** What every acknowledgement stub writes: 200 and no body. */
  const Acknowledged := Outcome(200, None, Empty)

  /** `onQueryIntervalsMessage`: reading a field of a missing
      `onQueryIntervalsMessage` throws; otherwise the generated intervals are
      wrapped in a single report. */
  function OnQueryIntervalsMessage(query: Option<IntervalQuery>): (h: Handled)
    ensures h.Threw? <==> query.None?
    ensures h.Responded? ==>
      && h.outcome.status == 200 && h.outcome.contentType == Some(JsonContentType)
      && h.outcome.body.Document? && h.outcome.body.document.OnQueryIntervalsResponseMessage?
      && |h.outcome.body.document.reports| == 1
      && h.outcome.body.document.reports[0].reportIntervals
         == IntervalGenerator.QueryIntervals(query.value)
      && |h.outcome.body.document.reports[0].reportIntervals|
         == IntervalGenerator.SlotCount(query.value.endTimet - query.value.startTimet,
                                        query.value.granularityInSeconds) * |query.value.rIds|
  {
    match query
    case None => Threw
    case Some(q) =>
      IntervalGenerator.IntervalCount(q);
      Responded(Outcome(200, Some(JsonContentType),
        Document(OnQueryIntervalsResponseMessage([Report(IntervalGenerator.QueryIntervals(q))]))))
  }

  /** `startEventInterval`: logs the event data and acknowledges it. */
  function StartEventInterval(eventData: Option<Json>): (o: Outcome)
    ensures o.status == 200 && o.contentType.None? && o.body.Empty?
  {
    Acknowledged
  }

  /** `endEvent`: logs the event data and acknowledges it. */
  function EndEvent(eventData: Option<Json>): (o: Outcome)
    ensures o.status == 200 && o.contentType.None? && o.body.Empty?
  {
    Acknowledged
  }

  /** `genericResponse`: logs the content under the given label and acknowledges it. */
  function GenericResponse(kind: string, messageContent: Option<Json>): (o: Outcome)
    ensures o.status == 200 && o.contentType.None? && o.body.Empty?
  {
    Acknowledged
  }

  /** `createResponse`: logs the message type, then runs the handler bound to
      it.  It throws when the log line cannot print the type, or when the
      query handler meets a missing query. */
  function CreateResponse(header: Header, members: Members): (r: Handled)
    ensures r.Threw? <==>
              header.UnprintableType?
              || (header.messageType == Some("OnQueryIntervals")
                  && members.onQueryIntervalsMessage.None?)
    ensures header.Header? && Classify(header.messageType).None? ==> r == Responded(NotSupported)
    ensures header.Header? && Classify(header.messageType).Some? && r.Responded? ==>
              r.outcome.status == 200
  {
    match header
    case UnprintableType => Threw
    case Header(messageType) =>
      match Classify(messageType)
      case Some(OnRegisterReports) => Responded(RegisterReports.OnRegisterReportsMessage())
      case Some(OnQueryIntervals) => OnQueryIntervalsMessage(members.onQueryIntervalsMessage)
      case Some(OnEventIntervalStart) => Responded(StartEventInterval(members.onEventIntervalStartMessage))
      case Some(OnEventComplete) => Responded(EndEvent(members.onEventCompleteMessage))
      case Some(OnError) => Responded(GenericResponse("error", members.onErrorMessage))
      case None => Responded(NotSupported)
  }

  /** `parseMessage`: anything thrown while decoding, reading the header or
      running `createResponse` becomes the 500 error response, and only that
      does. */
  function ParseMessage(payload: Payload): (o: Outcome)
    ensures o.status == 500 <==> Faults(payload)
    ensures Faults(payload) ==> o == ErrorResponse
  {
    match payload
    case Malformed => ErrorResponse
    case Headerless => ErrorResponse
    case Envelope(header, members) =>
      match CreateResponse(header, members)
      case Responded(outcome) => outcome
      case Threw => ErrorResponse
  }

  /** The envelope names one of the five handled types. */
  predicate Recognized(payload: Payload)
  {
    payload.Envelope? && payload.header.Header? && payload.header.messageType in
      {Some("OnRegisterReports"), Some("OnQueryIntervals"), Some("OnEventIntervalStart"),
       Some("OnEventComplete"), Some("OnError")}
  }

  /** Decoding fails, the header is missing, the type cannot be printed in
      the log line, or the query handler meets a missing query. */
  predicate Faults(payload: Payload)
  {
    payload.Malformed? || payload.Headerless? || payload.header.UnprintableType?
    || (payload.header.messageType == Some("OnQueryIntervals")
        && payload.members.onQueryIntervalsMessage.None?)
  }

  /** The envelope asks for one of the two JSON documents and can be served. */
  predicate WantsDocument(payload: Payload)
  {
    payload.Envelope? && payload.header.Header? && !Faults(payload)
    && payload.header.messageType in {Some("OnRegisterReports"), Some("OnQueryIntervals")}
  }

  /** `requestHandler` given the request method (`verb`) and the decoded body. */
  function HandleRequest(verb: string, payload: Payload): (o: Outcome)
    ensures o.status == 200 || o.status == 400 || o.status == 500
    ensures o.status == 200 <==> verb == "POST" && Recognized(payload) && !Faults(payload)
    ensures o.status == 400 <==>
              verb != "POST" || (payload.Envelope? && payload.header.Header? && !Recognized(payload))
    ensures o.status == 500 <==> verb == "POST" && Faults(payload)
    ensures o.status == 500 ==> o == ErrorResponse
    ensures o.status == 400 ==> o == (if verb == "POST" then NotSupported else OnlyPostAllowed)
    ensures o.body.Document? <==> verb == "POST" && WantsDocument(payload)
    ensures o.contentType == Some(JsonContentType) <==> o.body.Document?
    ensures o.status != 200 ==> o.body.Text? && o.body.text != ""
  {
    if verb == "POST" then ParseMessage(payload) else OnlyPostAllowed
  }

  /** Each type is recognised by its own name, and by no other. */
  lemma ClassifyName(t: MessageType, s: string)
    ensures Classify(Some(Name(t))) == Some(t)
    ensures Classify(Some(s)) == Some(t) <==> s == Name(t)
  {
  }

  /** The outcome for each recognised type of a POSTed envelope. */
  lemma ResponseForType(t: MessageType, members: Members)
    ensures var o := HandleRequest("POST", Envelope(Header(Some(Name(t))), members));
      match t
      case OnRegisterReports => o == RegisterReports.OnRegisterReportsMessage()
      case OnQueryIntervals =>
        o == (if members.onQueryIntervalsMessage.None? then ErrorResponse
              else Outcome(200, Some(JsonContentType), Document(OnQueryIntervalsResponseMessage(
                     [Report(IntervalGenerator.QueryIntervals(members.onQueryIntervalsMessage.value))]))))
      case OnEventIntervalStart => o == Acknowledged
      case OnEventComplete => o == Acknowledged
      case OnError => o == Acknowledged
  {
    ClassifyName(t, Name(t));
  }

  /** The event and error acknowledgements do not depend on the payload at all. */
  lemma AcknowledgementsIgnorePayload(t: MessageType, members1: Members, members2: Members)
    requires t == OnEventIntervalStart || t == OnEventComplete || t == OnError
    ensures HandleRequest("POST", Envelope(Header(Some(Name(t))), members1))
            == HandleRequest("POST", Envelope(Header(Some(Name(t))), members2))
            == Acknowledged
  {
    ClassifyName(t, Name(t));
  }

  /** Every OnRegisterReports request gets the same response, whatever else
      the envelope holds. */
  lemma RegisterReportsIsConstant(members1: Members, members2: Members)
    ensures HandleRequest("POST", Envelope(Header(Some("OnRegisterReports")), members1))
            == HandleRequest("POST", Envelope(Header(Some("OnRegisterReports")), members2))
            == RegisterReports.OnRegisterReportsMessage()
  {
  }

  /** A method other than POST is refused before the body is looked at. */
  lemma NonPostIgnoresBody(verb: string, payload1: Payload, payload2: Payload)
    requires verb != "POST"
    ensures HandleRequest(verb, payload1) == HandleRequest(verb, payload2) == OnlyPostAllowed
  {
  }

  /** A header whose `messageType` is absent, or a non-string that prints, is
      not a fault: it is an unsupported type.  Matching is case-sensitive, and
      an unknown name is unsupported too. */
  lemma UnsupportedTypes(header: Header, members: Members)
    requires header.Header?
    requires header.messageType.None? || header.messageType == Some("onRegisterReports")
             || header.messageType == Some("OnBogusType")
    ensures HandleRequest("POST", Envelope(header, members)) == NotSupported
  {
  }

  /** A `messageType` that the log line cannot print makes `createResponse`
      throw before any handler runs, whatever the type would have been. */
  lemma UnprintableTypeFails(members: Members)
    ensures HandleRequest("POST", Envelope(UnprintableType, members)) == ErrorResponse
  {
  }

  /** The query scenario end to end: 1000..1120 at 60 s for A and B gives one
      report of six readings, slot by slot. */
  lemma QueryScenario(members: Members)
    requires members.onQueryIntervalsMessage == Some(IntervalQuery(1000, 1120, 60, ["A", "B"]))
    ensures HandleRequest("POST", Envelope(Header(Some("OnQueryIntervals")), members))
            == Outcome(200, Some(JsonContentType), Document(OnQueryIntervalsResponseMessage([Report(
                 [IntervalGenerator.Reading(1000, "A"), IntervalGenerator.Reading(1000, "B"),
                  IntervalGenerator.Reading(1060, "A"), IntervalGenerator.Reading(1060, "B"),
                  IntervalGenerator.Reading(1120, "A"), IntervalGenerator.Reading(1120, "B")])])))
  {
    IntervalGenerator.TwoResourceScenario();
  }
}
