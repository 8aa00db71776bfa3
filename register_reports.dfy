/**
  The response to `OnRegisterReports` (index.js:102-188): the fixed pair of
  telemetry reports this endpoint offers, independent of the request.
 */
module RegisterReports {

  import opened Wrappers
  import opened Messages

  /** Sampled once a minute, not on change. */
  const MinuteSampling := SamplingPeriod(1, 1, "M", false)

  const MarketContext := "http://MarketContext1"

  /** Both reports cover 60 minutes. */
  const HourDuration := Duration(60, "M")

  /** A usage channel: a direct read of a real quantity in the given units. */
  function UsageChannel(rid: string, description: string, units: string, unitType: string): IntervalDescription
  {
    IntervalDescription(
      rid, MinuteSampling, MarketContext, "",
      Some(UsageIntervalProperties("Direct Read", "usage", Units(description, "none", units, unitType))))
  }

  const TelemetryUsage := ReportSpecification(
    HourDuration, "TELEMETRY_USAGE", "TELEMETRY_USAGE",
    [UsageChannel("POWER", "RealPower", "W", "POWER_REAL"),
     UsageChannel("ENERGY", "RealEnergy", "Wh", "ENERGY_REAL")])

  const TelemetryStatus := ReportSpecification(
    HourDuration, "TELEMETRY_STATUS", "TELEMETRY_STATUS",
    [IntervalDescription("STATUS", MinuteSampling, MarketContext, "", None)])

  /** The `telemetryReports` list of the response. */
  const TelemetryReports := [TelemetryUsage, TelemetryStatus]

  /** What `onRegisterReportsMessage` writes: 200, JSON, the fixed document. */
  function OnRegisterReportsMessage(): Outcome
  {
    Outcome(200, Some(JsonContentType), Document(OnRegisterReportsResponseMessage(TelemetryReports)))
  }

  /** The document holds exactly the usage report (power and energy channels)
      and the status report (one channel without usage properties), both over
      60 minutes, every channel sampled each minute in the same market context. */
  lemma TelemetryReportsShape()
    ensures OnRegisterReportsMessage().status == 200
    ensures OnRegisterReportsMessage().contentType == Some(JsonContentType)
    ensures OnRegisterReportsMessage().body == Document(OnRegisterReportsResponseMessage(TelemetryReports))
    ensures |TelemetryReports| == 2
    ensures TelemetryReports[0].reportSpecifierId == TelemetryReports[0].reportName == "TELEMETRY_USAGE"
    ensures TelemetryReports[1].reportSpecifierId == TelemetryReports[1].reportName == "TELEMETRY_STATUS"
    ensures forall r | r in TelemetryReports :: r.duration == Duration(60, "M")
    ensures |TelemetryReports[0].intervalDescriptions| == 2
    ensures |TelemetryReports[1].intervalDescriptions| == 1
    ensures TelemetryReports[0].intervalDescriptions[0].rid == "POWER"
    ensures TelemetryReports[0].intervalDescriptions[0].usageIntervalProperties
            == Some(UsageIntervalProperties("Direct Read", "usage", Units("RealPower", "none", "W", "POWER_REAL")))
    ensures TelemetryReports[0].intervalDescriptions[1].rid == "ENERGY"
    ensures TelemetryReports[0].intervalDescriptions[1].usageIntervalProperties
            == Some(UsageIntervalProperties("Direct Read", "usage", Units("RealEnergy", "none", "Wh", "ENERGY_REAL")))
    ensures TelemetryReports[1].intervalDescriptions[0].rid == "STATUS"
    ensures TelemetryReports[1].intervalDescriptions[0].usageIntervalProperties == None
    ensures forall r, d | r in TelemetryReports && d in r.intervalDescriptions ::
              d.samplingPeriod == SamplingPeriod(1, 1, "M", false)
              && d.marketContext == "http://MarketContext1" && d.resourceId == ""
  {
  }
}
