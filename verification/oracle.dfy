/**
 * The oracle's pipeline: latest historical row -> initial state -> circuit
 * with the selected event -> count table -> report lines that are
 * formatted into the narrative prompt.
 */
module Oracle {
  import opened Wrappers
  import opened QubitRegister
  import opened AgriCircuit
  import opened EventCatalog
  import opened History
  import opened Simulator
  import opened Report

  /**
   * NoHistory: the historical table has no row to start from.
   * NoChronicler: the text-generation model could not be set up, so the run is refused.
   * UnknownEvent: the selected name is not in the catalog.
   */
  datatype OracleError = NoHistory | NoChronicler | UnknownEvent(name: string) | ReportFailed(cause: ReportError)

  /** The register a run ends in for the latest row of `history` and the event `e`. */
  function FinalState(history: seq<HistoricalRow>, e: Event): Register
    requires |history| > 0
  {
    FinalRegister(DeriveInitialState(history[|history| - 1]), EventGates(e))
  }

  /**
   * Runs the simulation for the selected event name and decodes its counts;
   * `chroniclerReady` says whether the text-generation model was set up.
   * It fails only for an empty history, a missing model or a name outside
   * the catalog; otherwise the single measured pattern is reported with
   * probability 100.
   */
  function Forecast(history: seq<HistoricalRow>, chroniclerReady: bool, eventName: string): (r: Result<seq<ReportLine>, OracleError>)
    ensures r.Err? <==> |history| == 0 || !chroniclerReady || Lookup(eventName).None?
    ensures r.Err? ==> r.error == (if |history| == 0 then NoHistory
                                   else if !chroniclerReady then NoChronicler
                                   else UnknownEvent(eventName))
    ensures r.Ok? ==> |r.value| == 1 && r.value[0].probability == 100.0
    ensures r.Ok? ==> r.value[0].outcome == Labels(FinalState(history, Lookup(eventName).value))
  {
    match LatestRow(history)
    case None => Err(NoHistory)
    case Some(row) =>
      if !chroniclerReady then Err(NoChronicler)
      else
      match Lookup(eventName)
      case None => Err(UnknownEvent(eventName))
      case Some(e) =>
        var final := FinalRegister(DeriveInitialState(row), EventGates(e));
        var counts := Simulate(DeriveInitialState(row), EventGates(e));
        DecodeKey(final);
        match GenerateReport(counts)
        case Err(err) => Err(ReportFailed(err))
        case Ok(lines) => Ok(lines)
  }

  /** For a catalog event the forecast is the one line labelling the final register, with probability 100. */
  lemma ForecastOfEvent(history: seq<HistoricalRow>, e: Event)
    requires |history| > 0
    ensures Forecast(history, true, Name(e)) == Ok([ReportLine(Labels(FinalState(history, e)), 100.0)])
  {
    LookupName(e);
    var r := Forecast(history, true, Name(e));
    assert r.value == [r.value[0]];
  }

  /**
   * Without a shock, the forecast's single outcome reads: a disrupted
   * monsoon and volatile demand exactly on low rainfall, high subsidies
   * exactly on the level 'high', and a poor yield exactly when one of the
   * two holds. (By ForecastOfEvent these are the labels of the report line.)
   */
  lemma BaselineForecast(history: seq<HistoricalRow>)
    requires |history| > 0
    ensures var row, o := history[|history| - 1], Labels(FinalState(history, NoMajorEvent));
      && (o.monsoon == "Disrupted" <==> row.rainfallMm < DisruptedBelowMm)
      && (o.demand == "Volatile" <==> row.rainfallMm < DisruptedBelowMm)
      && (o.subsidies == "High" <==> row.subsidyLevel == "high")
      && (o.cropYield == "Poor" <==> Xor(row.rainfallMm < DisruptedBelowMm, row.subsidyLevel == "high"))
  {
    var row := history[|history| - 1];
    var s := DeriveInitialState(row);
    var m, h := row.rainfallMm < DisruptedBelowMm, row.subsidyLevel == "high";
    DerivedBias(row);
    EventTogglesOwnFactor(s, NoMajorEvent);
    BaselineRegister(s);
    var reg := FinalState(history, NoMajorEvent);
    assert reg == [m, Xor(m, h), h, m];
    LabelsReadQubits(reg);
  }

  /** A drought reverses the monsoon reading of the baseline forecast and leaves the other three labels alone. */
  lemma DroughtFlipsMonsoonOnly(history: seq<HistoricalRow>)
    requires |history| > 0
    ensures var base := Labels(FinalState(history, NoMajorEvent));
      var drought := Labels(FinalState(history, SevereDrought));
      && drought.monsoon != base.monsoon
      && drought.cropYield == base.cropYield
      && drought.subsidies == base.subsidies
      && drought.demand == base.demand
  {
    var s := DeriveInitialState(history[|history| - 1]);
    EventTogglesOwnFactor(s, NoMajorEvent);
    DroughtChangesMonsoonOnly(s);
    LabelsAgree(FinalState(history, SevereDrought), FinalState(history, NoMajorEvent));
  }

  /** The embedded table under a drought: monsoon reads Normal, yield Poor, subsidies Standard, demand Volatile, with certainty. */
  lemma EmbeddedDroughtScenario()
    ensures Forecast(HistoricalData, true, "Severe Drought Hits")
         == Ok([ReportLine(Outcome("Normal", "Poor", "Standard", "Volatile"), 100.0)])
  {
    EmbeddedInitialState();
    var s := DeriveInitialState(HistoricalRow(2025, 950, "standard"));
    assert MonsoonDisrupted(s) && !SubsidiesHigh(s);
    BaselineRegister(s);
    assert Baseline(s) == [true, true, false, true];
    EventTogglesOwnFactor(s, SevereDrought);
    assert FinalState(HistoricalData, SevereDrought) == [false, true, false, true];
    assert Labels([false, true, false, true]) == Outcome("Normal", "Poor", "Standard", "Volatile");
    ForecastOfEvent(HistoricalData, SevereDrought);
  }
}
