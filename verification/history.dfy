/**
 * The embedded historical table and the derivation of the simulation's
 * initial state from its most recent row.
 */
module History {
  import opened Wrappers
  import opened AgriCircuit

  /** One row of the table: year, rainfall in millimetres, subsidy level as written. */
  datatype HistoricalRow = HistoricalRow(year: int, rainfallMm: int, subsidyLevel: string)

  /** The table embedded in the application, oldest year first. */
  const HistoricalData: seq<HistoricalRow> := [
    HistoricalRow(2022, 1250, "standard"),
    HistoricalRow(2023, 890, "standard"),
    HistoricalRow(2024, 1100, "high"),
    HistoricalRow(2025, 950, "standard")
  ]

  /** Rainfall strictly below this many millimetres counts as a disrupted monsoon. */
  const DisruptedBelowMm: int := 1000

  /** Rows listed oldest year first, as in the embedded table. */
  predicate OldestFirst(rows: seq<HistoricalRow>)
  {
    forall i, j :: 0 <= i < j < |rows| ==> rows[i].year <= rows[j].year
  }

  /** `df.iloc[-1]`: the last row, or nothing when the table is empty (pandas would raise IndexError). */
  function LatestRow(rows: seq<HistoricalRow>): (r: Option<HistoricalRow>)
    ensures r.None? <==> |rows| == 0
    ensures r.Some? ==> r.value == rows[|rows| - 1]
    ensures r.Some? && OldestFirst(rows) ==> forall i :: 0 <= i < |rows| ==> rows[i].year <= r.value.year
  {
    if |rows| == 0 then None else Some(rows[|rows| - 1])
  }

  /** The initial-state dictionary built from one row: both keys are always set. */
  function DeriveInitialState(row: HistoricalRow): (s: InitialState)
    ensures s.Keys == {"monsoon", "subsidies"}
    ensures s["monsoon"] in {"Disrupted", "Normal"}
    ensures s["subsidies"] in {"High", "Standard"}
    ensures s["monsoon"] == "Disrupted" <==> row.rainfallMm < DisruptedBelowMm
    ensures s["subsidies"] == "High" <==> row.subsidyLevel == "high"
  {
    map[
      "monsoon" := if row.rainfallMm < DisruptedBelowMm then "Disrupted" else "Normal",
      "subsidies" := if row.subsidyLevel == "high" then "High" else "Standard"
    ]
  }

  /** The circuit's bias gates fire exactly on low rainfall and on the lower-case level 'high'. */
  lemma DerivedBias(row: HistoricalRow)
    ensures MonsoonDisrupted(DeriveInitialState(row)) <==> row.rainfallMm < DisruptedBelowMm
    ensures SubsidiesHigh(DeriveInitialState(row)) <==> row.subsidyLevel == "high"
  {
  }

  /** The threshold is strict, and the subsidy comparison is case-sensitive. */
  lemma ThresholdEdges(year: int)
    ensures MonsoonDisrupted(DeriveInitialState(HistoricalRow(year, DisruptedBelowMm - 1, "standard")))
    ensures !MonsoonDisrupted(DeriveInitialState(HistoricalRow(year, DisruptedBelowMm, "standard")))
    ensures !SubsidiesHigh(DeriveInitialState(HistoricalRow(year, DisruptedBelowMm, "High")))
    ensures SubsidiesHigh(DeriveInitialState(HistoricalRow(year, DisruptedBelowMm, "high")))
  {
    DerivedBias(HistoricalRow(year, DisruptedBelowMm - 1, "standard"));
    DerivedBias(HistoricalRow(year, DisruptedBelowMm, "standard"));
    DerivedBias(HistoricalRow(year, DisruptedBelowMm, "High"));
    DerivedBias(HistoricalRow(year, DisruptedBelowMm, "high"));
  }

  /** With the embedded table the simulation starts from a disrupted monsoon and standard subsidies. */
  lemma EmbeddedInitialState()
    ensures LatestRow(HistoricalData) == Some(HistoricalRow(2025, 950, "standard"))
    ensures DeriveInitialState(LatestRow(HistoricalData).value)
         == map["monsoon" := "Disrupted", "subsidies" := "Standard"]
  {
    assert OldestFirst(HistoricalData);
  }
}
