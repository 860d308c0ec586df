/**
 * Decoding of the simulator's count table into labelled outcomes with
 * percentage probabilities, one report line per count key.
 */
module Report {
  import opened Wrappers
  import opened QubitRegister
  import opened Simulator

  /** The labels of one outcome, one per factor. */
  datatype Outcome = Outcome(monsoon: string, cropYield: string, subsidies: string, demand: string)

  /** The label table: the label of a factor for the bit character '0' or '1'; any other character is not a key of the table. */
  function StateLabel(c: char, f: Factor): (text: Option<string>)
    ensures text.Some? <==> IsBitChar(c)
  {
    if c == '0' then
      Some(match f
        case Monsoon => "Normal"
        case Yield => "Average"
        case Subsidies => "Standard"
        case Demand => "Stable")
    else if c == '1' then
      Some(match f
        case Monsoon => "Disrupted"
        case Yield => "Poor"
        case Subsidies => "High"
        case Demand => "Volatile")
    else None
  }

  /** A bit character the label table knows. */
  predicate IsBitChar(c: char)
  {
    c == '0' || c == '1'
  }

  /** For every factor the two labels differ, so a label determines its bit. */
  lemma StateLabelInjective(c1: char, c2: char, f: Factor)
    requires StateLabel(c1, f).Some? && StateLabel(c1, f) == StateLabel(c2, f)
    ensures c1 == c2
  {
  }

  /** The label a factor gets when its qubit is measured as `bit`. */
  function FactorLabel(f: Factor, bit: bool): string
  {
    StateLabel(BitChar(bit), f).value
  }

  /** Each factor labelled by the value of its own qubit. */
  function Labels(r: Register): Outcome
  {
    Outcome(FactorLabel(Monsoon, r[QubitOf(Monsoon)]), FactorLabel(Yield, r[QubitOf(Yield)]),
            FactorLabel(Subsidies, r[QubitOf(Subsidies)]), FactorLabel(Demand, r[QubitOf(Demand)]))
  }

  /** Each label of an outcome reads exactly the bit of its own factor's qubit. */
  lemma LabelsReadQubits(r: Register)
    ensures Labels(r).monsoon == "Disrupted" <==> r[0]
    ensures Labels(r).cropYield == "Poor" <==> r[1]
    ensures Labels(r).subsidies == "High" <==> r[2]
    ensures Labels(r).demand == "Volatile" <==> r[3]
  {
  }

  /** Two registers get the same label for a factor exactly when they agree on its qubit. */
  lemma LabelsAgree(r1: Register, r2: Register)
    ensures Labels(r1).monsoon == Labels(r2).monsoon <==> r1[0] == r2[0]
    ensures Labels(r1).cropYield == Labels(r2).cropYield <==> r1[1] == r2[1]
    ensures Labels(r1).subsidies == Labels(r2).subsidies <==> r1[2] == r2[2]
    ensures Labels(r1).demand == Labels(r2).demand <==> r1[3] == r2[3]
  {
    LabelsReadQubits(r1);
    LabelsReadQubits(r2);
  }

  /**
   * Decodes a count key: character 0 gives Demand, 1 Subsidies, 2 Yield and
   * 3 Monsoon. A key shorter than four characters, or with a character
   * other than '0' or '1' among its first four, has no decoding (the
   * source raises IndexError or KeyError).
   */
  function Decode(key: string): (o: Option<Outcome>)
    ensures o.Some? <==> |key| >= 4 && forall i :: 0 <= i < 4 ==> IsBitChar(key[i])
  {
    if |key| < 4 then None
    else
      var demand := StateLabel(key[0], Demand);
      var subsidies := StateLabel(key[1], Subsidies);
      var cropYield := StateLabel(key[2], Yield);
      var monsoon := StateLabel(key[3], Monsoon);
      if demand.None? || subsidies.None? || cropYield.None? || monsoon.None? then None
      else Some(Outcome(monsoon.value, cropYield.value, subsidies.value, demand.value))
  }

  /** The key of a register decodes to each factor's own label: the little-endian convention is respected. */
  lemma DecodeKey(r: Register)
    ensures Decode(Key(r)) == Some(Labels(r))
  {
    var k := Key(r);
    assert k[0] == BitChar(r[3]) && k[1] == BitChar(r[2]) && k[2] == BitChar(r[1]) && k[3] == BitChar(r[0]);
  }

  /** A key of exactly four bit characters, the shape of every key the simulator reports. */
  predicate WellFormedKey(k: string)
  {
    |k| == 4 && forall i :: 0 <= i < 4 ==> IsBitChar(k[i])
  }

  /** Every well-formed key is the key of some register. */
  lemma KeyOnto(k: string)
    requires WellFormedKey(k)
    ensures exists r: Register :: Key(r) == k
  {
    var r: Register := [k[3] == '1', k[2] == '1', k[1] == '1', k[0] == '1'];
    assert Key(r) == k;
  }

  /** Decoding is one-to-one on well-formed keys. */
  lemma DecodeInjective(k1: string, k2: string)
    requires WellFormedKey(k1) && WellFormedKey(k2)
    requires Decode(k1) == Decode(k2)
    ensures k1 == k2
  {
    StateLabelInjective(k1[0], k2[0], Demand);
    StateLabelInjective(k1[1], k2[1], Subsidies);
    StateLabelInjective(k1[2], k2[2], Yield);
    StateLabelInjective(k1[3], k2[3], Monsoon);
  }

  /** Labelling is a bijection between registers and label tuples: distinct registers get distinct labels. */
  lemma LabelsInjective(r1: Register, r2: Register)
    requires Labels(r1) == Labels(r2)
    ensures r1 == r2
  {
    DecodeKey(r1);
    DecodeKey(r2);
    DecodeInjective(Key(r1), Key(r2));
    KeyInjective(r1, r2);
  }

  /** One line of the report: the decoded outcome and its probability in percent. */
  datatype ReportLine = ReportLine(outcome: Outcome, probability: real)

  /** Why the report cannot be produced: a key the label table cannot decode, or a division by a zero total. */
  datatype ReportError = BadKey(key: string) | ZeroTotal

  /** `(count / total_shots) * 100`, as an exact rational. */
  function Probability(count: nat, total: nat): (p: real)
    requires total > 0
    ensures 0.0 <= p
    ensures count <= total ==> p <= 100.0
    ensures count == total ==> p == 100.0
  {
    (count as real / total as real) * 100.0
  }

  /**
   * The report lines for `entries`, in order, given the total over the whole
   * table; stops at the first entry that fails, as the source's loop does.
   */
  function Lines(entries: CountTable, total: nat): (r: Result<seq<ReportLine>, ReportError>)
    ensures r.Ok? <==> (forall i :: 0 <= i < |entries| ==> Decode(entries[i].0).Some?) && (|entries| == 0 || total > 0)
    ensures r.Ok? ==> |r.value| == |entries|
    ensures r.Ok? ==> forall i :: 0 <= i < |entries| ==>
      total > 0 && r.value[i] == ReportLine(Decode(entries[i].0).value, Probability(entries[i].1, total))
    ensures r.Err? ==> (r.error == ZeroTotal <==> |entries| > 0 && total == 0 && Decode(entries[0].0).Some?)
    ensures r.Err? && r.error.BadKey? ==>
      exists k :: 0 <= k < |entries| && entries[k].0 == r.error.key && Decode(entries[k].0).None?
        && forall j :: 0 <= j < k ==> Decode(entries[j].0).Some?
    decreases |entries|
  {
    if |entries| == 0 then Ok([])
    else
      var (key, count) := entries[0];
      match Decode(key)
      case None => Err(BadKey(key))
      case Some(outcome) =>
        if total == 0 then Err(ZeroTotal)
        else
          match Lines(entries[1..], total)
          case Err(e) =>
            assert e.BadKey? ==> (exists k :: 1 <= k < |entries| && entries[k].0 == e.key && Decode(entries[k].0).None?
                                        && forall j :: 0 <= j < k ==> Decode(entries[j].0).Some?) by {
              if e.BadKey? {
                var k :| 0 <= k < |entries[1..]| && entries[1..][k].0 == e.key && Decode(entries[1..][k].0).None?
                  && forall j :: 0 <= j < k ==> Decode(entries[1..][j].0).Some?;
                assert entries[k + 1].0 == e.key;
                assert forall j :: 1 <= j < k + 1 ==> Decode(entries[j].0).Some? by {
                  forall j | 1 <= j < k + 1
                    ensures Decode(entries[j].0).Some?
                  {
                    assert entries[j] == entries[1..][j - 1];
                  }
                }
              }
            }
            Err(e)
          case Ok(rest) => Ok([ReportLine(outcome, Probability(count, total))] + rest)
  }

  /** The report for a whole count table: the loop of the narrative generator, before formatting. */
  function GenerateReport(t: CountTable): (r: Result<seq<ReportLine>, ReportError>)
    ensures r.Ok? <==> (forall i :: 0 <= i < |t| ==> Decode(t[i].0).Some?) && (|t| == 0 || Total(t) > 0)
    ensures r.Ok? ==> |r.value| == |t|
  {
    Lines(t, Total(t))
  }

  function SumProbabilities(lines: seq<ReportLine>): real
  {
    if |lines| == 0 then 0.0 else lines[0].probability + SumProbabilities(lines[1..])
  }

  lemma DivisionAdds(a: nat, b: nat, t: nat)
    requires t > 0
    ensures (a as real / t as real) * 100.0 + (b as real / t as real) * 100.0 == ((a + b) as real / t as real) * 100.0
  {
  }

  /** The probabilities of the lines for `entries` add up to their share of `total`. */
  lemma {:induction false} LinesSum(entries: CountTable, total: nat)
    requires total > 0
    requires Lines(entries, total).Ok?
    ensures SumProbabilities(Lines(entries, total).value) == (Total(entries) as real / total as real) * 100.0
    decreases |entries|
  {
    if |entries| > 0 {
      var lines := Lines(entries, total).value;
      var rest := Lines(entries[1..], total).value;
      assert lines[1..] == rest;
      var head, tail := entries[0].1, Total(entries[1..]);
      assert Total(entries) == head + tail;
      assert SumProbabilities(lines) == Probability(head, total) + SumProbabilities(rest);
      LinesSum(entries[1..], total);
      DivisionAdds(head, tail, total);
    }
  }

  /** When the report of a non-empty table succeeds, its probabilities sum to exactly 100. */
  lemma ProbabilitiesSumTo100(t: CountTable)
    requires |t| > 0
    requires GenerateReport(t).Ok?
    ensures SumProbabilities(GenerateReport(t).value) == 100.0
  {
    var total := Total(t);
    assert total > 0;
    LinesSum(t, total);
    assert Probability(total, total) == 100.0;
  }

  /** Each count is at most the total, so every probability lies between 0 and 100. */
  lemma {:induction false} CountAtMostTotal(t: CountTable, i: nat)
    requires i < |t|
    ensures t[i].1 <= Total(t)
    decreases |t|
  {
    if i > 0 {
      CountAtMostTotal(t[1..], i - 1);
    }
  }

  lemma ProbabilitiesInRange(t: CountTable)
    requires GenerateReport(t).Ok?
    ensures forall i :: 0 <= i < |GenerateReport(t).value| ==> 0.0 <= GenerateReport(t).value[i].probability <= 100.0
  {
    forall i | 0 <= i < |GenerateReport(t).value|
      ensures GenerateReport(t).value[i].probability <= 100.0
    {
      CountAtMostTotal(t, i);
    }
  }

  /** Keys of a dictionary are pairwise different. */
  predicate DistinctKeys(t: CountTable)
  {
    forall i, j :: 0 <= i < j < |t| ==> t[i].0 != t[j].0
  }

  /** Every observed bit pattern gets its own line: distinct well-formed keys give distinct outcomes. */
  lemma DistinctOutcomes(t: CountTable)
    requires DistinctKeys(t)
    requires forall i :: 0 <= i < |t| ==> WellFormedKey(t[i].0)
    requires GenerateReport(t).Ok?
    ensures forall i, j :: 0 <= i < j < |t| ==> GenerateReport(t).value[i].outcome != GenerateReport(t).value[j].outcome
  {
    var lines := GenerateReport(t).value;
    forall i, j | 0 <= i < j < |t|
      ensures lines[i].outcome != lines[j].outcome
    {
      if lines[i].outcome == lines[j].outcome {
        DecodeInjective(t[i].0, t[j].0);
      }
    }
  }
}
