/**
 * Construction of the agricultural circuit: bias gates from the initial
 * state, the fixed CNOT chain, then whatever gates the selected event adds.
 */
module AgriCircuit {
  import opened QubitRegister

  /** The initial-state dictionary handed to the simulation (keys 'monsoon', 'subsidies'). */
  type InitialState = map<string, string>

  /** `initial_state.get('monsoon') == 'Disrupted'`: a missing key reads as no bias. */
  predicate MonsoonDisrupted(s: InitialState)
  {
    "monsoon" in s && s["monsoon"] == "Disrupted"
  }

  /** `initial_state.get('subsidies') == 'High'`. */
  predicate SubsidiesHigh(s: InitialState)
  {
    "subsidies" in s && s["subsidies"] == "High"
  }

  /** X on the Monsoon qubit when the monsoon is disrupted, then X on the Subsidies qubit when subsidies are high. */
  function BiasGates(s: InitialState): (g: seq<Gate>)
    ensures X(0) in g <==> MonsoonDisrupted(s)
    ensures X(2) in g <==> SubsidiesHigh(s)
    ensures forall i :: 0 <= i < |g| ==> g[i] == X(0) || g[i] == X(2)
  {
    (if MonsoonDisrupted(s) then [X(0)] else []) + (if SubsidiesHigh(s) then [X(2)] else [])
  }

  /** Monsoon -> Yield, Yield -> Demand, Subsidies -> Yield, in that order. */
  const EntanglingChain: seq<Gate> := [CX(0, 1), CX(1, 3), CX(2, 1)]

  /** The chain with its last two gates exchanged, used to show that the order matters. */
  const SwappedChain: seq<Gate> := [CX(0, 1), CX(2, 1), CX(1, 3)]

  /** The full circuit before measurement; `eventGates` is what the event callback appends. */
  function BuildCircuit(s: InitialState, eventGates: seq<Gate>): seq<Gate>
  {
    BiasGates(s) + EntanglingChain + eventGates
  }

  /** The circuit is laid out as bias gates, then the three-gate chain, then the event gates, nothing else. */
  lemma CircuitLayout(s: InitialState, eventGates: seq<Gate>)
    ensures var c, n := BuildCircuit(s, eventGates), |BiasGates(s)|;
      && n <= 2
      && |c| == n + |EntanglingChain| + |eventGates|
      && c[..n] == BiasGates(s)
      && c[n..n + 3] == EntanglingChain
      && c[|c| - |eventGates|..] == eventGates
  {
  }

  /** The basis state the circuit leaves the register in, starting from |0000>. */
  function FinalRegister(s: InitialState, eventGates: seq<Gate>): Register
  {
    Run(BuildCircuit(s, eventGates), Zero)
  }

  /** The bias gates set exactly the Monsoon and Subsidies priors; the other qubits stay at 0. */
  lemma BiasSetsPriors(s: InitialState)
    ensures Run(BiasGates(s), Zero) == [MonsoonDisrupted(s), false, SubsidiesHigh(s), false]
  {
    var m := if MonsoonDisrupted(s) then [X(0)] else [];
    var h := if SubsidiesHigh(s) then [X(2)] else [];
    RunAppend(m, h, Zero);
  }

  /** The effect of the fixed chain on any basis state (a, b, c, d). */
  lemma ChainEffect(r: Register)
    ensures Run(EntanglingChain, r)
         == [r[0], Xor(Xor(r[1], r[0]), r[2]), r[2], Xor(r[3], Xor(r[1], r[0]))]
  {
    RunAppend([CX(0, 1)], [CX(1, 3), CX(2, 1)], r);
    RunAppend([CX(1, 3)], [CX(2, 1)], Apply(CX(0, 1), r));
  }

  /** With the last two gates exchanged, Demand would also depend on Subsidies. */
  lemma SwappedChainEffect(r: Register)
    ensures Run(SwappedChain, r)[3] == Xor(r[3], Xor(Xor(r[1], r[0]), r[2]))
  {
    RunAppend([CX(0, 1)], [CX(2, 1), CX(1, 3)], r);
    RunAppend([CX(2, 1)], [CX(1, 3)], Apply(CX(0, 1), r));
  }

  /** The state after the chain and before the event gates. */
  function Baseline(s: InitialState): Register
  {
    FinalRegister(s, [])
  }

  /**
   * With no event gate, Demand equals Monsoon, Yield is Monsoon xor
   * Subsidies, and Monsoon and Subsidies keep their bias.
   */
  lemma BaselineRegister(s: InitialState)
    ensures Baseline(s)
         == [MonsoonDisrupted(s), Xor(MonsoonDisrupted(s), SubsidiesHigh(s)), SubsidiesHigh(s), MonsoonDisrupted(s)]
  {
    assert BuildCircuit(s, []) == BiasGates(s) + EntanglingChain;
    RunAppend(BiasGates(s), EntanglingChain, Zero);
    BiasSetsPriors(s);
    ChainEffect(Run(BiasGates(s), Zero));
  }

  /** The event gates run on the baseline state: they come after the whole chain. */
  lemma EventsRunAfterChain(s: InitialState, eventGates: seq<Gate>)
    ensures FinalRegister(s, eventGates) == Run(eventGates, Baseline(s))
  {
    assert BuildCircuit(s, eventGates) == BuildCircuit(s, []) + eventGates;
    RunAppend(BuildCircuit(s, []), eventGates, Zero);
  }

  /**
   * Demand ignores the subsidy bias, because CX(1, 3) runs before CX(2, 1);
   * the swapped chain would make it depend on it.
   */
  lemma DemandIgnoresSubsidies(s1: InitialState, s2: InitialState)
    requires MonsoonDisrupted(s1) == MonsoonDisrupted(s2)
    ensures Baseline(s1)[3] == Baseline(s2)[3]
    ensures SubsidiesHigh(s1) != SubsidiesHigh(s2) ==>
      Run(SwappedChain, Run(BiasGates(s1), Zero))[3] != Run(SwappedChain, Run(BiasGates(s2), Zero))[3]
  {
    BaselineRegister(s1);
    BaselineRegister(s2);
    BiasSetsPriors(s1);
    BiasSetsPriors(s2);
    SwappedChainEffect(Run(BiasGates(s1), Zero));
    SwappedChainEffect(Run(BiasGates(s2), Zero));
  }
}
