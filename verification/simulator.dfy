/**
 * The simulator's output: measuring qubit i into classical bit i and
 * reporting counts keyed by bitstring in Qiskit's little-endian convention
 * (character 0 of a key is classical bit 3).
 */
module Simulator {
  import opened QubitRegister
  import opened AgriCircuit

  /** Number of shots each run is executed with. */
  const Shots: nat := 1024

  function BitChar(b: bool): char
  {
    if b then '1' else '0'
  }

  /** The count key of a measured register: classical bit i is character 3 - i. */
  function Key(r: Register): (k: string)
    ensures |k| == 4
    ensures forall i: Qubit :: k[3 - i] == BitChar(r[i])
  {
    [BitChar(r[3]), BitChar(r[2]), BitChar(r[1]), BitChar(r[0])]
  }

  /** Distinct registers have distinct keys. */
  lemma KeyInjective(r1: Register, r2: Register)
    requires Key(r1) == Key(r2)
    ensures r1 == r2
  {
    forall i: Qubit
      ensures r1[i] == r2[i]
    {
      assert Key(r1)[3 - i] == Key(r2)[3 - i];
    }
    assert forall i :: 0 <= i < 4 ==> r1[i] == r2[i];
  }

  /** A count table in the dictionary's iteration order: (bitstring, count) entries. */
  type CountTable = seq<(string, nat)>

  /** `sum(counts.values())`. */
  function Total(t: CountTable): nat
  {
    if |t| == 0 then 0 else t[0].1 + Total(t[1..])
  }

  /** The total is zero exactly when every count is zero. */
  lemma {:induction false} TotalZero(t: CountTable)
    ensures Total(t) == 0 <==> forall i :: 0 <= i < |t| ==> t[i].1 == 0
    decreases |t|
  {
    if |t| > 0 {
      TotalZero(t[1..]);
      assert forall i :: 1 <= i < |t| ==> t[i] == t[1..][i - 1];
    }
  }

  /**
   * Runs the circuit for the initial state and the event's gates. Every shot
   * measures the same basis state, so the table has one key holding all shots.
   */
  function Simulate(s: InitialState, eventGates: seq<Gate>): (t: CountTable)
    ensures |t| == 1 && t[0].1 == Shots
    ensures Total(t) == Shots
    ensures t[0].0 == Key(FinalRegister(s, eventGates))
  {
    [(Key(FinalRegister(s, eventGates)), Shots)]
  }
}
