/**
 * The four-qubit register of the agricultural circuit and the classical
 * semantics of the only gates the circuit uses (X, CX and id).
 *
 * The register starts in the basis state |0000> and no gate creates a
 * superposition, so every state the circuit reaches is a basis state: a
 * tuple of four bits. X flips a bit, CX xors its control into its target
 * and id does nothing.
 */
module QubitRegister {

  /** A register position: the circuit has four qubits and four classical bits. */
  type Qubit = q: int | 0 <= q < 4

  /** A basis state of the register; entry i is the value of qubit i. */
  type Register = r: seq<bool> | |r| == 4 witness [false, false, false, false]

  /** The state every run starts from. */
  const Zero: Register := [false, false, false, false]

  /** The economic factor each qubit stands for. */
  datatype Factor = Monsoon | Yield | Subsidies | Demand

  /** Monsoon is qubit 0, Yield 1, Subsidies 2 and Demand 3. */
  function QubitOf(f: Factor): Qubit
  {
    match f
    case Monsoon => 0
    case Yield => 1
    case Subsidies => 2
    case Demand => 3
  }

  /** Each qubit stands for exactly one factor. */
  lemma QubitOfBijective(q: Qubit)
    ensures exists f: Factor :: QubitOf(f) == q
    ensures forall f, g: Factor :: QubitOf(f) == QubitOf(g) ==> f == g
  {
    if q == 0 { assert QubitOf(Monsoon) == q; }
    else if q == 1 { assert QubitOf(Yield) == q; }
    else if q == 2 { assert QubitOf(Subsidies) == q; }
    else { assert QubitOf(Demand) == q; }
  }

  function Xor(a: bool, b: bool): bool { a != b }

  datatype RawGate = X(target: Qubit) | CX(control: Qubit, target: Qubit) | Id(target: Qubit)

  /** A gate the circuit builder accepts: a CX on one qubit twice is refused at construction. */
  type Gate = g: RawGate | g.CX? ==> g.control != g.target witness Id(0)

  /** The basis-state semantics of one gate: only its target may change. */
  function Apply(g: Gate, r: Register): (r': Register)
    ensures forall q: Qubit :: q != g.target ==> r'[q] == r[q]
    ensures g.X? ==> r'[g.target] == !r[g.target]
    ensures g.CX? ==> r'[g.target] == Xor(r[g.target], r[g.control])
    ensures g.Id? ==> r' == r
  {
    match g
    case X(t) => r[t := !r[t]]
    case CX(c, t) => r[t := Xor(r[t], r[c])]
    case Id(_) => r
  }

  /** True when some gate of the circuit has q as its target. */
  predicate Touches(circuit: seq<Gate>, q: Qubit)
  {
    exists i :: 0 <= i < |circuit| && circuit[i].target == q
  }

  /** Runs the gates of a circuit in order, starting from r. */
  function Run(circuit: seq<Gate>, r: Register): Register
    decreases |circuit|
  {
    if |circuit| == 0 then r else Run(circuit[1..], Apply(circuit[0], r))
  }

  /** A qubit that no gate of the circuit targets keeps its value. */
  lemma {:induction false} RunFrame(circuit: seq<Gate>, r: Register, q: Qubit)
    requires !Touches(circuit, q)
    ensures Run(circuit, r)[q] == r[q]
    decreases |circuit|
  {
    if |circuit| > 0 {
      assert circuit[0].target != q;
      RunFrame(circuit[1..], Apply(circuit[0], r), q);
    }
  }

  /** Running a concatenation runs its halves one after the other. */
  lemma {:induction false} RunAppend(a: seq<Gate>, b: seq<Gate>, r: Register)
    ensures Run(a + b, r) == Run(b, Run(a, r))
    decreases |a|
  {
    if |a| == 0 {
      assert a + b == b;
    } else {
      assert (a + b)[1..] == a[1..] + b;
      RunAppend(a[1..], b, Apply(a[0], r));
    }
  }

  /** Every gate of the circuit is its own inverse. */
  lemma ApplyInvolution(g: Gate, r: Register)
    ensures Apply(g, Apply(g, r)) == r
  {
    var r' := Apply(g, Apply(g, r));
    assert forall q: Qubit :: r'[q] == r[q];
    assert forall i :: 0 <= i < 4 ==> r'[i] == r[i];
  }

  /** The circuit with its gates in the opposite order. */
  function Reverse(circuit: seq<Gate>): (rev: seq<Gate>)
    ensures |rev| == |circuit|
    ensures forall i :: 0 <= i < |circuit| ==> rev[i] == circuit[|circuit| - 1 - i]
  {
    if |circuit| == 0 then [] else Reverse(circuit[1..]) + [circuit[0]]
  }

  /**
   * The basis-state circuits are classical reversible programs: running the
   * reversed circuit undoes a run, so distinct inputs give distinct outputs.
   */
  lemma {:induction false} RunReverseUndoes(circuit: seq<Gate>, r: Register)
    ensures Run(Reverse(circuit), Run(circuit, r)) == r
    decreases |circuit|
  {
    if |circuit| > 0 {
      var g := circuit[0];
      var r1 := Apply(g, r);
      calc {
        Run(Reverse(circuit), Run(circuit, r));
        Run(Reverse(circuit[1..]) + [g], Run(circuit[1..], r1));
        { RunAppend(Reverse(circuit[1..]), [g], Run(circuit[1..], r1)); }
        Run([g], Run(Reverse(circuit[1..]), Run(circuit[1..], r1)));
        { RunReverseUndoes(circuit[1..], r1); }
        Run([g], r1);
        { ApplyInvolution(g, r); }
        r;
      }
    }
  }
}
