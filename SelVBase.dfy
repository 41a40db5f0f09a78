/**
 The Hamiltonian-dependent parts of the Select-V gate: turning each
 Hamiltonian term into a generator of controlled Pauli gates
 (`convert_hamiltonian_terms_to_operators`, `controlled_pauli_gate`) and
 finding the range of terms that need a gate at all (`pos1`/`pos2` in
 `_decompose_`).
 */
module SelVBase {
  import opened Wrappers
  import opened Gates

  /** One Hamiltonian term: a Pauli string over `I`, `X`, `Y`, `Z` and its coefficient. */
  datatype Term = Term(pauli: string, coeff: real)

  /**
   The lambda `convert_hamiltonian_terms_to_operators` builds for one term:
   the term's Pauli string, and whether a `Z` phase fix goes in front.
   */
  datatype OpGen = OpGen(pauli: string, negative: bool)

  /** Gates `controlled_pauli_gate` emits for one Pauli character on target `tq`. */
  function PauliCharGates(p: char, ctrl: Qubit, tq: Qubit): seq<Gate>
  {
    if p == 'I' then []
    else if p == 'X' then [CX(ctrl, tq)]
    else if p == 'Y' then [Sdg(tq), CX(ctrl, tq), S(tq)]
    else if p == 'Z' then [CZ(ctrl, tq)]
    else []
  }

  /** The gates of the first `n` pairs of `zip(pauliString, targets)`, in target order. */
  function PauliGates(pauli: string, ctrl: Qubit, targets: seq<Qubit>, n: nat): seq<Gate>
    requires n <= |pauli| && n <= |targets|
  {
    if n == 0 then []
    else PauliGates(pauli, ctrl, targets, n - 1) + PauliCharGates(pauli[n - 1], ctrl, targets[n - 1])
  }

  function Min(a: nat, b: nat): nat
  {
    if a <= b then a else b
  }

  /** What `controlled_pauli_gate(pauliString, ctrl, targets)` returns: `zip` stops at the shorter list. */
  function ControlledPauliGates(pauli: string, ctrl: Qubit, targets: seq<Qubit>): seq<Gate>
  {
    PauliGates(pauli, ctrl, targets, Min(|pauli|, |targets|))
  }

  /** The gate list the generator `g` yields when called as `g(ctrl, qubits)`. */
  function Generate(g: OpGen, ctrl: Qubit, qubits: seq<Qubit>): seq<Gate>
  {
    (if g.negative then [Z(ctrl)] else []) + ControlledPauliGates(g.pauli, ctrl, qubits)
  }

  /** Number of gates a Pauli character costs: 0 for I, 1 for X, 3 for Y, 1 for Z. */
  function CharCost(p: char): nat
  {
    match p
    case 'X' => 1
    case 'Y' => 3
    case 'Z' => 1
    case _ => 0
  }

  /** Total cost of the first `n` characters of a Pauli string. */
  function Cost(pauli: string, n: nat): nat
    requires n <= |pauli|
  {
    if n == 0 then 0 else Cost(pauli, n - 1) + CharCost(pauli[n - 1])
  }

  /** Number of characters among the first `n` of `pauli` that equal `c`. */
  function Occurrences(pauli: string, n: nat, c: char): nat
    requires n <= |pauli|
  {
    if n == 0 then 0 else Occurrences(pauli, n - 1, c) + (if pauli[n - 1] == c then 1 else 0)
  }

  /**
   `controlled_pauli_gate`: walk `zip(pauliString, targets)` and collect the
   gates of each character; characters other than X, Y, Z contribute nothing.
   */
  method ControlledPauliGate(pauli: string, ctrl: Qubit, targets: seq<Qubit>) returns (gateSequence: seq<Gate>)
    ensures gateSequence == ControlledPauliGates(pauli, ctrl, targets)
  {
    gateSequence := [];
    var n := Min(|pauli|, |targets|);
    for i := 0 to n
      invariant gateSequence == PauliGates(pauli, ctrl, targets, i)
    {
      var p, tq := pauli[i], targets[i];
      // the gates this character appends; `I` and unknown characters append none
      var block: seq<Gate> := [];
      if p == 'I' {
      } else if p == 'X' {
        block := [CX(ctrl, tq)];
      } else if p == 'Y' {
        block := [Sdg(tq), CX(ctrl, tq), S(tq)];
      } else if p == 'Z' {
        block := [CZ(ctrl, tq)];
      }
      assert block == PauliCharGates(p, ctrl, tq);
      gateSequence := gateSequence + block;
    }
  }

  /** Calling the generator `g` on `(ctrl, qubits)`. */
  method ApplyOperator(g: OpGen, ctrl: Qubit, qubits: seq<Qubit>) returns (gates: seq<Gate>)
    ensures gates == Generate(g, ctrl, qubits)
  {
    var pauliGates := ControlledPauliGate(g.pauli, ctrl, qubits);
    if g.negative {
      gates := [Z(ctrl)] + pauliGates;
    } else {
      gates := pauliGates;
    }
  }

  /** The generators `convert_hamiltonian_terms_to_operators` builds, one per term. */
  function Operators(terms: seq<Term>): seq<OpGen>
  {
    seq(|terms|, i requires 0 <= i < |terms| => OpGen(terms[i].pauli, terms[i].coeff < 0.0))
  }

  /** `convert_hamiltonian_terms_to_operators`: one generator per term, in term order. */
  method ConvertHamiltonianTermsToOperators(terms: seq<Term>) returns (operatorGenerators: seq<OpGen>)
    ensures |operatorGenerators| == |terms|
    ensures forall i :: 0 <= i < |terms| ==>
      operatorGenerators[i] == OpGen(terms[i].pauli, terms[i].coeff < 0.0)
  {
    operatorGenerators := [];
    for i := 0 to |terms|
      invariant |operatorGenerators| == i
      invariant forall j :: 0 <= j < i ==>
        operatorGenerators[j] == OpGen(terms[j].pauli, terms[j].coeff < 0.0)
    {
      var term := terms[i];
      if term.coeff < 0.0 {
        operatorGenerators := operatorGenerators + [OpGen(term.pauli, true)];
      } else {
        operatorGenerators := operatorGenerators + [OpGen(term.pauli, false)];
      }
    }
  }

  // ----- properties of the generated gate lists -----

  lemma {:induction false} CharGatesCount(p: char, ctrl: Qubit, tq: Qubit)
    ensures CountCCX(PauliCharGates(p, ctrl, tq)) == 0
    ensures CountCX(PauliCharGates(p, ctrl, tq)) == (if p == 'X' || p == 'Y' then 1 else 0)
    ensures CountCZ(PauliCharGates(p, ctrl, tq)) == (if p == 'Z' then 1 else 0)
    ensures |PauliCharGates(p, ctrl, tq)| == CharCost(p)
  {
    var gs := PauliCharGates(p, ctrl, tq);
    if p == 'Y' {
      var a, b, c := [Sdg(tq)], [CX(ctrl, tq)], [S(tq)];
      assert gs == a + (b + c);
      CountSingleton(Sdg(tq));
      CountSingleton(CX(ctrl, tq));
      CountSingleton(S(tq));
      CountCCXAppend(b, c);
      CountCXAppend(b, c);
      CountCZAppend(b, c);
      CountCCXAppend(a, b + c);
      CountCXAppend(a, b + c);
      CountCZAppend(a, b + c);
    } else if gs != [] {
      CountSingleton(gs[0]);
      assert gs == [gs[0]];
    }
  }

  /**
   The first `n` pairs yield as many gates as the costs of their characters
   (0 for I, 1 for X, 3 for Y, 1 for Z): one CX per X or Y, one CZ per Z,
   and no Toffoli.
   */
  lemma {:induction false} PauliGatesCount(pauli: string, ctrl: Qubit, targets: seq<Qubit>, n: nat)
    requires n <= |pauli| && n <= |targets|
    ensures |PauliGates(pauli, ctrl, targets, n)| == Cost(pauli, n)
    ensures CountCX(PauliGates(pauli, ctrl, targets, n)) == Occurrences(pauli, n, 'X') + Occurrences(pauli, n, 'Y')
    ensures CountCZ(PauliGates(pauli, ctrl, targets, n)) == Occurrences(pauli, n, 'Z')
    ensures CountCCX(PauliGates(pauli, ctrl, targets, n)) == 0
  {
    if n > 0 {
      PauliGatesCount(pauli, ctrl, targets, n - 1);
      PauliGatesCountStep(pauli, ctrl, targets, n);
    }
  }

  /** The inductive step of `PauliGatesCount`: the counts grow by those of character n-1. */
  lemma {:induction false} PauliGatesCountStep(pauli: string, ctrl: Qubit, targets: seq<Qubit>, n: nat)
    requires 0 < n <= |pauli| && n <= |targets|
    requires |PauliGates(pauli, ctrl, targets, n - 1)| == Cost(pauli, n - 1)
    requires CountCX(PauliGates(pauli, ctrl, targets, n - 1)) == Occurrences(pauli, n - 1, 'X') + Occurrences(pauli, n - 1, 'Y')
    requires CountCZ(PauliGates(pauli, ctrl, targets, n - 1)) == Occurrences(pauli, n - 1, 'Z')
    requires CountCCX(PauliGates(pauli, ctrl, targets, n - 1)) == 0
    ensures |PauliGates(pauli, ctrl, targets, n)| == Cost(pauli, n)
    ensures CountCX(PauliGates(pauli, ctrl, targets, n)) == Occurrences(pauli, n, 'X') + Occurrences(pauli, n, 'Y')
    ensures CountCZ(PauliGates(pauli, ctrl, targets, n)) == Occurrences(pauli, n, 'Z')
    ensures CountCCX(PauliGates(pauli, ctrl, targets, n)) == 0
  {
    var prefix := PauliGates(pauli, ctrl, targets, n - 1);
    var last := PauliCharGates(pauli[n - 1], ctrl, targets[n - 1]);
    CharGatesCount(pauli[n - 1], ctrl, targets[n - 1]);
    CountCXAppend(prefix, last);
    CountCZAppend(prefix, last);
    CountCCXAppend(prefix, last);
  }

  /** An all-identity Pauli string yields no gates. */
  lemma {:induction false} IdentityGatesEmpty(pauli: string, ctrl: Qubit, targets: seq<Qubit>, n: nat)
    requires n <= |pauli| && n <= |targets|
    requires forall i :: 0 <= i < |pauli| ==> pauli[i] == 'I'
    ensures PauliGates(pauli, ctrl, targets, n) == []
  {
    if n > 0 {
      IdentityGatesEmpty(pauli, ctrl, targets, n - 1);
    }
  }

  /**
   A generator for a negative coefficient puts exactly one `Z(ctrl)` in
   front of the controlled Pauli gates; otherwise it yields them alone.
   The generated list holds no Toffoli.
   */
  lemma {:induction false} GenerateShape(g: OpGen, ctrl: Qubit, qubits: seq<Qubit>)
    ensures g.negative ==>
      |Generate(g, ctrl, qubits)| == 1 + |ControlledPauliGates(g.pauli, ctrl, qubits)| &&
      Generate(g, ctrl, qubits)[0] == Z(ctrl) &&
      Generate(g, ctrl, qubits)[1..] == ControlledPauliGates(g.pauli, ctrl, qubits)
    ensures !g.negative ==> Generate(g, ctrl, qubits) == ControlledPauliGates(g.pauli, ctrl, qubits)
    ensures CountCCX(Generate(g, ctrl, qubits)) == 0
  {
    PauliGatesCount(g.pauli, ctrl, qubits, Min(|g.pauli|, |qubits|));
    CountCCXAppend(if g.negative then [Z(ctrl)] else [], ControlledPauliGates(g.pauli, ctrl, qubits));
  }

  // ----- pos1 / pos2 -----

  /** An element of `ham_ps_is_identity`: every character is `I`, or the coefficient is 0. */
  predicate IsIdentityTerm(t: Term)
  {
    (forall i :: 0 <= i < |t.pauli| ==> t.pauli[i] == 'I') || t.coeff == 0.0
  }

  /** `ham_ps_is_identity` */
  function IdentityFlags(terms: seq<Term>): (check: seq<bool>)
    ensures |check| == |terms|
    ensures forall i :: 0 <= i < |terms| ==> check[i] == IsIdentityTerm(terms[i])
  {
    seq(|terms|, i requires 0 <= i < |terms| => IsIdentityTerm(terms[i]))
  }

  /**
   `find_first_non_identity_term`: the index of the first False flag, or
   `None` (Python's implicit `None` return) when every flag is True.
   */
  method FindFirstNonIdentityTerm(check: seq<bool>) returns (idx: Option<nat>)
    ensures idx.Some? ==> idx.value < |check| && !check[idx.value]
    ensures idx.Some? ==> forall j :: 0 <= j < idx.value ==> check[j]
    ensures idx.None? <==> forall j :: 0 <= j < |check| ==> check[j]
  {
    for i := 0 to |check|
      invariant forall j :: 0 <= j < i ==> check[j]
    {
      if !check[i] {
        return Some(i);
      }
    }
    return None;
  }

  /**
   [pos1, pos2) is a non-empty range whose first and last terms are
   non-identity and outside which every term is identity.
   */
  predicate NonIdentityBounds(terms: seq<Term>, pos1: nat, pos2: nat)
  {
    && pos1 < pos2 <= |terms|
    && !IsIdentityTerm(terms[pos1]) && !IsIdentityTerm(terms[pos2 - 1])
    && (forall i :: 0 <= i < pos1 ==> IsIdentityTerm(terms[i]))
    && (forall i :: pos2 <= i < |terms| ==> IsIdentityTerm(terms[i]))
  }

  /**
   `pos1` and `pos2` of `_decompose_`: the half-open range from the first to
   one past the last term that is neither all-identity nor zero.
   `len(self.__hamiltonian)`, the number of terms of the operator, is
   `|terms|`. With no such term `_decompose_` computes
   `len(self.__hamiltonian) - None` and raises; that is `None` here.
   */
  method NonIdentityRange(terms: seq<Term>) returns (r: Option<(nat, nat)>)
    ensures r.None? <==> forall i :: 0 <= i < |terms| ==> IsIdentityTerm(terms[i])
    ensures r.Some? ==> NonIdentityBounds(terms, r.value.0, r.value.1)
  {
    var hamPsIsIdentity := IdentityFlags(terms);
    var first := FindFirstNonIdentityTerm(hamPsIsIdentity);
    var fromEnd := FindFirstNonIdentityTerm(Reverse(hamPsIsIdentity));
    if first.Some? {
      assert Reverse(hamPsIsIdentity)[|terms| - 1 - first.value] == hamPsIsIdentity[first.value];
    }
    if first.None? || fromEnd.None? {
      r := None;
    } else {
      var pos1 := first.value;
      var pos2 := |terms| - fromEnd.value;
      assert Reverse(hamPsIsIdentity)[fromEnd.value] == hamPsIsIdentity[pos2 - 1];
      forall i | pos2 <= i < |terms| ensures IsIdentityTerm(terms[i]) {
        assert Reverse(hamPsIsIdentity)[|terms| - 1 - i] == hamPsIsIdentity[i];
      }
      r := Some((pos1, pos2));
    }
  }
}
