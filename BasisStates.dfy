/**
 How the gate vocabulary acts on computational basis states. X, CX and CCX
 permute basis states (they flip a target bit, possibly under controls);
 Z, S, S-dagger and CZ are diagonal and only multiply a basis state by a
 phase, which is dropped here. This is the reference against which the QROM
 walk's bookkeeping of its ancilla register is stated.
 */
module BasisStates {
  import opened Gates
  import opened SelVBase
  import opened SelectV

  /** A computational basis state: the bit each qubit holds. */
  type State = Qubit -> bool

  function Toggle(st: State, q: Qubit): State
  {
    (x: Qubit) => if x == q then !st(x) else st(x)
  }

  function Step(g: Gate, st: State): State
  {
    match g
    case X(q) => Toggle(st, q)
    case CX(c, t) => if st(c) then Toggle(st, t) else st
    case CCX(c0, c1, t) => if st(c0) && st(c1) then Toggle(st, t) else st
    case Z(_) => st
    case S(_) => st
    case Sdg(_) => st
    case CZ(_, _) => st
  }

  /** The basis state after the gates, applied first to last. */
  function Run(gs: seq<Gate>, st: State): State
    decreases |gs|
  {
    if gs == [] then st else Run(gs[1..], Step(gs[0], st))
  }

  /** Running two lists one after the other is running their concatenation. */
  lemma {:induction false} RunAppend(a: seq<Gate>, b: seq<Gate>, st: State)
    ensures Run(a + b, st) == Run(b, Run(a, st))
    decreases |a|
  {
    if a == [] {
      assert a + b == b;
    } else {
      assert (a + b)[1..] == a[1..] + b;
      RunAppend(a[1..], b, Step(a[0], st));
    }
  }

  lemma {:induction false} RunSingle(g: Gate, st: State)
    ensures Run([g], st) == Step(g, st)
  {
    assert [g][1..] == [];
  }

  /**
   On basis states, `toffoli(True, b1, c0, c1, t)` flips `t` exactly when
   `c0` is on and `c1` holds `b1`, and changes nothing else.
   */
  lemma {:induction false} ToffoliRun(b1: bool, c0: Qubit, c1: Qubit, t: Qubit, st: State)
    requires c0 != c1 && c0 != t && c1 != t
    ensures forall x ::
      Run(Toffoli(true, b1, c0, c1, t), st)(x) == (if x == t && st(c0) && st(c1) == b1 then !st(x) else st(x))
  {
    ToffoliCases(true, b1, c0, c1, t);
    var ccx := CCX(c0, c1, t);
    if b1 {
      RunSingle(ccx, st);
    } else {
      var gs := [X(c1), ccx, X(c1)];
      assert gs == [X(c1)] + [ccx] + [X(c1)];
      RunAppend([X(c1)] + [ccx], [X(c1)], st);
      RunAppend([X(c1)], [ccx], st);
      RunSingle(X(c1), st);
      var st1 := Step(X(c1), st);
      RunSingle(ccx, st1);
      var st2 := Step(ccx, st1);
      RunSingle(X(c1), st2);
    }
  }

  /** The gates of one Pauli character flip at most its target qubit. */
  lemma {:induction false} CharGatesRun(p: char, ctrl: Qubit, tq: Qubit, st: State)
    ensures forall x :: x != tq ==> Run(PauliCharGates(p, ctrl, tq), st)(x) == st(x)
  {
    var gs := PauliCharGates(p, ctrl, tq);
    if p == 'Y' {
      assert gs == [Sdg(tq)] + [CX(ctrl, tq)] + [S(tq)];
      RunAppend([Sdg(tq)] + [CX(ctrl, tq)], [S(tq)], st);
      RunAppend([Sdg(tq)], [CX(ctrl, tq)], st);
      RunSingle(Sdg(tq), st);
      RunSingle(CX(ctrl, tq), st);
      RunSingle(S(tq), Step(CX(ctrl, tq), st));
    } else if gs != [] {
      RunSingle(gs[0], st);
      assert gs == [gs[0]];
    }
  }

  /** The gates of a Pauli string flip only target qubits. */
  lemma {:induction false} PauliGatesRun(pauli: string, ctrl: Qubit, targets: seq<Qubit>, n: nat, st: State)
    requires n <= |pauli| && n <= |targets|
    ensures forall x :: x !in targets ==> Run(PauliGates(pauli, ctrl, targets, n), st)(x) == st(x)
  {
    if n > 0 {
      var prefix := PauliGates(pauli, ctrl, targets, n - 1);
      var last := PauliCharGates(pauli[n - 1], ctrl, targets[n - 1]);
      PauliGatesRun(pauli, ctrl, targets, n - 1, st);
      var mid := Run(prefix, st);
      CharGatesRun(pauli[n - 1], ctrl, targets[n - 1], mid);
      var fin := Run(last, mid);
      assert Run(PauliGates(pauli, ctrl, targets, n), st) == fin by {
        PauliGatesSnoc(pauli, ctrl, targets, n);
        RunAppend(prefix, last, st);
      }
      assert targets[n - 1] in targets;
    }
  }

  /** The gates of the first n characters end with those of character n - 1. */
  lemma {:induction false} PauliGatesSnoc(pauli: string, ctrl: Qubit, targets: seq<Qubit>, n: nat)
    requires 0 < n <= |pauli| && n <= |targets|
    ensures PauliGates(pauli, ctrl, targets, n) ==
      PauliGates(pauli, ctrl, targets, n - 1) + PauliCharGates(pauli[n - 1], ctrl, targets[n - 1])
  {
  }

  /** An operator generated for a term flips only target qubits. */
  lemma {:induction false} GenerateRun(g: OpGen, ctrl: Qubit, targets: seq<Qubit>, st: State)
    ensures forall x :: x !in targets ==> Run(Generate(g, ctrl, targets), st)(x) == st(x)
  {
    var phase: seq<Gate> := if g.negative then [Z(ctrl)] else [];
    var rest := ControlledPauliGates(g.pauli, ctrl, targets);
    RunAppend(phase, rest, st);
    if g.negative {
      RunSingle(Z(ctrl), st);
    }
    PauliGatesRun(g.pauli, ctrl, targets, Min(|g.pauli|, |targets|), Run(phase, st));
  }
}
