/**
 Toffoli gates with basis changes, and the tree-walk construction of
 Select-V (`walkDown`, `stepRight`, `applyAndStep`) that `_decompose_`
 keeps in its unused `else` branch. Each circuit-building routine is a
 method that appends to a `Circuit` and is proved against a function that
 gives the gates it appends.
 */
module SelectV {
  import opened Gates
  import opened BooleanTree
  import opened SelVBase
  import opened Wrappers

  /** `basis_change` of `toffoli`: an X on each control whose sense is False. */
  function BasisChange(b0: bool, b1: bool, ctl0: Qubit, ctl1: Qubit): seq<Gate>
  {
    (if b0 then [] else [X(ctl0)]) + (if b1 then [] else [X(ctl1)])
  }

  /** `toffoli(b0, b1, ctl0, ctl1, trgt)`: the controlled X wrapped in its basis change. */
  function Toffoli(b0: bool, b1: bool, ctl0: Qubit, ctl1: Qubit, trgt: Qubit): seq<Gate>
  {
    var basisChange := BasisChange(b0, b1, ctl0, ctl1);
    basisChange + [CCX(ctl0, ctl1, trgt)] + Reverse(basisChange)
  }

  /** The four Toffoli lists written out, one per pair of control senses. */
  lemma {:induction false} ToffoliCases(b0: bool, b1: bool, ctl0: Qubit, ctl1: Qubit, trgt: Qubit)
    ensures var t := CCX(ctl0, ctl1, trgt);
      Toffoli(b0, b1, ctl0, ctl1, trgt) ==
        if b0 && b1 then [t]
        else if b1 then [X(ctl0), t, X(ctl0)]
        else if b0 then [X(ctl1), t, X(ctl1)]
        else [X(ctl0), X(ctl1), t, X(ctl1), X(ctl0)]
  {
    var bc := BasisChange(b0, b1, ctl0, ctl1);
    if !b0 && !b1 {
      assert Reverse(bc) == [X(ctl1), X(ctl0)];
    } else {
      assert Reverse(bc) == bc;
    }
  }

  /**
   A Toffoli list has one X per False sense on each side of the CCX, so its
   length is 1 + 2 * (number of False senses), and it reads the same backwards.
   */
  lemma {:induction false} ToffoliShape(b0: bool, b1: bool, ctl0: Qubit, ctl1: Qubit, trgt: Qubit)
    ensures var r, m := Toffoli(b0, b1, ctl0, ctl1, trgt), (if b0 then 0 else 1) + (if b1 then 0 else 1);
      && |r| == 2 * m + 1
      && r[m] == CCX(ctl0, ctl1, trgt)
      && Reverse(r) == r
  {
    var bc, mid := BasisChange(b0, b1, ctl0, ctl1), [CCX(ctl0, ctl1, trgt)];
    assert Reverse(mid) == mid;
    ReverseAppend(bc + mid, Reverse(bc));
    ReverseAppend(bc, mid);
    ReverseReverse(bc);
    assert Reverse(bc + mid + Reverse(bc)) == bc + mid + Reverse(bc);
  }

  /** Everything but the middle gate of a Toffoli list is an X on a control, X(ctl0) iff `b0` is False and X(ctl1) iff `b1` is. */
  lemma {:induction false} ToffoliControls(b0: bool, b1: bool, ctl0: Qubit, ctl1: Qubit, trgt: Qubit)
    ensures var r, m := Toffoli(b0, b1, ctl0, ctl1, trgt), (if b0 then 0 else 1) + (if b1 then 0 else 1);
      && |r| == 2 * m + 1
      && (forall i :: 0 <= i < |r| && i != m ==> r[i] == X(ctl0) || r[i] == X(ctl1))
      && (ctl0 != ctl1 ==> (X(ctl0) in r <==> !b0) && (X(ctl1) in r <==> !b1))
  {
    ToffoliCases(b0, b1, ctl0, ctl1, trgt);
    var r, t := Toffoli(b0, b1, ctl0, ctl1, trgt), CCX(ctl0, ctl1, trgt);
    if b0 && b1 {
      assert r == [t];
    } else if b1 {
      assert r == [X(ctl0), t, X(ctl0)];
    } else if b0 {
      assert r == [X(ctl1), t, X(ctl1)];
    } else {
      assert r == [X(ctl0), X(ctl1), t, X(ctl1), X(ctl0)];
    }
  }

  /** A Toffoli list holds exactly one CCX and no CX or CZ. */
  lemma {:induction false} ToffoliCounts(b0: bool, b1: bool, ctl0: Qubit, ctl1: Qubit, trgt: Qubit)
    ensures CountCCX(Toffoli(b0, b1, ctl0, ctl1, trgt)) == 1
    ensures CountCX(Toffoli(b0, b1, ctl0, ctl1, trgt)) == 0
    ensures CountCZ(Toffoli(b0, b1, ctl0, ctl1, trgt)) == 0
  {
    var bc := BasisChange(b0, b1, ctl0, ctl1);
    var mid := [CCX(ctl0, ctl1, trgt)];
    XOnlyCounts(bc);
    XOnlyCounts(Reverse(bc));
    CountSingleton(CCX(ctl0, ctl1, trgt));
    CountCCXAppend(bc, mid);
    CountCCXAppend(bc + mid, Reverse(bc));
    CountCXAppend(bc, mid);
    CountCXAppend(bc + mid, Reverse(bc));
    CountCZAppend(bc, mid);
    CountCZAppend(bc + mid, Reverse(bc));
  }

  lemma {:induction false} XOnlyCounts(gs: seq<Gate>)
    requires forall i :: 0 <= i < |gs| ==> gs[i].X?
    ensures CountCCX(gs) == 0 && CountCX(gs) == 0 && CountCZ(gs) == 0
  {
    if gs != [] {
      XOnlyCounts(gs[1..]);
    }
  }

  // ----- walkDown -----

  /** Gates `walkDown_helper(myc, bt, qbt, anc)` appends. */
  function WalkDownSteps(bt: seq<bool>, qbt: seq<Qubit>, anc: seq<Qubit>): seq<Gate>
    requires |qbt| >= |bt| && (|bt| > 0 ==> |anc| > |bt|)
    decreases |bt|
  {
    if |bt| == 0 then []
    else Toffoli(bt[0], true, qbt[0], anc[0], anc[1]) + WalkDownSteps(bt[1..], qbt[1..], anc[1..])
  }

  predicate WalkDownShape(bTree: seq<bool>, qubits: seq<Qubit>, ancilla: seq<Qubit>)
  {
    |bTree| >= 2 && |qubits| >= |bTree| && |ancilla| >= 1 && |ancilla| >= |bTree| - 1
  }

  /** Gates of the circuit `walkDown(bTree, qubits, ancilla)` returns. */
  function WalkDownGates(bTree: seq<bool>, qubits: seq<Qubit>, ancilla: seq<Qubit>): seq<Gate>
    requires WalkDownShape(bTree, qubits, ancilla)
  {
    Toffoli(bTree[0], bTree[1], qubits[0], qubits[1], ancilla[0]) + WalkDownSteps(bTree[2..], qubits[2..], ancilla)
  }

  method WalkDownHelper(myc: Circuit, bt: seq<bool>, qbt: seq<Qubit>, anc: seq<Qubit>)
    requires |qbt| >= |bt| && (|bt| > 0 ==> |anc| > |bt|)
    modifies myc
    ensures myc.ops == old(myc.ops) + WalkDownSteps(bt, qbt, anc)
    decreases |bt|
  {
    if |bt| == 0 {
      return;
    } else {
      var step := Toffoli(bt[0], true, qbt[0], anc[0], anc[1]);
      ghost var before := myc.ops;
      myc.Append(step);
      WalkDownHelper(myc, bt[1..], qbt[1..], anc[1..]);
      assert WalkDownSteps(bt, qbt, anc) == step + WalkDownSteps(bt[1..], qbt[1..], anc[1..]);
      assert myc.ops == before + step + WalkDownSteps(bt[1..], qbt[1..], anc[1..]);
    }
  }

  method WalkDown(bTree: seq<bool>, qubits: seq<Qubit>, ancilla: seq<Qubit>) returns (circuit: Circuit)
    requires WalkDownShape(bTree, qubits, ancilla)
    ensures fresh(circuit)
    ensures circuit.ops == WalkDownGates(bTree, qubits, ancilla)
  {
    circuit := new Circuit();
    circuit.Append(Toffoli(bTree[0], bTree[1], qubits[0], qubits[1], ancilla[0]));
    WalkDownHelper(circuit, bTree[2..], qubits[2..], ancilla);
  }

  /** Number of False entries of a list. */
  function FalseCount(b: seq<bool>): nat
  {
    if b == [] then 0 else (if b[0] then 0 else 1) + FalseCount(b[1..])
  }

  lemma {:induction false} WalkDownStepsCount(bt: seq<bool>, qbt: seq<Qubit>, anc: seq<Qubit>)
    requires |qbt| >= |bt| && (|bt| > 0 ==> |anc| > |bt|)
    ensures CountCCX(WalkDownSteps(bt, qbt, anc)) == |bt|
    ensures |WalkDownSteps(bt, qbt, anc)| == |bt| + 2 * FalseCount(bt)
    decreases |bt|
  {
    if |bt| > 0 {
      var head := Toffoli(bt[0], true, qbt[0], anc[0], anc[1]);
      WalkDownStepsCount(bt[1..], qbt[1..], anc[1..]);
      ToffoliCases(bt[0], true, qbt[0], anc[0], anc[1]);
      ToffoliCounts(bt[0], true, qbt[0], anc[0], anc[1]);
      CountCCXAppend(head, WalkDownSteps(bt[1..], qbt[1..], anc[1..]));
    }
  }

  /**
   `walkDown` places one Toffoli per level below the root pair, |bTree| - 1
   in all, and two X gates for every False entry of the path.
   */
  lemma {:induction false} WalkDownCount(bTree: seq<bool>, qubits: seq<Qubit>, ancilla: seq<Qubit>)
    requires WalkDownShape(bTree, qubits, ancilla)
    ensures CountCCX(WalkDownGates(bTree, qubits, ancilla)) == |bTree| - 1
    ensures |WalkDownGates(bTree, qubits, ancilla)| == |bTree| - 1 + 2 * FalseCount(bTree)
  {
    var head := Toffoli(bTree[0], bTree[1], qubits[0], qubits[1], ancilla[0]);
    var rest := WalkDownSteps(bTree[2..], qubits[2..], ancilla);
    ToffoliCases(bTree[0], bTree[1], qubits[0], qubits[1], ancilla[0]);
    ToffoliCounts(bTree[0], bTree[1], qubits[0], qubits[1], ancilla[0]);
    WalkDownStepsCount(bTree[2..], qubits[2..], ancilla);
    CountCCXAppend(head, rest);
    assert bTree[1..][1..] == bTree[2..];
  }

  // ----- stepRight -----

  /**
   What `stepRight` indexes: the increment of `bTree` exists, and, counted
   from the end, the distance `1 + TrailingOnes(bTree)` to it needs that many
   ancillas and one control fewer (each level of the recursion drops the
   last entry of all three lists).
   */
  predicate StepShape(bTree: seq<bool>, qubits: seq<Qubit>, ancilla: seq<Qubit>)
  {
    !AllTrue(bTree) && |ancilla| >= 1 + TrailingOnes(bTree) && |qubits| >= TrailingOnes(bTree)
  }

  /**
   Gates `stepRight(circuit, bTree, qubits, ancilla)` appends to move from the
   node `bTree` to the next one, following its case split on the
   Hamming distance between `bTree` and its increment. An all-True `bTree`
   makes the increment raise and is excluded.
   */
  function StepRightGates(bTree: seq<bool>, qubits: seq<Qubit>, ancilla: seq<Qubit>): seq<Gate>
    requires StepShape(bTree, qubits, ancilla)
    decreases |bTree|
  {
    IncrementDistance(bTree);
    TrailingOnesBound(bTree);
    var distance := HDistance(bTree, IncrementBooleanTree(bTree).value);
    var nAnc := |ancilla|;
    if distance == 0 then []
    else if distance == 1 then
      if nAnc == 1 then [X(ancilla[nAnc - 1])]
      else [CX(ancilla[nAnc - 2], ancilla[nAnc - 1])]
    else if distance == 2 then
      var q0, q1, x0 := ancilla[nAnc - 1], ancilla[nAnc - 2], qubits[|qubits| - 1];
      if nAnc == 2 then [CX(q1, q0), CX(x0, q0), X(q1), X(q0)]
      else [CX(q1, q0)] + Toffoli(true, false, ancilla[nAnc - 3], x0, q0) + [CX(ancilla[nAnc - 3], q1)]
    else
      var x0, q0, q1 := qubits[|qubits| - 1], ancilla[nAnc - 1], ancilla[nAnc - 2];
      TrailingOnesPrefix(bTree);
      Toffoli(true, true, q1, x0, q0)
        + StepRightGates(bTree[..|bTree| - 1], qubits[..|qubits| - 1], ancilla[..nAnc - 1])
        + Toffoli(true, false, q1, x0, q0)
  }

  method StepRight(circuit: Circuit, bTree: seq<bool>, qubits: seq<Qubit>, ancilla: seq<Qubit>)
    requires StepShape(bTree, qubits, ancilla)
    modifies circuit
    ensures circuit.ops == old(circuit.ops) + StepRightGates(bTree, qubits, ancilla)
    decreases |bTree|
  {
    IncrementDistance(bTree);
    TrailingOnesBound(bTree);
    ghost var before := circuit.ops;
    var distance := HDistance(bTree, IncrementBooleanTree(bTree).value);
    var nAnc := |ancilla|;
    if distance == 0 {
      // unreachable: the increment differs from `bTree` in at least one place
    } else if distance == 1 {
      if nAnc == 1 {
        circuit.Append([X(ancilla[nAnc - 1])]);
      } else {
        circuit.Append([CX(ancilla[nAnc - 2], ancilla[nAnc - 1])]);
      }
    } else if distance == 2 {
      var q0, q1, x0 := ancilla[nAnc - 1], ancilla[nAnc - 2], qubits[|qubits| - 1];
      if nAnc == 2 {
        circuit.Append([CX(q1, q0)]);
        circuit.Append([CX(x0, q0)]);
        circuit.Append([X(q1)]);
        circuit.Append([X(q0)]);
        assert circuit.ops == before + [CX(q1, q0), CX(x0, q0), X(q1), X(q0)];
      } else {
        var q2 := ancilla[nAnc - 3];
        var t := Toffoli(true, false, q2, x0, q0);
        circuit.Append([CX(q1, q0)]);
        circuit.Append(t);
        circuit.Append([CX(q2, q1)]);
        assert circuit.ops == before + ([CX(q1, q0)] + t + [CX(q2, q1)]);
      }
    } else {
      var x0, q0, q1 := qubits[|qubits| - 1], ancilla[nAnc - 1], ancilla[nAnc - 2];
      TrailingOnesPrefix(bTree);
      var b', qs', as' := bTree[..|bTree| - 1], qubits[..|qubits| - 1], ancilla[..nAnc - 1];
      var pre, post := Toffoli(true, true, q1, x0, q0), Toffoli(true, false, q1, x0, q0);
      circuit.Append(pre);
      StepRight(circuit, b', qs', as');
      circuit.Append(post);
      StepRightUnfold(bTree, qubits, ancilla);
      Assoc(before, pre + StepRightGates(b', qs', as'), post);
      Assoc(before, pre, StepRightGates(b', qs', as'));
    }
  }

  lemma {:induction false} StepRightUnfold(bTree: seq<bool>, qubits: seq<Qubit>, ancilla: seq<Qubit>)
    requires StepShape(bTree, qubits, ancilla) && TrailingOnes(bTree) >= 2
    ensures StepShape(bTree[..|bTree| - 1], qubits[..|qubits| - 1], ancilla[..|ancilla| - 1])
    ensures var x0, q0, q1 := qubits[|qubits| - 1], ancilla[|ancilla| - 1], ancilla[|ancilla| - 2];
      StepRightGates(bTree, qubits, ancilla) ==
        Toffoli(true, true, q1, x0, q0)
          + StepRightGates(bTree[..|bTree| - 1], qubits[..|qubits| - 1], ancilla[..|ancilla| - 1])
          + Toffoli(true, false, q1, x0, q0)
  {
    IncrementDistance(bTree);
    TrailingOnesBound(bTree);
    TrailingOnesPrefix(bTree);
  }

  /**
   `stepRight` always appends something (the distance to the next node is
   never 0), and the number of Toffolis follows the distance d = 1 + the
   trailing True entries: none for d = 1, and 2 * (d - 2) plus one more
   unless the step reaches the top of the list otherwise.
   */
  lemma {:induction false} StepRightCount(bTree: seq<bool>, qubits: seq<Qubit>, ancilla: seq<Qubit>)
    requires StepShape(bTree, qubits, ancilla)
    ensures |StepRightGates(bTree, qubits, ancilla)| >= 1
    ensures var d := 1 + TrailingOnes(bTree);
      CountCCX(StepRightGates(bTree, qubits, ancilla)) ==
        if d == 1 then 0 else 2 * (d - 2) + (if d == |ancilla| then 0 else 1)
    decreases |bTree|
  {
    if TrailingOnes(bTree) <= 1 {
      StepRightCountShort(bTree, qubits, ancilla);
    } else {
      StepRightUnfold(bTree, qubits, ancilla);
      StepRightCount(bTree[..|bTree| - 1], qubits[..|qubits| - 1], ancilla[..|ancilla| - 1]);
      StepRightCountLong(bTree, qubits, ancilla);
    }
  }

  /** `StepRightCount` for distances 1 and 2, where `stepRight` writes its gates out. */
  lemma {:induction false} StepRightCountShort(bTree: seq<bool>, qubits: seq<Qubit>, ancilla: seq<Qubit>)
    requires StepShape(bTree, qubits, ancilla) && TrailingOnes(bTree) <= 1
    ensures |StepRightGates(bTree, qubits, ancilla)| >= 1
    ensures var d := 1 + TrailingOnes(bTree);
      CountCCX(StepRightGates(bTree, qubits, ancilla)) ==
        if d == 1 then 0 else 2 * (d - 2) + (if d == |ancilla| then 0 else 1)
  {
    IncrementDistance(bTree);
    TrailingOnesBound(bTree);
    var d := 1 + TrailingOnes(bTree);
    var nAnc := |ancilla|;
    if d == 1 {
      if nAnc == 1 {
        CountSingleton(X(ancilla[nAnc - 1]));
      } else {
        CountSingleton(CX(ancilla[nAnc - 2], ancilla[nAnc - 1]));
      }
    } else {
      var q0, q1, x0 := ancilla[nAnc - 1], ancilla[nAnc - 2], qubits[|qubits| - 1];
      if nAnc == 2 {
        var gs := [CX(q1, q0), CX(x0, q0), X(q1), X(q0)];
        assert gs == [CX(q1, q0)] + [CX(x0, q0)] + [X(q1)] + [X(q0)];
        CountSingleton(CX(q1, q0));
        CountSingleton(CX(x0, q0));
        CountSingleton(X(q1));
        CountSingleton(X(q0));
        CountCCXAppend([CX(q1, q0)], [CX(x0, q0)]);
        CountCCXAppend([CX(q1, q0)] + [CX(x0, q0)], [X(q1)]);
        CountCCXAppend([CX(q1, q0)] + [CX(x0, q0)] + [X(q1)], [X(q0)]);
      } else {
        var q2 := ancilla[nAnc - 3];
        var t := Toffoli(true, false, q2, x0, q0);
        ToffoliCounts(true, false, q2, x0, q0);
        CountSingleton(CX(q1, q0));
        CountSingleton(CX(q2, q1));
        CountCCXAppend([CX(q1, q0)], t);
        CountCCXAppend([CX(q1, q0)] + t, [CX(q2, q1)]);
      }
    }
  }

  /** The inductive step of `StepRightCount`: a distance above 2 adds a Toffoli on each side. */
  lemma {:induction false} StepRightCountLong(bTree: seq<bool>, qubits: seq<Qubit>, ancilla: seq<Qubit>)
    requires StepShape(bTree, qubits, ancilla) && TrailingOnes(bTree) >= 2
    requires StepShape(bTree[..|bTree| - 1], qubits[..|qubits| - 1], ancilla[..|ancilla| - 1])
    requires var d := 1 + TrailingOnes(bTree[..|bTree| - 1]);
      CountCCX(StepRightGates(bTree[..|bTree| - 1], qubits[..|qubits| - 1], ancilla[..|ancilla| - 1])) ==
        if d == 1 then 0 else 2 * (d - 2) + (if d == |ancilla[..|ancilla| - 1]| then 0 else 1)
    ensures |StepRightGates(bTree, qubits, ancilla)| >= 1
    ensures var d := 1 + TrailingOnes(bTree);
      CountCCX(StepRightGates(bTree, qubits, ancilla)) ==
        if d == 1 then 0 else 2 * (d - 2) + (if d == |ancilla| then 0 else 1)
  {
    TrailingOnesBound(bTree);
    TrailingOnesPrefix(bTree);
    StepRightUnfold(bTree, qubits, ancilla);
    var x0, q0, q1 := qubits[|qubits| - 1], ancilla[|ancilla| - 1], ancilla[|ancilla| - 2];
    var pre, post := Toffoli(true, true, q1, x0, q0), Toffoli(true, false, q1, x0, q0);
    var mid := StepRightGates(bTree[..|bTree| - 1], qubits[..|qubits| - 1], ancilla[..|ancilla| - 1]);
    ToffoliShape(true, true, q1, x0, q0);
    ToffoliCounts(true, true, q1, x0, q0);
    ToffoliCounts(true, false, q1, x0, q0);
    CountCCXAppend(pre, mid);
    CountCCXAppend(pre + mid, post);
  }

  // ----- applyAndStep -----

  predicate WalkShape(ops: seq<OpGen>, sbT: seq<bool>, ebT: seq<bool>, qbs: seq<Qubit>, anc: seq<Qubit>)
  {
    && |sbT| == |ebT| && 1 <= |anc| && |sbT| <= |anc| && |sbT| <= |qbs| + 1
    && Value(sbT) <= Value(ebT)
    && Value(ebT) - Value(sbT) < |ops|
  }

  /** From a node strictly below the end node, the increment exists and stays at or below it. */
  lemma {:induction false} StepBelowEnd(sbT: seq<bool>, ebT: seq<bool>)
    requires |sbT| == |ebT| && Value(sbT) <= Value(ebT) && sbT != ebT
    ensures !AllTrue(sbT)
    ensures IncrementBooleanTree(sbT).Some?
    ensures |IncrementBooleanTree(sbT).value| == |sbT|
    ensures Value(IncrementBooleanTree(sbT).value) == Value(sbT) + 1 <= Value(ebT)
  {
    if Value(sbT) == Value(ebT) {
      ValueInjective(sbT, ebT);
    }
    ValueBound(ebT);
    if AllTrue(sbT) {
      ValueAllTrue(sbT);
    }
    IncrementBooleanTreeCorrect(sbT);
  }

  /**
   Gates `applyAndStep_helper(myc, ops, sbT, ebT, qbs, anc, tgt)` appends:
   apply the next operator on the last ancilla, and unless the end node is
   reached, step right and go on from the incremented node with the
   remaining operators.
   */
  function ApplyAndStepGates(ops: seq<OpGen>, sbT: seq<bool>, ebT: seq<bool>,
                             qbs: seq<Qubit>, anc: seq<Qubit>, tgt: seq<Qubit>): seq<Gate>
    requires WalkShape(ops, sbT, ebT, qbs, anc)
    decreases Value(ebT) - Value(sbT)
  {
    var applied := Generate(ops[0], anc[|anc| - 1], tgt);
    if sbT == ebT then applied
    else
      StepBelowEnd(sbT, ebT);
      TrailingOnesBound(sbT);
      applied + StepRightGates(sbT, qbs, anc)
        + ApplyAndStepGates(ops[1..], IncrementBooleanTree(sbT).value, ebT, qbs, anc, tgt)
  }

  method ApplyAndStepHelper(myc: Circuit, ops: seq<OpGen>, sbT: seq<bool>, ebT: seq<bool>,
                            qbs: seq<Qubit>, anc: seq<Qubit>, tgt: seq<Qubit>)
    requires WalkShape(ops, sbT, ebT, qbs, anc)
    modifies myc
    ensures myc.ops == old(myc.ops) + ApplyAndStepGates(ops, sbT, ebT, qbs, anc, tgt)
    decreases Value(ebT) - Value(sbT)
  {
    ghost var before := myc.ops;
    var applied := ApplyOperator(ops[0], anc[|anc| - 1], tgt);
    myc.Append(applied);
    if sbT != ebT {
      StepBelowEnd(sbT, ebT);
      TrailingOnesBound(sbT);
      StepRight(myc, sbT, qbs, anc);
      var next := IncrementBooleanTree(sbT).value;
      ApplyAndStepHelper(myc, ops[1..], next, ebT, qbs, anc, tgt);
      ApplyAndStepUnfold(ops, sbT, ebT, qbs, anc, tgt, next);
      var stepped := StepRightGates(sbT, qbs, anc);
      Assoc(before, applied + stepped, ApplyAndStepGates(ops[1..], next, ebT, qbs, anc, tgt));
      Assoc(before, applied, stepped);
    }
  }

  lemma {:induction false} ApplyAndStepUnfold(ops: seq<OpGen>, sbT: seq<bool>, ebT: seq<bool>,
                           qbs: seq<Qubit>, anc: seq<Qubit>, tgt: seq<Qubit>, next: seq<bool>)
    requires WalkShape(ops, sbT, ebT, qbs, anc) && sbT != ebT
    requires IncrementBooleanTree(sbT) == Some(next)
    ensures StepShape(sbT, qbs, anc) && WalkShape(ops[1..], next, ebT, qbs, anc)
    ensures ApplyAndStepGates(ops, sbT, ebT, qbs, anc, tgt)
      == Generate(ops[0], anc[|anc| - 1], tgt) + StepRightGates(sbT, qbs, anc)
         + ApplyAndStepGates(ops[1..], next, ebT, qbs, anc, tgt)
  {
    StepBelowEnd(sbT, ebT);
    TrailingOnesBound(sbT);
  }

  method ApplyAndStep(operators: seq<OpGen>, startBTree: seq<bool>, endBTree: seq<bool>,
                      controls: seq<Qubit>, ancilla: seq<Qubit>, target: seq<Qubit>) returns (circuit: Circuit)
    requires WalkShape(operators, startBTree, endBTree, controls, ancilla)
    ensures fresh(circuit)
    ensures circuit.ops == ApplyAndStepGates(operators, startBTree, endBTree, controls, ancilla, target)
  {
    circuit := new Circuit();
    ApplyAndStepHelper(circuit, operators, startBTree, endBTree, controls, ancilla, target);
  }

  /**
   The tree walk applies `ops[0]` first and `ops[Value(ebT) - Value(sbT)]`
   last, both controlled on the last ancilla.
   */
  lemma {:induction false} ApplyAndStepEnds(ops: seq<OpGen>, sbT: seq<bool>, ebT: seq<bool>,
                                            qbs: seq<Qubit>, anc: seq<Qubit>, tgt: seq<Qubit>)
    requires WalkShape(ops, sbT, ebT, qbs, anc)
    ensures var r := ApplyAndStepGates(ops, sbT, ebT, qbs, anc, tgt);
      var first := Generate(ops[0], anc[|anc| - 1], tgt);
      var last := Generate(ops[Value(ebT) - Value(sbT)], anc[|anc| - 1], tgt);
      |first| <= |r| && r[..|first|] == first &&
      |last| <= |r| && r[|r| - |last|..] == last
  {
    ApplyAndStepFirst(ops, sbT, ebT, qbs, anc, tgt);
    ApplyAndStepLast(ops, sbT, ebT, qbs, anc, tgt);
  }

  lemma {:induction false} ApplyAndStepFirst(ops: seq<OpGen>, sbT: seq<bool>, ebT: seq<bool>,
                                             qbs: seq<Qubit>, anc: seq<Qubit>, tgt: seq<Qubit>)
    requires WalkShape(ops, sbT, ebT, qbs, anc)
    ensures var r := ApplyAndStepGates(ops, sbT, ebT, qbs, anc, tgt);
      var first := Generate(ops[0], anc[|anc| - 1], tgt);
      |first| <= |r| && r[..|first|] == first
  {
    var first := Generate(ops[0], anc[|anc| - 1], tgt);
    if sbT != ebT {
      StepBelowEnd(sbT, ebT);
      var next := IncrementBooleanTree(sbT).value;
      ApplyAndStepUnfold(ops, sbT, ebT, qbs, anc, tgt, next);
      var mid := StepRightGates(sbT, qbs, anc);
      var rest := ApplyAndStepGates(ops[1..], next, ebT, qbs, anc, tgt);
      PrefixOfAppend(first, mid, rest);
    }
  }

  lemma {:induction false} ApplyAndStepLast(ops: seq<OpGen>, sbT: seq<bool>, ebT: seq<bool>,
                                            qbs: seq<Qubit>, anc: seq<Qubit>, tgt: seq<Qubit>)
    requires WalkShape(ops, sbT, ebT, qbs, anc)
    ensures var r := ApplyAndStepGates(ops, sbT, ebT, qbs, anc, tgt);
      var last := Generate(ops[Value(ebT) - Value(sbT)], anc[|anc| - 1], tgt);
      |last| <= |r| && r[|r| - |last|..] == last
    decreases Value(ebT) - Value(sbT)
  {
    if sbT != ebT {
      StepBelowEnd(sbT, ebT);
      var next := IncrementBooleanTree(sbT).value;
      ApplyAndStepUnfold(ops, sbT, ebT, qbs, anc, tgt, next);
      ApplyAndStepLast(ops[1..], next, ebT, qbs, anc, tgt);
      assert ops[1..][Value(ebT) - Value(next)] == ops[Value(ebT) - Value(sbT)];
      var last := Generate(ops[Value(ebT) - Value(sbT)], anc[|anc| - 1], tgt);
      var first := Generate(ops[0], anc[|anc| - 1], tgt);
      var rest := ApplyAndStepGates(ops[1..], next, ebT, qbs, anc, tgt);
      SuffixOfAppend(first + StepRightGates(sbT, qbs, anc), rest, |last|);
    }
  }

  lemma {:induction false} PrefixOfAppend<T>(a: seq<T>, b: seq<T>, c: seq<T>)
    ensures |a| <= |a + b + c| && (a + b + c)[..|a|] == a
  {
    assert a + b + c == a + (b + c);
  }

  lemma {:induction false} SuffixOfAppend<T>(a: seq<T>, b: seq<T>, n: nat)
    requires n <= |b|
    ensures (a + b)[|a + b| - n..] == b[|b| - n..]
  {
    var s, t := (a + b)[|a + b| - n..], b[|b| - n..];
    assert forall i :: 0 <= i < n ==> s[i] == t[i];
  }
}