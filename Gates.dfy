/**
 The gate vocabulary of the Select-V circuit generator and the circuit it
 appends to. Gates are opaque constructors: their quantum meaning is not
 modelled, only which gate is placed on which qubits and in what order.
 */
module Gates {

  /** Qubits are identified by number. */
  type Qubit = nat

  datatype Gate =
    | X(q: Qubit)                          // cirq.X.on(q)
    | CX(c: Qubit, t: Qubit)               // cirq.CX.on(c, t)
    | CCX(c0: Qubit, c1: Qubit, t: Qubit)  // cirq.X(t).controlled_by(c0, c1)
    | Z(q: Qubit)                          // cirq.Z.on(q)
    | S(q: Qubit)                          // cirq.S.on(q)
    | Sdg(q: Qubit)                        // cirq.inverse(cirq.S.on(q))
    | CZ(c: Qubit, t: Qubit)               // cirq.CZ.on(c, t)

  /** `s[::-1]` */
  function Reverse<T>(s: seq<T>): (r: seq<T>)
    ensures |r| == |s|
    ensures forall i :: 0 <= i < |s| ==> r[i] == s[|s| - 1 - i]
  {
    seq(|s|, i requires 0 <= i < |s| => s[|s| - 1 - i])
  }

  lemma {:induction false} ReverseReverse<T>(s: seq<T>)
    ensures Reverse(Reverse(s)) == s
  {
    assert forall i :: 0 <= i < |s| ==> Reverse(Reverse(s))[i] == s[i];
  }

  lemma {:induction false} ReverseAppend<T>(a: seq<T>, b: seq<T>)
    ensures Reverse(a + b) == Reverse(b) + Reverse(a)
  {
    var l, r := Reverse(a + b), Reverse(b) + Reverse(a);
    assert |l| == |r|;
    forall i | 0 <= i < |l| ensures l[i] == r[i] {
      if i < |b| {
        assert l[i] == (a + b)[|a| + |b| - 1 - i] == b[|b| - 1 - i];
      } else {
        assert l[i] == (a + b)[|a| + |b| - 1 - i] == a[|a| - 1 - (i - |b|)];
      }
    }
  }

  /** Number of Toffoli (CCX) gates in a gate list. */
  function CountCCX(gs: seq<Gate>): nat
  {
    if gs == [] then 0 else (if gs[0].CCX? then 1 else 0) + CountCCX(gs[1..])
  }

  /** Number of CX gates in a gate list. */
  function CountCX(gs: seq<Gate>): nat
  {
    if gs == [] then 0 else (if gs[0].CX? then 1 else 0) + CountCX(gs[1..])
  }

  /** Number of CZ gates in a gate list. */
  function CountCZ(gs: seq<Gate>): nat
  {
    if gs == [] then 0 else (if gs[0].CZ? then 1 else 0) + CountCZ(gs[1..])
  }

  lemma {:induction false} CountSingleton(g: Gate)
    ensures CountCCX([g]) == (if g.CCX? then 1 else 0)
    ensures CountCX([g]) == (if g.CX? then 1 else 0)
    ensures CountCZ([g]) == (if g.CZ? then 1 else 0)
  {
    assert [g][1..] == [];
  }

  lemma {:induction false} CountCCXAppend(a: seq<Gate>, b: seq<Gate>)
    ensures CountCCX(a + b) == CountCCX(a) + CountCCX(b)
  {
    if a == [] {
      assert a + b == b;
    } else {
      assert (a + b)[1..] == a[1..] + b;
      CountCCXAppend(a[1..], b);
    }
  }

  lemma {:induction false} CountCXAppend(a: seq<Gate>, b: seq<Gate>)
    ensures CountCX(a + b) == CountCX(a) + CountCX(b)
  {
    if a == [] {
      assert a + b == b;
    } else {
      assert (a + b)[1..] == a[1..] + b;
      CountCXAppend(a[1..], b);
    }
  }

  lemma {:induction false} CountCZAppend(a: seq<Gate>, b: seq<Gate>)
    ensures CountCZ(a + b) == CountCZ(a) + CountCZ(b)
  {
    if a == [] {
      assert a + b == b;
    } else {
      assert (a + b)[1..] == a[1..] + b;
      CountCZAppend(a[1..], b);
    }
  }

  /**
   A cirq.Circuit seen as the list of operations appended to it, in order.
   The packing of operations into moments is not modelled.
   */
  class Circuit {
    var ops: seq<Gate>

    /** `cirq.Circuit()` */
    constructor ()
      ensures ops == []
    {
      ops := [];
    }

    /** `circuit.append(gates)` */
    method Append(gates: seq<Gate>)
      modifies this
      ensures ops == old(ops) + gates
    {
      ops := ops + gates;
    }
  }
}
