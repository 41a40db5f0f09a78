/**
 What the QROM walk does to basis states. With the ancillas starting at 0,
 ancilla i holds "select is on and address bits i, i+1, ... agree with the
 current key" whenever an operator is applied, so the operator for a key is
 controlled by a qubit that is on exactly when the address register holds
 that key; at the end every ancilla is back to 0 and the select and address
 qubits are untouched.
 */
module QromSemantics {
  import opened Gates
  import opened BooleanTree
  import opened SelVBase
  import opened SelectV
  import opened Qrom
  import opened BasisStates
  import opened Wrappers

  /** Select, address and ancilla qubits are pairwise distinct, and no operator target is one of them. */
  predicate Layout(qd: QubitDict, width: nat)
  {
    && Fits(qd, width)
    && (forall i, j :: 0 <= i < width && 0 <= j < width && i != j ==> Anc(qd)[i] != Anc(qd)[j])
    && (forall i, j :: 0 <= i < width && 0 <= j < width ==> Anc(qd)[i] != Addr(qd)[j])
    && (forall i :: 0 <= i < width ==> Anc(qd)[i] != qd.s && Addr(qd)[i] != qd.s)
    && (forall i :: 0 <= i < width ==> Anc(qd)[i] !in qd.t && Addr(qd)[i] !in qd.t)
    && qd.s !in qd.t
  }

  /** Select is on and address bits i .. width-1 agree with `key`. */
  predicate Matched(qd: QubitDict, width: nat, st: State, key: nat, i: nat)
    requires Fits(qd, width)
  {
    st(qd.s) && forall j :: i <= j < width ==> st(Addr(qd)[j]) == Bit(key, j)
  }

  /** `st2` holds the same select and address bits as `st1`. */
  predicate Keeps(qd: QubitDict, width: nat, st1: State, st2: State)
    requires Fits(qd, width)
  {
    st2(qd.s) == st1(qd.s) && forall j :: 0 <= j < width ==> st2(Addr(qd)[j]) == st1(Addr(qd)[j])
  }

  /** Only the ancillas 0 .. n-1 may differ between `st1` and `st2`. */
  ghost predicate OnlyAncillas(qd: QubitDict, n: nat, st1: State, st2: State)
    requires n <= |qd.b|
  {
    forall x :: x !in Anc(qd)[..n] ==> st2(x) == st1(x)
  }

  lemma {:induction false} OnlyAncillasKeeps(qd: QubitDict, width: nat, n: nat, st1: State, st2: State)
    requires Layout(qd, width) && n <= width && OnlyAncillas(qd, n, st1, st2)
    ensures Keeps(qd, width, st1, st2)
  {
    forall j | 0 <= j < width ensures st2(Addr(qd)[j]) == st1(Addr(qd)[j]) {
      assert Addr(qd)[j] !in Anc(qd)[..n];
    }
    assert qd.s !in Anc(qd)[..n];
  }

  lemma {:induction false} OnlyAncillasTrans(qd: QubitDict, m: nat, k: nat, n: nat, st1: State, st2: State, st3: State)
    requires m <= n && k <= n <= |qd.b|
    requires OnlyAncillas(qd, m, st1, st2) && OnlyAncillas(qd, k, st2, st3)
    ensures OnlyAncillas(qd, n, st1, st3)
  {
    forall x | x !in Anc(qd)[..n] ensures st3(x) == st1(x) {
      assert Anc(qd)[..m] == Anc(qd)[..n][..m];
      assert Anc(qd)[..k] == Anc(qd)[..n][..k];
    }
  }

  /** The control of level i: the ancilla above, or the select qubit at the top. */
  function LevelControl(qd: QubitDict, width: nat, i: nat): Qubit
    requires Fits(qd, width) && i < width
  {
    if i + 1 == width then qd.s else Anc(qd)[i + 1]
  }

  /** Level i flips ancilla i exactly when its control is on and address bit i agrees with `key`. */
  lemma {:induction false} LevelRun(qd: QubitDict, width: nat, key: nat, i: nat, st: State)
    requires Layout(qd, width) && i < width
    ensures forall x ::
      Run(Level(qd, width, key, i), st)(x) == (if x == Anc(qd)[i] && st(LevelControl(qd, width, i)) && st(Addr(qd)[i]) == Bit(key, i) then !st(x) else st(x))
  {
    ToffoliRun(Bit(key, i), LevelControl(qd, width, i), Addr(qd)[i], Anc(qd)[i], st);
  }

  /** Bits i and above: level i-1 matches exactly when level i matches and address bit i-1 agrees. */
  lemma {:induction false} MatchedStep(qd: QubitDict, width: nat, st: State, key: nat, i: nat)
    requires Fits(qd, width) && 0 < i <= width
    ensures Matched(qd, width, st, key, i - 1) ==
      (Matched(qd, width, st, key, i) && st(Addr(qd)[i - 1]) == Bit(key, i - 1))
  {
  }

  /** Ancillas lo .. width-1 hold their matches for `key`. */
  ghost predicate AncillasMatch(qd: QubitDict, width: nat, st0: State, key: nat, lo: nat, st: State)
    requires Fits(qd, width)
  {
    forall i :: lo <= i < width ==> st(Anc(qd)[i]) == Matched(qd, width, st0, key, i)
  }

  /** Ancillas 0 .. hi-1 are off. */
  ghost predicate AncillasOff(qd: QubitDict, hi: nat, st: State)
    requires hi <= |qd.b|
  {
    forall i :: 0 <= i < hi ==> !st(Anc(qd)[i])
  }

  /** Setting ancillas n-1, ..., 0 top down makes each hold its match for `key`. */
  lemma {:induction false} BuildRun(qd: QubitDict, width: nat, key: nat, n: nat, st0: State, st: State, fin: State)
    requires Layout(qd, width) && n <= width && Keeps(qd, width, st0, st)
    requires AncillasMatch(qd, width, st0, key, n, st) && AncillasOff(qd, n, st)
    requires fin == Run(LevelsDown(qd, width, key, n), st)
    ensures AncillasMatch(qd, width, st0, key, 0, fin)
    ensures OnlyAncillas(qd, n, st, fin)
  {
    LevelsFromDown(qd, width, key, n);
    BuildFrom(qd, width, key, n, 0, st0, st, fin);
  }

  /** After levels n-1 down to lo, ancillas lo and above hold their matches and those below are still off. */
  lemma {:induction false} BuildFrom(qd: QubitDict, width: nat, key: nat, n: nat, lo: nat, st0: State, st: State, fin: State)
    requires Layout(qd, width) && lo <= n <= width && Keeps(qd, width, st0, st)
    requires AncillasMatch(qd, width, st0, key, n, st) && AncillasOff(qd, n, st)
    requires fin == Run(LevelsFrom(qd, width, key, n, lo), st)
    ensures Keeps(qd, width, st0, fin)
    ensures AncillasMatch(qd, width, st0, key, lo, fin) && AncillasOff(qd, lo, fin)
    ensures OnlyAncillas(qd, n, st, fin)
    decreases n - lo
  {
    if lo < n {
      var mid := Run(LevelsFrom(qd, width, key, n, lo + 1), st);
      BuildFrom(qd, width, key, n, lo + 1, st0, st, mid);
      BuildStep(qd, width, key, n, lo, st0, st, mid, fin);
    }
  }

  /** Setting level lo once the levels above hold their matches and the ones below are off. */
  lemma {:induction false} BuildStep(qd: QubitDict, width: nat, key: nat, n: nat, lo: nat,
                                     st0: State, st: State, mid: State, fin: State)
    requires Layout(qd, width) && lo < n <= width
    requires mid == Run(LevelsFrom(qd, width, key, n, lo + 1), st) && fin == Run(LevelsFrom(qd, width, key, n, lo), st)
    requires Keeps(qd, width, st0, mid)
    requires AncillasMatch(qd, width, st0, key, lo + 1, mid) && AncillasOff(qd, lo + 1, mid)
    requires OnlyAncillas(qd, n, st, mid)
    ensures Keeps(qd, width, st0, fin)
    ensures AncillasMatch(qd, width, st0, key, lo, fin) && AncillasOff(qd, lo, fin)
    ensures OnlyAncillas(qd, n, st, fin)
  {
    var anc := Anc(qd);
    assert fin == Run(Level(qd, width, key, lo), mid) by {
      RunAppend(LevelsFrom(qd, width, key, n, lo + 1), Level(qd, width, key, lo), st);
    }
    LevelRun(qd, width, key, lo, mid);
    MatchedStep(qd, width, st0, key, lo + 1);
    assert fin(anc[lo]) == Matched(qd, width, st0, key, lo);
    assert OnlyAncillas(qd, lo + 1, mid, fin) by {
      forall x | x !in anc[..lo + 1] ensures fin(x) == mid(x) {
        assert anc[lo] in anc[..lo + 1];
      }
    }
    OnlyAncillasKeeps(qd, width, lo + 1, mid, fin);
    KeepsTrans(qd, width, st0, mid, fin);
    OnlyAncillasTrans(qd, n, lo + 1, n, st, mid, fin);
    forall i | 0 <= i < width && i != lo ensures fin(anc[i]) == mid(anc[i]) {
      assert anc[i] != anc[lo];
    }
  }

  /** Clearing level n-1 once the levels below are clear. */
  lemma {:induction false} ClearStep(qd: QubitDict, width: nat, key: nat, n: nat, st0: State, st1: State)
    requires Layout(qd, width) && 0 < n <= width && Keeps(qd, width, st0, st1)
    requires forall i :: 0 <= i < width ==> st1(Anc(qd)[i]) == (n - 1 <= i && Matched(qd, width, st0, key, i))
    ensures forall i :: 0 <= i < width ==>
      Run(Level(qd, width, key, n - 1), st1)(Anc(qd)[i]) == (n <= i && Matched(qd, width, st0, key, i))
    ensures OnlyAncillas(qd, n, st1, Run(Level(qd, width, key, n - 1), st1))
  {
    var anc := Anc(qd);
    LevelRun(qd, width, key, n - 1, st1);
    MatchedStep(qd, width, st0, key, n);
    var st2 := Run(Level(qd, width, key, n - 1), st1);
    assert st1(LevelControl(qd, width, n - 1)) == Matched(qd, width, st0, key, n);
    forall i | 0 <= i < width ensures st2(anc[i]) == (n <= i && Matched(qd, width, st0, key, i)) {
      if i != n - 1 {
        assert anc[i] != anc[n - 1];
      }
    }
    assert anc[n - 1] in anc[..n];
  }

  /** Clearing ancillas 0, ..., n-1 bottom up turns them off and leaves the ancillas above matched. */
  lemma {:induction false} ClearRun(qd: QubitDict, width: nat, key: nat, n: nat, st0: State, st: State, fin: State)
    requires Layout(qd, width) && n <= width && Keeps(qd, width, st0, st)
    requires forall i :: 0 <= i < width ==> st(Anc(qd)[i]) == Matched(qd, width, st0, key, i)
    requires fin == Run(LevelsUp(qd, width, key, n), st)
    ensures forall i :: 0 <= i < width ==> fin(Anc(qd)[i]) == (n <= i && Matched(qd, width, st0, key, i))
    ensures OnlyAncillas(qd, n, st, fin)
    decreases n
  {
    if n > 0 {
      var mid := Run(LevelsUp(qd, width, key, n - 1), st);
      ClearRun(qd, width, key, n - 1, st0, st, mid);
      ClearRunStep(qd, width, key, n, st0, st, mid, fin);
    }
  }

  /** The inductive step of `ClearRun`: from levels below n - 1 cleared to levels below n cleared. */
  lemma {:induction false} ClearRunStep(qd: QubitDict, width: nat, key: nat, n: nat, st0: State, st: State, mid: State, fin: State)
    requires Layout(qd, width) && 0 < n <= width && Keeps(qd, width, st0, st)
    requires mid == Run(LevelsUp(qd, width, key, n - 1), st) && fin == Run(LevelsUp(qd, width, key, n), st)
    requires forall i :: 0 <= i < width ==> mid(Anc(qd)[i]) == (n - 1 <= i && Matched(qd, width, st0, key, i))
    requires OnlyAncillas(qd, n - 1, st, mid)
    ensures forall i :: 0 <= i < width ==> fin(Anc(qd)[i]) == (n <= i && Matched(qd, width, st0, key, i))
    ensures OnlyAncillas(qd, n, st, fin)
  {
    var below := LevelsUp(qd, width, key, n - 1);
    var lvl := Level(qd, width, key, n - 1);
    assert fin == Run(lvl, mid) by {
      assert LevelsUp(qd, width, key, n) == below + lvl;
      RunAppend(below, lvl, st);
    }
    OnlyAncillasKeeps(qd, width, n - 1, st, mid);
    KeepsTrans(qd, width, st0, st, mid);
    ClearStep(qd, width, key, n, st0, mid);
    OnlyAncillasTrans(qd, n - 1, n, n, st, mid, fin);
  }

  lemma {:induction false} ShrAdd(x: nat, a: nat, b: nat)
    ensures Shr(x, a + b) == Shr(Shr(x, a), b)
  {
    if b > 0 {
      ShrAdd(x, a, b - 1);
    }
  }

  /** Keys that agree above bit s match the same address bits from s + 1 up. */
  lemma {:induction false} MatchedAbove(qd: QubitDict, width: nat, st: State, prev: nat, key: nat, s: nat)
    requires Fits(qd, width) && Shr(prev, s + 1) == Shr(key, s + 1)
    ensures forall i :: s + 1 <= i <= width ==> Matched(qd, width, st, prev, i) == Matched(qd, width, st, key, i)
  {
    forall j | s + 1 <= j ensures Bit(prev, j) == Bit(key, j) {
      ShrAdd(prev, s + 1, j - (s + 1));
      ShrAdd(key, s + 1, j - (s + 1));
    }
  }

  /** The flip turns ancilla s from its match for `prev` into its match for `key`. */
  lemma {:induction false} FlipRun(qd: QubitDict, width: nat, prev: nat, key: nat, st0: State, st: State)
    requires Layout(qd, width) && prev != key && prev < Pow2(width) && key < Pow2(width)
    requires Keeps(qd, width, st0, st)
    requires Split(prev, key) < width
    requires forall i :: 0 <= i < width ==>
      st(Anc(qd)[i]) == (Split(prev, key) <= i && Matched(qd, width, st0, prev, i))
    ensures forall i :: 0 <= i < width ==>
      Step(FlipGate(qd, width, Split(prev, key)), st)(Anc(qd)[i]) == (Split(prev, key) <= i && Matched(qd, width, st0, key, i))
    ensures OnlyAncillas(qd, width, st, Step(FlipGate(qd, width, Split(prev, key)), st))
  {
    var s := Split(prev, key);
    var anc := Anc(qd);
    SplitMeaning(prev, key);
    MatchedAbove(qd, width, st0, prev, key, s);
    MatchedStep(qd, width, st0, prev, s + 1);
    MatchedStep(qd, width, st0, key, s + 1);
    var st1 := Step(FlipGate(qd, width, s), st);
    assert st(LevelControl(qd, width, s)) == Matched(qd, width, st0, prev, s + 1);
    assert st1(anc[s]) == Matched(qd, width, st0, key, s);
    forall i | 0 <= i < width && i != s ensures st1(anc[i]) == st(anc[i]) {
      assert anc[i] != anc[s];
    }
    assert anc[s] in anc[..width];
  }

  lemma {:induction false} KeepsTrans(qd: QubitDict, width: nat, st1: State, st2: State, st3: State)
    requires Fits(qd, width) && Keeps(qd, width, st1, st2) && Keeps(qd, width, st2, st3)
    ensures Keeps(qd, width, st1, st3)
  {
  }

  /** Moving from `prev` to a different `key` turns every ancilla's match for `prev` into its match for `key`. */
  lemma {:induction false} TransitionRun(qd: QubitDict, width: nat, prev: nat, key: nat, st0: State, st: State)
    requires Layout(qd, width) && prev != key && prev < Pow2(width) && key < Pow2(width)
    requires Keeps(qd, width, st0, st)
    requires forall i :: 0 <= i < width ==> st(Anc(qd)[i]) == Matched(qd, width, st0, prev, i)
    ensures Split(prev, key) < width
    ensures forall i :: 0 <= i < width ==>
      Run(Transition(qd, width, prev, key), st)(Anc(qd)[i]) == Matched(qd, width, st0, key, i)
    ensures OnlyAncillas(qd, width, st, Run(Transition(qd, width, prev, key), st))
  {
    SplitBound(prev, key, width);
    var s := Split(prev, key);
    var up, flip, down := LevelsUp(qd, width, prev, s), [FlipGate(qd, width, s)], LevelsDown(qd, width, key, s);
    var st1 := Run(up, st);
    ClearRun(qd, width, prev, s, st0, st, st1);
    OnlyAncillasKeeps(qd, width, s, st, st1);
    KeepsTrans(qd, width, st0, st, st1);
    FlipRun(qd, width, prev, key, st0, st1);
    RunSingle(FlipGate(qd, width, s), st1);
    var st2 := Run(flip, st1);
    OnlyAncillasKeeps(qd, width, width, st1, st2);
    KeepsTrans(qd, width, st0, st1, st2);
    var st3 := Run(down, st2);
    BuildRun(qd, width, key, s, st0, st2, st3);
    RunAppend(up, flip, st);
    RunAppend(up + flip, down, st);
    assert Run(Transition(qd, width, prev, key), st) == st3;
    OnlyAncillasTrans(qd, s, width, width, st, st1, st2);
    OnlyAncillasTrans(qd, width, s, width, st, st2, st3);
  }

  /**
   The ancilla register after handling `prev` (-1: none yet): select and
   address bits as in `st0`, and every ancilla holding its match for `prev`,
   i.e. all off before the first key.
   */
  predicate Holds(qd: QubitDict, width: nat, st0: State, st: State, prev: int)
    requires Fits(qd, width)
  {
    && Keeps(qd, width, st0, st)
    && forall i :: 0 <= i < width ==> st(Anc(qd)[i]) == (prev >= 0 && Matched(qd, width, st0, prev, i))
  }

  /** No key is visited twice in a row (and the first differs from `prev`). */
  predicate AdjacentDistinct(prev: int, keys: seq<nat>)
  {
    && (prev >= 0 && keys != [] ==> prev != keys[0])
    && forall i :: 0 <= i < |keys| - 1 ==> keys[i] != keys[i + 1]
  }

  /** After the move to `key` the ancillas hold their matches for `key`. */
  lemma {:induction false} MoveRun(qd: QubitDict, width: nat, prev: int, key: nat, st0: State, st: State)
    requires Layout(qd, width) && -1 <= prev < Pow2(width) && key < Pow2(width) && prev != key
    requires prev >= 0 ==> width >= 1
    requires Holds(qd, width, st0, st, prev)
    ensures Holds(qd, width, st0, Run(Move(qd, width, prev, key), st), key)
    ensures OnlyAncillas(qd, width, st, Run(Move(qd, width, prev, key), st))
  {
    var st1 := Run(Move(qd, width, prev, key), st);
    if prev == -1 {
      BuildRun(qd, width, key, width, st0, st, st1);
    } else {
      TransitionRun(qd, width, prev, key, st0, st);
    }
    OnlyAncillasKeeps(qd, width, width, st, st1);
    KeepsTrans(qd, width, st0, st, st1);
  }

  /** An operator leaves the select, address and ancilla qubits as they are. */
  lemma {:induction false} GenerateHolds(qd: QubitDict, width: nat, g: OpGen, st0: State, st: State, key: int)
    requires Layout(qd, width) && |qd.b| >= 1 && Holds(qd, width, st0, st, key)
    ensures Holds(qd, width, st0, Run(Generate(g, Anc(qd)[0], qd.t), st), key)
    ensures forall x :: x !in qd.t ==> Run(Generate(g, Anc(qd)[0], qd.t), st)(x) == st(x)
  {
    GenerateRun(g, Anc(qd)[0], qd.t, st);
  }

  /** The gates `qrom` emits before applying the operator of `keys[k]`. */
  function WalkBefore(qd: QubitDict, width: nat, ops: seq<OpGen>, prev: int, keys: seq<nat>, k: nat): seq<Gate>
    requires KeysFit(qd, width, ops, prev, keys) && k < |keys|
    decreases k
  {
    var key := keys[0];
    var move := Move(qd, width, prev, key);
    if k == 0 then move
    else move + Generate(ops[key], Anc(qd)[0], qd.t) + WalkBefore(qd, width, ops, key, keys[1..], k - 1)
  }

  /**
   The walk splits at every key: the gates before it, the operator of the
   key controlled on ancilla 0, and the walk on from that key.
   */
  lemma {:induction false} WalkBeforeSplits(qd: QubitDict, width: nat, ops: seq<OpGen>, prev: int, keys: seq<nat>, k: nat)
    requires KeysFit(qd, width, ops, prev, keys) && k < |keys|
    ensures KeysFit(qd, width, ops, keys[k], keys[k + 1..])
    ensures Walk(qd, width, ops, prev, keys) ==
      WalkBefore(qd, width, ops, prev, keys, k) + Generate(ops[keys[k]], Anc(qd)[0], qd.t)
        + Walk(qd, width, ops, keys[k], keys[k + 1..])
    decreases k, 1
  {
    if k == 0 {
      WalkBeforeSplitsFirst(qd, width, ops, prev, keys, k);
    } else {
      WalkBeforeSplitsStep(qd, width, ops, prev, keys, k);
    }
  }

  /** The base case of `WalkBeforeSplits`: the walk splits at its first key. */
  lemma {:induction false} WalkBeforeSplitsFirst(qd: QubitDict, width: nat, ops: seq<OpGen>, prev: int, keys: seq<nat>, k: nat)
    requires KeysFit(qd, width, ops, prev, keys) && k == 0 < |keys|
    ensures KeysFit(qd, width, ops, keys[k], keys[k + 1..])
    ensures Walk(qd, width, ops, prev, keys) ==
      WalkBefore(qd, width, ops, prev, keys, k) + Generate(ops[keys[k]], Anc(qd)[0], qd.t)
        + Walk(qd, width, ops, keys[k], keys[k + 1..])
  {
    WalkCons(qd, width, ops, prev, keys);
    WalkBeforeZero(qd, width, ops, prev, keys);
  }

  /** Before the first key there is only the move to it. */
  lemma {:induction false} WalkBeforeZero(qd: QubitDict, width: nat, ops: seq<OpGen>, prev: int, keys: seq<nat>)
    requires KeysFit(qd, width, ops, prev, keys) && keys != []
    ensures WalkBefore(qd, width, ops, prev, keys, 0) == Move(qd, width, prev, keys[0])
  {
  }

  /** The inductive step of `WalkBeforeSplits`: a split of the walk from the first key is one of the whole walk. */
  lemma {:induction false} WalkBeforeSplitsStep(qd: QubitDict, width: nat, ops: seq<OpGen>, prev: int, keys: seq<nat>, k: nat)
    requires KeysFit(qd, width, ops, prev, keys) && 0 < k < |keys|
    ensures KeysFit(qd, width, ops, keys[k], keys[k + 1..])
    ensures Walk(qd, width, ops, prev, keys) ==
      WalkBefore(qd, width, ops, prev, keys, k) + Generate(ops[keys[k]], Anc(qd)[0], qd.t)
        + Walk(qd, width, ops, keys[k], keys[k + 1..])
    decreases k, 0
  {
    var key, tail := keys[0], keys[1..];
    WalkCons(qd, width, ops, prev, keys);
    WalkBeforeCons(qd, width, ops, prev, keys, k);
    WalkBeforeSplits(qd, width, ops, key, tail, k - 1);
    WalkTailAt(keys, k);
    var head, before := Move(qd, width, prev, key) + Generate(ops[key], Anc(qd)[0], qd.t), WalkBefore(qd, width, ops, key, tail, k - 1);
    var op := Generate(ops[keys[k]], Anc(qd)[0], qd.t);
    Assoc(head, before + op, Walk(qd, width, ops, keys[k], keys[k + 1..]));
    Assoc(head, before, op);
  }

  /** The walk over keys starts with the move to the first key and its operator. */
  lemma {:induction false} WalkCons(qd: QubitDict, width: nat, ops: seq<OpGen>, prev: int, keys: seq<nat>)
    requires KeysFit(qd, width, ops, prev, keys) && keys != []
    ensures KeysFit(qd, width, ops, keys[0], keys[1..])
    ensures Walk(qd, width, ops, prev, keys) ==
      Move(qd, width, prev, keys[0]) + Generate(ops[keys[0]], Anc(qd)[0], qd.t) + Walk(qd, width, ops, keys[0], keys[1..])
  {
    KeysFitTail(qd, width, ops, prev, keys);
  }

  /** The gates before a later key start with the move to the first key and its operator. */
  lemma {:induction false} WalkBeforeCons(qd: QubitDict, width: nat, ops: seq<OpGen>, prev: int, keys: seq<nat>, k: nat)
    requires KeysFit(qd, width, ops, prev, keys) && 0 < k < |keys|
    ensures KeysFit(qd, width, ops, keys[0], keys[1..])
    ensures WalkBefore(qd, width, ops, prev, keys, k) ==
      Move(qd, width, prev, keys[0]) + Generate(ops[keys[0]], Anc(qd)[0], qd.t) + WalkBefore(qd, width, ops, keys[0], keys[1..], k - 1)
  {
    KeysFitTail(qd, width, ops, prev, keys);
  }

  /** Past the first key, position k - 1 of the tail is position k of the keys. */
  lemma {:induction false} WalkTailAt(keys: seq<nat>, k: nat)
    requires 0 < k < |keys|
    ensures keys[1..][k - 1] == keys[k] && keys[1..][k - 1 + 1..] == keys[k + 1..]
  {
  }

  /**
   On basis states the walk from `prev` over `keys` ends with every ancilla
   off, and only ancillas and targets change.
   */
  lemma {:induction false} WalkRun(qd: QubitDict, width: nat, ops: seq<OpGen>, prev: int, keys: seq<nat>,
                                   st0: State, st: State, fin: State)
    requires Layout(qd, width) && width >= 1 && KeysFit(qd, width, ops, prev, keys)
    requires AdjacentDistinct(prev, keys) && Holds(qd, width, st0, st, prev)
    requires fin == Run(Walk(qd, width, ops, prev, keys), st)
    ensures Holds(qd, width, st0, fin, -1)
    ensures forall x :: x !in Anc(qd)[..width] && x !in qd.t ==> fin(x) == st(x)
    decreases |keys|
  {
    if keys == [] {
      if prev >= 0 {
        ClearRun(qd, width, prev, width, st0, st, fin);
        OnlyAncillasKeeps(qd, width, width, st, fin);
      }
    } else {
      var key := keys[0];
      var move, gen := Move(qd, width, prev, key), Generate(ops[key], Anc(qd)[0], qd.t);
      var rest := Walk(qd, width, ops, key, keys[1..]);
      WalkRunHead(qd, width, ops, prev, keys, st0, st);
      var st2 := Run(move + gen, st);
      assert fin == Run(rest, st2) by {
        RunAppend(move + gen, rest, st);
      }
      WalkRun(qd, width, ops, key, keys[1..], st0, st2, fin);
    }
  }

  /** Before the operator of each key of the walk, every ancilla holds its match for that key. */
  lemma {:induction false} WalkRunBefore(qd: QubitDict, width: nat, ops: seq<OpGen>, prev: int, keys: seq<nat>,
                                         st0: State, st: State)
    requires Layout(qd, width) && width >= 1 && KeysFit(qd, width, ops, prev, keys)
    requires AdjacentDistinct(prev, keys) && Holds(qd, width, st0, st, prev)
    ensures forall k :: 0 <= k < |keys| ==>
      Holds(qd, width, st0, Run(WalkBefore(qd, width, ops, prev, keys, k), st), keys[k])
    decreases |keys|
  {
    if keys != [] {
      var key := keys[0];
      var move, gen := Move(qd, width, prev, key), Generate(ops[key], Anc(qd)[0], qd.t);
      WalkRunHead(qd, width, ops, prev, keys, st0, st);
      var st2 := Run(move + gen, st);
      WalkRunBefore(qd, width, ops, key, keys[1..], st0, st2);
      forall k | 0 < k < |keys|
        ensures Holds(qd, width, st0, Run(WalkBefore(qd, width, ops, prev, keys, k), st), keys[k])
      {
        var before := WalkBefore(qd, width, ops, key, keys[1..], k - 1);
        assert keys[1..][k - 1] == keys[k];
        assert WalkBefore(qd, width, ops, prev, keys, k) == move + gen + before;
        RunAppend(move + gen, before, st);
      }
    }
  }

  /** The first key of a walk: its move makes the ancillas hold its matches, and its operator keeps them. */
  lemma {:induction false} WalkRunHead(qd: QubitDict, width: nat, ops: seq<OpGen>, prev: int, keys: seq<nat>,
                                       st0: State, st: State)
    requires Layout(qd, width) && width >= 1 && KeysFit(qd, width, ops, prev, keys) && keys != []
    requires AdjacentDistinct(prev, keys) && Holds(qd, width, st0, st, prev)
    ensures KeysFit(qd, width, ops, keys[0], keys[1..]) && AdjacentDistinct(keys[0], keys[1..])
    ensures Holds(qd, width, st0, Run(Move(qd, width, prev, keys[0]), st), keys[0])
    ensures var mid := Run(Move(qd, width, prev, keys[0]) + Generate(ops[keys[0]], Anc(qd)[0], qd.t), st);
      && Holds(qd, width, st0, mid, keys[0])
      && forall x :: x !in Anc(qd)[..width] && x !in qd.t ==> mid(x) == st(x)
  {
    var key := keys[0];
    var move, gen := Move(qd, width, prev, key), Generate(ops[key], Anc(qd)[0], qd.t);
    MoveRun(qd, width, prev, key, st0, st);
    var st1 := Run(move, st);
    GenerateHolds(qd, width, ops[key], st0, st1, key);
    RunAppend(move, gen, st);
    var tail := keys[1..];
    assert forall i :: 0 <= i < |tail| ==> tail[i] == keys[i + 1];
  }

  /** The number the address register holds, bit i on address qubit i. */
  function RegisterValue(qd: QubitDict, width: nat, st: State): nat
    requires Fits(qd, width)
  {
    LittleValue(seq(width, j requires 0 <= j < width => st(Addr(qd)[j])))
  }

  /** A number below 2^|m| has the bits `m` exactly when `m` denotes it. */
  lemma {:induction false} LittleBits(m: seq<bool>, v: nat)
    requires v < Pow2(|m|)
    ensures (forall j :: 0 <= j < |m| ==> m[j] == Bit(v, j)) <==> LittleValue(m) == v
  {
    if m != [] {
      LittleBits(m[1..], v / 2);
      forall j | 0 <= j < |m| - 1 ensures Bit(v, j + 1) == Bit(v / 2, j) {
        ShrHalf(v, j);
      }
      if forall j :: 0 <= j < |m| ==> m[j] == Bit(v, j) {
        assert forall j :: 0 <= j < |m| - 1 ==> m[1..][j] == m[j + 1];
      }
      if LittleValue(m) == v {
        forall j | 0 <= j < |m| ensures m[j] == Bit(v, j) {
          if j > 0 {
            assert m[j] == m[1..][j - 1];
          }
        }
      }
    }
  }

  /** Ancilla 0 holds "select on and the register holds `key`" once it holds its match for `key`. */
  lemma {:induction false} HoldsSelects(qd: QubitDict, width: nat, st0: State, st: State, key: nat)
    requires Layout(qd, width) && width >= 1 && key < Pow2(width) && Holds(qd, width, st0, st, key)
    ensures st(Anc(qd)[0]) == (st0(qd.s) && RegisterValue(qd, width, st0) == key)
  {
    var m := seq(width, j requires 0 <= j < width => st0(Addr(qd)[j]));
    LittleBits(m, key);
  }

  /**
   `qrom` on a basis state with its ancillas off: the operator of the k-th
   key is controlled by ancilla 0, which is on exactly when select is on and
   the address register holds that key; afterwards every ancilla is off
   again and nothing but the ancillas and the operator targets has changed.
   */
  lemma {:induction false} QromSelects(qd: QubitDict, width: nat, ops: seq<OpGen>, keys: seq<nat>, st: State)
    requires Layout(qd, width) && width >= 1 && KeysFit(qd, width, ops, -1, keys) && AdjacentDistinct(-1, keys)
    requires forall i :: 0 <= i < width ==> !st(Anc(qd)[i])
    ensures forall k :: 0 <= k < |keys| ==>
      Run(WalkBefore(qd, width, ops, -1, keys, k), st)(Anc(qd)[0]) == (st(qd.s) && RegisterValue(qd, width, st) == keys[k])
    ensures forall i :: 0 <= i < width ==> !Run(Walk(qd, width, ops, -1, keys), st)(Anc(qd)[i])
    ensures forall x :: x !in Anc(qd)[..width] && x !in qd.t ==> Run(Walk(qd, width, ops, -1, keys), st)(x) == st(x)
  {
    WalkRun(qd, width, ops, -1, keys, st, st, Run(Walk(qd, width, ops, -1, keys), st));
    WalkRunBefore(qd, width, ops, -1, keys, st, st);
    forall k | 0 <= k < |keys|
      ensures Run(WalkBefore(qd, width, ops, -1, keys, k), st)(Anc(qd)[0]) == (st(qd.s) && RegisterValue(qd, width, st) == keys[k])
    {
      HoldsSelects(qd, width, st, Run(WalkBefore(qd, width, ops, -1, keys, k), st), keys[k]);
    }
  }

  /**
   `applyAndWalk` on a basis state with its ancillas off: the operator of
   term pos1 + k is controlled by the last ancilla, which is on exactly when
   the select qubit is on and the control register, most significant qubit
   first, holds pos1 + k; afterwards the ancillas are off again and only
   ancillas and targets have changed.
   */
  lemma {:induction false} ApplyAndWalkSelects(operators: seq<OpGen>, pos1: nat, pos2: nat,
                            ctlQ: seq<Qubit>, selQ: Qubit, ancQ: seq<Qubit>, tgtQ: seq<Qubit>, st: State)
    requires WalkFits(operators, pos1, pos2, ctlQ, ancQ) && |ctlQ| >= 1
    requires Layout(Wiring(ctlQ, selQ, ancQ, tgtQ), |ctlQ|)
    requires forall i :: |ancQ| - |ctlQ| <= i < |ancQ| ==> !st(ancQ[i])
    ensures KeysFit(Wiring(ctlQ, selQ, ancQ, tgtQ), |ctlQ|, operators, -1, KeyValues(pos1, pos2))
    ensures forall k :: 0 <= k < pos2 - pos1 ==>
      Run(WalkBefore(Wiring(ctlQ, selQ, ancQ, tgtQ), |ctlQ|, operators, -1, KeyValues(pos1, pos2), k), st)(ancQ[|ancQ| - 1])
        == (st(selQ) && Value(seq(|ctlQ|, j requires 0 <= j < |ctlQ| => st(ctlQ[j]))) == pos1 + k)
    ensures forall i :: |ancQ| - |ctlQ| <= i < |ancQ| ==>
      !Run(Walk(Wiring(ctlQ, selQ, ancQ, tgtQ), |ctlQ|, operators, -1, KeyValues(pos1, pos2)), st)(ancQ[i])
  {
    WalkFitsKeys(operators, pos1, pos2, ctlQ, selQ, ancQ, tgtQ);
    ApplyAndWalkControls(operators, pos1, pos2, ctlQ, selQ, ancQ, tgtQ, st);
    ApplyAndWalkClears(operators, pos1, pos2, ctlQ, selQ, ancQ, tgtQ, st);
  }

  /** The ancillas `applyAndWalk` uses, in the order `qrom` numbers them, start off. */
  lemma {:induction false} WiringStartsOff(ctlQ: seq<Qubit>, selQ: Qubit, ancQ: seq<Qubit>, tgtQ: seq<Qubit>, st: State)
    requires |ancQ| >= |ctlQ|
    requires forall i :: |ancQ| - |ctlQ| <= i < |ancQ| ==> !st(ancQ[i])
    ensures forall i :: 0 <= i < |ctlQ| ==> !st(Anc(Wiring(ctlQ, selQ, ancQ, tgtQ))[i])
  {
    var qd := Wiring(ctlQ, selQ, ancQ, tgtQ);
    forall i | 0 <= i < |ctlQ| ensures !st(Anc(qd)[i]) {
      assert Anc(qd)[i] == ancQ[|ancQ| - 1 - i];
    }
  }

  lemma {:induction false} ApplyAndWalkControls(operators: seq<OpGen>, pos1: nat, pos2: nat,
                            ctlQ: seq<Qubit>, selQ: Qubit, ancQ: seq<Qubit>, tgtQ: seq<Qubit>, st: State)
    requires WalkFits(operators, pos1, pos2, ctlQ, ancQ) && |ctlQ| >= 1
    requires Layout(Wiring(ctlQ, selQ, ancQ, tgtQ), |ctlQ|)
    requires forall i :: |ancQ| - |ctlQ| <= i < |ancQ| ==> !st(ancQ[i])
    requires KeysFit(Wiring(ctlQ, selQ, ancQ, tgtQ), |ctlQ|, operators, -1, KeyValues(pos1, pos2))
    ensures forall k :: 0 <= k < pos2 - pos1 ==>
      Run(WalkBefore(Wiring(ctlQ, selQ, ancQ, tgtQ), |ctlQ|, operators, -1, KeyValues(pos1, pos2), k), st)(ancQ[|ancQ| - 1])
        == (st(selQ) && Value(seq(|ctlQ|, j requires 0 <= j < |ctlQ| => st(ctlQ[j]))) == pos1 + k)
  {
    var qd, width, keys := Wiring(ctlQ, selQ, ancQ, tgtQ), |ctlQ|, KeyValues(pos1, pos2);
    WiringStartsOff(ctlQ, selQ, ancQ, tgtQ, st);
    QromSelects(qd, width, operators, keys, st);
    var b := seq(width, j requires 0 <= j < width => st(ctlQ[j]));
    WiringRegister(ctlQ, selQ, ancQ, tgtQ, st);
    assert Anc(qd)[0] == ancQ[|ancQ| - 1];
    forall k | 0 <= k < pos2 - pos1
      ensures Run(WalkBefore(qd, width, operators, -1, keys, k), st)(ancQ[|ancQ| - 1])
        == (st(selQ) && Value(b) == pos1 + k)
    {
      assert keys[k] == pos1 + k;
    }
  }

  lemma {:induction false} ApplyAndWalkClears(operators: seq<OpGen>, pos1: nat, pos2: nat,
                            ctlQ: seq<Qubit>, selQ: Qubit, ancQ: seq<Qubit>, tgtQ: seq<Qubit>, st: State)
    requires WalkFits(operators, pos1, pos2, ctlQ, ancQ) && |ctlQ| >= 1
    requires Layout(Wiring(ctlQ, selQ, ancQ, tgtQ), |ctlQ|)
    requires forall i :: |ancQ| - |ctlQ| <= i < |ancQ| ==> !st(ancQ[i])
    requires KeysFit(Wiring(ctlQ, selQ, ancQ, tgtQ), |ctlQ|, operators, -1, KeyValues(pos1, pos2))
    ensures forall i :: |ancQ| - |ctlQ| <= i < |ancQ| ==>
      !Run(Walk(Wiring(ctlQ, selQ, ancQ, tgtQ), |ctlQ|, operators, -1, KeyValues(pos1, pos2)), st)(ancQ[i])
  {
    var qd, width, keys := Wiring(ctlQ, selQ, ancQ, tgtQ), |ctlQ|, KeyValues(pos1, pos2);
    WiringStartsOff(ctlQ, selQ, ancQ, tgtQ, st);
    QromSelects(qd, width, operators, keys, st);
    forall i | |ancQ| - width <= i < |ancQ|
      ensures !Run(Walk(qd, width, operators, -1, keys), st)(ancQ[i])
    {
      assert ancQ[i] == Anc(qd)[|ancQ| - 1 - i];
    }
  }

  /** The register `qrom` reads little-endian off the reversed `ctl_q` is `ctl_q` read most significant qubit first. */
  lemma {:induction false} WiringRegister(ctlQ: seq<Qubit>, selQ: Qubit, ancQ: seq<Qubit>, tgtQ: seq<Qubit>, st: State)
    requires |ancQ| >= |ctlQ|
    ensures RegisterValue(Wiring(ctlQ, selQ, ancQ, tgtQ), |ctlQ|, st)
      == Value(seq(|ctlQ|, j requires 0 <= j < |ctlQ| => st(ctlQ[j])))
  {
    var qd, width := Wiring(ctlQ, selQ, ancQ, tgtQ), |ctlQ|;
    var b := seq(width, j requires 0 <= j < width => st(ctlQ[j]));
    var m := seq(width, j requires 0 <= j < width => st(Addr(qd)[j]));
    forall j | 0 <= j < width ensures m[j] == Reverse(b)[j] {
      assert Addr(qd)[j] == ctlQ[width - 1 - j];
    }
    assert m == Reverse(b);
    LittleValueReverse(b);
  }
}
