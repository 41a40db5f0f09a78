/**
 The QROM address walk of `applyAndWalk` (unary iteration, Fig. 2 of
 arXiv:1905.07682). Ancilla qubit i holds "select is on and the address
 agrees with the current key at every bit from i up"; moving from one key
 to the next clears the ancillas below the highest differing bit, flips
 that bit, and sets the lower ancillas for the new key.
 */
module Qrom {
  import opened Gates
  import opened BooleanTree
  import opened SelVBase
  import opened SelectV
  import opened Wrappers

  /** The `qubit_dict` of `qrom`: address qubits, ancillas, select qubit, targets. */
  datatype QubitDict = QubitDict(a: seq<Qubit>, b: seq<Qubit>, s: Qubit, t: seq<Qubit>)

  /** `qubit_dict['a'][::-1]`: address qubit i carries bit i of the key. */
  function Addr(qd: QubitDict): seq<Qubit>
  {
    Reverse(qd.a)
  }

  /** `qubit_dict['b'][::-1]`: ancilla i holds the match from bit i up. */
  function Anc(qd: QubitDict): seq<Qubit>
  {
    Reverse(qd.b)
  }

  /** `x >> n` on a non-negative integer. */
  function Shr(x: nat, n: nat): nat
  {
    if n == 0 then x else Shr(x, n - 1) / 2
  }

  /** `(x >> i) % 2 == 1` */
  function Bit(x: nat, i: nat): bool
  {
    Shr(x, i) % 2 == 1
  }

  predicate Fits(qd: QubitDict, width: nat)
  {
    width <= |qd.a| && width <= |qd.b|
  }

  /**
   The Toffoli that sets or clears ancilla i for `key`: controlled on the
   ancilla above (the select qubit at the top level) and on address bit i
   with sense bit i of `key`.
   */
  function Level(qd: QubitDict, width: nat, key: nat, i: nat): seq<Gate>
    requires Fits(qd, width) && i < width
  {
    var ctl := if i + 1 == width then qd.s else Anc(qd)[i + 1];
    Toffoli(true, Bit(key, i), ctl, Addr(qd)[i], Anc(qd)[i])
  }

  /** Levels n-1, n-2, ..., 0, top down: how ancillas are set. */
  function LevelsDown(qd: QubitDict, width: nat, key: nat, n: nat): seq<Gate>
    requires Fits(qd, width) && n <= width
  {
    if n == 0 then [] else Level(qd, width, key, n - 1) + LevelsDown(qd, width, key, n - 1)
  }

  /** Levels 0, 1, ..., n-1, bottom up: how ancillas are cleared. */
  function LevelsUp(qd: QubitDict, width: nat, key: nat, n: nat): seq<Gate>
    requires Fits(qd, width) && n <= width
  {
    if n == 0 then [] else LevelsUp(qd, width, key, n - 1) + Level(qd, width, key, n - 1)
  }

  /**
   How many times the clearing loop runs between `p` and `k`: the number of
   low bits to drop before the two agree, i.e. the highest bit where they differ.
   */
  function Split(p: nat, k: nat): nat
    decreases p + k
  {
    if p / 2 == k / 2 then 0 else 1 + Split(p / 2, k / 2)
  }

  /** The CX that flips ancilla ci, controlled on the ancilla above or the select qubit. */
  function FlipGate(qd: QubitDict, width: nat, ci: nat): Gate
    requires Fits(qd, width) && ci < width
  {
    CX(if ci + 1 == width then qd.s else Anc(qd)[ci + 1], Anc(qd)[ci])
  }

  /** Gates that move the ancilla register from `prev` to `key` (both below 2^width). */
  function Transition(qd: QubitDict, width: nat, prev: nat, key: nat): seq<Gate>
    requires Fits(qd, width) && Split(prev, key) < width
  {
    var ci := Split(prev, key);
    LevelsUp(qd, width, prev, ci) + [FlipGate(qd, width, ci)] + LevelsDown(qd, width, key, ci)
  }

  /** What `qrom` demands of its keys to stay within its qubit lists and operators. */
  predicate KeysFit(qd: QubitDict, width: nat, ops: seq<OpGen>, prev: int, keys: seq<nat>)
  {
    && Fits(qd, width)
    && -1 <= prev < Pow2(width)
    && (forall i :: 0 <= i < |keys| ==> keys[i] < Pow2(width) && keys[i] < |ops|)
    && (keys != [] ==> |qd.b| >= 1)
    && (prev >= 0 && keys != [] ==> width >= 1)
    && (|keys| >= 2 ==> width >= 1)
  }

  /** The keys after the first fit once the first is the last one handled. */
  lemma {:induction false} KeysFitTail(qd: QubitDict, width: nat, ops: seq<OpGen>, prev: int, keys: seq<nat>)
    requires KeysFit(qd, width, ops, prev, keys) && keys != []
    ensures KeysFit(qd, width, ops, keys[0], keys[1..])
  {
    var tail := keys[1..];
    assert forall i :: 0 <= i < |tail| ==> tail[i] == keys[i + 1];
  }

  /** Two different keys below 2^width first differ (from the top) below bit width. */
  lemma {:induction false} SplitBound(p: nat, k: nat, width: nat)
    requires p < Pow2(width) && k < Pow2(width) && (p != k || width >= 1)
    ensures Split(p, k) < width
    decreases width
  {
    if p / 2 != k / 2 {
      SplitBound(p / 2, k / 2, width - 1);
    }
  }

  /** The gates that make the ancillas hold `key`: a full build for the first key (`prev` = -1), else a transition. */
  function Move(qd: QubitDict, width: nat, prev: int, key: nat): seq<Gate>
    requires Fits(qd, width) && -1 <= prev < Pow2(width) && key < Pow2(width)
    requires prev >= 0 ==> width >= 1
  {
    if prev == -1 then LevelsDown(qd, width, key, width)
    else SplitBound(prev, key, width); Transition(qd, width, prev, key)
  }

  /**
   Gates `qrom` emits from the point where `prev` is the last key handled
   (-1 before the first) for the remaining `keys`: the move to each key,
   then its operator controlled on ancilla 0, and at the end the clearing
   of the ancilla register when some key was handled.
   */
  function Walk(qd: QubitDict, width: nat, ops: seq<OpGen>, prev: int, keys: seq<nat>): seq<Gate>
    requires KeysFit(qd, width, ops, prev, keys)
    decreases |keys|
  {
    if keys == [] then
      if prev == -1 then [] else LevelsUp(qd, width, prev, width)
    else
      var key := keys[0];
      Move(qd, width, prev, key) + Generate(ops[key], Anc(qd)[0], qd.t) + Walk(qd, width, ops, key, keys[1..])
  }

  /** The walk over `keys[k..]` starts with the move to `keys[k]` and that key's operator. */
  lemma {:induction false} WalkUnfold(qd: QubitDict, width: nat, ops: seq<OpGen>, prev: int, keys: seq<nat>, k: nat)
    requires k < |keys| && KeysFit(qd, width, ops, prev, keys[k..])
    ensures KeysFit(qd, width, ops, keys[k], keys[k + 1..])
    ensures Walk(qd, width, ops, prev, keys[k..]) ==
      Move(qd, width, prev, keys[k]) + Generate(ops[keys[k]], Anc(qd)[0], qd.t) + Walk(qd, width, ops, keys[k], keys[k + 1..])
  {
    assert keys[k..][0] == keys[k] && keys[k..][1..] == keys[k + 1..];
  }

  /**
   Levels n-1, n-2, ..., lo, top down, in the snoc form the setting loops
   build it: the lowest level is the last one appended.
   */
  function LevelsFrom(qd: QubitDict, width: nat, key: nat, n: nat, lo: nat): seq<Gate>
    requires Fits(qd, width) && lo <= n <= width
    decreases n - lo
  {
    if lo == n then [] else LevelsFrom(qd, width, key, n, lo + 1) + Level(qd, width, key, lo)
  }

  lemma {:induction false} LevelsFromTop(qd: QubitDict, width: nat, key: nat, n: nat, lo: nat)
    requires Fits(qd, width) && lo < n <= width
    ensures LevelsFrom(qd, width, key, n, lo) == Level(qd, width, key, n - 1) + LevelsFrom(qd, width, key, n - 1, lo)
    decreases n - lo
  {
    if lo < n - 1 {
      LevelsFromTop(qd, width, key, n, lo + 1);
      Assoc(Level(qd, width, key, n - 1), LevelsFrom(qd, width, key, n - 1, lo + 1), Level(qd, width, key, lo));
    }
  }

  /** Built front to back or back to front, the levels below n are the same gates. */
  lemma {:induction false} LevelsFromDown(qd: QubitDict, width: nat, key: nat, n: nat)
    requires Fits(qd, width) && n <= width
    ensures LevelsFrom(qd, width, key, n, 0) == LevelsDown(qd, width, key, n)
  {
    if n > 0 {
      LevelsFromTop(qd, width, key, n, 0);
      LevelsFromDown(qd, width, key, n - 1);
    }
  }

  /** The first-key branch of `qrom`: set the ancillas for `key` from the top bit down. */
  method BuildAncillas(qd: QubitDict, width: nat, key: nat) returns (move: seq<Gate>)
    requires Fits(qd, width)
    ensures move == LevelsDown(qd, width, key, width)
  {
    var addrQubits, ancQubits, selQubit := Addr(qd), Anc(qd), qd.s;
    move := [];
    for bi := width downto 0
      invariant move == LevelsFrom(qd, width, key, width, bi)
    {
      var ctlSense := Shr(key, bi) % 2 == 1;
      var ctl := if bi + 1 == width then selQubit else ancQubits[bi + 1];
      var step := Toffoli(true, ctlSense, ctl, addrQubits[bi], ancQubits[bi]);
      assert step == Level(qd, width, key, bi);
      move := move + step;
    }
    LevelsFromDown(qd, width, key, width);
  }

  /**
   The later-key branch of `qrom`: clear the ancillas until the remaining
   high bits of `prev` and `key` agree, flip the highest differing bit, and
   set the ancillas below it for `key`.
   */
  method MoveAncillas(qd: QubitDict, width: nat, prev: nat, key: nat) returns (move: seq<Gate>)
    requires Fits(qd, width) && prev < Pow2(width) && key < Pow2(width) && width >= 1
    ensures Split(prev, key) < width
    ensures move == Transition(qd, width, prev, key)
  {
    var ancQubits, selQubit := Anc(qd), qd.s;
    var up, ci := ClearToSplit(qd, width, prev, key);
    var flip;
    if ci + 1 == width {
      flip := CX(selQubit, ancQubits[ci]);
    } else {
      flip := CX(ancQubits[ci + 1], ancQubits[ci]);
    }
    var down := SetBelowSplit(qd, width, key, ci);
    move := up + [flip] + down;
  }

  /** The first loop of the later-key branch: clear levels 0, 1, ... of `prev` up to the split. */
  method ClearToSplit(qd: QubitDict, width: nat, prev: nat, key: nat) returns (up: seq<Gate>, ci: nat)
    requires Fits(qd, width) && prev < Pow2(width) && key < Pow2(width) && width >= 1
    ensures ci == Split(prev, key) < width
    ensures up == LevelsUp(qd, width, prev, ci)
  {
    var addrQubits, ancQubits := Addr(qd), Anc(qd);
    SplitBound(prev, key, width);
    up := [];
    ci := 0;
    while Shr(prev, ci + 1) != Shr(key, ci + 1)
      invariant ci + Split(Shr(prev, ci), Shr(key, ci)) == Split(prev, key)
      invariant up == LevelsUp(qd, width, prev, ci)
      decreases Split(prev, key) - ci
    {
      var ctlSense := Shr(prev, ci) % 2 == 1;
      up := up + Toffoli(true, ctlSense, ancQubits[ci + 1], addrQubits[ci], ancQubits[ci]);
      ci := ci + 1;
    }
  }

  /** The second loop of the later-key branch: set levels ci-1, ..., 0 for `key`. */
  method SetBelowSplit(qd: QubitDict, width: nat, key: nat, split: nat) returns (down: seq<Gate>)
    requires Fits(qd, width) && split < width
    ensures down == LevelsDown(qd, width, key, split)
  {
    var addrQubits, ancQubits := Addr(qd), Anc(qd);
    down := [];
    // `ci` of `qrom`'s `while ci > 0` is i + 1 here
    for i := split downto 0
      invariant down == LevelsFrom(qd, width, key, split, i)
    {
      var ctlSense := Shr(key, i) % 2 == 1;
      var step := Toffoli(true, ctlSense, ancQubits[i + 1], addrQubits[i], ancQubits[i]);
      assert step == Level(qd, width, key, i);
      down := down + step;
    }
    LevelsFromDown(qd, width, key, split);
  }

  /** The closing loop of `qrom`: clear the ancillas for the last key, bottom up. */
  method ClearAncillas(qd: QubitDict, width: nat, prev: nat) returns (clear: seq<Gate>)
    requires Fits(qd, width)
    ensures clear == LevelsUp(qd, width, prev, width)
  {
    var addrQubits, ancQubits, selQubit := Addr(qd), Anc(qd), qd.s;
    clear := [];
    for ci := 0 to width
      invariant clear == LevelsUp(qd, width, prev, ci)
    {
      var ctlSense := Shr(prev, ci) % 2 == 1;
      var ctl := if ci + 1 == width then selQubit else ancQubits[ci + 1];
      clear := clear + Toffoli(true, ctlSense, ctl, addrQubits[ci], ancQubits[ci]);
    }
  }

  /** `qrom(qubit_dict, width, key_vals, operators)` */
  method Qrom(qd: QubitDict, width: nat, keys: seq<nat>, ops: seq<OpGen>) returns (circuit: seq<Gate>)
    requires keys != [] ==> KeysFit(qd, width, ops, -1, keys)
    ensures keys == [] ==> circuit == []
    ensures keys != [] ==> circuit == Walk(qd, width, ops, -1, keys)
  {
    circuit := [];
    var prevKey: int := -1;
    var ancQubits := Anc(qd);
    assert keys[0..] == keys;
    for k := 0 to |keys|
      invariant prevKey == (if k == 0 then -1 else keys[k - 1])
      invariant k == 0 ==> circuit == []
      invariant keys != [] ==> KeysFit(qd, width, ops, prevKey, keys[k..])
      invariant keys != [] ==> circuit + Walk(qd, width, ops, prevKey, keys[k..]) == Walk(qd, width, ops, -1, keys)
    {
      var key := keys[k];
      var move;
      if prevKey == -1 {
        move := BuildAncillas(qd, width, key);
      } else {
        move := MoveAncillas(qd, width, prevKey, key);
      }
      var applied := ApplyOperator(ops[key], ancQubits[0], qd.t);
      WalkUnfold(qd, width, ops, prevKey, keys, k);
      Assoc(circuit, move + applied, Walk(qd, width, ops, key, keys[k + 1..]));
      circuit := circuit + (move + applied);
      prevKey := key;
    }
    if prevKey != -1 {
      var clear := ClearAncillas(qd, width, prevKey);
      circuit := circuit + clear;
    }
  }

  // ----- applyAndWalk -----

  /** `[ii + pos1 for ii in range(pos2 - pos1)]`: the addresses pos1, ..., pos2 - 1. */
  function KeyValues(pos1: nat, pos2: nat): (keys: seq<nat>)
    ensures |keys| == if pos1 < pos2 then pos2 - pos1 else 0
    ensures keys != [] ==> keys[0] == pos1 && keys[|keys| - 1] == pos2 - 1
    ensures forall i :: 0 <= i < |keys| - 1 ==> keys[i + 1] == keys[i] + 1
  {
    seq(if pos1 < pos2 then pos2 - pos1 else 0, i => pos1 + i)
  }

  /** The qubit wiring `applyAndWalk` gives `qrom`, and the width it passes. */
  function Wiring(ctlQ: seq<Qubit>, selQ: Qubit, ancQ: seq<Qubit>, tgtQ: seq<Qubit>): QubitDict
  {
    QubitDict(ctlQ, ancQ, selQ, tgtQ)
  }

  /**
   What `applyAndWalk` needs once there is an address: every address fits the
   width `len(ctl_q)` and has an operator, and there are enough ancillas for
   the levels and for the operator's control. With no address `qrom` touches
   no qubit list.
   */
  predicate WalkFits(operators: seq<OpGen>, pos1: nat, pos2: nat, ctlQ: seq<Qubit>, ancQ: seq<Qubit>)
  {
    pos1 < pos2 ==> pos2 <= Pow2(|ctlQ|) && pos2 <= |operators| && |ancQ| >= |ctlQ| && |ancQ| >= 1
  }

  lemma {:induction false} WalkFitsKeys(operators: seq<OpGen>, pos1: nat, pos2: nat,
                     ctlQ: seq<Qubit>, selQ: Qubit, ancQ: seq<Qubit>, tgtQ: seq<Qubit>)
    requires WalkFits(operators, pos1, pos2, ctlQ, ancQ) && (pos1 < pos2 || |ancQ| >= |ctlQ|)
    ensures KeysFit(Wiring(ctlQ, selQ, ancQ, tgtQ), |ctlQ|, operators, -1, KeyValues(pos1, pos2))
  {
  }

  /** `applyAndWalk(operators, pos1, pos2, ctl_q, sel_q, anc_q, tgt_q)` */
  method ApplyAndWalk(operators: seq<OpGen>, pos1: nat, pos2: nat,
                      ctlQ: seq<Qubit>, selQ: Qubit, ancQ: seq<Qubit>, tgtQ: seq<Qubit>) returns (circuit: seq<Gate>)
    requires WalkFits(operators, pos1, pos2, ctlQ, ancQ)
    ensures pos2 <= pos1 ==> circuit == []
    ensures pos1 < pos2 ==> KeysFit(Wiring(ctlQ, selQ, ancQ, tgtQ), |ctlQ|, operators, -1, KeyValues(pos1, pos2))
    ensures pos1 < pos2 ==> circuit == Walk(Wiring(ctlQ, selQ, ancQ, tgtQ), |ctlQ|, operators, -1, KeyValues(pos1, pos2))
  {
    var qubitDict := Wiring(ctlQ, selQ, ancQ, tgtQ);
    var keyValues := seq(if pos1 < pos2 then pos2 - pos1 else 0, ii => ii + pos1);
    assert keyValues == KeyValues(pos1, pos2);
    if pos1 < pos2 {
      WalkFitsKeys(operators, pos1, pos2, ctlQ, selQ, ancQ, tgtQ);
    }
    circuit := Qrom(qubitDict, |ctlQ|, keyValues, operators);
  }

  /** The `if True` branch of `SelVBase._decompose_`. */
  method Decompose(terms: seq<Term>, phsQ: Qubit, tgtQ: seq<Qubit>, ctlQ: seq<Qubit>, ancQ: seq<Qubit>)
    returns (r: Option<seq<Gate>>)
    requires forall i :: Pow2(|ctlQ|) <= i < |terms| ==> IsIdentityTerm(terms[i])
    requires (|ancQ| >= |ctlQ| && |ancQ| >= 1) || forall i :: 0 <= i < |terms| ==> IsIdentityTerm(terms[i])
    ensures r.None? <==> forall i :: 0 <= i < |terms| ==> IsIdentityTerm(terms[i])
    ensures r.Some? ==> exists pos1: nat, pos2: nat ::
      && NonIdentityBounds(terms, pos1, pos2)
      && WalkFits(Operators(terms), pos1, pos2, ctlQ, ancQ)
      && KeysFit(Wiring(ctlQ, phsQ, ancQ, tgtQ), |ctlQ|, Operators(terms), -1, KeyValues(pos1, pos2))
      && r.value == Walk(Wiring(ctlQ, phsQ, ancQ, tgtQ), |ctlQ|, Operators(terms), -1, KeyValues(pos1, pos2))
  {
    var range := NonIdentityRange(terms);
    if range.None? {
      // `find_first_non_identity_term` returns None and the subtraction raises
      r := None;
    } else {
      var (pos1, pos2) := range.value;
      var hamAsOps := ConvertHamiltonianTermsToOperators(terms);
      assert hamAsOps == Operators(terms);
      var circuit := ApplyAndWalk(hamAsOps, pos1, pos2, ctlQ, phsQ, ancQ, tgtQ);
      r := Some(circuit);
    }
  }

  // ----- properties of the walk -----

  lemma {:induction false} ShrHalf(x: nat, n: nat)
    ensures Shr(x, n + 1) == Shr(x / 2, n)
  {
    if n > 0 {
      ShrHalf(x, n - 1);
    }
  }

  /**
   The clearing loop stops at the highest bit where `p` and `k` differ: they
   differ at bit `Split(p, k)` and agree on everything above it.
   */
  lemma {:induction false} SplitMeaning(p: nat, k: nat)
    requires p != k
    ensures Bit(p, Split(p, k)) != Bit(k, Split(p, k))
    ensures Shr(p, Split(p, k) + 1) == Shr(k, Split(p, k) + 1)
    decreases p + k
  {
    if p / 2 != k / 2 {
      var s := Split(p / 2, k / 2);
      SplitMeaning(p / 2, k / 2);
      ShrHalf(p, s);
      ShrHalf(k, s);
      ShrHalf(p, s + 1);
      ShrHalf(k, s + 1);
    }
  }

  /** Number of trailing 1-bits of a natural number. */
  function TrailingOnesNat(p: nat): nat
  {
    if p % 2 == 1 then 1 + TrailingOnesNat(p / 2) else 0
  }

  /** Between consecutive keys the clearing loop runs once per trailing 1-bit of the earlier one. */
  lemma {:induction false} SplitNext(p: nat)
    ensures Split(p, p + 1) == TrailingOnesNat(p)
  {
    if p % 2 == 1 {
      assert (p + 1) / 2 == p / 2 + 1;
      SplitNext(p / 2);
    }
  }

  /** The trailing 1-bits of a number are the trailing True entries of its binary list. */
  lemma {:induction false} TrailingOnesBinary(p: nat)
    ensures TrailingOnes(Binary(p)) == TrailingOnesNat(p)
  {
    if p >= 2 {
      var pre := Binary(p / 2);
      assert (pre + [p % 2 == 1])[..|pre|] == pre;
      TrailingOnesBinary(p / 2);
    }
  }

  lemma {:induction false} LevelCounts(qd: QubitDict, width: nat, key: nat, i: nat)
    requires Fits(qd, width) && i < width
    ensures CountCCX(Level(qd, width, key, i)) == 1 && CountCX(Level(qd, width, key, i)) == 0
  {
    var ctl := if i + 1 == width then qd.s else Anc(qd)[i + 1];
    ToffoliCounts(true, Bit(key, i), ctl, Addr(qd)[i], Anc(qd)[i]);
  }

  /** Setting n ancillas top down takes n Toffolis and no CX. */
  lemma {:induction false} LevelsDownCount(qd: QubitDict, width: nat, key: nat, n: nat)
    requires Fits(qd, width) && n <= width
    ensures CountCCX(LevelsDown(qd, width, key, n)) == n
    ensures CountCX(LevelsDown(qd, width, key, n)) == 0
  {
    if n > 0 {
      LevelCounts(qd, width, key, n - 1);
      LevelsDownCount(qd, width, key, n - 1);
      CountCCXAppend(Level(qd, width, key, n - 1), LevelsDown(qd, width, key, n - 1));
      CountCXAppend(Level(qd, width, key, n - 1), LevelsDown(qd, width, key, n - 1));
    }
  }

  /** Clearing n ancillas bottom up takes n Toffolis and no CX. */
  lemma {:induction false} LevelsUpCount(qd: QubitDict, width: nat, key: nat, n: nat)
    requires Fits(qd, width) && n <= width
    ensures CountCCX(LevelsUp(qd, width, key, n)) == n
    ensures CountCX(LevelsUp(qd, width, key, n)) == 0
  {
    if n > 0 {
      LevelCounts(qd, width, key, n - 1);
      LevelsUpCount(qd, width, key, n - 1);
      CountCCXAppend(LevelsUp(qd, width, key, n - 1), Level(qd, width, key, n - 1));
      CountCXAppend(LevelsUp(qd, width, key, n - 1), Level(qd, width, key, n - 1));
    }
  }

  /** A move between keys clears and re-sets `Split` ancillas with one CX in between. */
  lemma {:induction false} TransitionCount(qd: QubitDict, width: nat, prev: nat, key: nat)
    requires Fits(qd, width) && Split(prev, key) < width
    ensures CountCCX(Transition(qd, width, prev, key)) == 2 * Split(prev, key)
    ensures CountCX(Transition(qd, width, prev, key)) == 1
  {
    var ci := Split(prev, key);
    var up, flip, down := LevelsUp(qd, width, prev, ci), [FlipGate(qd, width, ci)], LevelsDown(qd, width, key, ci);
    LevelsUpCount(qd, width, prev, ci);
    LevelsDownCount(qd, width, key, ci);
    CountSingleton(FlipGate(qd, width, ci));
    CountCCXAppend(up, flip);
    CountCCXAppend(up + flip, down);
    CountCXAppend(up, flip);
    CountCXAppend(up + flip, down);
  }

  /** Sum of the `Split`s between successive keys, starting from `prev` (-1: none). */
  function SplitSum(prev: int, keys: seq<nat>): nat
    decreases |keys|
  {
    if keys == [] then 0
    else (if prev < 0 then 0 else Split(prev, keys[0])) + SplitSum(keys[0], keys[1..])
  }

  /**
   Toffolis in a walk: a full build for the first key, twice the split for
   every later key, and a full clear at the end; operators add none.
   */
  lemma {:induction false} WalkToffoliCount(qd: QubitDict, width: nat, ops: seq<OpGen>, prev: int, keys: seq<nat>)
    requires KeysFit(qd, width, ops, prev, keys)
    ensures CountCCX(Walk(qd, width, ops, prev, keys)) ==
      2 * SplitSum(prev, keys) + (if prev >= 0 then width else if keys == [] then 0 else 2 * width)
    decreases |keys|
  {
    if keys == [] {
      if prev >= 0 {
        LevelsUpCount(qd, width, prev, width);
      }
    } else {
      var key := keys[0];
      GenerateShape(ops[key], Anc(qd)[0], qd.t);
      WalkToffoliCount(qd, width, ops, key, keys[1..]);
      var move := Move(qd, width, prev, key);
      if prev == -1 {
        LevelsDownCount(qd, width, key, width);
      } else {
        SplitBound(prev, key, width);
        TransitionCount(qd, width, prev, key);
      }
      var gen := Generate(ops[key], Anc(qd)[0], qd.t);
      CountCCXAppend(move, gen);
      CountCCXAppend(move + gen, Walk(qd, width, ops, key, keys[1..]));
    }
  }

  /** Sum of the trailing 1-bits of lo, lo + 1, ..., hi - 2. */
  function OnesSum(lo: nat, hi: nat): nat
    decreases hi - lo
  {
    if lo + 1 >= hi then 0 else TrailingOnesNat(lo) + OnesSum(lo + 1, hi)
  }

  lemma {:induction false} KeyValuesTail(lo: nat, hi: nat)
    requires lo < hi
    ensures KeyValues(lo, hi)[1..] == KeyValues(lo + 1, hi)
  {
    assert forall i :: 0 <= i < hi - lo - 1 ==> KeyValues(lo, hi)[1..][i] == lo + 1 + i;
  }

  lemma {:induction false} ConsecutiveSplitSum(lo: nat, hi: nat)
    requires lo < hi
    ensures SplitSum(lo, KeyValues(lo + 1, hi)) == OnesSum(lo, hi)
    decreases hi - lo
  {
    if lo + 1 < hi {
      KeyValuesTail(lo + 1, hi);
      SplitNext(lo);
      ConsecutiveSplitSum(lo + 1, hi);
    }
  }

  /**
   `applyAndWalk` over the addresses pos1, ..., pos2 - 1 uses 2 * width
   Toffolis to build and clear the ancillas, plus two per trailing 1-bit of
   every address but the last.
   */
  lemma {:induction false} ApplyAndWalkToffoliCount(operators: seq<OpGen>, pos1: nat, pos2: nat,
                                 ctlQ: seq<Qubit>, selQ: Qubit, ancQ: seq<Qubit>, tgtQ: seq<Qubit>)
    requires WalkFits(operators, pos1, pos2, ctlQ, ancQ)
    ensures pos1 < pos2 ==> KeysFit(Wiring(ctlQ, selQ, ancQ, tgtQ), |ctlQ|, operators, -1, KeyValues(pos1, pos2))
    ensures pos1 < pos2 ==>
      CountCCX(Walk(Wiring(ctlQ, selQ, ancQ, tgtQ), |ctlQ|, operators, -1, KeyValues(pos1, pos2)))
        == 2 * |ctlQ| + 2 * OnesSum(pos1, pos2)
  {
    var qd, keys := Wiring(ctlQ, selQ, ancQ, tgtQ), KeyValues(pos1, pos2);
    if pos1 < pos2 {
      WalkFitsKeys(operators, pos1, pos2, ctlQ, selQ, ancQ, tgtQ);
      WalkToffoliCount(qd, |ctlQ|, operators, -1, keys);
      assert SplitSum(-1, keys) == SplitSum(pos1, keys[1..]);
      KeyValuesTail(pos1, pos2);
      ConsecutiveSplitSum(pos1, pos2);
    }
  }
}
