# pyLIQTR Select-V circuit generator and circuit text utilities, in Dafny

This project models two parts of pyLIQTR:

- The gate-list construction behind the `SelVBase` Select-V gate (`src/pyLIQTR/QSP/qsp_select_v.py`):
  - the basis-changed Toffoli;
  - the big-endian bit-list helpers `constructBooleanTree` and `incrementBooleanTree`, and the Hamming distance `h_distance`;
  - the legacy tree walk `walkDown` / `stepRight` / `applyAndStep`;
  - the QROM unary-iteration walk `applyAndWalk` / `qrom`;
  - the conversion of Hamiltonian terms into controlled-Pauli operator generators;
  - the `pos1`/`pos2` range computed in `_decompose_`.
- Two circuit text utilities (`src/pyLIQTR/utils/utils.py`):
  - `open_fermion_to_qasm`, which translates OpenFermion's line-per-gate QASM into OpenQASM 2.0;
  - `count_T_gates`, which counts T gates.

Gates are values of a small datatype (`X`, `CX`, `CCX`, `Z`, `S`, `Sdg`, `CZ`), qubits are naturals, and a circuit is the sequence of gates appended to it. A `cirq.Circuit` that the code fills in place through a parameter is a `Circuit` object whose `ops` field the methods extend. A circuit local to a function is a local sequence. Operator generators (Python lambdas) are `OpGen` values, applied with `Generate`.

The code's own promises are stated against functions of the inputs. Three of them are:

- the exact shape and Toffoli count of every piece of the QROM walk;
- the keys it visits, in order;
- the value of each bit list.

As an independent reference, `BasisStates` gives the gates their action on computational basis states: X, CX and CCX flip bits, and the phase gates keep the basis state. On that reference, `QromSemantics` proves what the walk does. The operator of address k is controlled by an ancilla that is on exactly when the select qubit is on and the address register holds k. When the walk ends, every ancilla is off again.

Modules, one per file: `Wrappers`, `Gates`, `BooleanTree`, `SelVBase`, `SelectV` (toffoli and the legacy walk), `Qrom` (qrom, applyAndWalk, `_decompose_`), `BasisStates`, `QromSemantics`, `CircuitUtils`.

pyLIQTR raises an exception in several spots:
- `incBT` on an all-True list;
- `_decompose_` when no term is non-identity;
- a missing qubit id in a QASM line.

Each of these is a `None` result. An index into a qubit list that the code never checks is a `requires`.

## Model

| member | source | states |
|---|---|---|
| BooleanTree.BinaryValue | src/pyLIQTR/QSP/qsp_select_v.py:128 | `bin(n)` without its prefix denotes `n` and has at least one digit |
| BooleanTree.BinaryLength | src/pyLIQTR/QSP/qsp_select_v.py:128-129 | the binary numeral of `n` fits in `m >= 1` places exactly when `n < 2^m` |
| BooleanTree.ConstructBooleanTreeCorrect | src/pyLIQTR/QSP/qsp_select_v.py:127-131 | the big-endian value of `constructBooleanTree(n, m)` is `n`; its length is `m` when `m >= 1` and `n < 2^m`; it is longer than `m` when `n >= 2^m` |
| BooleanTree.ConstructBooleanTreeZeroWidth | src/pyLIQTR/QSP/qsp_select_v.py:127-131 | `constructBooleanTree(0, 0)` is `[False]`, because `bin(0)` is `'0'` |
| BooleanTree.IncBTCorrect | src/pyLIQTR/QSP/qsp_select_v.py:134-140 | `incBT` fails exactly on an all-True list; otherwise it keeps the length, adds one to the little-endian value, and changes `1 +` (leading Trues) bits |
| BooleanTree.IncrementBooleanTreeCorrect | src/pyLIQTR/QSP/qsp_select_v.py:133-145 | `incrementBooleanTree` fails exactly on an all-True list; otherwise the length is kept and the value becomes `value(b) + 1` |
| BooleanTree.IncrementConstruct | src/pyLIQTR/QSP/qsp_select_v.py:127-145 | for `n + 1 < 2^m`, incrementing `constructBooleanTree(n, m)` gives `constructBooleanTree(n + 1, m)` |
| BooleanTree.IncrementDistance | src/pyLIQTR/QSP/qsp_select_v.py:61-64 | `h_distance(b, incrementBooleanTree(b))` is 1 plus the number of trailing Trues of `b` |
| BooleanTree.HDistanceReverse | src/pyLIQTR/QSP/qsp_select_v.py:61-62 | reversing both lists keeps their Hamming distance |
| BooleanTree.ValueInjective | src/pyLIQTR/QSP/qsp_select_v.py:127-131 | two bit lists of one length with the same value are equal |
| BooleanTree.LittleValueReverse | src/pyLIQTR/QSP/qsp_select_v.py:141-144 | the little-endian value of the reversed list is the big-endian value of the list |
| SelVBase.ControlledPauliGate | src/pyLIQTR/QSP/qsp_select_v.py:271-285 | the loop over (Pauli character, target) pairs builds the gate list: per pair, none for `I`, `CX` for `X`, `Sdg, CX, S` for `Y`, `CZ` for `Z`, stopping at the shorter sequence |
| SelVBase.CharGatesCount | src/pyLIQTR/QSP/qsp_select_v.py:273-283 | one Pauli character gives 0, 1, 3 or 1 gates for I, X, Y or Z: one CX for X and Y, one CZ for Z, and no Toffoli |
| SelVBase.PauliGatesCount | src/pyLIQTR/QSP/qsp_select_v.py:271-285 | the length of a Pauli string's gate list is the sum of the per-character costs; its CX count is #X + #Y, its CZ count is #Z, and it has no CCX |
| SelVBase.IdentityGatesEmpty | src/pyLIQTR/QSP/qsp_select_v.py:273-275 | an all-`I` Pauli string produces no gates |
| SelVBase.ApplyOperator | src/pyLIQTR/QSP/qsp_select_v.py:289-295 | applying a generator gives `[Z(ctrl)]` followed by the controlled Pauli gates when the coefficient is negative, and the controlled Pauli gates alone otherwise |
| SelVBase.GenerateShape | src/pyLIQTR/QSP/qsp_select_v.py:289-295 | a negative coefficient prefixes exactly one `Z(ctrl)` ahead of the Pauli gates; otherwise the output is the Pauli gates alone; a generator never emits a CCX |
| SelVBase.ConvertHamiltonianTermsToOperators | src/pyLIQTR/QSP/qsp_select_v.py:287-296 | one generator per term, in term order, carrying the term's Pauli string and whether its coefficient is negative |
| SelVBase.FindFirstNonIdentityTerm | src/pyLIQTR/QSP/qsp_select_v.py:304-307 | returns the first index whose flag is clear (all earlier flags set), or nothing exactly when every flag is set |
| SelVBase.NonIdentityRange | src/pyLIQTR/QSP/qsp_select_v.py:303-309 | over the flags `ham_ps_is_identity` (one per term, set when the term is all-`I` or has coefficient 0): fails exactly when every term is identity; otherwise `pos1 < pos2`, terms `pos1` and `pos2 - 1` are non-identity, and every term outside `[pos1, pos2)` is identity |
| SelectV.ToffoliCases | src/pyLIQTR/QSP/qsp_select_v.py:25-35 | the four lists `toffoli` returns, one per pair of senses |
| SelectV.ToffoliShape | src/pyLIQTR/QSP/qsp_select_v.py:25-35 | the length is 1 + 2 * (number of False senses); the middle gate is the CCX; the list reads the same reversed, so the basis change is undone after the CCX |
| SelectV.ToffoliControls | src/pyLIQTR/QSP/qsp_select_v.py:25-35 | every gate but the middle one is an X on a control; for distinct controls, `X(ctl0)` occurs iff `!b0` and `X(ctl1)` iff `!b1` |
| SelectV.ToffoliCounts | src/pyLIQTR/QSP/qsp_select_v.py:25-35 | a Toffoli list holds exactly one CCX and no CX or CZ |
| SelectV.WalkDownHelper | src/pyLIQTR/QSP/qsp_select_v.py:39-45 | appends, for each remaining bit, a Toffoli from address qubit and ancilla i into ancilla i+1; nothing else in the circuit changes |
| SelectV.WalkDown | src/pyLIQTR/QSP/qsp_select_v.py:38-51 | a fresh circuit holding the first Toffoli followed by the helper's gates for `bTree[2..]` |
| SelectV.WalkDownStepsCount | src/pyLIQTR/QSP/qsp_select_v.py:39-45 | the helper emits one CCX per bit and `len(bt) + 2 * (False bits)` gates in all |
| SelectV.WalkDownCount | src/pyLIQTR/QSP/qsp_select_v.py:38-51 | `walkDown` emits `len(bTree) - 1` CCX, and `len(bTree) - 1 + 2 * (False bits)` gates in all |
| SelectV.StepRight | src/pyLIQTR/QSP/qsp_select_v.py:55-106 | the circuit becomes its old gates followed by the step's gates, chosen by the distance cases 1 and 2 (by ancilla count) and otherwise by the recursion, so the old circuit is a prefix of the new one |
| SelectV.StepRightCount | src/pyLIQTR/QSP/qsp_select_v.py:61-106 | a step always appends at least one gate (the distance is never 0), and its CCX count follows the distance d: 0 for d = 1, otherwise 2(d-2), plus one unless d equals the number of ancillas |
| SelectV.StepBelowEnd | src/pyLIQTR/QSP/qsp_select_v.py:111-118 | while the current node is below the end node, it is not all-True, and its increment keeps the length and stays at or below the end |
| SelectV.ApplyAndStepHelper | src/pyLIQTR/QSP/qsp_select_v.py:110-118 | appends operator 0, then (unless at the end node) the step right and the rest of the walk, with the operators shifted by one |
| SelectV.ApplyAndStep | src/pyLIQTR/QSP/qsp_select_v.py:109-122 | a fresh circuit holding the helper's gates from the start node |
| SelectV.ApplyAndStepEnds | src/pyLIQTR/QSP/qsp_select_v.py:110-118 | the walk begins with operator 0 and ends with operator `value(end) - value(start)`, both controlled on the last ancilla |
| Qrom.SplitBound | src/pyLIQTR/QSP/qsp_select_v.py:206-216 | between two different keys below 2^width, the clearing loop stops at some `ci < width` |
| Qrom.SplitMeaning | src/pyLIQTR/QSP/qsp_select_v.py:209-219 | the clearing loop stops at the highest bit where prev and key differ; the bit it flips is such a differing bit |
| Qrom.SplitNext | src/pyLIQTR/QSP/qsp_select_v.py:206-213 | moving from `prev` to `prev + 1`, the clearing loop stops with `ci` equal to the trailing 1-bits of `prev` |
| Qrom.TrailingOnesBinary | src/pyLIQTR/QSP/qsp_select_v.py:128-130 | the trailing 1-bits of a number are the trailing Trues of its bit list |
| Qrom.BuildAncillas | src/pyLIQTR/QSP/qsp_select_v.py:193-202 | the first key's build is one Toffoli per bit, from the most significant down, the top one controlled on select |
| Qrom.MoveAncillas | src/pyLIQTR/QSP/qsp_select_v.py:205-226 | clears from bit 0 up to the split, flips the split ancilla with one CX, and sets back down to bit 0 for the new key; the split is below the width |
| Qrom.ClearToSplit | src/pyLIQTR/QSP/qsp_select_v.py:206-213 | the clearing loop stops at the split of `prev` and `key`, below the width, having cleared levels 0 up to it for `prev` |
| Qrom.SetBelowSplit | src/pyLIQTR/QSP/qsp_select_v.py:222-226 | the setting loop emits the levels below the split for `key`, from the highest down to level 0 |
| Qrom.ClearAncillas | src/pyLIQTR/QSP/qsp_select_v.py:233-241 | the final clear is one Toffoli per bit for the last key, from bit 0 up |
| Qrom.Qrom | src/pyLIQTR/QSP/qsp_select_v.py:181-243 | the circuit is the walk over the keys in order: move to each key, then apply its operator on ancilla 0; after the last key, clear the ancillas; with no keys, nothing |
| Qrom.LevelsDownCount | src/pyLIQTR/QSP/qsp_select_v.py:195-202 | the initial build emits exactly `width` Toffolis and no CX |
| Qrom.LevelsUpCount | src/pyLIQTR/QSP/qsp_select_v.py:233-241 | the final clear emits exactly `width` Toffolis and no CX |
| Qrom.TransitionCount | src/pyLIQTR/QSP/qsp_select_v.py:206-226 | a move emits `2 * ci` Toffolis and one CX |
| Qrom.WalkToffoliCount | src/pyLIQTR/QSP/qsp_select_v.py:192-241 | a walk emits twice the per-key splits in Toffolis, plus `width` for the build and `width` for the clear |
| Qrom.KeyValues | src/pyLIQTR/QSP/qsp_select_v.py:251 | the keys are `pos1, pos1 + 1, …, pos2 - 1`, and there are none when `pos2 <= pos1` |
| Qrom.ConsecutiveSplitSum | src/pyLIQTR/QSP/qsp_select_v.py:206-213 | over consecutive keys, the splits add up to the trailing 1-bits of every key but the last |
| Qrom.ApplyAndWalk | src/pyLIQTR/QSP/qsp_select_v.py:245-253 | the qubit dictionary `a = ctl_q, b = anc_q, s = sel_q, t = tgt_q`, width `len(ctl_q)`, and the walk over the keys `pos1..pos2-1`; with `pos2 <= pos1` there is no key and the circuit is empty, whatever the qubit lists |
| Qrom.ApplyAndWalkToffoliCount | src/pyLIQTR/QSP/qsp_select_v.py:192-253 | with at least one key the circuit has `2 * width` Toffolis plus two per trailing 1-bit of each key but the last |
| Qrom.Decompose | src/pyLIQTR/QSP/qsp_select_v.py:298-317 | fails exactly when every term is identity, with any number of ancillas; otherwise the circuit is `applyAndWalk` over the terms' operators and a range `[pos1, pos2)` whose ends are non-identity terms and outside which all terms are identity |
| BasisStates.ToffoliRun | src/pyLIQTR/QSP/qsp_select_v.py:25-35 | on basis states, `toffoli(True, b1, c0, c1, t)` flips `t` exactly when `c0` is on and `c1` holds `b1`, and changes nothing else |
| BasisStates.CharGatesRun | src/pyLIQTR/QSP/qsp_select_v.py:273-283 | the gates of one Pauli character change no qubit except its target |
| BasisStates.PauliGatesRun | src/pyLIQTR/QSP/qsp_select_v.py:271-285 | a Pauli string's gates change only target qubits |
| BasisStates.GenerateRun | src/pyLIQTR/QSP/qsp_select_v.py:289-295 | an operator changes only target qubits |
| QromSemantics.LevelRun | src/pyLIQTR/QSP/qsp_select_v.py:199-202 | level i flips ancilla i exactly when its control is on and address bit i agrees with the key |
| QromSemantics.BuildRun | src/pyLIQTR/QSP/qsp_select_v.py:193-202 | after the build, ancilla i holds "select on and address bits i and above agree with the key"; only the ancillas change |
| QromSemantics.ClearRun | src/pyLIQTR/QSP/qsp_select_v.py:233-241 | clearing levels 0..n-1 turns those ancillas off, leaves the ones above as matched, and changes nothing else |
| QromSemantics.FlipRun | src/pyLIQTR/QSP/qsp_select_v.py:215-219 | the flip turns the split ancilla from its match for the old key into its match for the new key |
| QromSemantics.TransitionRun | src/pyLIQTR/QSP/qsp_select_v.py:204-226 | a move turns every ancilla's match for `prev` into its match for `key`, touching only ancillas |
| QromSemantics.MoveRun | src/pyLIQTR/QSP/qsp_select_v.py:192-226 | the build or move reaches the ancilla state of the new key, touching only ancillas |
| QromSemantics.GenerateHolds | src/pyLIQTR/QSP/qsp_select_v.py:229 | applying an operator keeps select, address and ancilla qubits |
| QromSemantics.WalkBeforeSplits | src/pyLIQTR/QSP/qsp_select_v.py:192-231 | the walk splits at the k-th key into the gates before it, that key's operator on ancilla 0, and the walk from that key on, so each operator appears once and in key order |
| QromSemantics.WalkRun | src/pyLIQTR/QSP/qsp_select_v.py:181-243 | once the walk is over, every ancilla is off; only ancillas and targets have changed |
| QromSemantics.WalkRunBefore | src/pyLIQTR/QSP/qsp_select_v.py:192-229 | before each key's operator, every ancilla holds its match for that key |
| QromSemantics.LittleBits | src/pyLIQTR/QSP/qsp_select_v.py:196 | a number below `2^len(m)` has the bits `(v >> j) % 2` of `m` exactly when `m` denotes it, least significant bit first |
| QromSemantics.HoldsSelects | src/pyLIQTR/QSP/qsp_select_v.py:199-202 | ancilla 0 matched for a key is on iff select is on and the address register holds the key |
| QromSemantics.QromSelects | src/pyLIQTR/QSP/qsp_select_v.py:151-173 | with the ancillas starting at 0: the k-th operator's control is on exactly when select is on and the address holds the k-th key; at the end the ancillas are 0 again |
| QromSemantics.ApplyAndWalkSelects | src/pyLIQTR/QSP/qsp_select_v.py:149-253 | term `pos1 + k`'s operator is controlled by the last ancilla, on exactly when `sel_q` is on and `ctl_q` (most significant first) holds `pos1 + k`; the ancillas end at 0 |
| CircuitUtils.NatToStringValue | src/pyLIQTR/utils/utils.py:72 | the decimal numeral printed for an integer reads back as that integer |
| CircuitUtils.QubitRefRoundTrip | src/pyLIQTR/utils/utils.py:72 | the reference `reg[id]` reads back as `id` |
| CircuitUtils.QubitRefCanonical | src/pyLIQTR/utils/utils.py:72 | a text reads back as `id` exactly when it is `reg[id]` with the numeral `str(int)` prints, so no other spelling (such as a zero-padded numeral) is accepted |
| CircuitUtils.OpenFermionToQasm | src/pyLIQTR/utils/utils.py:56-88 | the output is the heading (or nothing) followed by each line's translation in input order; it fails exactly when one line's qubit ids are missing |
| CircuitUtils.QasmHeading | src/pyLIQTR/utils/utils.py:56-62 | with the heading, the output begins with the comment, `OPENQASM 2.0;`, the `include` line and the `qreg` line, then the translated lines; without it, the output is the translated lines alone |
| CircuitUtils.QregRoundTrip | src/pyLIQTR/utils/utils.py:60 | the `qreg` line declares `reg[n_qubits]` |
| CircuitUtils.TranslateFailsExactly | src/pyLIQTR/utils/utils.py:64-83 | the translation fails exactly when some line fails |
| CircuitUtils.TranslateAppend | src/pyLIQTR/utils/utils.py:64-88 | translating two runs of lines gives the concatenation of their translations |
| CircuitUtils.OneQubitLine | src/pyLIQTR/utils/utils.py:69-72 | an `H`/`X` line becomes exactly `h ref;` / `x ref;`, where `ref` reads back as the last id on the line, which makes it the canonical `reg[id]`; it fails exactly when there is none |
| CircuitUtils.CnotLine | src/pyLIQTR/utils/utils.py:74-77 | a `CNOT` line becomes exactly `cx refA,refB;`, where `refA` and `refB` read back as its first two ids, which makes them the canonical `reg[id]` of each; it fails exactly when it has fewer than two |
| CircuitUtils.UnknownGateSkipped | src/pyLIQTR/utils/utils.py:84-85 | a line whose gate is in none of the tables adds nothing to the output |
| CircuitUtils.LineNewlines | src/pyLIQTR/utils/utils.py:69-85 | a translated known gate is one output line ending in a line break; an unknown gate contributes no line |
| CircuitUtils.TranslateNewlines | src/pyLIQTR/utils/utils.py:64-88 | the translated text has one line per input line whose gate is known |
| CircuitUtils.CountTGates | src/pyLIQTR/utils/utils.py:101-108 | the count is the number of operations, across all moments, whose printed form starts with `T` |
| CircuitUtils.MomentTCountBound | src/pyLIQTR/utils/utils.py:104-106 | in one moment the count is at most the number of operations, equals it iff every one starts with `T`, and is 0 iff none does |
| CircuitUtils.TCountBound | src/pyLIQTR/utils/utils.py:101-108 | the count is at most the total number of operations, and 0 exactly when no operation starts with `T` |
| CircuitUtils.TCountAppend | src/pyLIQTR/utils/utils.py:103-106 | counting two circuits one after the other adds their counts |

## Left out

- Quantum semantics beyond basis states is not modelled: no unitaries, phases, `cirq.inverse` or `controlled_by`. A controlled X on two controls is the datatype value `CCX`. The phase gates Z, S, S-dagger and CZ keep the basis state in `BasisStates`, and their phase is dropped.
- `cirq.Circuit` moments and insertion strategies are left out. A circuit is the flat sequence of appended operations.
- `SelVBase.__init__`, `_num_qubits_` and `_circuit_diagram_info_` are left out. They are bookkeeping for the cirq `Gate` interface.
- The `else` branch of `_decompose_` is left out (src/pyLIQTR/QSP/qsp_select_v.py:318-332). It is dead code behind `if True`, and its tail relies on `cirq.inverse`. The pieces it calls (`walkDown`, `applyAndStep`, `constructBooleanTree`) are modelled on their own.
- The rotation branch of `open_fermion_to_qasm` is left out in part. Its angle is a float parse divided by `np.pi` and then formatted, which is floating-point work. The model takes the printed angle text as part of the input line.
- `int(...)` parsing of qubit tokens is left out. Input lines arrive pre-tokenised, and their qubit ids are natural numbers. Negative or malformed ids, which make `int` fail or print a minus sign, are not represented.
- `print` in the unknown-gate branch is left out, because it is I/O.
- `str(op)` of a cirq operation is not modelled. `count_T_gates` receives each operation's printed form.
- Term coefficients are `real` here, where Python holds a float. The code only compares a coefficient with 0 (`< 0` at src/pyLIQTR/QSP/qsp_select_v.py:289, `== 0` at :303), so nothing observable is lost. A float -0.0 behaves as 0. A NaN coefficient, neither negative nor zero, behaves like a positive one, and NaN itself is not represented.
- Python `bin()` formatting is modelled as the bit list it produces.
- StepRight: the `requires` ask for what `stepRight` indexes. The node must not be all-True, or `incrementBooleanTree` raises. The distance d to the next node is 1 + its trailing Trues. The walk needs at least d ancillas and d - 1 controls, counted from the end of each list; with fewer, Python raises `IndexError`. A longer ancilla list is admitted, and the `n_anc` cases test its real length.
- ApplyAndStep: its `requires` (`WalkShape`, also on ApplyAndStepHelper) are stronger than the code needs. Both nodes have one length, and there are at least that many ancillas (and at least one) and one control fewer. The code only needs enough for the nodes the walk passes through. The one caller, the dead branch of `_decompose_`, passes nodes of `len(ctl_q) + 1` bits, `ctl_q` and `[phs_q] + anc_q`; those meet it whenever `len(anc_q) >= len(ctl_q)`.
- WalkDown and WalkDownHelper require enough qubits and ancillas for every index they touch. Python raises `IndexError` otherwise.
- Qrom: every key must be below `2^width`. The comment at src/pyLIQTR/QSP/qsp_select_v.py:153 asks this of every address, and the code does not check it. Wider keys are not modelled, and the code does one of two things with them. Keys that agree above bit `width - 1` are built and moved by their low `width` bits, so an operator is selected by an aliased address: with width 1, keys 2 and 3 are selected by addresses 0 and 1. A move between keys that differ above that bit does not stop at the width. The clearing loop (:209-213) runs on until `ci` reaches the highest differing bit, so it reads `ancQubits[width]`, and the flip and the setting loop read further ancillas and address bits. That raises `IndexError` when a list is too short: width 1 with keys 1 and 2 and one ancilla, or width 1 with one address qubit and keys 3 and 4, which reads `addrQubits[1]`. Otherwise it acts on ancillas outside the `width` of the register. Once there is a key, `qrom` also needs `width` address qubits and ancillas, and at least one ancilla; with fewer it raises `IndexError`. A second key also needs `width >= 1`: with width 0, the flip reads `ancQubits[1]`. Distinct keys below `2^width` always meet that. For `width >= 1`, a repeated key is modelled: `Split(k, k)` is 0, and the move is the single CX of :216-219. `applyAndWalk` meets all of these whenever `pos2 <= 2^len(ctl_q)` and `len(anc_q) >= len(ctl_q)`.
- ApplyAndWalk: once `pos1 < pos2`, it requires `pos2 <= 2^len(ctl_q)`, an operator for every address, at least as many ancillas as control qubits, and one ancilla at least. Without an address it requires nothing, and the circuit is empty.
- Decompose: every term from index `2^len(ctl_q)` on must be identity. That makes `pos2 <= 2^len(ctl_q)`, so every address fits the width. When some term is non-identity, it also requires at least as many ancillas as control qubits and at least one ancilla; with fewer, `qrom` raises `IndexError`. A Hamiltonian whose last non-identity term lies at index `2^len(ctl_q)` or beyond is not modelled. Its keys then reach `2^len(ctl_q)`. If they cross that multiple (from `2^len(ctl_q) - 1` to `2^len(ctl_q)`), the move reads `anc_q` past `len(ctl_q)` entries: with `len(anc_q) == len(ctl_q)` it raises `IndexError`, and with more ancillas it uses them. If every key lies at or above it, the keys alias lower addresses, as described under Qrom.
- QromSelects and ApplyAndWalkSelects require at least one address qubit. They also require select, address and ancilla qubits to be distinct from each other and from the targets; with those qubits overlapping, the basis-state statement does not hold. QromSelects, WalkRun and WalkRunBefore also require each key to differ from the one before it (`AdjacentDistinct`). After a repeated key, the lone CX turns ancilla 0 off, so the repeated key's second operator is not selected by its address. `applyAndWalk`'s consecutive keys always differ.
