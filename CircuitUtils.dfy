/**
 Circuit text utilities: translating OpenFermion's line-per-gate QASM into
 OpenQASM 2.0 text, and counting T gates in a circuit.

 An input line arrives already split: its first token (the gate name), the
 integer tokens after it as qubit ids, and, for a rotation, the text the
 angle is printed as. A failed lookup of a qubit id (`open_fermion_to_qasm`
 raises and produces no output) is `None`.
 */
module CircuitUtils {
  import opened Wrappers

  datatype Line = Line(gate: string, ids: seq<nat>, angle: string)

  // ---------------------------------------------------------------------
  // Decimal numerals
  // ---------------------------------------------------------------------

  predicate IsDigit(c: char)
  {
    '0' as int <= c as int <= '9' as int
  }

  function DigitChar(d: nat): (c: char)
    requires d < 10
    ensures IsDigit(c) && c as int - '0' as int == d
  {
    ('0' as int + d) as char
  }

  /** The decimal numeral of `n`, as Python's f-string formatting prints it. */
  function NatToString(n: nat): (s: string)
    ensures |s| >= 1 && forall i :: 0 <= i < |s| ==> IsDigit(s[i])
    ensures |s| > 1 ==> s[0] != '0'
  {
    if n < 10 then [DigitChar(n)] else NatToString(n / 10) + [DigitChar(n % 10)]
  }

  function DigitValue(c: char): (d: nat)
    requires IsDigit(c)
    ensures d < 10
  {
    c as int - '0' as int
  }

  /** The number a string of decimal digits denotes. */
  function DigitsValue(s: string): nat
    requires forall i :: 0 <= i < |s| ==> IsDigit(s[i])
  {
    if s == [] then 0 else 10 * DigitsValue(s[..|s| - 1]) + DigitValue(s[|s| - 1])
  }

  /** Reading back the numeral of `n` gives `n`. */
  lemma {:induction false} NatToStringValue(n: nat)
    ensures DigitsValue(NatToString(n)) == n
  {
    if n >= 10 {
      var s := NatToString(n);
      assert s[..|s| - 1] == NatToString(n / 10);
      NatToStringValue(n / 10);
    }
  }

  /** A numeral whose first digit is not 0 denotes a positive number. */
  lemma {:induction false} DigitsPositive(s: string)
    requires |s| >= 1 && (forall i :: 0 <= i < |s| ==> IsDigit(s[i])) && s[0] != '0'
    ensures DigitsValue(s) >= 1
  {
    if |s| > 1 {
      DigitsPositive(s[..|s| - 1]);
    }
  }

  /** A numeral without leading zeros is the one `NatToString` prints for its value. */
  lemma {:induction false} CanonicalDigits(s: string)
    requires |s| >= 1 && (forall i :: 0 <= i < |s| ==> IsDigit(s[i])) && (|s| > 1 ==> s[0] != '0')
    ensures NatToString(DigitsValue(s)) == s
  {
    if |s| > 1 {
      var p := s[..|s| - 1];
      CanonicalDigits(p);
      DigitsPositive(p);
      assert s == p + [s[|s| - 1]];
    }
  }

  // ---------------------------------------------------------------------
  // The output format
  // ---------------------------------------------------------------------

  /** `reg[id]` */
  function QubitRef(reg: string, id: nat): string
  {
    reg + "[" + NatToString(id) + "]"
  }

  /** The qubit id of a reference `reg[digits]`, if `s` is one whose numeral has no leading zero. */
  function ReadQubitRef(reg: string, s: string): Option<nat>
  {
    if |s| >= |reg| + 3 && s[..|reg| + 1] == reg + "[" && s[|s| - 1] == ']'
       && (forall i :: |reg| + 1 <= i < |s| - 1 ==> IsDigit(s[i]))
       && (|s| > |reg| + 3 ==> s[|reg| + 1] != '0')
    then Some(DigitsValue(s[|reg| + 1..|s| - 1]))
    else None
  }

  /** A qubit reference reads back as the id it was printed from. */
  lemma {:induction false} QubitRefRoundTrip(reg: string, id: nat)
    ensures ReadQubitRef(reg, QubitRef(reg, id)) == Some(id)
  {
    var digits := NatToString(id);
    var s := QubitRef(reg, id);
    assert s == (reg + "[") + digits + "]";
    assert s[..|reg| + 1] == reg + "[";
    assert s[|reg| + 1..|s| - 1] == digits;
    NatToStringValue(id);
  }

  /** `reg[id]` is the only text that reads back as `id`: references are printed canonically. */
  lemma {:induction false} QubitRefCanonical(reg: string, s: string, id: nat)
    ensures ReadQubitRef(reg, s) == Some(id) <==> s == QubitRef(reg, id)
  {
    if ReadQubitRef(reg, s) == Some(id) {
      var digits := s[|reg| + 1..|s| - 1];
      CanonicalDigits(digits);
      assert s == s[..|reg| + 1] + digits + [s[|s| - 1]];
    } else if s == QubitRef(reg, id) {
      QubitRefRoundTrip(reg, id);
    }
  }

  const HeadingComment: string := "// Generated from Cirq, Openfermion, and MIT LL\n\n"
  const VersionLine: string := "OPENQASM 2.0;\n"
  const IncludeLine: string := "include \"qelib1.inc\";\n\n"

  /** The register declaration `qreg reg[n];` and the blank line after it. */
  function QregLine(reg: string, nQubits: nat): string
  {
    "qreg " + QubitRef(reg, nQubits) + ";\n\n"
  }

  /** What the output starts with. */
  function Heading(nQubits: nat, reg: string, includeHeading: bool): string
  {
    if includeHeading then HeadingComment + VersionLine + IncludeLine + QregLine(reg, nQubits) else ""
  }

  /** The OpenQASM name of a one-qubit gate of the input format. */
  function OneQubitName(gate: string): Option<string>
  {
    if gate == "H" then Some("h") else if gate == "X" then Some("x") else None
  }

  /** The OpenQASM name of a two-qubit gate of the input format. */
  function TwoQubitName(gate: string): Option<string>
  {
    if gate == "CNOT" then Some("cx") else None
  }

  /** The OpenQASM name of a rotation gate of the input format. */
  function RotationName(gate: string): Option<string>
  {
    if gate == "Rx" then Some("rx")
    else if gate == "Ry" then Some("ry")
    else if gate == "Rz" then Some("rz")
    else None
  }

  predicate Known(gate: string)
  {
    OneQubitName(gate).Some? || TwoQubitName(gate).Some? || RotationName(gate).Some?
  }

  /**
   The text one input line contributes: one OpenQASM statement for a gate
   of the three tables, nothing for any other gate, and `None` where
   `open_fermion_to_qasm` fails to find the qubit ids it reads.
   */
  function TranslateLine(line: Line, reg: string): Option<string>
  {
    var ids := line.ids;
    if OneQubitName(line.gate).Some? then
      if ids == [] then None
      else Some(OneQubitName(line.gate).value + " " + QubitRef(reg, ids[|ids| - 1]) + ";\n")
    else if TwoQubitName(line.gate).Some? then
      if |ids| < 2 then None
      else Some(TwoQubitName(line.gate).value + " " + QubitRef(reg, ids[0]) + "," + QubitRef(reg, ids[1]) + ";\n")
    else if RotationName(line.gate).Some? then
      if ids == [] then None
      else Some(RotationName(line.gate).value + "(pi*" + line.angle + ") " + QubitRef(reg, ids[|ids| - 1]) + ";\n")
    else Some("")
  }

  /** The translation of every line, in input order. */
  function TranslateAll(lines: seq<Line>, reg: string): (ps: seq<Option<string>>)
    ensures |ps| == |lines|
  {
    seq(|lines|, i requires 0 <= i < |lines| => TranslateLine(lines[i], reg))
  }

  /** The pieces concatenated in order, or `None` once one of them is missing. */
  function Join(ps: seq<Option<string>>): Option<string>
  {
    if ps == [] then Some("")
    else
      var front := Join(ps[..|ps| - 1]);
      var last := ps[|ps| - 1];
      if front.Some? && last.Some? then Some(front.value + last.value) else None
  }

  /** The translations of the lines, in order, or `None` once one fails. */
  function Translate(lines: seq<Line>, reg: string): Option<string>
  {
    Join(TranslateAll(lines, reg))
  }

  /** The whole output: the heading followed by the translated lines. */
  function Qasm(nQubits: nat, lines: seq<Line>, reg: string, includeHeading: bool): Option<string>
  {
    var body := Translate(lines, reg);
    if body.Some? then Some(Heading(nQubits, reg, includeHeading) + body.value) else None
  }

  /** `open_fermion_to_qasm`: appends the translation of each line to the heading. */
  method OpenFermionToQasm(nQubits: nat, lines: seq<Line>, reg: string, includeHeading: bool)
      returns (r: Option<string>)
    ensures r == Qasm(nQubits, lines, reg, includeHeading)
  {
    var out: string;
    if includeHeading {
      out := HeadingComment;
      out := out + VersionLine;
      out := out + IncludeLine;
      out := out + QregLine(reg, nQubits);
    } else {
      out := "";
    }
    ghost var pieces := TranslateAll(lines, reg);
    ghost var head := Heading(nQubits, reg, includeHeading);
    assert out == head + Join(pieces[..0]).value;
    for i := 0 to |lines|
      invariant Join(pieces[..i]).Some?
      invariant out == head + Join(pieces[..i]).value
    {
      var t := TranslateLine(lines[i], reg);
      assert t == pieces[i];
      JoinStep(pieces, i);
      if t.None? {
        JoinFails(pieces, i + 1);
        return None;
      }
      ghost var done := Join(pieces[..i]).value;
      assert Join(pieces[..i + 1]).value == done + t.value;
      Assoc(head, done, t.value);
      out := out + t.value;
    }
    assert pieces[..|lines|] == pieces;
    r := Some(out);
  }

  // ---------------------------------------------------------------------
  // Properties of the translation
  // ---------------------------------------------------------------------

  /** One more piece: it follows the pieces before it. */
  lemma {:induction false} JoinStep(ps: seq<Option<string>>, i: nat)
    requires i < |ps|
    ensures var front := Join(ps[..i]);
      Join(ps[..i + 1]) == if front.Some? && ps[i].Some? then Some(front.value + ps[i].value) else None
  {
    assert ps[..i + 1][..i] == ps[..i];
  }

  /** Once a prefix of the pieces is missing one, the whole join fails. */
  lemma {:induction false} JoinFails(ps: seq<Option<string>>, n: nat)
    requires n <= |ps| && Join(ps[..n]).None?
    ensures Join(ps).None?
    decreases |ps| - n
  {
    if n < |ps| {
      JoinStep(ps, n);
      JoinFails(ps, n + 1);
    } else {
      assert ps[..n] == ps;
    }
  }

  lemma {:induction false} JoinAppend(a: seq<Option<string>>, b: seq<Option<string>>)
    ensures Join(a + b) == if Join(a).Some? && Join(b).Some? then Some(Join(a).value + Join(b).value) else None
    decreases |b|
  {
    if b == [] {
      assert a + b == a;
      if Join(a).Some? {
        assert Join(a).value + "" == Join(a).value;
      }
    } else {
      var b' := b[..|b| - 1];
      assert (a + b)[..|a + b| - 1] == a + b';
      JoinAppend(a, b');
      var ja, jb', last := Join(a), Join(b'), b[|b| - 1];
      if ja.Some? && jb'.Some? && last.Some? {
        assert ja.value + jb'.value + last.value == ja.value + (jb'.value + last.value);
      }
    }
  }

  /** A line fails the whole translation exactly when its own translation fails. */
  lemma {:induction false} TranslateFailsExactly(lines: seq<Line>, reg: string)
    ensures Translate(lines, reg).None? <==> exists i :: 0 <= i < |lines| && TranslateLine(lines[i], reg).None?
  {
    if lines != [] {
      var front := lines[..|lines| - 1];
      TranslateAllPrefix(lines, reg);
      TranslateFailsExactly(front, reg);
      if Translate(lines, reg).None? && Translate(front, reg).None? {
        var i :| 0 <= i < |front| && TranslateLine(front[i], reg).None?;
        assert lines[i] == front[i];
      }
    }
  }

  lemma {:induction false} TranslateAllPrefix(lines: seq<Line>, reg: string)
    requires lines != []
    ensures TranslateAll(lines, reg)[..|lines| - 1] == TranslateAll(lines[..|lines| - 1], reg)
  {
  }

  /** The translation of two runs of lines is the translation of each, concatenated. */
  lemma {:induction false} TranslateAppend(a: seq<Line>, b: seq<Line>, reg: string)
    ensures Translate(a + b, reg) ==
      if Translate(a, reg).Some? && Translate(b, reg).Some? then Some(Translate(a, reg).value + Translate(b, reg).value) else None
  {
    assert TranslateAll(a + b, reg) == TranslateAll(a, reg) + TranslateAll(b, reg);
    JoinAppend(TranslateAll(a, reg), TranslateAll(b, reg));
  }

  /** With the heading the output starts with its four parts, in order; without it the output is the translated lines alone. */
  lemma {:induction false} QasmHeading(nQubits: nat, lines: seq<Line>, reg: string, includeHeading: bool)
    requires Qasm(nQubits, lines, reg, includeHeading).Some?
    ensures var out := Qasm(nQubits, lines, reg, includeHeading).value;
      var head := HeadingComment + VersionLine + IncludeLine + QregLine(reg, nQubits);
      if includeHeading then |head| <= |out| && out[..|head|] == head && out[|head|..] == Translate(lines, reg).value
      else out == Translate(lines, reg).value
  {
  }

  /** The register declaration names `nQubits` qubits. */
  lemma {:induction false} QregRoundTrip(reg: string, nQubits: nat)
    ensures var q := QregLine(reg, nQubits);
      |q| >= 8 && q[..5] == "qreg " && q[|q| - 3..] == ";\n\n" && ReadQubitRef(reg, q[5..|q| - 3]) == Some(nQubits)
  {
    var q := QregLine(reg, nQubits);
    var ref := QubitRef(reg, nQubits);
    assert q == "qreg " + ref + ";\n\n";
    assert q[5..|q| - 3] == ref;
    QubitRefRoundTrip(reg, nQubits);
  }

  /**
   An `H` or `X` line becomes `h reg[id];` or `x reg[id];` for the last id
   on the line, and fails when the line has no id.
   */
  lemma {:induction false} OneQubitLine(line: Line, reg: string)
    requires line.gate == "H" || line.gate == "X"
    ensures line.ids == [] <==> TranslateLine(line, reg).None?
    ensures line.ids != [] ==>
      exists ref :: ReadQubitRef(reg, ref) == Some(line.ids[|line.ids| - 1])
        && TranslateLine(line, reg) == Some((if line.gate == "H" then "h" else "x") + " " + ref + ";\n")
  {
    if line.ids != [] {
      var ref := QubitRef(reg, line.ids[|line.ids| - 1]);
      QubitRefRoundTrip(reg, line.ids[|line.ids| - 1]);
      assert TranslateLine(line, reg) == Some((if line.gate == "H" then "h" else "x") + " " + ref + ";\n");
    }
  }

  /**
   A `CNOT a b ...` line becomes `cx reg[a],reg[b];`, and a line with fewer
   than two ids fails.
   */
  lemma {:induction false} CnotLine(line: Line, reg: string)
    requires line.gate == "CNOT"
    ensures |line.ids| < 2 <==> TranslateLine(line, reg).None?
    ensures |line.ids| >= 2 ==> exists ref0, ref1 ::
      && ReadQubitRef(reg, ref0) == Some(line.ids[0]) && ReadQubitRef(reg, ref1) == Some(line.ids[1])
      && TranslateLine(line, reg) == Some("cx" + " " + ref0 + "," + ref1 + ";\n")
  {
    if |line.ids| >= 2 {
      var ref0, ref1 := QubitRef(reg, line.ids[0]), QubitRef(reg, line.ids[1]);
      QubitRefRoundTrip(reg, line.ids[0]);
      QubitRefRoundTrip(reg, line.ids[1]);
      assert TranslateLine(line, reg) == Some("cx" + " " + ref0 + "," + ref1 + ";\n");
    }
  }

  /** A line whose gate is in none of the tables leaves the output as it is. */
  lemma {:induction false} UnknownGateSkipped(lines: seq<Line>, line: Line, reg: string)
    requires !Known(line.gate)
    ensures Translate(lines + [line], reg) == Translate(lines, reg)
  {
    TranslateAppend(lines, [line], reg);
    var ps := TranslateAll([line], reg);
    assert ps[0] == TranslateLine(line, reg) == Some("");
    assert ps[..0] == [] && ps[..1] == ps;
    JoinStep(ps, 0);
    var empty: string := "";
    assert empty + empty == empty;
    assert Translate([line], reg) == Some(empty);
    var front := Translate(lines, reg);
    if front.Some? {
      assert front.value + empty == front.value;
    }
  }

  function Newlines(s: string): nat
  {
    if s == [] then 0 else Newlines(s[..|s| - 1]) + (if s[|s| - 1] == '\n' then 1 else 0)
  }

  lemma {:induction false} NewlinesAppend(a: string, b: string)
    ensures Newlines(a + b) == Newlines(a) + Newlines(b)
    decreases |b|
  {
    if b == [] {
      assert a + b == a;
    } else {
      assert (a + b)[..|a + b| - 1] == a + b[..|b| - 1];
      NewlinesAppend(a, b[..|b| - 1]);
    }
  }

  lemma {:induction false} NewlinesNone(s: string)
    requires forall i :: 0 <= i < |s| ==> s[i] != '\n'
    ensures Newlines(s) == 0
  {
    if s != [] {
      NewlinesNone(s[..|s| - 1]);
    }
  }

  /** The number of lines whose gate is in one of the tables. */
  function KnownLines(lines: seq<Line>): nat
  {
    if lines == [] then 0 else KnownLines(lines[..|lines| - 1]) + (if Known(lines[|lines| - 1].gate) then 1 else 0)
  }

  predicate NoNewline(s: string)
  {
    forall i :: 0 <= i < |s| ==> s[i] != '\n'
  }

  lemma {:induction false} RefNoNewline(reg: string, id: nat)
    requires NoNewline(reg)
    ensures NoNewline(QubitRef(reg, id))
  {
    var digits := NatToString(id);
    assert QubitRef(reg, id) == reg + "[" + digits + "]";
  }

  /** A statement followed by a line break is one output line. */
  lemma {:induction false} StatementNewlines(pre: string)
    requires NoNewline(pre)
    ensures Newlines(pre + "\n") == 1
  {
    NewlinesAppend(pre, "\n");
    NewlinesNone(pre);
    assert ("\n")[..0] == "";
  }

  lemma {:induction false} NoNewlineJoin(a: string, b: string)
    requires NoNewline(a) && NoNewline(b)
    ensures NoNewline(a + b)
  {
    assert forall i :: 0 <= i < |a + b| ==> (a + b)[i] == if i < |a| then a[i] else b[i - |a|];
  }

  /** A translated line is one statement ending its own output line; an unknown gate adds none. */
  lemma {:induction false} LineNewlines(line: Line, reg: string)
    requires NoNewline(reg) && NoNewline(line.angle) && TranslateLine(line, reg).Some?
    ensures Newlines(TranslateLine(line, reg).value) == if Known(line.gate) then 1 else 0
    ensures Known(line.gate) ==> TranslateLine(line, reg).value[|TranslateLine(line, reg).value| - 1] == '\n'
  {
    var ids := line.ids;
    if OneQubitName(line.gate).Some? {
      var ref := QubitRef(reg, ids[|ids| - 1]);
      RefNoNewline(reg, ids[|ids| - 1]);
      var name := OneQubitName(line.gate).value;
      NoNewlineJoin(name, " ");
      NoNewlineJoin(name + " ", ref);
      NoNewlineJoin(name + " " + ref, ";");
      assert TranslateLine(line, reg).value == name + " " + ref + ";" + "\n";
      StatementNewlines(name + " " + ref + ";");
    } else if TwoQubitName(line.gate).Some? {
      var ref0, ref1 := QubitRef(reg, ids[0]), QubitRef(reg, ids[1]);
      RefNoNewline(reg, ids[0]);
      RefNoNewline(reg, ids[1]);
      var name := TwoQubitName(line.gate).value;
      NoNewlineJoin(name, " ");
      NoNewlineJoin(name + " ", ref0);
      NoNewlineJoin(name + " " + ref0, ",");
      NoNewlineJoin(name + " " + ref0 + ",", ref1);
      NoNewlineJoin(name + " " + ref0 + "," + ref1, ";");
      assert TranslateLine(line, reg).value == name + " " + ref0 + "," + ref1 + ";" + "\n";
      StatementNewlines(name + " " + ref0 + "," + ref1 + ";");
    } else if RotationName(line.gate).Some? {
      var ref := QubitRef(reg, ids[|ids| - 1]);
      RefNoNewline(reg, ids[|ids| - 1]);
      var name := RotationName(line.gate).value;
      NoNewlineJoin(name, "(pi*");
      NoNewlineJoin(name + "(pi*", line.angle);
      NoNewlineJoin(name + "(pi*" + line.angle, ") ");
      NoNewlineJoin(name + "(pi*" + line.angle + ") ", ref);
      NoNewlineJoin(name + "(pi*" + line.angle + ") " + ref, ";");
      assert TranslateLine(line, reg).value == name + "(pi*" + line.angle + ") " + ref + ";" + "\n";
      StatementNewlines(name + "(pi*" + line.angle + ") " + ref + ";");
    }
  }

  /** Each input line with a known gate becomes exactly one output line. */
  lemma {:induction false} TranslateNewlines(lines: seq<Line>, reg: string)
    requires NoNewline(reg) && forall i :: 0 <= i < |lines| ==> NoNewline(lines[i].angle)
    requires Translate(lines, reg).Some?
    ensures Newlines(Translate(lines, reg).value) == KnownLines(lines)
  {
    if lines != [] {
      var front, last := lines[..|lines| - 1], lines[|lines| - 1];
      TranslateAllPrefix(lines, reg);
      TranslateNewlines(front, reg);
      LineNewlines(last, reg);
      NewlinesAppend(Translate(front, reg).value, TranslateLine(last, reg).value);
    }
  }

  // ---------------------------------------------------------------------
  // T-gate count
  // ---------------------------------------------------------------------

  /** A circuit as the printed forms of its operations, moment by moment. */
  type Moments = seq<seq<string>>

  predicate StartsWithT(op: string)
  {
    |op| > 0 && op[0] == 'T'
  }

  /** How many operations of one moment print starting with `T`. */
  function MomentTCount(moment: seq<string>): nat
  {
    if moment == [] then 0
    else MomentTCount(moment[..|moment| - 1]) + (if StartsWithT(moment[|moment| - 1]) then 1 else 0)
  }

  /** How many operations of the circuit print starting with `T`. */
  function TCount(circuit: Moments): nat
  {
    if circuit == [] then 0 else TCount(circuit[..|circuit| - 1]) + MomentTCount(circuit[|circuit| - 1])
  }

  function OpCount(circuit: Moments): nat
  {
    if circuit == [] then 0 else OpCount(circuit[..|circuit| - 1]) + |circuit[|circuit| - 1]|
  }

  /** `count_T_gates`: one increment per operation whose printed form starts with `T`. */
  method CountTGates(circuit: Moments) returns (count: nat)
    ensures count == TCount(circuit)
  {
    count := 0;
    for i := 0 to |circuit|
      invariant count == TCount(circuit[..i])
    {
      var moment := circuit[i];
      assert circuit[..i + 1][..i] == circuit[..i];
      ghost var before := count;
      for j := 0 to |moment|
        invariant count == before + MomentTCount(moment[..j])
      {
        assert moment[..j + 1][..j] == moment[..j];
        if |moment[j]| > 0 && moment[j][0] == 'T' {
          count := count + 1;
        }
      }
      assert moment[..|moment|] == moment;
    }
    assert circuit[..|circuit|] == circuit;
  }

  lemma {:induction false} MomentTCountBound(moment: seq<string>)
    ensures MomentTCount(moment) <= |moment|
    ensures MomentTCount(moment) == |moment| <==> forall i :: 0 <= i < |moment| ==> StartsWithT(moment[i])
    ensures MomentTCount(moment) == 0 <==> forall i :: 0 <= i < |moment| ==> !StartsWithT(moment[i])
  {
    if moment != [] {
      var front := moment[..|moment| - 1];
      MomentTCountBound(front);
      assert forall i :: 0 <= i < |front| ==> front[i] == moment[i];
    }
  }

  /** The count never exceeds the number of operations, and is zero exactly when no operation starts with `T`. */
  lemma {:induction false} TCountBound(circuit: Moments)
    ensures TCount(circuit) <= OpCount(circuit)
    ensures TCount(circuit) == 0 <==>
      forall m, i :: 0 <= m < |circuit| && 0 <= i < |circuit[m]| ==> !StartsWithT(circuit[m][i])
  {
    if circuit != [] {
      var front := circuit[..|circuit| - 1];
      TCountBound(front);
      MomentTCountBound(circuit[|circuit| - 1]);
      assert forall m :: 0 <= m < |front| ==> front[m] == circuit[m];
    }
  }

  /** Counting two circuits one after the other adds their counts. */
  lemma {:induction false} TCountAppend(a: Moments, b: Moments)
    ensures TCount(a + b) == TCount(a) + TCount(b)
    decreases |b|
  {
    if b == [] {
      assert a + b == a;
    } else {
      assert (a + b)[..|a + b| - 1] == a + b[..|b| - 1];
      TCountAppend(a, b[..|b| - 1]);
    }
  }
}
