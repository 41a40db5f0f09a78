/**
 Bit-list helpers of the Select-V generator: `constructBooleanTree`
 (fixed-width big-endian binary of a number), `incrementBooleanTree`
 (ripple-carry increment on a list of booleans) and the Hamming distance
 `h_distance` used by `stepRight`.
 */
module BooleanTree {
  import opened Wrappers
  import opened Gates

  function Pow2(n: nat): (r: nat)
    ensures r >= 1
  {
    if n == 0 then 1 else 2 * Pow2(n - 1)
  }

  function BitVal(b: bool): nat
  {
    if b then 1 else 0
  }

  /** The number a list of booleans denotes, most significant bit first. */
  function Value(b: seq<bool>): nat
  {
    if b == [] then 0 else 2 * Value(b[..|b| - 1]) + BitVal(b[|b| - 1])
  }

  /** The number a list of booleans denotes, least significant bit first. */
  function LittleValue(m: seq<bool>): nat
  {
    if m == [] then 0 else BitVal(m[0]) + 2 * LittleValue(m[1..])
  }

  function Zeros(k: nat): (r: seq<bool>)
    ensures |r| == k && forall i :: 0 <= i < k ==> !r[i]
  {
    seq(k, _ => false)
  }

  predicate AllTrue(b: seq<bool>)
  {
    forall i :: 0 <= i < |b| ==> b[i]
  }

  /** Number of True entries at the end of the list. */
  function TrailingOnes(b: seq<bool>): nat
  {
    if b == [] || !b[|b| - 1] then 0 else 1 + TrailingOnes(b[..|b| - 1])
  }

  /** Number of True entries at the start of the list. */
  function LeadingOnes(m: seq<bool>): nat
  {
    if m == [] || !m[0] then 0 else 1 + LeadingOnes(m[1..])
  }

  /** `bin(n)[2:]` as booleans: no leading zeros, and `[False]` for 0. */
  function Binary(n: nat): seq<bool>
  {
    if n < 2 then [n == 1] else Binary(n / 2) + [n % 2 == 1]
  }

  /** `constructBooleanTree(n, m)`: `bin(n)[2:]` left-padded with False to width `m`. */
  function ConstructBooleanTree(n: nat, m: nat): seq<bool>
  {
    var bits := Binary(n);
    Zeros(if m > |bits| then m - |bits| else 0) + bits
  }

  /** `incBT`: increment of a little-endian list; `m[0]` raises on the empty list. */
  function IncBT(m: seq<bool>): Option<seq<bool>>
  {
    if m == [] then None
    else if !m[0] then Some([true] + m[1..])
    else match IncBT(m[1..])
      case None => None
      case Some(t) => Some([false] + t)
  }

  /**
   `incrementBooleanTree(n)`: reverse a copy, increment it little-endian,
   reverse back. An all-True (or empty) list makes `incBT` raise, which is
   `None` here.
   */
  function IncrementBooleanTree(n: seq<bool>): Option<seq<bool>>
  {
    match IncBT(Reverse(n))
    case None => None
    case Some(t) => Some(Reverse(t))
  }

  /** `h_distance`: number of differing positions of `zip(val1, val2)`. */
  function HDistance(val1: seq<bool>, val2: seq<bool>): nat
  {
    if val1 == [] || val2 == [] then 0
    else (if val1[0] == val2[0] then 0 else 1) + HDistance(val1[1..], val2[1..])
  }

  // ----- binary encoding -----

  lemma {:induction false} BinaryValue(n: nat)
    ensures Value(Binary(n)) == n
    ensures |Binary(n)| >= 1
    decreases n
  {
    if n >= 2 {
      var b := Binary(n);
      assert b[..|b| - 1] == Binary(n / 2);
      BinaryValue(n / 2);
    }
  }

  /** For a positive width, `bin(n)` fits in `m` digits exactly when `n < 2^m`. */
  lemma {:induction false} BinaryLength(n: nat, m: nat)
    requires m >= 1
    ensures |Binary(n)| <= m <==> n < Pow2(m)
    decreases n
  {
    if n >= 2 {
      BinaryValue(n / 2);
      if m == 1 {
        assert |Binary(n)| == |Binary(n / 2)| + 1 > 1;
      } else {
        BinaryLength(n / 2, m - 1);
      }
    }
  }

  lemma {:induction false} ValueAppend(a: seq<bool>, c: seq<bool>)
    ensures Value(a + c) == Value(a) * Pow2(|c|) + Value(c)
    decreases |c|
  {
    if c == [] {
      assert a + c == a;
    } else {
      var c' := c[..|c| - 1];
      var bit := BitVal(c[|c| - 1]);
      assert (a + c)[..|a + c| - 1] == a + c';
      assert Value(a + c) == 2 * Value(a + c') + bit;
      ValueAppend(a, c');
      Regroup(Value(a), Pow2(|c'|), Value(c'), bit);
    }
  }

  lemma {:induction false} Regroup(va: nat, p: nat, vc: nat, bit: nat)
    ensures 2 * (va * p + vc) + bit == va * (2 * p) + (2 * vc + bit)
  {
  }

  lemma {:induction false} ValueZeros(k: nat)
    ensures Value(Zeros(k)) == 0
  {
    if k > 0 {
      assert Zeros(k)[..k - 1] == Zeros(k - 1);
      ValueZeros(k - 1);
    }
  }

  lemma {:induction false} ValueAllTrue(b: seq<bool>)
    requires AllTrue(b)
    ensures Value(b) + 1 == Pow2(|b|)
  {
    if b != [] {
      ValueAllTrue(b[..|b| - 1]);
    }
  }

  lemma {:induction false} ValueBound(b: seq<bool>)
    ensures Value(b) < Pow2(|b|)
  {
    if b != [] {
      ValueBound(b[..|b| - 1]);
    }
  }

  /** Two lists of one width that denote the same number are equal. */
  lemma {:induction false} ValueInjective(a: seq<bool>, b: seq<bool>)
    requires |a| == |b| && Value(a) == Value(b)
    ensures a == b
  {
    if a != [] {
      var n := |a| - 1;
      assert a[n] == b[n];
      ValueInjective(a[..n], b[..n]);
      assert a == a[..n] + [a[n]] && b == b[..n] + [b[n]];
    }
  }

  /**
   `constructBooleanTree(n, m)` always denotes `n`; it is `m` long when `n`
   fits in a positive width `m`, and longer than `m` otherwise.
   */
  lemma {:induction false} ConstructBooleanTreeCorrect(n: nat, m: nat)
    ensures Value(ConstructBooleanTree(n, m)) == n
    ensures m >= 1 && n < Pow2(m) ==> |ConstructBooleanTree(n, m)| == m
    ensures n >= Pow2(m) ==> |ConstructBooleanTree(n, m)| > m
  {
    var bits := Binary(n);
    var pad := if m > |bits| then m - |bits| else 0;
    BinaryValue(n);
    ValueAppend(Zeros(pad), bits);
    ValueZeros(pad);
    if m >= 1 {
      BinaryLength(n, m);
    } else {
      assert Pow2(0) == 1;
    }
  }

  /** With no width at all, 0 is still written as one False digit. */
  lemma {:induction false} ConstructBooleanTreeZeroWidth()
    ensures ConstructBooleanTree(0, 0) == [false]
  {
  }

  // ----- increment -----

  lemma {:induction false} LittleValueReverse(b: seq<bool>)
    ensures LittleValue(Reverse(b)) == Value(b)
  {
    if b != [] {
      var p := b[..|b| - 1];
      assert Reverse(b)[1..] == Reverse(p);
      LittleValueReverse(p);
    }
  }

  lemma {:induction false} IncBTCorrect(m: seq<bool>)
    ensures IncBT(m).None? <==> AllTrue(m)
    ensures IncBT(m).Some? ==>
      |IncBT(m).value| == |m| && LittleValue(IncBT(m).value) == LittleValue(m) + 1
    ensures IncBT(m).Some? ==> HDistance(m, IncBT(m).value) == 1 + LeadingOnes(m)
  {
    if m != [] {
      IncBTCorrect(m[1..]);
      if !m[0] {
        HDistanceSelf(m[1..]);
        assert ([true] + m[1..])[1..] == m[1..];
      } else {
        assert AllTrue(m[1..]) ==> AllTrue(m) by {
          if AllTrue(m[1..]) {
            forall i | 0 <= i < |m| ensures m[i] {
              if i > 0 { assert m[i] == m[1..][i - 1]; }
            }
          }
        }
        if IncBT(m[1..]).Some? {
          var t := IncBT(m[1..]).value;
          assert ([false] + t)[1..] == t;
        }
      }
    }
  }

  lemma {:induction false} HDistanceSelf(a: seq<bool>)
    ensures HDistance(a, a) == 0
  {
    if a != [] {
      HDistanceSelf(a[1..]);
    }
  }

  lemma {:induction false} HDistanceSnoc(a: seq<bool>, b: seq<bool>, x: bool, y: bool)
    requires |a| == |b|
    ensures HDistance(a + [x], b + [y]) == HDistance(a, b) + (if x == y then 0 else 1)
  {
    if a != [] {
      assert (a + [x])[1..] == a[1..] + [x];
      assert (b + [y])[1..] == b[1..] + [y];
      HDistanceSnoc(a[1..], b[1..], x, y);
    } else {
      assert a + [x] == [x] && b + [y] == [y];
    }
  }

  /** Reversing both lists does not change their Hamming distance. */
  lemma {:induction false} HDistanceReverse(a: seq<bool>, b: seq<bool>)
    requires |a| == |b|
    ensures HDistance(Reverse(a), Reverse(b)) == HDistance(a, b)
  {
    if a != [] {
      var n := |a| - 1;
      assert Reverse(a)[1..] == Reverse(a[..n]);
      assert Reverse(b)[1..] == Reverse(b[..n]);
      HDistanceReverse(a[..n], b[..n]);
      HDistanceSnoc(a[..n], b[..n], a[n], b[n]);
      assert a[..n] + [a[n]] == a && b[..n] + [b[n]] == b;
    }
  }

  lemma {:induction false} LeadingOnesReverse(b: seq<bool>)
    ensures LeadingOnes(Reverse(b)) == TrailingOnes(b)
  {
    if b != [] {
      var p := b[..|b| - 1];
      assert Reverse(b)[1..] == Reverse(p);
      LeadingOnesReverse(p);
    }
  }

  lemma {:induction false} AllTrueReverse(b: seq<bool>)
    ensures AllTrue(Reverse(b)) <==> AllTrue(b)
  {
    if AllTrue(Reverse(b)) {
      forall i | 0 <= i < |b| ensures b[i] {
        assert b[i] == Reverse(b)[|b| - 1 - i];
      }
    }
  }

  /**
   `incrementBooleanTree` fails exactly on an all-True list; otherwise the
   result has the same length and denotes the next number.
   */
  lemma {:induction false} IncrementBooleanTreeCorrect(b: seq<bool>)
    ensures IncrementBooleanTree(b).None? <==> AllTrue(b)
    ensures IncrementBooleanTree(b).Some? ==>
      |IncrementBooleanTree(b).value| == |b| &&
      Value(IncrementBooleanTree(b).value) == Value(b) + 1
  {
    IncBTCorrect(Reverse(b));
    AllTrueReverse(b);
    if IncBT(Reverse(b)).Some? {
      var t := IncBT(Reverse(b)).value;
      LittleValueReverse(b);
      LittleValueReverse(Reverse(t));
      ReverseReverse(t);
    }
  }

  /**
   `h_distance(b, incrementBooleanTree(b))` is one more than the number of
   trailing True entries of `b`; in particular it is never 0.
   */
  lemma {:induction false} IncrementDistance(b: seq<bool>)
    requires !AllTrue(b)
    ensures IncrementBooleanTree(b).Some?
    ensures HDistance(b, IncrementBooleanTree(b).value) == 1 + TrailingOnes(b)
  {
    IncBTCorrect(Reverse(b));
    AllTrueReverse(b);
    var t := IncBT(Reverse(b)).value;
    HDistanceReverse(Reverse(b), t);
    ReverseReverse(b);
    LeadingOnesReverse(b);
  }

  /** Incrementing the encoding of `n` gives the encoding of `n + 1` at the same width. */
  lemma {:induction false} IncrementConstruct(n: nat, m: nat)
    requires n + 1 < Pow2(m)
    ensures IncrementBooleanTree(ConstructBooleanTree(n, m)) == Some(ConstructBooleanTree(n + 1, m))
  {
    var b := ConstructBooleanTree(n, m);
    ConstructBooleanTreeCorrect(n, m);
    ConstructBooleanTreeCorrect(n + 1, m);
    if AllTrue(b) {
      ValueAllTrue(b);
    }
    IncrementBooleanTreeCorrect(b);
    ValueInjective(IncrementBooleanTree(b).value, ConstructBooleanTree(n + 1, m));
  }

  /** Dropping a trailing True entry leaves a list that is still not all True. */
  lemma {:induction false} TrailingOnesPrefix(b: seq<bool>)
    requires !AllTrue(b) && TrailingOnes(b) >= 1
    ensures |b| >= 1 && !AllTrue(b[..|b| - 1])
    ensures TrailingOnes(b[..|b| - 1]) == TrailingOnes(b) - 1
  {
    var p := b[..|b| - 1];
    if AllTrue(p) {
      forall i | 0 <= i < |b| ensures b[i] {
        if i < |b| - 1 { assert b[i] == p[i]; }
      }
    }
  }

  lemma {:induction false} TrailingOnesBound(b: seq<bool>)
    ensures TrailingOnes(b) <= |b|
    ensures !AllTrue(b) ==> TrailingOnes(b) < |b|
  {
    if b != [] && b[|b| - 1] {
      var p := b[..|b| - 1];
      TrailingOnesBound(p);
      if AllTrue(p) {
        forall i | 0 <= i < |b| ensures b[i] {
          if i < |b| - 1 { assert b[i] == p[i]; }
        }
      }
    }
  }
}
