/** What the adders of Lab2Ass.cpp compute, as functions of their input levels:
    the half adder (one XOR, one AND), the full adder (two half adders and an OR
    on their carries), the 3-bit parallel adder of CParallelAdder, and the same
    ripple-carry chain at any width. The lemmas state the arithmetic each one
    performs on driven levels. */
module AdderSpec {
  import opened Logic

  /** Width of the operands of the parallel adder. */
  const MaxBinaryInput := 3

  /** CHalfAdder::AdderResult. */
  datatype AdderResult = AdderResult(sum: LogicLevel, carry: LogicLevel)

  /** CHalfAdder::HalfAdderOutput: Sum from the XOR gate, Carry from the AND gate. */
  function HalfAdd(a: LogicLevel, b: LogicLevel): (r: AdderResult)
    ensures Defined(a) && Defined(b) ==>
              Defined(r.sum) && Defined(r.carry) &&
              2 * Bit(r.carry) + Bit(r.sum) == Bit(a) + Bit(b)
    ensures !Defined(a) || !Defined(b) ==> r == AdderResult(Undefined, Undefined)
  {
    AdderResult(Xor3(a, b), And3(a, b))
  }

  /** CFullAdder::FullAdderOutput: the first half adder adds x and y, the second
      adds z to the first sum, and the OR gate merges the two carries. */
  function FullAdd(x: LogicLevel, y: LogicLevel, z: LogicLevel): (r: AdderResult)
    ensures Defined(x) && Defined(y) && Defined(z) ==>
              Defined(r.sum) && Defined(r.carry) &&
              2 * Bit(r.carry) + Bit(r.sum) == Bit(x) + Bit(y) + Bit(z)
    ensures !Defined(x) || !Defined(y) || !Defined(z) ==> r == AdderResult(Undefined, Undefined)
  {
    var halfAdderResult1 := HalfAdd(x, y);
    var halfAdderResult2 := HalfAdd(z, halfAdderResult1.sum);
    AdderResult(halfAdderResult2.sum, Or3(halfAdderResult1.carry, halfAdderResult2.carry))
  }

  /** The full adder's outputs as the textbook gate equations:
      Sum = x XOR y XOR z and Carry = (x AND y) OR (z AND (x XOR y)). */
  lemma FullAddGateEquations(x: LogicLevel, y: LogicLevel, z: LogicLevel)
    ensures FullAdd(x, y, z).sum == Xor3(Xor3(x, y), z)
    ensures FullAdd(x, y, z).carry == Or3(And3(x, y), And3(z, Xor3(x, y)))
  {
  }

  /** Sample rows of the half-adder and full-adder tables: the half adder on
      (Low, Low), (Low, High) and (High, High), and the full adder on three
      equal inputs. */
  lemma AdderExamples()
    ensures HalfAdd(Low, Low) == AdderResult(Low, Low)
    ensures HalfAdd(Low, High) == AdderResult(High, Low)
    ensures HalfAdd(High, High) == AdderResult(Low, High)
    ensures FullAdd(High, High, High) == AdderResult(High, High)
    ensures FullAdd(Low, Low, Low) == AdderResult(Low, Low)
  {
  }

  predicate AllDefined(s: seq<LogicLevel>) {
    forall i | 0 <= i < |s| :: Defined(s[i])
  }

  /** The number a sequence of driven levels denotes, least significant bit first. */
  function Number(s: seq<LogicLevel>): nat
    requires AllDefined(s)
  {
    if s == [] then 0 else Bit(s[0]) + 2 * Number(s[1..])
  }

  function Pow2(n: nat): (p: nat)
    ensures p >= 1
  {
    if n == 0 then 1 else 2 * Pow2(n - 1)
  }

  /** Result of a ripple-carry adder: the sum bits, least significant first,
      and the carry out of the last stage. */
  datatype RippleResult = RippleResult(sum: seq<LogicLevel>, carry: LogicLevel)

  /** A chain of full adders, least significant stage first, each stage taking
      the carry of the stage below it; the argument order of each stage is that
      of the parallel adder: (carry in, bit of A, bit of B). */
  function RippleFrom(a: seq<LogicLevel>, b: seq<LogicLevel>, carry: LogicLevel): (r: RippleResult)
    requires |a| == |b|
    ensures |r.sum| == |a|
    decreases |a|
  {
    if a == [] then RippleResult([], carry)
    else
      var stage := FullAdd(carry, a[0], b[0]);
      var rest := RippleFrom(a[1..], b[1..], stage.carry);
      RippleResult([stage.sum] + rest.sum, rest.carry)
  }

  /** The ripple-carry adder of any width: a half adder on the least significant
      bits, then the chain of full adders. */
  function RippleAdd(a: seq<LogicLevel>, b: seq<LogicLevel>): (r: RippleResult)
    requires |a| == |b| >= 1
    ensures |r.sum| == |a|
  {
    var stage := HalfAdd(a[0], b[0]);
    var rest := RippleFrom(a[1..], b[1..], stage.carry);
    RippleResult([stage.sum] + rest.sum, rest.carry)
  }

  /** A chain of full adders adds its operands and its carry in:
      sum + 2^n * carry-out == A + B + carry-in. */
  lemma {:induction false} RippleFromAdds(a: seq<LogicLevel>, b: seq<LogicLevel>, carry: LogicLevel)
    requires |a| == |b|
    requires AllDefined(a) && AllDefined(b) && Defined(carry)
    ensures AllDefined(RippleFrom(a, b, carry).sum) && Defined(RippleFrom(a, b, carry).carry)
    ensures Number(RippleFrom(a, b, carry).sum) + Pow2(|a|) * Bit(RippleFrom(a, b, carry).carry)
            == Number(a) + Number(b) + Bit(carry)
  {
    if a != [] {
      var stage := FullAdd(carry, a[0], b[0]);
      assert AllDefined(a[1..]) && AllDefined(b[1..]);
      RippleFromAdds(a[1..], b[1..], stage.carry);
      var rest := RippleFrom(a[1..], b[1..], stage.carry);
      var r := RippleFrom(a, b, carry);
      assert r.sum == [stage.sum] + rest.sum;
      assert r.sum[1..] == rest.sum;
      assert AllDefined(r.sum);
      assert Number(r.sum) == Bit(stage.sum) + 2 * Number(rest.sum);
      var p := Pow2(|a| - 1);
      assert Pow2(|a|) == 2 * p;
      if rest.carry == High {
        assert Pow2(|a|) * Bit(r.carry) == 2 * p && p * Bit(rest.carry) == p;
      } else {
        assert Pow2(|a|) * Bit(r.carry) == 0 && p * Bit(rest.carry) == 0;
      }
    }
  }

  /** Once a stage's inputs include Undefined, that stage and every stage above
      it produce Undefined, and so does the carry out. */
  lemma {:induction false} RipplePoisoned(a: seq<LogicLevel>, b: seq<LogicLevel>, carry: LogicLevel, i: nat)
    requires |a| == |b| && i < |a|
    requires !Defined(a[i]) || !Defined(b[i])
    ensures RippleFrom(a, b, carry).carry == Undefined
    ensures forall j | i <= j < |a| :: RippleFrom(a, b, carry).sum[j] == Undefined
  {
    if i == 0 {
      UndefinedCarryPropagates(a[1..], b[1..]);
    } else {
      RipplePoisoned(a[1..], b[1..], FullAdd(carry, a[0], b[0]).carry, i - 1);
    }
  }

  /** A chain of full adders whose carry in is Undefined produces only Undefined. */
  lemma {:induction false} UndefinedCarryPropagates(a: seq<LogicLevel>, b: seq<LogicLevel>)
    requires |a| == |b|
    ensures RippleFrom(a, b, Undefined).carry == Undefined
    ensures forall j | 0 <= j < |a| :: RippleFrom(a, b, Undefined).sum[j] == Undefined
  {
    if a != [] {
      UndefinedCarryPropagates(a[1..], b[1..]);
    }
  }

  /** The half adder of the least significant stage is a full adder whose
      carry in is Low, so the N-bit adder is the full-adder chain from Low. */
  lemma RippleAddFromLow(a: seq<LogicLevel>, b: seq<LogicLevel>)
    requires |a| == |b| >= 1
    ensures RippleAdd(a, b) == RippleFrom(a, b, Low)
  {
  }

  /** The N-bit adder on driven operands: sum + 2^N * carry-out == A + B. */
  lemma RippleAddAdds(a: seq<LogicLevel>, b: seq<LogicLevel>)
    requires |a| == |b| >= 1
    requires AllDefined(a) && AllDefined(b)
    ensures AllDefined(RippleAdd(a, b).sum) && Defined(RippleAdd(a, b).carry)
    ensures Number(RippleAdd(a, b).sum) + Pow2(|a|) * Bit(RippleAdd(a, b).carry) == Number(a) + Number(b)
  {
    RippleAddFromLow(a, b);
    RippleFromAdds(a, b, Low);
  }

  /** The three stage outputs CParallelAdder keeps: the 1s half adder, and the
      2s and 4s full adders. */
  datatype ParallelResult = ParallelResult(halfAdder1s: AdderResult, fullAdder2s: AdderResult, fullAdder4s: AdderResult)

  /** CParallelAdder::ParallelAdderOutput on two 3-bit operands given most
      significant bit first (index 2 is the least significant bit). */
  function ParallelAdd(first: seq<LogicLevel>, second: seq<LogicLevel>): (r: ParallelResult)
    requires |first| == MaxBinaryInput && |second| == MaxBinaryInput
    ensures Defined(r.halfAdder1s.sum) <==> Defined(first[2]) && Defined(second[2])
    ensures Defined(r.fullAdder4s.carry) <==> AllDefined(first) && AllDefined(second)
  {
    var halfAdder1s := HalfAdd(first[2], second[2]);
    var fullAdder2s := FullAdd(halfAdder1s.carry, first[1], second[1]);
    var fullAdder4s := FullAdd(fullAdder2s.carry, first[0], second[0]);
    ParallelResult(halfAdder1s, fullAdder2s, fullAdder4s)
  }

  /** The sequence in the opposite order. */
  function Reverse(s: seq<LogicLevel>): (r: seq<LogicLevel>)
    ensures |r| == |s|
  {
    if s == [] then [] else Reverse(s[1..]) + [s[0]]
  }

  /** The 3-bit parallel adder is the ripple-carry adder of width 3 applied to
      the operands read least significant bit first. */
  lemma ParallelAddIsRipple(first: seq<LogicLevel>, second: seq<LogicLevel>)
    requires |first| == MaxBinaryInput && |second| == MaxBinaryInput
    ensures var p := ParallelAdd(first, second);
            var r := RippleAdd(Reverse(first), Reverse(second));
            r.sum == [p.halfAdder1s.sum, p.fullAdder2s.sum, p.fullAdder4s.sum] &&
            r.carry == p.fullAdder4s.carry
  {
    Reverse3(first);
    Reverse3(second);
    var p := ParallelAdd(first, second);
    RippleFromSingle(first[0], second[0], p.fullAdder2s.carry);
    var ra, rb := [first[2], first[1], first[0]], [second[2], second[1], second[0]];
    assert ra[1..][1..] == [first[0]] && rb[1..][1..] == [second[0]];
    assert RippleFrom(ra[1..], rb[1..], p.halfAdder1s.carry).sum == [p.fullAdder2s.sum, p.fullAdder4s.sum];
  }

  lemma RippleFromSingle(x: LogicLevel, y: LogicLevel, carry: LogicLevel)
    ensures RippleFrom([x], [y], carry) == RippleResult([FullAdd(carry, x, y).sum], FullAdd(carry, x, y).carry)
  {
  }

  lemma Reverse3(s: seq<LogicLevel>)
    requires |s| == 3
    ensures Reverse(s) == [s[2], s[1], s[0]]
  {
    assert s[1..][1..] == s[2..];
    assert Reverse(s[2..]) == [s[2]];
  }

  /** The value of a 3-bit operand written most significant bit first. */
  function Unsigned3(s: seq<LogicLevel>): nat
    requires |s| == MaxBinaryInput && AllDefined(s)
  {
    4 * Bit(s[0]) + 2 * Bit(s[1]) + Bit(s[2])
  }

  /** The correctness law of the 3-bit adder, for all 64 pairs of operands:
      8 * Carry4s + 4 * Sum4s + 2 * Sum2s + Sum1s == A + B. */
  lemma ParallelAddAdds(first: seq<LogicLevel>, second: seq<LogicLevel>)
    requires |first| == MaxBinaryInput && |second| == MaxBinaryInput
    requires AllDefined(first) && AllDefined(second)
    ensures var p := ParallelAdd(first, second);
            Defined(p.halfAdder1s.sum) && Defined(p.fullAdder2s.sum) &&
            Defined(p.fullAdder4s.sum) && Defined(p.fullAdder4s.carry) &&
            8 * Bit(p.fullAdder4s.carry) + 4 * Bit(p.fullAdder4s.sum) +
            2 * Bit(p.fullAdder2s.sum) + Bit(p.halfAdder1s.sum)
            == Unsigned3(first) + Unsigned3(second)
  {
  }

  /** Two sample additions: 011 + 101 and 111 + 001 both give carry High and
      sum 000, that is 8. */
  lemma ParallelAddExamples()
    ensures ParallelAdd([Low, High, High], [High, Low, High]) ==
            ParallelResult(AdderResult(Low, High), AdderResult(Low, High), AdderResult(Low, High))
    ensures ParallelAdd([High, High, High], [Low, Low, High]) ==
            ParallelResult(AdderResult(Low, High), AdderResult(Low, High), AdderResult(Low, High))
  {
  }
}
