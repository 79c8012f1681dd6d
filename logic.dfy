/** Tri-state logic levels and the two-input truth functions that the gates of
    Lab2Ass.cpp compute. Every function lets Undefined poison its result before
    applying the gate's own logic. */
module Logic {

  /** eLogicLevel: LOGIC_UNDEFINED (-1), LOGIC_LOW (0), LOGIC_HIGH (1). */
  datatype LogicLevel = Undefined | Low | High

  predicate Defined(l: LogicLevel) {
    l != Undefined
  }

  /** The numeric value of a driven level, as the enumeration numbers it. */
  function Bit(l: LogicLevel): (b: nat)
    requires Defined(l)
    ensures b <= 1
    ensures b == 1 <==> l == High
  {
    if l == High then 1 else 0
  }

  /** CGate::ComputeOutput: the base gate is a NAND. */
  function Nand3(a: LogicLevel, b: LogicLevel): (r: LogicLevel)
    ensures r == Undefined <==> a == Undefined || b == Undefined
    ensures r == Low <==> a == High && b == High
  {
    if a == Undefined || b == Undefined then Undefined
    else if a == High && b == High then Low
    else High
  }

  /** CANDGate::ComputeOutput. */
  function And3(a: LogicLevel, b: LogicLevel): (r: LogicLevel)
    ensures r == Undefined <==> a == Undefined || b == Undefined
    ensures r == High <==> a == High && b == High
  {
    if a == Undefined || b == Undefined then Undefined
    else if a == High && b == High then High
    else Low
  }

  /** CORGate::ComputeOutput. */
  function Or3(a: LogicLevel, b: LogicLevel): (r: LogicLevel)
    ensures r == Undefined <==> a == Undefined || b == Undefined
    ensures r == High <==> Defined(a) && Defined(b) && (a == High || b == High)
  {
    if a == Undefined || b == Undefined then Undefined
    else if a == High || b == High then High
    else Low
  }

  /** CXORGate::ComputeOutput: High when exactly one of the two inputs is High. */
  function Xor3(a: LogicLevel, b: LogicLevel): (r: LogicLevel)
    ensures r == Undefined <==> a == Undefined || b == Undefined
    ensures r == High <==> Defined(a) && Defined(b) && a != b
  {
    if a == Undefined || b == Undefined then Undefined
    else if (a == High) != (b == High) then High
    else Low
  }

  /** On driven levels the three gates are the arithmetic of single bits. */
  lemma DefinedGateArithmetic(a: LogicLevel, b: LogicLevel)
    requires Defined(a) && Defined(b)
    ensures Defined(And3(a, b)) && Bit(And3(a, b)) == Bit(a) * Bit(b)
    ensures Defined(Or3(a, b)) && Bit(Or3(a, b)) == Bit(a) + Bit(b) - Bit(a) * Bit(b)
    ensures Defined(Xor3(a, b)) && Bit(Xor3(a, b)) == (Bit(a) + Bit(b)) % 2
    ensures Defined(Nand3(a, b)) && Bit(Nand3(a, b)) == 1 - Bit(a) * Bit(b)
  {
  }
}
