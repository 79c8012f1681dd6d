/** The adder classes of Lab2Ass.cpp. Each adder owns its gates and a bank of
    four wires; computing a result first wires the inputs to the gates, then
    drives the wires, then reads the gate outputs back. The results are proved
    equal to the functions of AdderSpec, whose arithmetic is proved there. */
module Adders {
  import opened Logic
  import opened Circuit
  import opened AdderSpec

  /** Number of wires in CHalfAdder::MyWires. */
  const NumWires := 4

  /** Wires i and j of an adder's bank: distinct and valid. */
  ghost predicate WirePair(wires: seq<Wire>, i: nat, j: nat)
    reads wires
  {
    |wires| == NumWires && i < j < NumWires &&
    wires[i] != wires[j] && wires[i].Valid() && wires[j].Valid()
  }

  /** A gate of the given kind with a current output and no output wire. */
  ghost predicate ReadyGate(g: Gate, kind: GateKind)
    reads g
  {
    g.kind == kind && g.Valid() && g.outputConnection == null
  }

  /** The member wire array of an adder: four distinct new wires without connections. */
  method NewWires() returns (wires: seq<Wire>)
    ensures |wires| == NumWires
    ensures forall i | 0 <= i < NumWires :: fresh(wires[i]) && wires[i].Valid() && wires[i].Connections == []
    ensures forall i, j | 0 <= i < j < NumWires :: wires[i] != wires[j]
  {
    var w0 := new Wire();
    var w1 := new Wire();
    var w2 := new Wire();
    var w3 := new Wire();
    wires := [w0, w1, w2, w3];
  }

  /** CHalfAdder: one AND gate, one XOR gate and four wires, of which the half
      adder uses the first two. */
  class HalfAdder {
    /** MyAndGates[0] */
    const andGate: Gate
    /** MyXorGates[0] */
    const xorGate: Gate
    /** MyWires, a member array of wire objects that is never reassigned */
    const wires: seq<Wire>

    ghost predicate Valid()
      reads this, wires, xorGate, andGate
    {
      WirePair(wires, 0, 1) && ReadyGate(xorGate, XorGate) && ReadyGate(andGate, AndGate) &&
      xorGate != andGate
    }

    /** CHalfAdder::CHalfAdder: the member gates are built by CGate::CGate, so
        both inputs and the output of each start Undefined. */
    constructor ()
      ensures Valid() && fresh(xorGate) && fresh(andGate)
      ensures xorGate.inputs[0] == xorGate.inputs[1] == andGate.inputs[0] == andGate.inputs[1] == Undefined
      ensures xorGate.outputValue == andGate.outputValue == Undefined
      ensures forall i | 0 <= i < NumWires :: fresh(wires[i]) && wires[i].Valid() && wires[i].Connections == []
    {
      andGate := new Gate(AndGate);
      xorGate := new Gate(XorGate);
      var w := NewWires();
      wires := w;
    }

    /** The first half of CHalfAdder::HalfAdderOutput: wire 0 is connected to
        input 0 and wire 1 to input 1, first of the XOR gate and then of the
        AND gate. */
    method ConnectGateInputs()
      requires Valid()
      requires wires[0].numOutputConnections + 2 <= MaxFanout
      requires wires[1].numOutputConnections + 2 <= MaxFanout
      modifies wires[0], wires[1]
      ensures Valid()
      ensures wires[0].Connections == old(wires[0].Connections) + [Connection(xorGate, 0), Connection(andGate, 0)]
      ensures wires[1].Connections == old(wires[1].Connections) + [Connection(xorGate, 1), Connection(andGate, 1)]
    {
      // XOR is sum
      wires[0].AddOutputConnection(xorGate, 0);
      wires[1].AddOutputConnection(xorGate, 1);
      // AND is carry
      wires[0].AddOutputConnection(andGate, 0);
      wires[1].AddOutputConnection(andGate, 1);
    }

    /** CHalfAdder::HalfAdderOutput: connect the wires to the gates, drive
        wire 0 with the first level and wire 1 with the second, and read Sum
        from the XOR gate and Carry from the AND gate. Every call adds two
        connections to each of the two wires, so only an instance whose wires
        are still unconnected can take it. */
    method HalfAdderOutput(logicA: LogicLevel, logicB: LogicLevel) returns (result: AdderResult)
      requires Valid()
      requires wires[0].Connections == [] && wires[1].Connections == []
      modifies wires[0], wires[1], xorGate, andGate
      ensures Valid()
      ensures result == HalfAdd(logicA, logicB)
      ensures wires[0].Connections == [Connection(xorGate, 0), Connection(andGate, 0)]
      ensures wires[1].Connections == [Connection(xorGate, 1), Connection(andGate, 1)]
      ensures xorGate.inputs[0] == andGate.inputs[0] == logicA
      ensures xorGate.inputs[1] == andGate.inputs[1] == logicB
    {
      ConnectGateInputs();
      wires[0].DriveLevel(logicA);
      wires[1].DriveLevel(logicB);
      result := AdderResult(xorGate.GetOutputState(), andGate.GetOutputState());
    }
  }

  /** CFullAdder: an OR gate and the four member wires of CHalfAdder, of which
      the full adder uses the last two. (The AND and XOR gates it inherits from
      CHalfAdder are never used and are not modelled.) Wire 2 only ever drives
      input 0 of the OR gate and wire 3 only its input 1. */
  class FullAdder {
    /** MyOrGates[0] */
    const orGate: Gate
    /** MyWires, a member array of wire objects that is never reassigned */
    const wires: seq<Wire>

    ghost predicate Valid()
      reads this, wires, orGate
    {
      WirePair(wires, 2, 3) && ReadyGate(orGate, OrGate) &&
      (forall k | 0 <= k < |wires[2].Connections| :: wires[2].Connections[k] == Connection(orGate, 0)) &&
      (forall k | 0 <= k < |wires[3].Connections| :: wires[3].Connections[k] == Connection(orGate, 1))
    }

    /** CFullAdder::CFullAdder: the member OR gate is built by CGate::CGate,
        so both its inputs and its output start Undefined. */
    constructor ()
      ensures Valid() && fresh(orGate)
      ensures orGate.inputs[0] == orGate.inputs[1] == Undefined
      ensures orGate.outputValue == Undefined
      ensures forall i | 0 <= i < NumWires :: fresh(wires[i]) && wires[i].Valid() && wires[i].Connections == []
    {
      orGate := new Gate(OrGate);
      var w := NewWires();
      wires := w;
    }

    /** The connections CFullAdder::FullAdderOutput makes: wire 2 to input 0
        and wire 3 to input 1 of the OR gate. */
    method ConnectOrGate()
      requires Valid()
      requires wires[2].numOutputConnections < MaxFanout
      requires wires[3].numOutputConnections < MaxFanout
      modifies wires[2], wires[3]
      ensures Valid()
      ensures wires[2].Connections == old(wires[2].Connections) + [Connection(orGate, 0)]
      ensures wires[3].Connections == old(wires[3].Connections) + [Connection(orGate, 1)]
    {
      wires[2].AddOutputConnection(orGate, 0);
      wires[3].AddOutputConnection(orGate, 1);
    }

    /** CFullAdder::FullAdderOutput: two local half adders add the first two
        inputs and then the third input to that sum; wires 2 and 3 carry the two
        half-adder carries into the OR gate, whose output is the carry. Each
        call adds one connection to wires 2 and 3, so an instance can take the
        call twice. */
    method FullAdderOutput(input1: LogicLevel, input2: LogicLevel, input3: LogicLevel) returns (result: AdderResult)
      requires Valid()
      requires wires[2].numOutputConnections < MaxFanout
      requires wires[3].numOutputConnections < MaxFanout
      modifies wires[2], wires[3], orGate
      ensures Valid()
      ensures result == FullAdd(input1, input2, input3)
      ensures wires[2].Connections == old(wires[2].Connections) + [Connection(orGate, 0)]
      ensures wires[3].Connections == old(wires[3].Connections) + [Connection(orGate, 1)]
      ensures orGate.inputs[0] == HalfAdd(input1, input2).carry
      ensures orGate.inputs[1] == HalfAdd(input3, HalfAdd(input1, input2).sum).carry
    {
      var halfAdderResult1 := LocalHalfAdderOutput(input1, input2);
      var halfAdderResult2 := LocalHalfAdderOutput(input3, halfAdderResult1.sum);

      ConnectOrGate();

      wires[2].DriveLevel(halfAdderResult1.carry);
      wires[3].DriveLevel(halfAdderResult2.carry);

      result := AdderResult(halfAdderResult2.sum, orGate.GetOutputState());
    }
  }

  /** A local CHalfAdder object of a C++ method: constructed, asked for one
      result and discarded when the method returns. Only new objects change. */
  method LocalHalfAdderOutput(logicA: LogicLevel, logicB: LogicLevel) returns (result: AdderResult)
    ensures result == HalfAdd(logicA, logicB)
  {
    var halfAdder := new HalfAdder();
    result := halfAdder.HalfAdderOutput(logicA, logicB);
  }

  /** A local CFullAdder object of a C++ method, used once in the same way. */
  method LocalFullAdderOutput(input1: LogicLevel, input2: LogicLevel, input3: LogicLevel) returns (result: AdderResult)
    ensures result == FullAdd(input1, input2, input3)
  {
    var fullAdder := new FullAdder();
    result := fullAdder.FullAdderOutput(input1, input2, input3);
  }

  /** CParallelAdder: the bits of the two operands and the outputs of the three
      stages, kept as members. The input strings, the members it inherits from
      CHalfAdder and the console I/O are not modelled. */
  class ParallelAdder {
    var a0: LogicLevel
    var a1: LogicLevel
    var a2: LogicLevel
    var b0: LogicLevel
    var b1: LogicLevel
    var b2: LogicLevel
    var halfAdder1sOutput: AdderResult
    var fullAdder2sOutput: AdderResult
    var fullAdder4sOutput: AdderResult

    /** The C++ members start uninitialised; here they start Undefined. */
    constructor ()
      ensures a0 == a1 == a2 == b0 == b1 == b2 == Undefined
      ensures halfAdder1sOutput == fullAdder2sOutput == fullAdder4sOutput == AdderResult(Undefined, Undefined)
    {
      a0, a1, a2 := Undefined, Undefined, Undefined;
      b0, b1, b2 := Undefined, Undefined, Undefined;
      halfAdder1sOutput := AdderResult(Undefined, Undefined);
      fullAdder2sOutput := AdderResult(Undefined, Undefined);
      fullAdder4sOutput := AdderResult(Undefined, Undefined);
    }

    /** The adder chain of CParallelAdder::ParallelAdderOutput: index 2 of each
        operand is its least significant bit; the 1s half adder adds those, and
        the 2s and 4s full adders add the next bits to the carry from below. On
        driven operands the result is their sum:
        8 * Carry4s + 4 * Sum4s + 2 * Sum2s + Sum1s == A + B. */
    method ParallelAdderOutput(firstNumber: array<LogicLevel>, secondNumber: array<LogicLevel>)
      requires firstNumber.Length == MaxBinaryInput && secondNumber.Length == MaxBinaryInput
      modifies this
      ensures a2 == firstNumber[0] && a1 == firstNumber[1] && a0 == firstNumber[2]
      ensures b2 == secondNumber[0] && b1 == secondNumber[1] && b0 == secondNumber[2]
      ensures ParallelResult(halfAdder1sOutput, fullAdder2sOutput, fullAdder4sOutput)
              == ParallelAdd(firstNumber[..], secondNumber[..])
      ensures AllDefined(firstNumber[..]) && AllDefined(secondNumber[..]) ==>
                Defined(fullAdder4sOutput.carry) && Defined(fullAdder4sOutput.sum) &&
                Defined(fullAdder2sOutput.sum) && Defined(halfAdder1sOutput.sum) &&
                8 * Bit(fullAdder4sOutput.carry) + 4 * Bit(fullAdder4sOutput.sum) +
                2 * Bit(fullAdder2sOutput.sum) + Bit(halfAdder1sOutput.sum)
                == Unsigned3(firstNumber[..]) + Unsigned3(secondNumber[..])
    {
      a2 := firstNumber[0];
      a1 := firstNumber[1];
      a0 := firstNumber[2];

      b2 := secondNumber[0];
      b1 := secondNumber[1];
      b0 := secondNumber[2];

      halfAdder1sOutput := LocalHalfAdderOutput(a0, b0);
      fullAdder2sOutput := LocalFullAdderOutput(halfAdder1sOutput.carry, a1, b1);
      fullAdder4sOutput := LocalFullAdderOutput(fullAdder2sOutput.carry, a2, b2);

      if AllDefined(firstNumber[..]) && AllDefined(secondNumber[..]) {
        ParallelAddAdds(firstNumber[..], secondNumber[..]);
      }
    }
  }
}
