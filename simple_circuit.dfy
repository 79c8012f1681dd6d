/** The gate classes and the single-destination wire of Test.cpp. Each gate
    keeps its two inputs as fields and computes its output on demand; the wire
    remembers one (gate, input slot) destination and forwards a level to it. */
module SimpleCircuit {
  import opened Logic
  import Circuit

  /** The three gate classes XORGate, ANDGate and ORGate. */
  datatype GateClass = XorClass | AndClass | OrClass

  /** The gate of Lab2Ass.cpp that computes the same truth table. */
  function LabKind(kind: GateClass): Circuit.GateKind {
    match kind
    case XorClass => Circuit.XorGate
    case AndClass => Circuit.AndGate
    case OrClass => Circuit.OrGate
  }

  class Gate {
    const kind: GateClass
    var inputA: LogicLevel
    var inputB: LogicLevel

    /** XORGate(), ANDGate(), ORGate(): both inputs start Undefined. */
    constructor (kind: GateClass)
      ensures this.kind == kind
      ensures inputA == Undefined && inputB == Undefined
    {
      this.kind := kind;
      inputA, inputB := Undefined, Undefined;
    }

    /** GetOutput of each class: Undefined when an input is Undefined, and
        otherwise the truth table of the class. The three tables are those of
        the gates of Lab2Ass.cpp. */
    function GetOutput(): (r: LogicLevel)
      reads this
      ensures r == Undefined <==> inputA == Undefined || inputB == Undefined
      ensures kind == XorClass ==> (r == High <==> Defined(inputA) && Defined(inputB) && inputA != inputB)
      ensures kind == AndClass ==> (r == High <==> inputA == High && inputB == High)
      ensures kind == OrClass ==> (r == High <==> Defined(inputA) && Defined(inputB) && (inputA == High || inputB == High))
      ensures r == Circuit.Compute(LabKind(kind), inputA, inputB)
    {
      if inputA == Undefined || inputB == Undefined then Undefined
      else
        match kind
        case XorClass => if inputA != inputB then High else Low
        case AndClass => if inputA == High && inputB == High then High else Low
        case OrClass => if inputA == High || inputB == High then High else Low
    }

    /** ConnectOutput of each class. As written it registers this gate, at
        input 0, as the destination of the wire, rather than making the wire
        carry this gate's output. */
    method ConnectOutput(outputWire: Wire)
      modifies outputWire
      ensures outputWire.outputGate == this && outputWire.gateInputIndex == 0
    {
      outputWire.AddOutputConnection(this, 0);
    }

    /** DriveInput of each class: index 0 sets inputA, index 1 sets inputB,
        and any other index leaves the gate unchanged. */
    method DriveInput(inputIndex: int, newLevel: LogicLevel)
      modifies this`inputA, this`inputB
      ensures inputA == if inputIndex == 0 then newLevel else old(inputA)
      ensures inputB == if inputIndex == 1 then newLevel else old(inputB)
    {
      if inputIndex == 0 {
        inputA := newLevel;
      } else if inputIndex == 1 {
        inputB := newLevel;
      }
    }
  }

  class Wire {
    /** outputGate; null until a destination is registered */
    var outputGate: Gate?
    /** gateInputIndex */
    var gateInputIndex: int

    /** Wire(): no destination. The C++ leaves gateInputIndex uninitialised;
        here it starts at 0, and it is only read once a destination is set. */
    constructor ()
      ensures outputGate == null
    {
      outputGate := null;
      gateInputIndex := 0;
    }

    /** Wire::AddOutputConnection: the new destination replaces the previous
        one, so a wire drives at most one gate and the last registration wins. */
    method AddOutputConnection(gate: Gate?, inputIndex: int)
      modifies this
      ensures outputGate == gate && gateInputIndex == inputIndex
    {
      outputGate := gate;
      gateInputIndex := inputIndex;
    }

    /** Wire::Drive: without a destination nothing changes; otherwise the
        stored slot of the stored gate takes the level, as DriveInput sets it. */
    method Drive(newLevel: LogicLevel)
      modifies outputGate
      ensures outputGate != null ==>
                outputGate.inputA == (if gateInputIndex == 0 then newLevel else old(outputGate.inputA)) &&
                outputGate.inputB == (if gateInputIndex == 1 then newLevel else old(outputGate.inputB))
    {
      if outputGate != null {
        outputGate.DriveInput(gateInputIndex, newLevel);
      }
    }
  }
}
