/** The gate and wire classes of Lab2Ass.cpp (CGate with its AND, OR and XOR
    variants, and CWire). A gate keeps its two inputs and its output
    in a field that is recomputed whenever an input is driven; a wire keeps a
    fixed-capacity list of (gate, input slot) destinations and pushes a level to
    each of them in the order they were added. */
module Circuit {
  import opened Logic

  /** Number of inputs of every gate. */
  const InputsPerGate := 2
  /** Maximum number of gate inputs one wire can drive. */
  const MaxFanout := 2

  /** The four gate classes: CGate itself (a NAND), CANDGate, CORGate, CXORGate. */
  datatype GateKind = NandGate | AndGate | OrGate | XorGate

  /** The output that a gate of kind `kind` computes from its two inputs
      (the ComputeOutput override of that class, chosen by virtual dispatch).
      Undefined poisons every kind; on driven inputs each kind is the
      arithmetic of single bits. */
  function Compute(kind: GateKind, a: LogicLevel, b: LogicLevel): (r: LogicLevel)
    ensures r == Undefined <==> a == Undefined || b == Undefined
    ensures Defined(a) && Defined(b) ==>
              Bit(r) == match kind
                        case NandGate => 1 - Bit(a) * Bit(b)
                        case AndGate => Bit(a) * Bit(b)
                        case OrGate => Bit(a) + Bit(b) - Bit(a) * Bit(b)
                        case XorGate => (Bit(a) + Bit(b)) % 2
  {
    match kind
    case NandGate => Nand3(a, b)
    case AndGate => And3(a, b)
    case OrGate => Or3(a, b)
    case XorGate => Xor3(a, b)
  }

  /** One destination of a wire: the gate and the input slot it drives. */
  datatype Connection = Connection(gate: Gate, slot: int)

  class Gate {
    const kind: GateKind
    /** mInputs. The C++ member array lives inside the gate object and is never
        shared, so it is a value-typed field here. */
    var inputs: seq<LogicLevel>
    /** mOutputValue */
    var outputValue: LogicLevel
    /** mpOutputConnection; null when the gate's output is a circuit output */
    var outputConnection: Wire?

    /** The output is never stale: it is the function of the current inputs. */
    ghost predicate Valid()
      reads this
    {
      |inputs| == InputsPerGate &&
      outputValue == Compute(kind, inputs[0], inputs[1])
    }

    /** CGate::CGate. The constructor's call to ComputeOutput runs the base
        class's NAND logic, since the derived part is not yet built; on two
        Undefined inputs every kind gives Undefined. */
    constructor (kind: GateKind)
      ensures this.kind == kind
      ensures Valid()
      ensures inputs == [Undefined, Undefined]
      ensures outputConnection == null
      ensures outputValue == Undefined
    {
      this.kind := kind;
      inputs := [Undefined, Undefined];
      outputConnection := null;
      outputValue := Nand3(Undefined, Undefined);
    }

    /** CGate::ConnectOutput. */
    method ConnectOutput(outputWire: Wire)
      modifies this`outputConnection
      ensures outputConnection == outputWire
    {
      outputConnection := outputWire;
    }

    /** CGate::GetOutputState: the output agrees with the current inputs. */
    function GetOutputState(): (r: LogicLevel)
      reads this
      requires Valid()
      ensures r == Compute(kind, inputs[0], inputs[1])
    {
      outputValue
    }

    /** ComputeOutput of the gate's own class, on a gate without an output wire. */
    method ComputeOutput()
      requires |inputs| == InputsPerGate
      requires outputConnection == null
      modifies this`outputValue
      ensures Valid()
    {
      var newVal := Compute(kind, inputs[0], inputs[1]);
      outputValue := newVal;
    }

    /** CGate::DriveInput: store one input slot and recompute the output at once. */
    method DriveInput(inputIndex: int, newLevel: LogicLevel)
      requires Valid()
      requires 0 <= inputIndex < InputsPerGate
      requires outputConnection == null
      modifies this`outputValue, this`inputs
      ensures Valid()
      ensures inputs == old(inputs)[inputIndex := newLevel]
    {
      inputs := inputs[inputIndex := newLevel];
      ComputeOutput();
    }
  }

  class Wire {
    /** mpGatesToDrive. Like a gate's inputs, the C++ member arrays of a wire
        live inside the wire object, so they are value-typed fields here. */
    var gatesToDrive: seq<Gate?>
    /** mGateInputIndices */
    var gateInputIndices: seq<int>
    /** mNumOutputConnections */
    var numOutputConnections: int
    /** The filled prefix of the two arrays, as a sequence. */
    ghost var Connections: seq<Connection>

    /** The prefix below numOutputConnections holds the destinations, each
        naming an existing input slot. */
    ghost predicate Valid()
      reads this
    {
      |gatesToDrive| == MaxFanout && |gateInputIndices| == MaxFanout &&
      numOutputConnections == |Connections| <= MaxFanout &&
      (forall k | 0 <= k < |Connections| ::
         gatesToDrive[k] == Connections[k].gate &&
         gateInputIndices[k] == Connections[k].slot &&
         0 <= Connections[k].slot < InputsPerGate)
    }

    /** The gates this wire drives. */
    ghost function Gates(): set<Gate>
      reads this
    {
      set c | c in Connections :: c.gate
    }

    /** CWire::CWire. The C++ arrays start uninitialised; here they start with
        null and 0, which are never read below the connection count. */
    constructor ()
      ensures Valid()
      ensures numOutputConnections == 0 && Connections == []
    {
      gatesToDrive := [null, null];
      gateInputIndices := [0, 0];
      numOutputConnections := 0;
      Connections := [];
    }

    /** CWire::AddOutputConnection: store the destination at position
        numOutputConnections and count it. The C++ code writes past the arrays
        when the wire is full, so a caller must not add a third connection. */
    method AddOutputConnection(gateToDrive: Gate, gateInputToDrive: int)
      requires Valid()
      requires numOutputConnections < MaxFanout
      requires 0 <= gateInputToDrive < InputsPerGate
      modifies this
      ensures Valid()
      ensures numOutputConnections == old(numOutputConnections) + 1
      ensures gatesToDrive == old(gatesToDrive)[old(numOutputConnections) := gateToDrive]
      ensures gateInputIndices == old(gateInputIndices)[old(numOutputConnections) := gateInputToDrive]
      ensures Connections == old(Connections) + [Connection(gateToDrive, gateInputToDrive)]
    {
      gatesToDrive := gatesToDrive[numOutputConnections := gateToDrive];
      gateInputIndices := gateInputIndices[numOutputConnections := gateInputToDrive];
      numOutputConnections := numOutputConnections + 1;
      Connections := Connections + [Connection(gateToDrive, gateInputToDrive)];
    }

    /** CWire::DriveLevel: drive every destination's slot with the new level, in
        the order the destinations were added. Afterwards exactly the slots named
        by a connection hold the level, every other slot of those gates keeps its
        value, and every destination's output agrees with its inputs again. A wire
        without connections may change nothing. */
    method DriveLevel(newLevel: LogicLevel)
      requires Valid()
      requires forall c | c in Connections :: c.gate.Valid() && c.gate.outputConnection == null
      modifies Gates()
      ensures unchanged(this)
      ensures forall c | c in Connections :: c.gate.Valid() && c.gate.outputConnection == null
      ensures forall c | c in Connections :: |old(c.gate.inputs)| == |c.gate.inputs| == InputsPerGate
      ensures forall c, k | c in Connections && 0 <= k < InputsPerGate ::
                c.gate.inputs[k] == if Connection(c.gate, k) in Connections then newLevel else old(c.gate.inputs[k])
    {
      var i := 0;
      while i < numOutputConnections
        invariant 0 <= i <= numOutputConnections
        invariant forall c | c in Connections :: c.gate.Valid() && c.gate.outputConnection == null
        invariant forall c, k | c in Connections && 0 <= k < InputsPerGate ::
                    c.gate.inputs[k] == if Connection(c.gate, k) in Connections[..i] then newLevel else old(c.gate.inputs[k])
      {
        assert Connections[..i + 1] == Connections[..i] + [Connections[i]];
        gatesToDrive[i].DriveInput(gateInputIndices[i], newLevel);
        i := i + 1;
      }
      assert Connections[..i] == Connections;
    }
  }
}
