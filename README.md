# Tri-state logic gates, wires and adders

This project models the gate-level circuit simulator of `Lab2Ass.cpp`, which
adds two 3-bit numbers, and the smaller gate and wire classes of `Test.cpp`.

In `Lab2Ass.cpp` a logic level is Undefined, Low or High:
- A gate (`CGate`, which computes NAND, and its subclasses `CANDGate`,
  `CORGate` and `CXORGate`) keeps two inputs and an output. It recomputes the
  output whenever an input is driven.
- A wire (`CWire`) holds up to `MaxFanout = 2` destinations, each a gate and an
  input slot. Driving the wire drives every destination in the order the
  destinations were added.
- `CHalfAdder` wires two levels into one XOR and one AND gate.
- `CFullAdder` chains two half adders and ORs their carries.
- `CParallelAdder` ripples one half adder into two full adders.

The modules are:
- `Logic` (`logic.dfy`): the levels and the four truth functions. Undefined
  poisons every one of them.
- `Circuit` (`circuit.dfy`): `CGate` and `CWire` as the classes `Gate` and
  `Wire`. A gate's invariant is that its output is the truth function of its
  current inputs. A wire's invariant is that the filled prefix of its arrays
  equals a ghost list of connections.
- `AdderSpec` (`adder_spec.dfy`): what the adders compute, as pure functions of
  the input levels. It includes a ripple-carry chain of any width, and it
  proves the arithmetic law `sum + 2^n * carry == A + B` on driven levels.
- `Adders` (`adders.dfy`): `CHalfAdder`, `CFullAdder` and `CParallelAdder` as
  classes. Their methods are proved to return the functions of `AdderSpec`.
- `SimpleCircuit` (`simple_circuit.dfy`): the `XORGate`, `ANDGate` and
  `ORGate` of `Test.cpp`, whose output is computed on demand, and its wire,
  which has a single destination.

The C++ member arrays are stored inside their objects and are never shared:
`CGate::mInputs`, the destination arrays of `CWire`, and
`CHalfAdder::MyWires`. The model therefore keeps them as value-typed sequence
fields, not as separately allocated arrays. Their sizes are fixed, and the
model updates them one index at a time exactly as the C++ does.

## Model

| member | source | states |
|---|---|---|
| Logic.Bit | Lab2Ass.cpp:22-27 | a driven level has the numeric value of its enumerator: High is 1, Low is 0 |
| Logic.Nand3 | Lab2Ass.cpp:233-243 | base gate: Undefined exactly when an input is Undefined, Low exactly when both inputs are High |
| Logic.And3 | Lab2Ass.cpp:250-263 | Undefined exactly when an input is Undefined, High exactly when both inputs are High |
| Logic.Or3 | Lab2Ass.cpp:270-283 | Undefined exactly when an input is Undefined, High exactly when both are driven and one is High |
| Logic.Xor3 | Lab2Ass.cpp:290-306 | Undefined exactly when an input is Undefined, High exactly when both are driven and they differ |
| Logic.DefinedGateArithmetic | Lab2Ass.cpp:233-306 | on driven inputs AND is the product of the bits, OR is a+b-ab, XOR is (a+b) mod 2, NAND is 1-ab |
| Circuit.Compute | Lab2Ass.cpp:233-311 | the dispatch of the four ComputeOutput overrides: Undefined exactly when an input is Undefined; on driven inputs NAND is 1-ab, AND is ab, OR is a+b-ab and XOR is (a+b) mod 2 |
| Circuit.Gate.constructor | Lab2Ass.cpp:206-211 | a new gate of any kind has both inputs Undefined, no output wire and an Undefined output, and its output agrees with its inputs |
| Circuit.Gate.ConnectOutput | Lab2Ass.cpp:214-217 | the gate's output wire becomes the given wire |
| Circuit.Gate.GetOutputState | Lab2Ass.cpp:227-230 | the stored output equals the gate's truth function of its current inputs |
| Circuit.Gate.ComputeOutput | Lab2Ass.cpp:233-311 | the output is recomputed with the gate's own truth function, for a gate without an output wire |
| Circuit.Gate.DriveInput | Lab2Ass.cpp:220-224 | exactly the named slot takes the new level, the other slot keeps its value, and the output agrees with the new inputs |
| Circuit.Wire.constructor | Lab2Ass.cpp:181-184 | a new wire has no connections |
| Circuit.Wire.AddOutputConnection | Lab2Ass.cpp:187-192 | the (gate, slot) pair is stored at index count, the count grows by one and earlier entries are unchanged; requires count < MaxFanout |
| Circuit.Wire.DriveLevel | Lab2Ass.cpp:195-201 | afterwards a slot of a connected gate holds the new level exactly when some connection names it; every other slot keeps its value; the wire itself and every other object are unchanged; every driven gate's output agrees with its inputs |
| AdderSpec.HalfAdd | Lab2Ass.cpp:317-340 | on driven inputs 2*Carry + Sum == a + b; with an Undefined input both outputs are Undefined |
| AdderSpec.FullAdd | Lab2Ass.cpp:344-373 | on driven inputs 2*Carry + Sum == x + y + z; with an Undefined input both outputs are Undefined |
| AdderSpec.FullAddGateEquations | Lab2Ass.cpp:344-373 | Sum == x XOR y XOR z and Carry == (x AND y) OR (z AND (x XOR y)) |
| AdderSpec.AdderExamples | Lab2Ass.cpp:317-373 | the half adder on (Low, Low), (Low, High) and (High, High), and the full adder on three equal inputs, e.g. (High, High, High) gives (High, High) |
| AdderSpec.RippleFromAdds | Lab2Ass.cpp:447-454 | a chain of full adders of any width adds: Number(sum) + 2^n * carry-out == A + B + carry-in |
| AdderSpec.RipplePoisoned | Lab2Ass.cpp:447-454 | an Undefined operand bit makes that stage, every stage above it and the carry out Undefined |
| AdderSpec.UndefinedCarryPropagates | Lab2Ass.cpp:447-454 | an Undefined carry in makes every sum bit and the carry out Undefined |
| AdderSpec.RippleAddFromLow | Lab2Ass.cpp:447-448 | a half adder in the lowest stage is a full adder whose carry in is Low |
| AdderSpec.RippleAddAdds | Lab2Ass.cpp:447-454 | the half-adder-then-full-adders chain of any width adds: Number(sum) + 2^n * carry-out == A + B |
| AdderSpec.ParallelAdd | Lab2Ass.cpp:439-454 | the three stages of the parallel adder: the 1s sum is driven exactly when both index-2 bits are, and the final carry is driven exactly when every operand bit is |
| AdderSpec.ParallelAddIsRipple | Lab2Ass.cpp:439-454 | the 3-bit parallel adder is the width-3 ripple adder on the operands read with index 2 as the least significant bit |
| AdderSpec.ParallelAddAdds | Lab2Ass.cpp:439-454 | for all 64 pairs of driven 3-bit operands, 8*Carry4s + 4*Sum4s + 2*Sum2s + Sum1s == A + B |
| AdderSpec.ParallelAddExamples | Lab2Ass.cpp:439-454 | 011 + 101 and 111 + 001 both give 1000 |
| Adders.NewWires | Lab2Ass.cpp:124 | the wire bank is four distinct new wires without connections |
| Adders.HalfAdder.constructor | Lab2Ass.cpp:113-129 | a new half adder has a new XOR gate and a new AND gate, each with both inputs and its output Undefined, and four new valid unconnected wires |
| Adders.HalfAdder.ConnectGateInputs | Lab2Ass.cpp:320-325 | wire 0 gains the connections (XOR, 0), (AND, 0) and wire 1 gains (XOR, 1), (AND, 1), in that order |
| Adders.HalfAdder.HalfAdderOutput | Lab2Ass.cpp:317-340 | on an unconnected instance the result is HalfAdd(a, b); both gates end with inputs (a, b); the two wires end with their four connections |
| Adders.FullAdder.constructor | Lab2Ass.cpp:133-140 | a new full adder has a new OR gate with both inputs and its output Undefined, and four new valid unconnected wires |
| Adders.FullAdder.ConnectOrGate | Lab2Ass.cpp:361-362 | wire 2 gains (OR, 0) and wire 3 gains (OR, 1) |
| Adders.FullAdder.FullAdderOutput | Lab2Ass.cpp:344-373 | the result is FullAdd(x, y, z); the OR gate's inputs are the two half-adder carries; wires 2 and 3 each gain one connection |
| Adders.LocalHalfAdderOutput | Lab2Ass.cpp:347-358 | a local half adder, constructed and asked once, returns HalfAdd(a, b) and changes no existing object |
| Adders.LocalFullAdderOutput | Lab2Ass.cpp:434-435 | a local full adder, constructed and asked once, returns FullAdd(x, y, z) and changes no existing object |
| Adders.ParallelAdder.constructor | Lab2Ass.cpp:145-160 | the operand bits and the stage outputs start Undefined |
| Adders.ParallelAdder.ParallelAdderOutput | Lab2Ass.cpp:430-454 | A2..A0 and B2..B0 are the array elements 0..2; the three stage outputs equal ParallelAdd; on driven operands 8*Carry4s + 4*Sum4s + 2*Sum2s + Sum1s == A + B |
| SimpleCircuit.Gate.constructor | Test.cpp:41 | a new gate has both inputs Undefined |
| SimpleCircuit.Gate.GetOutput | Test.cpp:43-104 | Undefined exactly when an input is Undefined; otherwise XOR is High when the inputs differ, AND when both are High, OR when either is High; the same table as the Lab2Ass.cpp gate of that kind |
| SimpleCircuit.Gate.ConnectOutput | Test.cpp:50-52 | the wire's single destination becomes this gate at input 0 |
| SimpleCircuit.Gate.DriveInput | Test.cpp:54-60 | index 0 sets only inputA, index 1 sets only inputB, any other index changes nothing |
| SimpleCircuit.Wire.constructor | Test.cpp:21 | a new wire has no destination |
| SimpleCircuit.Wire.AddOutputConnection | Test.cpp:23-26 | the new destination replaces the old one, so the last registration wins |
| SimpleCircuit.Wire.Drive | Test.cpp:28-32 | with no destination nothing changes; otherwise exactly the stored slot of the stored gate takes the level |

## Left out

- Propagation through a gate's output wire is not modelled. This is the
  `DriveLevel` call at the end of every `ComputeOutput` (Lab2Ass.cpp:246-247,
  266-267, 286-287, 309-310). No gate inside the adders ever gets an output
  wire, so the adders never take this path.
- Circuit.Gate.DriveInput: requires that the gate has no output wire, which the
  C++ does not demand. This keeps the gate-wire recursion out of the model.
- Circuit.Gate.ComputeOutput: also requires that the gate has no output wire,
  for the same reason.
- Circuit.Wire.AddOutputConnection: requires a free slot. The C++ writes past
  its arrays on a third connection, which has no defined behaviour to model.
- Adders.HalfAdder.HalfAdderOutput: requires an instance whose two wires are
  unconnected. A second call on the same instance would add a third
  connection to each wire.
- Adders.ParallelAdder.ParallelAdderOutput: constructs each local adder just
  before its first use, while the C++ constructs all three at the top of the
  method. The constructors touch no existing object, so the order cannot be
  observed.
- The AND and XOR gates that `CFullAdder` and `CParallelAdder` inherit from
  `CHalfAdder`, and the wires of `CParallelAdder`, are never used and are not
  modelled.
- Reading operands from the console and printing results are not modelled:
  `CParallelAdder::ObtainInput` (Lab2Ass.cpp:377-427), the printing at the
  end of `ParallelAdderOutput` (Lab2Ass.cpp:456-463), `CTestParallelAdder`
  and `main`. The operand strings of `CParallelAdder` go with them.
- The half adder, full adder, binary adder and `main` of `Test.cpp`
  (Test.cpp:123-209) are not part of this model. They do not compile against
  the classes above them.
- `PracticeQ1.cpp`, `PracticeQ2.cpp` and `PracticeQ4.cpp` are console
  exercises and are not part of this model.
- Uninitialised C++ members start at a fixed value in the model:
  - the unused entries of the `CWire` arrays start as null and 0;
  - `Wire::gateInputIndex` in `Test.cpp` starts at 0;
  - the members of `CParallelAdder` start Undefined.
  None of these values is read before it is written.
- Virtual dispatch is modelled by a gate kind tag instead of inheritance.
  The `CGate` constructor's call to `ComputeOutput` uses the base NAND, which
  gives Undefined on two Undefined inputs for every kind.
