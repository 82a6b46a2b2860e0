/** `GraphCircuit`: the loop over macronodes that builds the operations of the circuit object. */
module GraphCompiler {
  import opened Elementary
  import opened Operations
  import opened CircuitObject
  import opened GraphProgram

  datatype MacronodeOperationType = UnaryOperation | BinaryOperation | MeasurementOperation | DisplacementOnlyOperation

  /** Where the operations of a macronode are in the circuit. */
  datatype CircuitOperations = CircuitOperations(
    type_: MacronodeOperationType, upDisplacement: nat, leftDisplacement: nat, opIndices: seq<nat>)

  /** The record of a macronode of the given shape whose first operation has the given index. */
  function RecordAt(shape: Shape, first: nat): CircuitOperations {
    match shape
    case UnaryShape(_) => CircuitOperations(UnaryOperation, first, first + 2, [first + 1, first + 3])
    case BinaryShape(_) => CircuitOperations(BinaryOperation, first, first + 1, [first + 2])
    case MeasurementShape =>
      CircuitOperations(MeasurementOperation, first, first + 3, [first + 1, first + 2, first + 4, first + 5])
    case _ => CircuitOperations(DisplacementOnlyOperation, first, first + 1, [])
  }

  method AddDisplacement(f: Functions, circuit: Circuit, mode: nat, params: seq<real>) returns (idx: nat)
    requires circuit.Valid() && |params| == 2
    modifies circuit`operations
    ensures circuit.Valid() && circuit.operations == old(circuit.operations) + [Emplace(Displacement, [mode], params)]
    ensures idx == |old(circuit.operations)| && OpConstructible(f, Emplace(Displacement, [mode], params))
  {
    var _ := circuit.EmplaceOperation(f, Displacement, [mode], params);
    idx := |circuit.operations| - 1;
  }

  /** Appends an operation whose constructor cannot refuse. */
  method AddMeasured(f: Functions, circuit: Circuit, kind: Kind, mode: nat, params: seq<real>) returns (idx: nat)
    requires circuit.Valid()
    requires (kind == HomodyneSingleMode && |params| == 1) || (kind == ReplaceBySqueezedState && |params| == 2)
    modifies circuit`operations
    ensures circuit.Valid() && circuit.operations == old(circuit.operations) + [Emplace(kind, [mode], params)]
    ensures idx == |old(circuit.operations)| && OpConstructible(f, Emplace(kind, [mode], params))
  {
    var _ := circuit.EmplaceOperation(f, kind, [mode], params);
    idx := |circuit.operations| - 1;
  }

  method AddUnaryOperations(f: Functions, circuit: Circuit, kind: Kind, op: GraphOperation, up: nat, left: nat, level: real)
    returns (record: CircuitOperations, ok: bool)
    requires circuit.Valid() && ShapeOf(op.type_) == UnaryShape(kind)
    modifies circuit`operations
    ensures circuit.Valid()
    ensures ok == (Group(f, op, up, left, level).Some? && AllConstructible(f, Group(f, op, up, left, level).value))
    ensures ok ==> circuit.operations == old(circuit.operations) + Group(f, op, up, left, level).value
    ensures record == RecordAt(ShapeOf(op.type_), |old(circuit.operations)|)
  {
    hide Circuit.Valid, Constructible;
    ghost var before := circuit.operations;
    var params := op.parameters;
    var first := |circuit.operations|;
    record := RecordAt(ShapeOf(op.type_), first);
    var upDisplacement := AddDisplacement(f, circuit, up, DisplacementParams(op.displacement1));
    ok := circuit.EmplaceOperation(f, kind, [up], params);
    ghost var g := Group(f, op, up, left, level).value;
    if !ok {
      assert !OpConstructible(f, g[1]);
      return;
    }
    var firstUnary := |circuit.operations| - 1;
    var leftDisplacement := AddDisplacement(f, circuit, left, DisplacementParams(op.displacementN));
    ok := circuit.EmplaceOperation(f, kind, [left], params);
    if !ok {
      assert !OpConstructible(f, g[3]);
      return;
    }
    assert circuit.operations == before + g;
    record := CircuitOperations(UnaryOperation, upDisplacement, leftDisplacement, [firstUnary, |circuit.operations| - 1]);
  }

  method AddBinaryOperation(f: Functions, circuit: Circuit, kind: Kind, op: GraphOperation, up: nat, left: nat, level: real)
    returns (record: CircuitOperations, ok: bool)
    requires circuit.Valid() && ShapeOf(op.type_) == BinaryShape(kind)
    modifies circuit`operations
    ensures circuit.Valid()
    ensures ok == (Group(f, op, up, left, level).Some? && AllConstructible(f, Group(f, op, up, left, level).value))
    ensures ok ==> circuit.operations == old(circuit.operations) + Group(f, op, up, left, level).value
    ensures record == RecordAt(ShapeOf(op.type_), |old(circuit.operations)|)
  {
    hide Circuit.Valid, Constructible, FirstAngles, SecondAngles;
    ghost var before := circuit.operations;
    record := RecordAt(ShapeOf(op.type_), |circuit.operations|);
    var params := CircuitOpParams(f, op);
    if params.None? {
      ok := false;
      return;
    }
    var upDisplacement := AddDisplacement(f, circuit, up, DisplacementParams(op.displacement1));
    var leftDisplacement := AddDisplacement(f, circuit, left, DisplacementParams(op.displacementN));
    ok := circuit.EmplaceOperation(f, kind, [up, left], params.value);
    ghost var g := Group(f, op, up, left, level).value;
    if !ok {
      assert !OpConstructible(f, g[2]);
      return;
    }
    assert circuit.operations == before + g;
    record := CircuitOperations(BinaryOperation, upDisplacement, leftDisplacement, [|circuit.operations| - 1]);
  }

  method AddDisplacementOperation(f: Functions, circuit: Circuit, op: GraphOperation, up: nat, left: nat, level: real)
    returns (record: CircuitOperations)
    requires circuit.Valid() && ShapeOf(op.type_) == WiringShape
    modifies circuit`operations
    ensures circuit.Valid()
    ensures Group(f, op, up, left, level).Some? && AllConstructible(f, Group(f, op, up, left, level).value)
    ensures circuit.operations == old(circuit.operations) + Group(f, op, up, left, level).value
    ensures record == RecordAt(ShapeOf(op.type_), |old(circuit.operations)|)
  {
    hide Circuit.Valid, Constructible;
    ghost var before := circuit.operations;
    var upDisplacement := AddDisplacement(f, circuit, up, DisplacementParams(op.displacement1));
    var leftDisplacement := AddDisplacement(f, circuit, left, DisplacementParams(op.displacementN));
    assert circuit.operations == before + Group(f, op, up, left, level).value;
    record := CircuitOperations(DisplacementOnlyOperation, upDisplacement, leftDisplacement, []);
  }

  method AddMeasurementOperations(f: Functions, circuit: Circuit, op: GraphOperation, up: nat, left: nat, level: real)
    returns (record: CircuitOperations, ok: bool)
    requires circuit.Valid() && ShapeOf(op.type_) == MeasurementShape
    modifies circuit`operations
    ensures circuit.Valid()
    ensures ok == (Group(f, op, up, left, level).Some? && AllConstructible(f, Group(f, op, up, left, level).value))
    ensures ok ==> circuit.operations == old(circuit.operations) + Group(f, op, up, left, level).value
    ensures record == RecordAt(ShapeOf(op.type_), |old(circuit.operations)|)
  {
    hide Circuit.Valid, Constructible;
    ghost var before := circuit.operations;
    record := RecordAt(ShapeOf(op.type_), |circuit.operations|);
    if |op.parameters| != 1 {
      ok := false;
      return;
    }
    ok := true;
    var theta := op.parameters[0];
    var upDisplacement := AddDisplacement(f, circuit, up, DisplacementParams(op.displacement1));
    var firstMeasurement := AddMeasured(f, circuit, HomodyneSingleMode, up, [theta]);
    var firstSqueezing := AddMeasured(f, circuit, ReplaceBySqueezedState, up, [level, theta - f.halfPi]);
    var leftDisplacement := AddDisplacement(f, circuit, left, DisplacementParams(op.displacementN));
    var secondMeasurement := AddMeasured(f, circuit, HomodyneSingleMode, left, [theta]);
    var secondSqueezing := AddMeasured(f, circuit, ReplaceBySqueezedState, left, [level, theta - f.halfPi]);
    assert circuit.operations == before + Group(f, op, up, left, level).value;
    record := CircuitOperations(MeasurementOperation, upDisplacement, leftDisplacement,
                                [firstMeasurement, firstSqueezing, secondMeasurement, secondSqueezing]);
  }

  method AddOperations(f: Functions, circuit: Circuit, op: GraphOperation, up: nat, left: nat, level: real)
    returns (record: CircuitOperations, ok: bool)
    requires circuit.Valid()
    modifies circuit`operations
    ensures circuit.Valid()
    ensures ok == (Group(f, op, up, left, level).Some? && AllConstructible(f, Group(f, op, up, left, level).value))
    ensures ok ==> circuit.operations == old(circuit.operations) + Group(f, op, up, left, level).value
    ensures ok ==> record == RecordAt(ShapeOf(op.type_), |old(circuit.operations)|)
  {
    hide Circuit.Valid, AllConstructible, FirstAngles, SecondAngles;
    match ShapeOf(op.type_)
    case UnaryShape(kind) => record, ok := AddUnaryOperations(f, circuit, kind, op, up, left, level);
    case BinaryShape(kind) => record, ok := AddBinaryOperation(f, circuit, kind, op, up, left, level);
    case WiringShape =>
      record := AddDisplacementOperation(f, circuit, op, up, left, level);
      ok := true;
    case MeasurementShape => record, ok := AddMeasurementOperations(f, circuit, op, up, left, level);
    case Unsupported =>
      record, ok := RecordAt(Unsupported, 0), false;
  }
}
