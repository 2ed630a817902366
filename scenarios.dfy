/** The converter's test cases, each stated for every circuit the test could
    have built: bits are arbitrary fresh identities, parameters are arbitrary
    parameters with the test's names, registers have the test's sizes and
    the operations are the test's, in the test's order. */
module Scenarios {
  import opened Wrappers
  import opened Seqs
  import opened Params
  import opened Bits
  import opened Circuits
  import opened Converter
  import opened Properties

  lemma ConcatThree(a: seq<Bit>, b: seq<Bit>, c: seq<Bit>)
    ensures Concat([a]) == a
    ensures Concat([a, b]) == a + b
    ensures Concat([a, b, c]) == a + b + c
  {
    assert [a][..0] == [];
    assert Concat([a]) == a;
    assert [a, b][..1] == [a];
    assert Concat([a, b]) == a + b;
    assert [a, b, c][..2] == [a, b];
  }

  /** Three groups of fresh bits are enumerated one after the other. */
  lemma ThreeEnumerate(a: seq<Bit>, b: seq<Bit>, x: seq<Bit>)
    requires Distinct(a + b + x)
    ensures Enumerate([a, b, x]) == a + b + x
  {
    ConcatThree(a, b, x);
    EnumerateDisjoint([a, b, x]);
  }

  /** Two groups of fresh bits are enumerated one after the other. */
  lemma TwoEnumerate(a: seq<Bit>, b: seq<Bit>)
    requires Distinct(a + b)
    ensures Enumerate([a, b]) == a + b
  {
    ConcatThree(a, b, []);
    EnumerateDisjoint([a, b]);
  }

  // ---------------------------------------------------------------------
  // Flattening registers: qr1, qr2, qr3 of 4, 3 and 3 qubits, cr1, cr2 of 4
  // and 1 clbits; cx(qr1[1], qr2[2]) and measure(qr3[0], cr2[0]).
  // ---------------------------------------------------------------------

  predicate RegistersCircuit(
    c: Circuit, qr1: seq<Bit>, qr2: seq<Bit>, qr3: seq<Bit>, cr1: seq<Bit>, cr2: seq<Bit>)
  {
    && |qr1| == 4 && |qr2| == 3 && |qr3| == 3 && |cr1| == 4 && |cr2| == 1
    && Distinct(qr1 + qr2 + qr3) && Distinct(cr1 + cr2)
    && c.qubits == Enumerate([qr1, qr2, qr3]) && c.clbits == Enumerate([cr1, cr2])
    && c.qregs == [Register("qr1", qr1), Register("qr2", qr2), Register("qr3", qr3)]
    && c.cregs == [Register("cr1", cr1), Register("cr2", cr2)]
    && c.data == [
         Operation("cx", Standard, [qr1[1], qr2[2]], [], []),
         Operation("measure", Standard, [qr3[0]], [cr2[0]], [])]
    && c.captures == [] && c.inputs == [] && c.declared == []
  }

  lemma RegistersAccepted(
    c: Circuit, qr1: seq<Bit>, qr2: seq<Bit>, qr3: seq<Bit>, cr1: seq<Bit>, cr2: seq<Bit>)
    requires RegistersCircuit(c, qr1, qr2, qr3, cr1, cr2)
    ensures WellFormed(c) && !Rejected(c)
    ensures c.qubits == qr1 + qr2 + qr3 && c.clbits == cr1 + cr2
  {
    ThreeEnumerate(qr1, qr2, qr3);
    TwoEnumerate(cr1, cr2);
    assert !HasControlFlow(c.data);
  }

  lemma RegistersCx(
    c: Circuit, qr1: seq<Bit>, qr2: seq<Bit>, qr3: seq<Bit>, cr1: seq<Bit>, cr2: seq<Bit>)
    requires RegistersCircuit(c, qr1, qr2, qr3, cr1, cr2)
    ensures WellFormed(c) && Convert(c, None).Ok?
    ensures var d := Convert(c, None).value.definition;
      |d.data| == 2 && d.data[0].qubits == [1, 6] && d.data[0].clbits == []
  {
    RegistersAccepted(c, qr1, qr2, qr3, cr1, cr2);
    PositionKept(c, None, 0);
    assert c.qubits[1] == qr1[1] && c.qubits[6] == qr2[2];
  }

  lemma RegistersMeasure(
    c: Circuit, qr1: seq<Bit>, qr2: seq<Bit>, qr3: seq<Bit>, cr1: seq<Bit>, cr2: seq<Bit>)
    requires RegistersCircuit(c, qr1, qr2, qr3, cr1, cr2)
    ensures WellFormed(c) && Convert(c, None).Ok?
    ensures var d := Convert(c, None).value.definition;
      |d.data| == 2 && d.data[1].qubits == [7] && d.data[1].clbits == [4]
  {
    RegistersAccepted(c, qr1, qr2, qr3, cr1, cr2);
    PositionKept(c, None, 1);
    assert c.qubits[7] == qr3[0] && c.clbits[4] == cr2[0];
  }

  /** cx(qr1[1], qr2[2]) acts on dense qubits 1 and 6, and measure(qr3[0],
      cr2[0]) reads dense qubit 7 into dense clbit 4, of 10 qubits and 5
      clbits: the registers are laid out one after the other. */
  lemma FlattenRegisters(
    c: Circuit, qr1: seq<Bit>, qr2: seq<Bit>, qr3: seq<Bit>, cr1: seq<Bit>, cr2: seq<Bit>)
    requires RegistersCircuit(c, qr1, qr2, qr3, cr1, cr2)
    ensures WellFormed(c) && Convert(c, None).Ok?
    ensures var inst := Convert(c, None).value;
      && inst.numQubits == 10 && inst.numClbits == 5
      && |inst.definition.data| == 2
      && inst.definition.data[0].qubits == [1, 6]
      && inst.definition.data[0].clbits == []
      && inst.definition.data[1].qubits == [7]
      && inst.definition.data[1].clbits == [4]
  {
    RegistersAccepted(c, qr1, qr2, qr3, cr1, cr2);
    RegistersCx(c, qr1, qr2, qr3, cr1, cr2);
    RegistersMeasure(c, qr1, qr2, qr3, cr1, cr2);
  }

  // ---------------------------------------------------------------------
  // Loose bits between registers: qubits taken in as qr1 (2), three loose
  // qubits, qr2 (3); clbits as cr1 (2), three loose clbits, cr2 (3);
  // cx(3, 5) and measure(4, 4) address the circuit's bits by position.
  // ---------------------------------------------------------------------

  predicate RegisterlessCircuit(
    c: Circuit, qr1: seq<Bit>, qs: seq<Bit>, qr2: seq<Bit>, cr1: seq<Bit>, cs: seq<Bit>, cr2: seq<Bit>)
  {
    && |qr1| == 2 && |qs| == 3 && |qr2| == 3 && |cr1| == 2 && |cs| == 3 && |cr2| == 3
    && Distinct(qr1 + qs + qr2) && Distinct(cr1 + cs + cr2)
    && c.qubits == Enumerate([qr1, qs, qr2]) && c.clbits == Enumerate([cr1, cs, cr2])
    && c.qregs == [Register("q0", qr1), Register("q1", qr2)]
    && c.cregs == [Register("c0", cr1), Register("c1", cr2)]
    // positions 3 and 5 of the qubits, 4 of the qubits and 4 of the clbits
    && c.data == [
         Operation("cx", Standard, [qs[1], qr2[0]], [], []),
         Operation("measure", Standard, [qs[2]], [cs[2]], [])]
    && c.captures == [] && c.inputs == [] && c.declared == []
  }

  lemma RegisterlessAccepted(
    c: Circuit, qr1: seq<Bit>, qs: seq<Bit>, qr2: seq<Bit>, cr1: seq<Bit>, cs: seq<Bit>, cr2: seq<Bit>)
    requires RegisterlessCircuit(c, qr1, qs, qr2, cr1, cs, cr2)
    ensures WellFormed(c) && !Rejected(c)
    ensures c.qubits == qr1 + qs + qr2 && c.clbits == cr1 + cs + cr2
  {
    ThreeEnumerate(qr1, qs, qr2);
    ThreeEnumerate(cr1, cs, cr2);
    assert !HasControlFlow(c.data);
  }

  lemma RegisterlessCx(
    c: Circuit, qr1: seq<Bit>, qs: seq<Bit>, qr2: seq<Bit>, cr1: seq<Bit>, cs: seq<Bit>, cr2: seq<Bit>)
    requires RegisterlessCircuit(c, qr1, qs, qr2, cr1, cs, cr2)
    ensures WellFormed(c) && Convert(c, None).Ok?
    ensures var d := Convert(c, None).value.definition;
      |d.data| == 2 && d.data[0].qubits == [3, 5] && d.data[0].clbits == []
  {
    RegisterlessAccepted(c, qr1, qs, qr2, cr1, cs, cr2);
    PositionKept(c, None, 0);
    assert c.qubits[3] == qs[1] && c.qubits[5] == qr2[0];
  }

  lemma RegisterlessMeasure(
    c: Circuit, qr1: seq<Bit>, qs: seq<Bit>, qr2: seq<Bit>, cr1: seq<Bit>, cs: seq<Bit>, cr2: seq<Bit>)
    requires RegisterlessCircuit(c, qr1, qs, qr2, cr1, cs, cr2)
    ensures WellFormed(c) && Convert(c, None).Ok?
    ensures var d := Convert(c, None).value.definition;
      |d.data| == 2 && d.data[1].qubits == [4] && d.data[1].clbits == [4]
  {
    RegisterlessAccepted(c, qr1, qs, qr2, cr1, cs, cr2);
    PositionKept(c, None, 1);
    assert c.qubits[4] == qs[2] && c.clbits[4] == cs[2];
  }

  /** The instruction has 2 + 3 + 3 qubits and as many clbits, and each
      operand keeps its position: loose bits are flattened like register bits. */
  lemma FlattenRegisterless(
    c: Circuit, qr1: seq<Bit>, qs: seq<Bit>, qr2: seq<Bit>, cr1: seq<Bit>, cs: seq<Bit>, cr2: seq<Bit>)
    requires RegisterlessCircuit(c, qr1, qs, qr2, cr1, cs, cr2)
    ensures WellFormed(c) && Convert(c, None).Ok?
    ensures var inst := Convert(c, None).value;
      && inst.numQubits == |qr1| + |qs| + |qr2| == 8
      && inst.numClbits == |cr1| + |cs| + |cr2| == 8
      && |inst.definition.data| == 2
      && inst.definition.data[0].qubits == [3, 5]
      && inst.definition.data[0].clbits == []
      && inst.definition.data[1].qubits == [4]
      && inst.definition.data[1].clbits == [4]
  {
    RegisterlessAccepted(c, qr1, qs, qr2, cr1, cs, cr2);
    RegisterlessCx(c, qr1, qs, qr2, cr1, cs, cr2);
    RegisterlessMeasure(c, qr1, qs, qr2, cr1, cs, cr2);
  }

  // ---------------------------------------------------------------------
  // Overlapping registers: ten loose qubits, then registers over the first
  // six and the last six of them; the same for clbits; cx(3, 5), measure(4, 4).
  // ---------------------------------------------------------------------

  /** Every bit of a slice of `bs` is a bit of `bs`. */
  lemma SliceIn(bs: seq<Bit>, i: nat, j: nat)
    requires i <= j <= |bs|
    ensures forall k :: 0 <= k < |bs[i..j]| ==> bs[i..j][k] in bs
  {
    forall k | 0 <= k < |bs[i..j]| ensures bs[i..j][k] in bs {
      assert bs[i..j][k] == bs[i + k];
    }
  }

  /** Taking in registers over bits the circuit already holds adds nothing:
      the enumeration is the loose bits alone, though the groups hold more. */
  lemma OverlapEnumerate(bs: seq<Bit>, i: nat, j: nat)
    requires Distinct(bs) && i <= |bs| && j <= |bs|
    ensures Enumerate([bs, bs[..i], bs[j..]]) == bs
    ensures |Concat([bs, bs[..i], bs[j..]])| == |bs| + i + (|bs| - j)
  {
    ConcatThree(bs, bs[..i], bs[j..]);
    assert [] + bs == bs;
    AddBitsFresh([], bs);
    AddBitsAppend([], bs + bs[..i], bs[j..]);
    AddBitsAppend([], bs, bs[..i]);
    SliceIn(bs, 0, i);
    assert bs[0..i] == bs[..i];
    AddBitsPresent(bs, bs[..i]);
    SliceIn(bs, j, |bs|);
    assert bs[j..|bs|] == bs[j..];
    AddBitsPresent(bs, bs[j..]);
  }

  predicate OverlappingCircuit(c: Circuit, qs: seq<Bit>, cs: seq<Bit>) {
    && |qs| == 10 && |cs| == 10 && Distinct(qs) && Distinct(cs)
    && c.qubits == Enumerate([qs, qs[..6], qs[4..]])
    && c.clbits == Enumerate([cs, cs[..6], cs[4..]])
    && c.qregs == [Register("q0", qs[..6]), Register("q1", qs[4..])]
    && c.cregs == [Register("c0", cs[..6]), Register("c1", cs[4..])]
    && c.data == [
         Operation("cx", Standard, [qs[3], qs[5]], [], []),
         Operation("measure", Standard, [qs[4]], [cs[4]], [])]
    && c.captures == [] && c.inputs == [] && c.declared == []
  }

  lemma OverlappingBits(c: Circuit, qs: seq<Bit>, cs: seq<Bit>)
    requires OverlappingCircuit(c, qs, cs)
    ensures c.qubits == qs && c.clbits == cs
    ensures AllIn(qs[..6], qs) && AllIn(qs[4..], qs) && AllIn(cs[..6], cs) && AllIn(cs[4..], cs)
  {
    OverlapEnumerate(qs, 6, 4);
    OverlapEnumerate(cs, 6, 4);
    SliceIn(qs, 0, 6);
    SliceIn(qs, 4, 10);
    SliceIn(cs, 0, 6);
    SliceIn(cs, 4, 10);
    assert qs[0..6] == qs[..6] && qs[4..10] == qs[4..];
    assert cs[0..6] == cs[..6] && cs[4..10] == cs[4..];
  }

  lemma OverlappingAccepted(c: Circuit, qs: seq<Bit>, cs: seq<Bit>)
    requires OverlappingCircuit(c, qs, cs)
    ensures WellFormed(c) && !Rejected(c)
    ensures c.qubits == qs && c.clbits == cs
  {
    OverlappingBits(c, qs, cs);
    assert !HasControlFlow(c.data);
  }

  lemma OverlappingOperands(c: Circuit, qs: seq<Bit>, cs: seq<Bit>)
    requires OverlappingCircuit(c, qs, cs)
    ensures WellFormed(c) && Convert(c, None).Ok?
    ensures var d := Convert(c, None).value.definition;
      && |d.data| == 2
      && d.data[0].qubits == [3, 5] && d.data[0].clbits == []
      && d.data[1].qubits == [4] && d.data[1].clbits == [4]
  {
    OverlappingAccepted(c, qs, cs);
    PositionKept(c, None, 0);
    PositionKept(c, None, 1);
  }

  /** The instruction has one qubit per distinct bit (10), not one per
      register slot (22), and each operand keeps its position. */
  lemma FlattenOverlapping(c: Circuit, qs: seq<Bit>, cs: seq<Bit>)
    requires OverlappingCircuit(c, qs, cs)
    ensures WellFormed(c) && Convert(c, None).Ok?
    ensures var inst := Convert(c, None).value;
      && inst.numQubits == 10 < |Concat([qs, qs[..6], qs[4..]])|
      && inst.numClbits == 10 < |Concat([cs, cs[..6], cs[4..]])|
      && |inst.definition.data| == 2
      && inst.definition.data[0].qubits == [3, 5]
      && inst.definition.data[0].clbits == []
      && inst.definition.data[1].qubits == [4]
      && inst.definition.data[1].clbits == [4]
  {
    OverlapEnumerate(qs, 6, 4);
    OverlapEnumerate(cs, 6, 4);
    OverlappingOperands(c, qs, cs);
  }

  // ---------------------------------------------------------------------
  // Parameters: three qubits; rz(theta), rz(phi), u(theta, phi, 0) and
  // rz(theta + phi), with and without a parameter map.
  // ---------------------------------------------------------------------

  predicate ParameterCircuit(c: Circuit, qr: seq<Bit>, theta: Parameter, phi: Parameter) {
    && |qr| == 3 && Distinct(qr)
    && theta.name == "theta" && phi.name == "phi"
    && c.qubits == qr && c.clbits == []
    && c.qregs == [Register("qr", qr)] && c.cregs == []
    && c.data == [
         Operation("rz", Standard, [qr[0]], [], [Leaf(theta)]),
         Operation("rz", Standard, [qr[1]], [], [Leaf(phi)]),
         Operation("u", Standard, [qr[2]], [], [Leaf(theta), Leaf(phi), Const(0.0)]),
         Operation("rz", Standard, [qr[0]], [], [Add(Leaf(theta), Leaf(phi))])]
    && c.captures == [] && c.inputs == [] && c.declared == []
  }

  /** The parameters each of the four entry lists uses. */
  lemma EntryLeaves(theta: Parameter, phi: Parameter)
    ensures ExprsLeaves([Leaf(theta)]) == [theta]
    ensures ExprsLeaves([Leaf(phi)]) == [phi]
    ensures ExprsLeaves([Leaf(theta), Leaf(phi), Const(0.0)]) == [theta, phi]
    ensures ExprsLeaves([Add(Leaf(theta), Leaf(phi))]) == [theta, phi]
  {
    ExprsLeavesCons(Leaf(theta), []);
    ExprsLeavesCons(Leaf(phi), []);
    ExprsLeavesCons(Add(Leaf(theta), Leaf(phi)), []);
    ExprsLeavesCons(Const(0.0), []);
    ExprsLeavesCons(Leaf(phi), [Const(0.0)]);
    ExprsLeavesCons(Leaf(theta), [Leaf(phi), Const(0.0)]);
    assert [Leaf(phi)] + [Const(0.0)] == [Leaf(phi), Const(0.0)];
    assert [Leaf(theta)] + [Leaf(phi), Const(0.0)] == [Leaf(theta), Leaf(phi), Const(0.0)];
  }

  /** The parameters the four operations use, in program order. */
  lemma ParameterLeaves(ops: seq<Operation>, qr: seq<Bit>, theta: Parameter, phi: Parameter)
    requires |qr| == 3
    requires ops == [
         Operation("rz", Standard, [qr[0]], [], [Leaf(theta)]),
         Operation("rz", Standard, [qr[1]], [], [Leaf(phi)]),
         Operation("u", Standard, [qr[2]], [], [Leaf(theta), Leaf(phi), Const(0.0)]),
         Operation("rz", Standard, [qr[0]], [], [Add(Leaf(theta), Leaf(phi))])]
    ensures OpsLeaves(ops) == [theta, phi, theta, phi, theta, phi]
  {
    OpsLeavesFour(ops);
    EntryLeaves(theta, phi);
    assert ExprsLeaves(ops[0].params) == [theta];
    assert ExprsLeaves(ops[1].params) == [phi];
    assert ExprsLeaves(ops[2].params) == [theta, phi];
    assert ExprsLeaves(ops[3].params) == [theta, phi];
  }

  /** The circuit is accepted and uses exactly theta and phi. */
  lemma ParameterAccepted(c: Circuit, qr: seq<Bit>, theta: Parameter, phi: Parameter)
    requires ParameterCircuit(c, qr, theta, phi)
    ensures WellFormed(c) && !Rejected(c) && theta != phi
    ensures forall p :: p in UsedParameters(c) <==> p == theta || p == phi
  {
    assert !HasControlFlow(c.data);
    assert WellFormed(c);
    ParameterLeaves(c.data, qr, theta, phi);
  }

  /** The used parameters, sorted: phi before theta. */
  lemma PhiThetaOrder(c: Circuit, qr: seq<Bit>, theta: Parameter, phi: Parameter)
    requires ParameterCircuit(c, qr, theta, phi)
    ensures WellFormed(c) && !Rejected(c)
    ensures Canonical(UsedParameters(c)) == [phi, theta]
  {
    ParameterAccepted(c, qr, theta, phi);
    assert NameLt("phi", "theta");
    assert StrictlySorted([phi, theta]);
    SortedUnique(Canonical(UsedParameters(c)), [phi, theta]);
  }

  /** Without a map the instruction's parameters are [phi, theta], sorted by
      name, each once. */
  lemma FlattenParametersList(c: Circuit, qr: seq<Bit>, theta: Parameter, phi: Parameter)
    requires ParameterCircuit(c, qr, theta, phi)
    ensures WellFormed(c) && Convert(c, None).Ok?
    ensures Convert(c, None).value.params == [phi, theta]
  {
    DefaultParameters(c);
    PhiThetaOrder(c, qr, theta, phi);
  }

  /** Without a map the definition's operations keep their parameters:
      [theta], [phi], [theta, phi, 0] and [theta + phi]. */
  lemma FlattenParametersOps(c: Circuit, qr: seq<Bit>, theta: Parameter, phi: Parameter)
    requires ParameterCircuit(c, qr, theta, phi)
    ensures WellFormed(c) && Convert(c, None).Ok?
    ensures var d := Convert(c, None).value.definition;
      && |d.data| == 4
      && d.data[0].params == [Leaf(theta)]
      && d.data[1].params == [Leaf(phi)]
      && d.data[2].params == [Leaf(theta), Leaf(phi), Const(0.0)]
      && d.data[3].params == [Add(Leaf(theta), Leaf(phi))]
  {
    ParameterAccepted(c, qr, theta, phi);
    DefaultParameters(c);
  }

  lemma FlattenParameters(c: Circuit, qr: seq<Bit>, theta: Parameter, phi: Parameter)
    requires ParameterCircuit(c, qr, theta, phi)
    ensures WellFormed(c) && Convert(c, None).Ok?
    ensures var inst := Convert(c, None).value;
      && inst.params == [phi, theta]
      && |inst.definition.data| == 4
      && inst.definition.data[0].params == [Leaf(theta)]
      && inst.definition.data[1].params == [Leaf(phi)]
      && inst.definition.data[2].params == [Leaf(theta), Leaf(phi), Const(0.0)]
      && inst.definition.data[3].params == [Add(Leaf(theta), Leaf(phi))]
  {
    FlattenParametersList(c, qr, theta, phi);
    FlattenParametersOps(c, qr, theta, phi);
  }

  /** The map {theta: gamma, phi: phi} names exactly the used parameters. */
  lemma GammaMapComplete(c: Circuit, qr: seq<Bit>, theta: Parameter, phi: Parameter, gamma: Parameter)
    requires ParameterCircuit(c, qr, theta, phi) && gamma.name == "gamma"
    ensures WellFormed(c) && !Rejected(c)
    ensures map[theta := Leaf(gamma), phi := Leaf(phi)].Keys == Elems(UsedParameters(c))
  {
    ParameterAccepted(c, qr, theta, phi);
  }

  /** A complete map whose replacements' leaves are exactly the members of
      a strictly sorted list gives that list as the parameters. */
  lemma MappedList(c: Circuit, m: map<Parameter, Expr>, expected: seq<Parameter>)
    requires WellFormed(c) && !Rejected(c) && m.Keys == Elems(UsedParameters(c))
    requires StrictlySorted(expected)
    requires forall p :: (exists q :: q in UsedParameters(c) && q in m && p in LeafSeq(m[q])) <==> p in expected
    ensures Convert(c, Some(m)).Ok? && Convert(c, Some(m)).value.params == expected
  {
    MappedParameters(c, m);
    SortedUnique(Convert(c, Some(m)).value.params, expected);
  }

  /** Over theta and phi, the map {theta: gamma, phi: phi} yields exactly
      gamma and phi. */
  lemma GammaLeaves(used: seq<Parameter>, theta: Parameter, phi: Parameter, gamma: Parameter)
    requires theta != phi
    requires forall p :: p in used <==> p == theta || p == phi
    ensures var m := map[theta := Leaf(gamma), phi := Leaf(phi)];
      forall p :: (exists q :: q in used && q in m && p in LeafSeq(m[q])) <==> p in [gamma, phi]
  {
    var m := map[theta := Leaf(gamma), phi := Leaf(phi)];
    forall p ensures (exists q :: q in used && q in m && p in LeafSeq(m[q])) <==> p in [gamma, phi] {
      if exists q :: q in used && q in m && p in LeafSeq(m[q]) {
        var q :| q in used && q in m && p in LeafSeq(m[q]);
        assert p == gamma || p == phi;
      }
      if p == gamma {
        assert theta in used && gamma in LeafSeq(m[theta]);
      }
      if p == phi {
        assert phi in used && phi in LeafSeq(m[phi]);
      }
    }
  }

  /** With {theta: gamma, phi: phi} the instruction's parameters are
      [gamma, phi]. */
  lemma ParameterMapList(c: Circuit, qr: seq<Bit>, theta: Parameter, phi: Parameter, gamma: Parameter)
    requires ParameterCircuit(c, qr, theta, phi) && gamma.name == "gamma"
    ensures WellFormed(c)
    ensures var r := Convert(c, Some(map[theta := Leaf(gamma), phi := Leaf(phi)]));
      r.Ok? && r.value.params == [gamma, phi]
  {
    var m := map[theta := Leaf(gamma), phi := Leaf(phi)];
    ParameterAccepted(c, qr, theta, phi);
    GammaMapComplete(c, qr, theta, phi, gamma);
    GammaLeaves(UsedParameters(c), theta, phi, gamma);
    assert NameLt("gamma", "phi");
    assert StrictlySorted([gamma, phi]);
    MappedList(c, m, [gamma, phi]);
  }

  /** Substituting {theta: gamma, phi: phi} in each kind of tree. */
  lemma GammaSubstTrees(theta: Parameter, phi: Parameter, gamma: Parameter)
    requires theta != phi
    ensures var m := map[theta := Leaf(gamma), phi := Leaf(phi)];
      && Subst(Leaf(theta), m) == Leaf(gamma)
      && Subst(Leaf(phi), m) == Leaf(phi)
      && Subst(Const(0.0), m) == Const(0.0)
      && Subst(Add(Leaf(theta), Leaf(phi)), m) == Add(Leaf(gamma), Leaf(phi))
  {
  }

  /** Substituting {theta: gamma, phi: phi} entry by entry. */
  lemma GammaSubst(theta: Parameter, phi: Parameter, gamma: Parameter)
    requires theta != phi
    ensures var m := map[theta := Leaf(gamma), phi := Leaf(phi)];
      && SubstAll([Leaf(theta)], m) == [Leaf(gamma)]
      && SubstAll([Leaf(phi)], m) == [Leaf(phi)]
      && SubstAll([Leaf(theta), Leaf(phi), Const(0.0)], m) == [Leaf(gamma), Leaf(phi), Const(0.0)]
      && SubstAll([Add(Leaf(theta), Leaf(phi))], m) == [Add(Leaf(gamma), Leaf(phi))]
  {
    GammaSubstTrees(theta, phi, gamma);
  }

  /** With {theta: gamma, phi: phi} every entry is substituted: [gamma],
      [phi], [gamma, phi, 0] and [gamma + phi]. */
  lemma ParameterMapOps(c: Circuit, qr: seq<Bit>, theta: Parameter, phi: Parameter, gamma: Parameter)
    requires ParameterCircuit(c, qr, theta, phi) && gamma.name == "gamma"
    ensures WellFormed(c)
    ensures var r := Convert(c, Some(map[theta := Leaf(gamma), phi := Leaf(phi)]));
      && r.Ok?
      && |r.value.definition.data| == 4
      && r.value.definition.data[0].params == [Leaf(gamma)]
      && r.value.definition.data[1].params == [Leaf(phi)]
      && r.value.definition.data[2].params == [Leaf(gamma), Leaf(phi), Const(0.0)]
      && r.value.definition.data[3].params == [Add(Leaf(gamma), Leaf(phi))]
  {
    var m := map[theta := Leaf(gamma), phi := Leaf(phi)];
    GammaMapComplete(c, qr, theta, phi, gamma);
    GammaSubst(theta, phi, gamma);
    MappedParameters(c, m);
    var d := Convert(c, Some(m)).value.definition.data;
    assert d[0].params == SubstAll(c.data[0].params, m);
    assert d[1].params == SubstAll(c.data[1].params, m);
    assert d[2].params == SubstAll(c.data[2].params, m);
    assert d[3].params == SubstAll(c.data[3].params, m);
  }

  lemma ParameterMap(c: Circuit, qr: seq<Bit>, theta: Parameter, phi: Parameter, gamma: Parameter)
    requires ParameterCircuit(c, qr, theta, phi) && gamma.name == "gamma"
    ensures WellFormed(c)
    ensures var r := Convert(c, Some(map[theta := Leaf(gamma), phi := Leaf(phi)]));
      && r.Ok?
      && r.value.params == [gamma, phi]
      && |r.value.definition.data| == 4
      && r.value.definition.data[0].params == [Leaf(gamma)]
      && r.value.definition.data[1].params == [Leaf(phi)]
      && r.value.definition.data[2].params == [Leaf(gamma), Leaf(phi), Const(0.0)]
      && r.value.definition.data[3].params == [Add(Leaf(gamma), Leaf(phi))]
  {
    ParameterMapList(c, qr, theta, phi, gamma);
    ParameterMapOps(c, qr, theta, phi, gamma);
  }

  /** A map missing a used parameter is refused as underspecified. */
  lemma Underspecified(c: Circuit, m: map<Parameter, Expr>, p: Parameter)
    requires WellFormed(c) && !Rejected(c) && p in UsedParameters(c) && p !in m
    ensures Convert(c, Some(m)) == Err(UnderspecifiedMapping)
  {
    MappingCompleteness(c, m);
  }

  /** A map covering the used parameters with a key to spare is refused as
      overspecified. */
  lemma Overspecified(c: Circuit, m: map<Parameter, Expr>)
    requires WellFormed(c) && !Rejected(c) && Elems(UsedParameters(c)) < m.Keys
    ensures Convert(c, Some(m)) == Err(OverspecifiedMapping)
  {
    MappingCompleteness(c, m);
  }

  /** Over theta and phi, the map with the extra key delta has a key to
      spare. */
  lemma SpareKey(used: seq<Parameter>, theta: Parameter, phi: Parameter, gamma: Parameter, delta: Parameter)
    requires forall p :: p in used <==> p == theta || p == phi
    requires delta != theta && delta != phi
    ensures Elems(used) < map[theta := Leaf(gamma), phi := Leaf(phi), delta := Leaf(delta)].Keys
  {
    var keys := map[theta := Leaf(gamma), phi := Leaf(phi), delta := Leaf(delta)].Keys;
    assert keys == {theta, phi, delta};
    assert Elems(used) == {theta, phi};
    assert delta in keys && delta !in Elems(used);
  }

  /** {theta: gamma} leaves phi unmapped, and a map with the extra key delta
      names a parameter the circuit does not use: both are refused. */
  lemma ParameterMapMismatch(
    c: Circuit, qr: seq<Bit>, theta: Parameter, phi: Parameter, gamma: Parameter, delta: Parameter)
    requires ParameterCircuit(c, qr, theta, phi) && gamma.name == "gamma" && delta.name == "delta"
    ensures WellFormed(c)
    ensures Convert(c, Some(map[theta := Leaf(gamma)])) == Err(UnderspecifiedMapping)
    ensures Convert(c, Some(map[theta := Leaf(gamma), phi := Leaf(phi), delta := Leaf(delta)]))
      == Err(OverspecifiedMapping)
  {
    ParameterAccepted(c, qr, theta, phi);
    var under := map[theta := Leaf(gamma)];
    var over := map[theta := Leaf(gamma), phi := Leaf(phi), delta := Leaf(delta)];
    Underspecified(c, under, phi);
    SpareKey(UsedParameters(c), theta, phi, gamma, delta);
    Overspecified(c, over);
  }

  // ---------------------------------------------------------------------
  // Control flow: h(0), cx(0, 1), measure_all (a barrier, then each qubit
  // measured into a new two-clbit register), then an if block on clbit 0.
  // ---------------------------------------------------------------------

  predicate ControlFlowCircuit(c: Circuit, qs: seq<Bit>, cs: seq<Bit>) {
    && |qs| == 2 && |cs| == 2 && Distinct(qs) && Distinct(cs)
    && c.qubits == qs && c.clbits == cs
    && c.qregs == [Register("q", qs)] && c.cregs == [Register("meas", cs)]
    && c.data == [
         Operation("h", Standard, [qs[0]], [], []),
         Operation("cx", Standard, [qs[0], qs[1]], [], []),
         Operation("barrier", Standard, qs, [], []),
         Operation("measure", Standard, [qs[0]], [cs[0]], []),
         Operation("measure", Standard, [qs[1]], [cs[1]], []),
         Operation("if_else", ControlFlow, [qs[0]], [cs[0]], [])]
    && c.captures == [] && c.inputs == [] && c.declared == []
  }

  /** A circuit holding an if block is refused as control flow, whatever map is given. */
  lemma ControlFlowRaises(c: Circuit, qs: seq<Bit>, cs: seq<Bit>, pmap: Option<map<Parameter, Expr>>)
    requires ControlFlowCircuit(c, qs, cs)
    ensures WellFormed(c) && Convert(c, pmap) == Err(UnsupportedControlFlow)
  {
    assert AllIn(qs, qs) by {
      assert qs == [qs[0], qs[1]];
    }
    assert WellFormed(c);
    assert c.data[5].kind == ControlFlow;
    RejectionKinds(c, pmap);
  }

  // ---------------------------------------------------------------------
  // Zero operands and the classical variables.
  // ---------------------------------------------------------------------

  /** A circuit with no bits, no registers and no operations. */
  predicate EmptyCircuit(c: Circuit) {
    && c.qubits == [] && c.clbits == [] && c.qregs == [] && c.cregs == [] && c.data == []
  }

  /** A circuit holding only a global phase becomes an instruction of zero
      qubits and zero clbits whose definition is that same circuit, its
      phase included. */
  lemma ZeroOperandsPhase(c: Circuit)
    requires EmptyCircuit(c) && c.captures == [] && c.inputs == [] && c.declared == []
    ensures WellFormed(c)
    ensures var r := Convert(c, None);
      && r == Ok(Instruction(c.name, 0, 0, [], c))
      && r.value.definition.globalPhase == c.globalPhase
  {
    assert WellFormed(c);
    ZeroOperands(c);
    assert UsedParameters(c) == [];
  }

  /** A circuit that captures a variable is refused. */
  lemma ForbidsCapturedVars(c: Circuit, a: Var)
    requires EmptyCircuit(c) && c.captures == [a] && c.inputs == [] && c.declared == []
    ensures WellFormed(c) && Convert(c, None) == Err(CapturedVariables)
  {
    RejectionKinds(c, None);
  }

  /** A circuit with an input variable is refused. */
  lemma ForbidsInputVars(c: Circuit, a: Var)
    requires EmptyCircuit(c) && c.captures == [] && c.inputs == [a] && c.declared == []
    ensures WellFormed(c) && Convert(c, None) == Err(InputVariables)
  {
    RejectionKinds(c, None);
  }

  /** A circuit that declares a variable of its own is refused with the
      error that points to composing instead, whatever operations (such as
      the store of the variable's initial value) it holds. */
  lemma ForbidsDeclaredVars(c: Circuit, a: Var)
    requires WellFormed(c) && c.qubits == [] && c.clbits == [] && c.qregs == [] && c.cregs == []
    requires c.captures == [] && c.inputs == [] && c.declared == [a]
    ensures Convert(c, None) == Err(DeclaredVariables)
  {
    RejectionKinds(c, None);
  }
}
