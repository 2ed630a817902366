/** What the converter promises, stated over `Convert` for every circuit. */
module Properties {
  import opened Wrappers
  import opened Seqs
  import opened Params
  import opened Bits
  import opened Circuits
  import opened Converter

  /** Operation `i` of the definition is operation `i` of the circuit: the
      order, the names, the kinds and the number of operands of each kind are
      kept (a gate without clbits keeps none). */
  lemma OrderAndOperandsKept(c: Circuit, pmap: Option<map<Parameter, Expr>>, i: nat)
    requires WellFormed(c) && Convert(c, pmap).Ok? && i < |c.data|
    ensures |Convert(c, pmap).value.definition.data| == |c.data|
    ensures var out := Convert(c, pmap).value.definition.data[i];
      && out.name == c.data[i].name
      && out.kind == c.data[i].kind
      && |out.qubits| == |c.data[i].qubits|
      && |out.clbits| == |c.data[i].clbits|
  {
  }

  /** The dense index of an operand is its bit's position in the circuit's
      enumeration, whichever registers hold that bit. */
  lemma DenseIndexIsPosition(c: Circuit, pmap: Option<map<Parameter, Expr>>, i: nat)
    requires WellFormed(c) && Convert(c, pmap).Ok? && i < |c.data|
    ensures |Convert(c, pmap).value.definition.data| == |c.data|
    ensures var op, out := c.data[i], Convert(c, pmap).value.definition.data[i];
      && (forall j :: 0 <= j < |op.qubits| ==>
            op.qubits[j] in c.qubits && j < |out.qubits| && out.qubits[j] == IndexOf(c.qubits, op.qubits[j]))
      && (forall j :: 0 <= j < |op.clbits| ==>
            op.clbits[j] in c.clbits && j < |out.clbits| && out.clbits[j] == IndexOf(c.clbits, op.clbits[j]))
  {
    var op, out := c.data[i], Convert(c, pmap).value.definition.data[i];
    assert OperandsIn(op, c.qubits, c.clbits);
    forall j | 0 <= j < |op.qubits|
      ensures out.qubits[j] == IndexOf(c.qubits, op.qubits[j])
    {
      IndexOfDistinct(c.qubits, out.qubits[j]);
    }
    forall j | 0 <= j < |op.clbits|
      ensures out.clbits[j] == IndexOf(c.clbits, op.clbits[j])
    {
      IndexOfDistinct(c.clbits, out.clbits[j]);
    }
  }

  /** An operand that addresses the circuit's `k`-th qubit (or clbit) lands on
      the definition's `k`-th qubit (or clbit), registered or not. */
  lemma PositionKept(c: Circuit, pmap: Option<map<Parameter, Expr>>, i: nat)
    requires WellFormed(c) && Convert(c, pmap).Ok? && i < |c.data|
    ensures var d := Convert(c, pmap).value.definition;
      && |d.data| == |c.data| && |d.qubits| == |c.qubits| && |d.clbits| == |c.clbits|
      && (forall j, k :: 0 <= j < |c.data[i].qubits| && 0 <= k < |c.qubits| && c.data[i].qubits[j] == c.qubits[k] ==>
            j < |d.data[i].qubits| && d.data[i].qubits[j] == d.qubits[k])
      && (forall j, k :: 0 <= j < |c.data[i].clbits| && 0 <= k < |c.clbits| && c.data[i].clbits[j] == c.clbits[k] ==>
            j < |d.data[i].clbits| && d.data[i].clbits[j] == d.clbits[k])
  {
    DenseIndexIsPosition(c, pmap, i);
    forall k | 0 <= k < |c.qubits| ensures IndexOf(c.qubits, c.qubits[k]) == k {
      IndexOfDistinct(c.qubits, k);
    }
    forall k | 0 <= k < |c.clbits| ensures IndexOf(c.clbits, c.clbits[k]) == k {
      IndexOfDistinct(c.clbits, k);
    }
  }

  /** A circuit whose qubits were taken in from disjoint groups (registers or
      loose bits): the operand that is bit `k` of group `g` becomes the dense
      qubit at the summed sizes of the groups before `g`, plus `k`. */
  lemma QubitRegisterOperand(
    c: Circuit, pmap: Option<map<Parameter, Expr>>, groups: seq<seq<Bit>>,
    i: nat, j: nat, g: nat, k: nat)
    requires WellFormed(c) && Convert(c, pmap).Ok?
    requires c.qubits == Enumerate(groups) && Distinct(Concat(groups))
    requires i < |c.data| && j < |c.data[i].qubits| && g < |groups| && k < |groups[g]|
    requires c.data[i].qubits[j] == groups[g][k]
    ensures |Convert(c, pmap).value.definition.data| == |c.data|
    ensures var out := Convert(c, pmap).value.definition.data[i];
      j < |out.qubits| && out.qubits[j] == |Concat(groups[..g])| + k
  {
    var out := Convert(c, pmap).value.definition.data[i];
    EnumeratedAt(groups, g, k, out.qubits[j]);
  }

  /** The same for clbits. */
  lemma ClbitRegisterOperand(
    c: Circuit, pmap: Option<map<Parameter, Expr>>, groups: seq<seq<Bit>>,
    i: nat, j: nat, g: nat, k: nat)
    requires WellFormed(c) && Convert(c, pmap).Ok?
    requires c.clbits == Enumerate(groups) && Distinct(Concat(groups))
    requires i < |c.data| && j < |c.data[i].clbits| && g < |groups| && k < |groups[g]|
    requires c.data[i].clbits[j] == groups[g][k]
    ensures |Convert(c, pmap).value.definition.data| == |c.data|
    ensures var out := Convert(c, pmap).value.definition.data[i];
      j < |out.clbits| && out.clbits[j] == |Concat(groups[..g])| + k
  {
    var out := Convert(c, pmap).value.definition.data[i];
    EnumeratedAt(groups, g, k, out.clbits[j]);
  }

  /** Overlapping registers: the instruction has one qubit per distinct bit of
      the groups the circuit was built from, never more than the summed
      group sizes and exactly that sum only when no bit is shared; clbits alike. */
  lemma BitCounts(c: Circuit, pmap: Option<map<Parameter, Expr>>, qgroups: seq<seq<Bit>>, cgroups: seq<seq<Bit>>)
    requires WellFormed(c) && Convert(c, pmap).Ok?
    requires c.qubits == Enumerate(qgroups) && c.clbits == Enumerate(cgroups)
    ensures var inst := Convert(c, pmap).value;
      && inst.numQubits == |Elems(Concat(qgroups))| <= |Concat(qgroups)|
      && (inst.numQubits == |Concat(qgroups)| <==> Distinct(Concat(qgroups)))
      && inst.numClbits == |Elems(Concat(cgroups))| <= |Concat(cgroups)|
      && (inst.numClbits == |Concat(cgroups)| <==> Distinct(Concat(cgroups)))
  {
    EnumerateCount(qgroups);
    EnumerateCount(cgroups);
  }

  /** Without a map: every distinct parameter the circuit uses, once, in
      canonical order; every operation keeps its own parameter entries. */
  lemma DefaultParameters(c: Circuit)
    requires WellFormed(c) && !Rejected(c)
    ensures Convert(c, None).Ok?
    ensures var inst := Convert(c, None).value;
      && inst.params == Canonical(UsedParameters(c))
      && |inst.definition.data| == |c.data|
      && forall i :: 0 <= i < |c.data| ==> inst.definition.data[i].params == c.data[i].params
  {
    var used := UsedParameters(c);
    var m := IdentityMap(used);
    var inst := Convert(c, None).value;
    assert inst == Build(c, m);
    var d := inst.definition;
    forall i | 0 <= i < |c.data| ensures d.data[i].params == c.data[i].params {
      SubstAllIdentity(c.data[i].params, m);
    }
    OpsLeavesSameParams(c.data, d.data);
    SortedUnique(inst.params, Canonical(used));
  }

  /** With a complete map: every entry of every operation is substituted,
      and the parameter list holds exactly the parameters of the
      replacements of the used parameters. */
  lemma MappedParameters(c: Circuit, m: map<Parameter, Expr>)
    requires WellFormed(c) && !Rejected(c)
    requires m.Keys == Elems(UsedParameters(c))
    ensures Convert(c, Some(m)).Ok?
    ensures var inst := Convert(c, Some(m)).value;
      && |inst.definition.data| == |c.data|
      && (forall i :: 0 <= i < |c.data| ==> inst.definition.data[i].params == SubstAll(c.data[i].params, m))
      && StrictlySorted(inst.params)
      && forall p :: p in inst.params <==>
           exists q :: q in UsedParameters(c) && q in m && p in LeafSeq(m[q])
  {
    var inst := Convert(c, Some(m)).value;
    assert inst == Build(c, m);
    OpsLeavesSubst(c.data, inst.definition.data, m);
  }

  /** A map that misses a used parameter is underspecified; one that covers
      them all and has an extra key is overspecified. */
  lemma MappingCompleteness(c: Circuit, m: map<Parameter, Expr>)
    requires WellFormed(c) && !Rejected(c)
    ensures Convert(c, Some(m)) == Err(UnderspecifiedMapping) <==>
      exists p :: p in UsedParameters(c) && p !in m
    ensures Convert(c, Some(m)) == Err(OverspecifiedMapping) <==>
      Elems(UsedParameters(c)) < m.Keys
    ensures Convert(c, Some(m)).Ok? <==> m.Keys == Elems(UsedParameters(c))
  {
  }

  /** Each forbidden construct rejects the circuit with its own error, the
      checks taken in the order captured, input, declared, control flow. */
  lemma RejectionKinds(c: Circuit, pmap: Option<map<Parameter, Expr>>)
    requires WellFormed(c)
    ensures c.captures != [] ==> Convert(c, pmap) == Err(CapturedVariables)
    ensures c.captures == [] && c.inputs != [] ==> Convert(c, pmap) == Err(InputVariables)
    ensures c.captures == [] && c.inputs == [] && c.declared != [] ==>
      Convert(c, pmap) == Err(DeclaredVariables)
    ensures c.captures == [] && c.inputs == [] && c.declared == [] && HasControlFlow(c.data) ==>
      Convert(c, pmap) == Err(UnsupportedControlFlow)
  {
  }

  /** Without bits, no operation has an operand, so flattening keeps every
      operation as it is, and without a map every entry is kept too. */
  lemma ZeroOperandsData(c: Circuit)
    requires WellFormed(c) && !Rejected(c) && c.qubits == [] && c.clbits == []
    ensures Convert(c, None).Ok? && Convert(c, None).value.definition.data == c.data
  {
    DefaultParameters(c);
    var d := Convert(c, None).value.definition;
    forall i | 0 <= i < |c.data| ensures d.data[i] == c.data[i] {
      assert OperandsIn(c.data[i], c.qubits, c.clbits);
      assert c.data[i].qubits == [] && c.data[i].clbits == [];
    }
  }

  /** A circuit without bits or registers (a global phase, say) converts to
      an instruction of zero qubits and zero clbits whose definition is the
      circuit itself, global phase included. */
  lemma ZeroOperands(c: Circuit)
    requires WellFormed(c) && !Rejected(c)
    requires c.qubits == [] && c.clbits == [] && c.qregs == [] && c.cregs == []
    ensures Convert(c, None) == Ok(Instruction(c.name, 0, 0, Canonical(UsedParameters(c)), c))
  {
    DefaultParameters(c);
    ZeroOperandsData(c);
    assert Range(0) == [];
  }
}
