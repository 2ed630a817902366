/** The converter from a circuit to an instruction: the validation gate, the
    parameter-map check, the bit flattener and the instruction builder. */
module Converter {
  import opened Wrappers
  import opened Seqs
  import opened Params
  import opened Bits
  import opened Circuits

  /** One constructor per rejection; `DeclaredVariables` is the one whose
      message points the caller to `QuantumCircuit.compose` instead. */
  datatype ConversionError =
    | CapturedVariables
    | InputVariables
    | DeclaredVariables
    | UnsupportedControlFlow
    | UnderspecifiedMapping
    | OverspecifiedMapping

  /** The converter's output: a header with the dense counts and the
      canonical parameter list, and a private definition over fresh bits. */
  datatype Instruction = Instruction(
    name: string,
    numQubits: nat,
    numClbits: nat,
    params: seq<Parameter>,
    definition: Circuit)

  predicate HasControlFlow(ops: seq<Operation>) {
    exists i :: 0 <= i < |ops| && ops[i].kind == ControlFlow
  }

  /** The conditions under which a circuit cannot become a closed subroutine. */
  predicate Rejected(c: Circuit) {
    c.captures != [] || c.inputs != [] || c.declared != [] || HasControlFlow(c.data)
  }

  /** The validation gate: the first failing check, captured variables first,
      then input variables, declared variables and control flow. */
  function Validate(c: Circuit): (r: Option<ConversionError>)
    ensures r.None? <==> !Rejected(c)
    ensures r == Some(CapturedVariables) <==> c.captures != []
    ensures r == Some(InputVariables) <==> c.captures == [] && c.inputs != []
    ensures r == Some(DeclaredVariables) ==> c.declared != []
    ensures r == Some(UnsupportedControlFlow) ==> HasControlFlow(c.data)
    ensures r.Some? ==> !r.value.UnderspecifiedMapping? && !r.value.OverspecifiedMapping?
  {
    if c.captures != [] then Some(CapturedVariables)
    else if c.inputs != [] then Some(InputVariables)
    else if c.declared != [] then Some(DeclaredVariables)
    else if HasControlFlow(c.data) then Some(UnsupportedControlFlow)
    else None
  }

  /** The substitution to apply: the identity on the used parameters when no
      map is given; otherwise the caller's map, which must have exactly the
      used parameters as keys. */
  function ResolveMapping(used: seq<Parameter>, pmap: Option<map<Parameter, Expr>>)
    : (r: Result<map<Parameter, Expr>, ConversionError>)
    ensures r.Ok? ==> r.value.Keys == Elems(used)
    ensures pmap.None? ==> r.Ok? && forall p :: p in r.value ==> r.value[p] == Leaf(p)
    ensures pmap.Some? ==> (r.Ok? <==> pmap.value.Keys == Elems(used))
    ensures pmap.Some? && r.Ok? ==> r.value == pmap.value
    ensures r == Err(UnderspecifiedMapping) <==>
      pmap.Some? && exists p :: p in used && p !in pmap.value
    ensures r == Err(OverspecifiedMapping) <==>
      pmap.Some? && Elems(used) < pmap.value.Keys
  {
    match pmap
    case None => Ok(IdentityMap(used))
    case Some(m) =>
      if exists p :: p in used && p !in m then Err(UnderspecifiedMapping)
      else if !(m.Keys <= Elems(used)) then Err(OverspecifiedMapping)
      else Ok(m)
  }

  /** The dense index of every bit of `bs`: each index points back, in the
      enumeration, to the bit it replaces. */
  function MapBits(enum: seq<Bit>, bs: seq<Bit>): (r: seq<nat>)
    requires AllIn(bs, enum)
    ensures |r| == |bs|
    ensures forall j :: 0 <= j < |bs| ==> r[j] < |enum| && enum[r[j]] == bs[j]
  {
    if bs == [] then [] else [IndexOf(enum, bs[0])] + MapBits(enum, bs[1..])
  }

  /** In a duplicate-free enumeration, the dense index of a bit is its first
      (and only) position. */
  lemma MapBitsIndexOf(enum: seq<Bit>, bs: seq<Bit>, j: nat)
    requires Distinct(enum) && AllIn(bs, enum) && j < |bs|
    ensures MapBits(enum, bs)[j] == IndexOf(enum, bs[j])
  {
    var r := MapBits(enum, bs);
    IndexOfDistinct(enum, r[j]);
  }

  /** One operation re-expressed over the dense bits, its parameters
      substituted: same name, kind and operand counts, each dense operand the
      position of the bit it replaces, each entry substituted in place. */
  function RemapOp(op: Operation, qubits: seq<Bit>, clbits: seq<Bit>, m: map<Parameter, Expr>): (r: Operation)
    requires OperandsIn(op, qubits, clbits)
    ensures r.name == op.name && r.kind == op.kind
    ensures |r.qubits| == |op.qubits|
    ensures forall j :: 0 <= j < |op.qubits| ==> r.qubits[j] < |qubits| && qubits[r.qubits[j]] == op.qubits[j]
    ensures |r.clbits| == |op.clbits|
    ensures forall j :: 0 <= j < |op.clbits| ==> r.clbits[j] < |clbits| && clbits[r.clbits[j]] == op.clbits[j]
    ensures r.params == SubstAll(op.params, m)
  {
    op.(qubits := MapBits(qubits, op.qubits),
        clbits := MapBits(clbits, op.clbits),
        params := SubstAll(op.params, m))
  }

  /** `out` is `op` of circuit `src` flattened onto dense bits and substituted
      by `m`: same name and kind, each dense operand naming the source bit's
      position in the enumeration, each parameter entry substituted. */
  ghost predicate Flattened(src: Circuit, m: map<Parameter, Expr>, op: Operation, out: Operation) {
    && out.name == op.name
    && out.kind == op.kind
    && |out.qubits| == |op.qubits|
    && (forall j :: 0 <= j < |op.qubits| ==>
          out.qubits[j] < |src.qubits| && src.qubits[out.qubits[j]] == op.qubits[j])
    && |out.clbits| == |op.clbits|
    && (forall j :: 0 <= j < |op.clbits| ==>
          out.clbits[j] < |src.clbits| && src.clbits[out.clbits[j]] == op.clbits[j])
    && out.params == SubstAll(op.params, m)
  }

  /** Bits of the definition: registers `q` and `c` over the dense bits,
      each present only when it is not empty. */
  function DenseRegister(name: string, n: nat): seq<Register> {
    if n > 0 then [Register(name, Range(n))] else []
  }

  lemma RangeAllIn(bs: seq<Bit>, n: nat)
    requires forall j :: 0 <= j < |bs| ==> bs[j] < n
    ensures AllIn(bs, Range(n))
  {
    forall j | 0 <= j < |bs| ensures bs[j] in Range(n) {
      assert Range(n)[bs[j]] == bs[j];
    }
  }

  /** Every operation, in order, re-expressed over the dense bits and
      substituted; the dense operands stay below the bit counts. */
  function FlattenOps(c: Circuit, m: map<Parameter, Expr>): (data: seq<Operation>)
    requires WellFormed(c)
    ensures |data| == |c.data|
    ensures forall i :: 0 <= i < |c.data| ==> Flattened(c, m, c.data[i], data[i])
    ensures forall i :: 0 <= i < |data| ==>
      OperandsIn(data[i], Range(|c.qubits|), Range(|c.clbits|))
  {
    var data := seq(|c.data|, i requires 0 <= i < |c.data| => RemapOp(c.data[i], c.qubits, c.clbits, m));
    assert forall i :: 0 <= i < |data| ==> OperandsIn(data[i], Range(|c.qubits|), Range(|c.clbits|)) by {
      forall i | 0 <= i < |data| ensures OperandsIn(data[i], Range(|c.qubits|), Range(|c.clbits|)) {
        RangeAllIn(data[i].qubits, |c.qubits|);
        RangeAllIn(data[i].clbits, |c.clbits|);
      }
    }
    data
  }

  /** The instruction builder: a fresh definition over dense bits holding every
      operation, in order, flattened and substituted, the global phase carried
      over; a header with the counts and the canonical parameter list. */
  function Build(c: Circuit, m: map<Parameter, Expr>): (inst: Instruction)
    requires WellFormed(c)
    requires forall q :: q in UsedParameters(c) ==> q in m
    ensures inst.name == c.name
    ensures inst.numQubits == |c.qubits| && inst.numClbits == |c.clbits|
    ensures inst.definition.qubits == Range(inst.numQubits)
    ensures inst.definition.clbits == Range(inst.numClbits)
    ensures WellFormed(inst.definition)
    ensures |inst.definition.data| == |c.data|
    ensures forall i :: 0 <= i < |c.data| ==> Flattened(c, m, c.data[i], inst.definition.data[i])
    ensures inst.definition.name == c.name
    ensures inst.definition.qregs == DenseRegister("q", inst.numQubits)
    ensures inst.definition.cregs == DenseRegister("c", inst.numClbits)
    ensures inst.definition.globalPhase == c.globalPhase
    ensures inst.definition.captures == [] && inst.definition.inputs == [] && inst.definition.declared == []
    ensures StrictlySorted(inst.params) && Distinct(inst.params)
    ensures forall p :: p in inst.params <==> p in UsedParameters(inst.definition)
  {
    var n := |c.qubits|;
    var k := |c.clbits|;
    var defn := Circuit(c.name, Range(n), Range(k), DenseRegister("q", n), DenseRegister("c", k),
                        FlattenOps(c, m), c.globalPhase, [], [], []);
    assert WellFormed(defn) by {
      RangeAllIn(Range(n), n);
      RangeAllIn(Range(k), k);
    }
    Instruction(c.name, n, k, Canonical(UsedParameters(defn)), defn)
  }

  /** The converter: all or nothing. It fails exactly when the validation gate
      rejects the circuit or the map is not a map from exactly the used
      parameters; otherwise the instruction has the circuit's bit counts and
      a canonical parameter list. */
  function Convert(c: Circuit, pmap: Option<map<Parameter, Expr>>): (r: Result<Instruction, ConversionError>)
    requires WellFormed(c)
    ensures r.Err? <==> Rejected(c) || (pmap.Some? && pmap.value.Keys != Elems(UsedParameters(c)))
    ensures Rejected(c) ==> r.Err? && !r.error.UnderspecifiedMapping? && !r.error.OverspecifiedMapping?
    ensures r.Ok? ==> r.value.numQubits == |c.qubits| && r.value.numClbits == |c.clbits|
    ensures r.Ok? ==> StrictlySorted(r.value.params)
  {
    match Validate(c)
    case Some(e) => Err(e)
    case None =>
      match ResolveMapping(UsedParameters(c), pmap)
      case Err(e) => Err(e)
      case Ok(m) => Ok(Build(c, m))
  }
}
