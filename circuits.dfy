/** The circuit the converter consumes: bits, registers viewing them,
    operations over them, a global phase and the three classes of classical
    variables the validation gate inspects. */
module Circuits {
  import opened Seqs
  import opened Params
  import opened Bits

  /** A named view over bits; registers may overlap and own nothing. */
  datatype Register = Register(name: string, bits: seq<Bit>)

  /** The tag the validation gate tests: conditional and looping blocks are
      `ControlFlow`, every gate and measurement is `Standard`. */
  datatype OpKind = Standard | ControlFlow

  datatype Operation = Operation(
    name: string,
    kind: OpKind,
    qubits: seq<Bit>,
    clbits: seq<Bit>,
    params: seq<Expr>)

  /** A typed classical variable of the circuit's scope (captured, input or
      declared); only its presence matters to the converter. */
  datatype Var = Var(name: string)

  /** `qubits` and `clbits` are the circuit's enumerations: every bit once, in
      the order the circuit took them in. */
  datatype Circuit = Circuit(
    name: string,
    qubits: seq<Bit>,
    clbits: seq<Bit>,
    qregs: seq<Register>,
    cregs: seq<Register>,
    data: seq<Operation>,
    globalPhase: real,
    captures: seq<Var>,
    inputs: seq<Var>,
    declared: seq<Var>)

  /** Every bit of `bs` is one of `enum`. */
  predicate AllIn(bs: seq<Bit>, enum: seq<Bit>) {
    forall j :: 0 <= j < |bs| ==> bs[j] in enum
  }

  predicate OperandsIn(op: Operation, qubits: seq<Bit>, clbits: seq<Bit>) {
    AllIn(op.qubits, qubits) && AllIn(op.clbits, clbits)
  }

  /** The circuit's invariant: each enumeration is duplicate-free, and every
      register and every operation refers only to bits of the circuit. */
  predicate WellFormed(c: Circuit) {
    && Distinct(c.qubits)
    && Distinct(c.clbits)
    && (forall i :: 0 <= i < |c.qregs| ==> AllIn(c.qregs[i].bits, c.qubits))
    && (forall i :: 0 <= i < |c.cregs| ==> AllIn(c.cregs[i].bits, c.clbits))
    && (forall i :: 0 <= i < |c.data| ==> OperandsIn(c.data[i], c.qubits, c.clbits))
  }

  /** The parameters referenced by `ops`, in program order, with repeats:
      a parameter occurs exactly when some operation's entries use it. */
  function OpsLeaves(ops: seq<Operation>): (r: seq<Parameter>)
    ensures forall i, q :: 0 <= i < |ops| && q in ExprsLeaves(ops[i].params) ==> q in r
    ensures forall q :: q in r ==> exists i :: 0 <= i < |ops| && q in ExprsLeaves(ops[i].params)
  {
    if ops == [] then [] else
      var rest := OpsLeaves(ops[1..]);
      assert forall q :: q in rest ==> exists i :: 1 <= i < |ops| && q in ExprsLeaves(ops[i].params) by {
        forall q | q in rest ensures exists i :: 1 <= i < |ops| && q in ExprsLeaves(ops[i].params) {
          var j :| 0 <= j < |ops| - 1 && q in ExprsLeaves(ops[1..][j].params);
          assert ops[1..][j] == ops[j + 1];
        }
      }
      ExprsLeaves(ops[0].params) + rest
  }

  /** The parameters the circuit uses, in program order, with repeats: the
      parameters some operation's entries reference, and no others. */
  function UsedParameters(c: Circuit): (r: seq<Parameter>)
    ensures forall q :: q in r <==> exists i :: 0 <= i < |c.data| && q in ExprsLeaves(c.data[i].params)
  {
    OpsLeaves(c.data)
  }

  /** Operations with the same parameter entries use the same parameters. */
  lemma {:induction false} OpsLeavesSameParams(ops: seq<Operation>, outs: seq<Operation>)
    requires |ops| == |outs|
    requires forall i :: 0 <= i < |ops| ==> outs[i].params == ops[i].params
    ensures OpsLeaves(outs) == OpsLeaves(ops)
  {
    if ops != [] {
      OpsLeavesSameParams(ops[1..], outs[1..]);
    }
  }

  /** After substituting through every operation, the parameters used are
      exactly those that the replacements of the old parameters use. */
  lemma {:induction false} OpsLeavesSubst(ops: seq<Operation>, outs: seq<Operation>, m: map<Parameter, Expr>)
    requires |ops| == |outs|
    requires forall i :: 0 <= i < |ops| ==> outs[i].params == SubstAll(ops[i].params, m)
    requires forall q :: q in OpsLeaves(ops) ==> q in m
    ensures forall p :: p in OpsLeaves(outs) <==>
      exists q :: q in OpsLeaves(ops) && q in m && p in LeafSeq(m[q])
  {
    if ops != [] {
      OpsLeavesSubst(ops[1..], outs[1..], m);
      SubstAllLeaves(ops[0].params, m);
    }
  }

  /** Four operations use the parameters of their entries, one after the other. */
  lemma OpsLeavesFour(ops: seq<Operation>)
    requires |ops| == 4
    ensures OpsLeaves(ops) == ExprsLeaves(ops[0].params) +
      (ExprsLeaves(ops[1].params) + (ExprsLeaves(ops[2].params) + ExprsLeaves(ops[3].params)))
  {
    var l3 := OpsLeaves(ops[3..]);
    assert l3 == ExprsLeaves(ops[3].params) by {
      assert ops[3..][1..] == [] && ops[3..][0] == ops[3];
      assert OpsLeaves(ops[3..][1..]) == [];
      var x := ExprsLeaves(ops[3].params);
      assert x + [] == x;
    }
    var l2 := OpsLeaves(ops[2..]);
    assert l2 == ExprsLeaves(ops[2].params) + l3 by { assert ops[2..][1..] == ops[3..]; }
    var l1 := OpsLeaves(ops[1..]);
    assert l1 == ExprsLeaves(ops[1].params) + l2 by { assert ops[1..][1..] == ops[2..]; }
  }
}
