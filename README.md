# circuit_to_instruction, modelled in Dafny

Qiskit's `circuit_to_instruction` (also reached as `QuantumCircuit.to_instruction`)
turns a quantum circuit into a reusable instruction. The instruction has a header
(`num_qubits`, `num_clbits` and an ordered parameter list) and a private
definition: a fresh circuit over dense bits `0..n-1`. The behaviour modelled here
is the one the converter's test file
`test/python/converters/test_circuit_to_instruction.py` asserts. The converter's
own implementation file is not part of this model.

The model is pure: datatypes, functions and lemmas. `Converter.Convert` takes a
circuit and an optional parameter map. It returns `Ok(Instruction)` or
`Err(ConversionError)`, and it works in four stages.

1. **Validation gate** (`Converter.Validate`). Captured variables, `input`
   variables, locally declared variables and control-flow operations are each
   refused with their own error.
2. **Mapping check** (`Converter.ResolveMapping`). With no map, every used
   parameter stands for itself. Otherwise the map's keys must be exactly the
   used parameters: a missing key is `UnderspecifiedMapping`, an extra key is
   `OverspecifiedMapping`.
3. **Bit flattening** (`Converter.MapBits`, `Converter.FlattenOps`). Bits are
   identities (`Bits.Bit`, a `nat`), and registers are views over them that may
   overlap. A circuit holds one duplicate-free enumeration of its qubits and one
   of its clbits (`Bits.Enumerate` describes how building a circuit from
   registers and loose bits produces it). An operand's dense index is its bit's
   position in that enumeration.
4. **Instruction builder** (`Converter.Build`). Every operation is kept, in
   order, with its operands flattened and its parameter expressions substituted
   (`Params.Subst` walks `Const`/`Leaf`/`Add` trees). The global phase is
   carried over. The header lists every distinct parameter of the definition
   once, sorted (`Params.Canonical`), with or without a map. Under a map,
   that order is a choice of this model (see "Left out").

Parameters are `(name, id)` pairs. Two parameters with the same name are
different parameters, ordered by name and then by `id`. The `id` tie-break is a
choice of this model: the tests only use distinct names.

Modules, one per file:
- `Wrappers`: `Option` and `Result`.
- `Seqs`: distinctness, element sets, positions.
- `Params`: parameters, their order, sorted sets, expression trees.
- `Bits`: the enumeration of groups of bits.
- `Circuits`: registers, operations, circuits and the circuit invariant.
- `Converter`: the four stages.
- `Properties`: what holds for every circuit.
- `Scenarios`: each test, stated for every circuit of the test's shape. The
  bits are arbitrary fresh identities, and the parameters are arbitrary
  parameters with the test's names.

## Model

| member | source | states |
|---|---|---|
| Converter.Convert | test/python/converters/test_circuit_to_instruction.py:122-155 | The conversion fails exactly when the gate rejects the circuit or a given map's keys differ from the used parameters. A rejected circuit never yields a mapping error. A success has the circuit's bit counts and a strictly sorted parameter list. |
| Converter.Validate | test/python/converters/test_circuit_to_instruction.py:146-222 | No error exactly when nothing forbidden is present. Captured variables are reported first, then `input` variables. Each reported error's condition holds, and the gate never reports a mapping error. |
| Converter.ResolveMapping | test/python/converters/test_circuit_to_instruction.py:122-144 | No map gives the identity on the used parameters. A given map is accepted iff its keys are exactly the used parameters. Underspecified iff some used parameter is not a key. Overspecified iff the keys strictly contain the used parameters. |
| Converter.MapBits | test/python/converters/test_circuit_to_instruction.py:44-50 | One dense index per operand. Each index points, in the enumeration, back at the bit it replaces. |
| Converter.MapBitsIndexOf | test/python/converters/test_circuit_to_instruction.py:44-50 | In a duplicate-free enumeration, the dense index of an operand is that bit's first and only position. |
| Converter.RemapOp | test/python/converters/test_circuit_to_instruction.py:44-50 | One operation over dense bits: same name, kind and operand counts, each dense operand the position of the bit it replaces, and its entry list substituted entry by entry. |
| Converter.FlattenOps | test/python/converters/test_circuit_to_instruction.py:68-74 | One output operation per input operation. Each is the input one flattened (same name and kind, same operand counts, dense operands naming the source bits, entries substituted), and its operands lie below the bit counts. |
| Converter.Build | test/python/converters/test_circuit_to_instruction.py:44-50 | The definition is a well-formed circuit over `Range(n)` qubits and `Range(k)` clbits with dense registers `q` and `c`, every operation flattened in order, the global phase kept and no variables. The header's parameters are sorted, distinct and exactly those the definition uses. |
| Params.Canonical | test/python/converters/test_circuit_to_instruction.py:116 | Strictly sorted, without repeats, with exactly the members of the input. |
| Params.Insert | test/python/converters/test_circuit_to_instruction.py:116 | Inserting into a sorted list keeps it sorted and adds exactly the new element. |
| Params.SortedUnique | test/python/converters/test_circuit_to_instruction.py:116 | Two strictly sorted lists with the same members are equal, so the parameter list is determined by the set of parameters. |
| Params.CanonicalBySet | test/python/converters/test_circuit_to_instruction.py:100-120 | Inputs with the same members have the same canonical list, so repeats and program order do not matter. |
| Params.NameLtTotal | test/python/converters/test_circuit_to_instruction.py:116 | The name order is total on distinct names. |
| Params.NameLtTransitive | test/python/converters/test_circuit_to_instruction.py:116 | The name order is transitive. |
| Params.ParamLt | test/python/converters/test_circuit_to_instruction.py:116 | The parameter order is strict (a parameter never precedes itself) and total: of two distinct parameters, the one that does not come first comes second, by name and then by `id` on equal names. |
| Params.SubstIdentity | test/python/converters/test_circuit_to_instruction.py:117-120 | Substituting each leaf by itself leaves an expression unchanged. |
| Params.SubstAllIdentity | test/python/converters/test_circuit_to_instruction.py:117-120 | The same for a whole parameter list. |
| Params.Subst | test/python/converters/test_circuit_to_instruction.py:173-179 | After substitution, a tree's leaves are its unmapped leaves and the leaves of the replacements of its mapped leaves, and nothing else. A tree with no mapped leaf comes back unchanged. Its value is stated by `Params.SubstEval`. |
| Params.SubstEval | test/python/converters/test_circuit_to_instruction.py:173-179 | Under any binding of the parameters, the substituted tree has the value of the original tree with each mapped parameter taking its replacement's value. Constants and sums are kept, and a mapped leaf becomes its replacement. |
| Params.SubstAll | test/python/converters/test_circuit_to_instruction.py:173-179 | Entry `j` of the result is entry `j` substituted, so order and length are kept. A list with no mapped leaf comes back unchanged. |
| Params.SubstAllEval | test/python/converters/test_circuit_to_instruction.py:173-179 | Entry by entry, the substituted list has the values of the original entries with each mapped parameter taking its replacement's value. |
| Params.SubstAllLeaves | test/python/converters/test_circuit_to_instruction.py:173-179 | With every leaf mapped, the leaves of the substituted list are exactly the leaves of the replacements of the old leaves, sums included. |
| Params.IdentityMap | test/python/converters/test_circuit_to_instruction.py:114 | The default map's keys are exactly the used parameters. |
| Bits.AddBits | test/python/converters/test_circuit_to_instruction.py:79-84 | Taking in bits keeps the enumeration duplicate-free and leaves the existing prefix untouched. It holds exactly the old bits and the new ones. |
| Bits.Enumerate | test/python/converters/test_circuit_to_instruction.py:40 | A circuit's enumeration is duplicate-free and holds exactly the bits of its groups. |
| Bits.EnumerateDisjoint | test/python/converters/test_circuit_to_instruction.py:34-42 | Without shared bits, the enumeration is the groups laid end to end. |
| Bits.RegisterPosition | test/python/converters/test_circuit_to_instruction.py:34-50 | Without shared bits, bit `j` of group `g` sits at the summed sizes of the groups before `g`, plus `j`. |
| Bits.EnumeratedAt | test/python/converters/test_circuit_to_instruction.py:34-50 | Without shared bits, that is the only position holding the bit. |
| Bits.EnumerateCount | test/python/converters/test_circuit_to_instruction.py:76-91 | The number of enumerated bits is the number of distinct bits. It never exceeds the summed group sizes and equals that sum iff no bit is shared. |
| Bits.AddBitsAppend | test/python/converters/test_circuit_to_instruction.py:85 | Taking in `a + b` is taking in `a`, then `b`. |
| Bits.AddBitsPresent | test/python/converters/test_circuit_to_instruction.py:79-85 | Taking in a register whose bits are all present adds nothing. |
| Bits.AddBitsFresh | test/python/converters/test_circuit_to_instruction.py:55-61 | Taking in fresh bits appends them as they are. |
| Circuits.OpsLeaves | test/python/converters/test_circuit_to_instruction.py:100-116 | A parameter occurs in the walk over the operations exactly when some operation's entries use it. |
| Circuits.UsedParameters | test/python/converters/test_circuit_to_instruction.py:100-116 | The circuit's used parameters are exactly those that some operation's entries reference. |
| Circuits.OpsLeavesSubst | test/python/converters/test_circuit_to_instruction.py:173-179 | After substituting through every operation, the parameters used are exactly those of the replacements of the old ones. |
| Circuits.OpsLeavesSameParams | test/python/converters/test_circuit_to_instruction.py:117-119 | Operations with the same parameter entries use the same parameters. |
| Properties.OrderAndOperandsKept | test/python/converters/test_circuit_to_instruction.py:68-74 | Operation `i` of the definition is operation `i` of the circuit, with the same name, kind and operand counts (a gate without clbits keeps none). |
| Properties.DenseIndexIsPosition | test/python/converters/test_circuit_to_instruction.py:44-50 | Every operand becomes its bit's position in the circuit's enumeration. |
| Properties.PositionKept | test/python/converters/test_circuit_to_instruction.py:62-74 | An operand addressing the circuit's `k`-th bit lands on the definition's `k`-th bit, for qubits and clbits alike, registered or loose. |
| Properties.QubitRegisterOperand | test/python/converters/test_circuit_to_instruction.py:34-48 | For a circuit built from disjoint groups, qubit `k` of group `g` lands on the summed sizes before `g`, plus `k`. |
| Properties.ClbitRegisterOperand | test/python/converters/test_circuit_to_instruction.py:38-50 | The same for clbits. |
| Properties.BitCounts | test/python/converters/test_circuit_to_instruction.py:76-91 | `num_qubits` and `num_clbits` count distinct bits. They never exceed the summed group sizes and equal that sum iff no bit is shared. |
| Properties.DefaultParameters | test/python/converters/test_circuit_to_instruction.py:100-120 | Without a map, the parameter list is every used parameter once, sorted, and each operation keeps its own entries. |
| Properties.MappedParameters | test/python/converters/test_circuit_to_instruction.py:157-179 | With a complete map, every entry of every operation is substituted. The sorted parameter list holds exactly the parameters of the replacements. |
| Properties.MappingCompleteness | test/python/converters/test_circuit_to_instruction.py:122-144 | Underspecified iff a used parameter is missing. Overspecified iff the keys strictly contain the used parameters. Success iff the keys are exactly the used parameters. |
| Properties.RejectionKinds | test/python/converters/test_circuit_to_instruction.py:146-222 | Each forbidden construct rejects the circuit with its own error, whatever map is given. |
| Properties.ZeroOperands | test/python/converters/test_circuit_to_instruction.py:181-187 | A circuit without bits or registers converts to zero qubits and zero clbits, and its definition is the circuit itself. |
| Scenarios.FlattenRegisters | test/python/converters/test_circuit_to_instruction.py:33-50 | Registers of 4, 3, 3 qubits and 4, 1 clbits: `cx(qr1[1], qr2[2])` acts on dense qubits `[1, 6]`, and `measure(qr3[0], cr2[0])` reads dense qubit 7 into dense clbit 4, of 10 qubits and 5 clbits. |
| Scenarios.FlattenRegisterless | test/python/converters/test_circuit_to_instruction.py:52-74 | Loose bits between registers: 2 + 3 + 3 qubits and clbits. `cx(3, 5)` stays on `[3, 5]` with no clbits, and `measure(4, 4)` stays on qubit 4 and clbit 4. |
| Scenarios.OverlapEnumerate | test/python/converters/test_circuit_to_instruction.py:78-85 | Registers over bits already held add nothing to the enumeration, although the groups hold more bits than that. |
| Scenarios.FlattenOverlapping | test/python/converters/test_circuit_to_instruction.py:76-98 | Overlapping registers: 10 qubits and 10 clbits, fewer than the 22 register slots. `cx(3, 5)` and `measure(4, 4)` keep their positions. |
| Scenarios.ParameterAccepted | test/python/converters/test_circuit_to_instruction.py:100-112 | The four-gate circuit is accepted and uses exactly `theta` and `phi`. |
| Scenarios.FlattenParameters | test/python/converters/test_circuit_to_instruction.py:100-120 | Without a map, the parameters are `[phi, theta]`, and the operations keep `[theta]`, `[phi]`, `[theta, phi, 0]` and `[theta + phi]`. |
| Scenarios.ParameterMap | test/python/converters/test_circuit_to_instruction.py:157-179 | With `{theta: gamma, phi: phi}`, the parameters are `[gamma, phi]`, and the operations hold `[gamma]`, `[phi]`, `[gamma, phi, 0]` and `[gamma + phi]`. |
| Scenarios.GammaSubst | test/python/converters/test_circuit_to_instruction.py:176-179 | Entry-by-entry substitution by `{theta: gamma, phi: phi}`, the sum included. |
| Scenarios.ParameterMapMismatch | test/python/converters/test_circuit_to_instruction.py:122-144 | `{theta: gamma}` is underspecified. `{theta: gamma, phi: phi, delta: delta}` is overspecified. |
| Scenarios.ControlFlowRaises | test/python/converters/test_circuit_to_instruction.py:146-155 | A circuit holding an `if` block is refused as control flow. |
| Scenarios.ZeroOperandsPhase | test/python/converters/test_circuit_to_instruction.py:181-187 | An empty circuit with a global phase becomes a 0-qubit, 0-clbit instruction with no parameters, whose definition is that circuit, phase included. |
| Scenarios.ForbidsCapturedVars | test/python/converters/test_circuit_to_instruction.py:192-196 | A circuit capturing a variable is refused with `CapturedVariables`. |
| Scenarios.ForbidsInputVars | test/python/converters/test_circuit_to_instruction.py:198-206 | A circuit with an `input` variable is refused with `InputVariables`. |
| Scenarios.ForbidsDeclaredVars | test/python/converters/test_circuit_to_instruction.py:208-222 | A bit-free circuit declaring its own variable is refused with `DeclaredVariables`, the error that points to `compose`, whatever operations it holds (such as the store of the initial value). |

## Left out

- The unitary check of the zero-operand instruction (line 190). It is floating-point matrix numerics over gate semantics. The global phase is carried over as a `real` value, but what it does to a unitary is not modelled.
- Error-message text (lines 195, 205, 218-221). Each error is a constructor of `Converter.ConversionError` instead. `DeclaredVariables` is the one whose message suggests `QuantumCircuit.compose`.
- The string rendering of expressions (`"phi + theta"`, `"gamma + phi"`, lines 120 and 179). The model keeps the expression tree, `Add(Leaf(theta), Leaf(phi))`, not its printed form with leaves in name order.
- Symbolic global phases, `ParameterVector` elements and the library's exact sort key for parameters with equal names. Parameters with equal names are ordered by `id` here.
- The converter's `label` and `equivalence_library` arguments, and the instruction's label and name defaults. The instruction takes the circuit's name.
- The library classes (`QuantumCircuit`, `QuantumRegister`, `Parameter`, `expr.Var`, `if_test`) as objects. They are datatypes here.
  - A variable is only a name.
  - Control flow is an operation kind.
  - The bits of the definition are numbered `0..n-1` in their own space rather than being new `Qubit`/`Clbit` objects.
- `QuantumCircuit.add_bits` refusing a loose bit the circuit already holds. `Bits.Enumerate` only models the skipping of bits already held that taking in registers does.
- The order of the parameter list under a given map. The list is the sorted, distinct leaves of the substituted definition, so a replacement that is a sum or a constant contributes only its leaves. This is a choice of this model: the one mapped test (lines 173-175, `{theta: gamma, phi: phi}` giving `[gamma, phi]`) cannot tell it apart from listing the map's values in the order given, an order that the model's unordered `map` does not hold.
- The order of the validation checks (captured, input, declared, control flow) and the order of the two mapping checks (missing key before extra key). These are choices of this model: each test triggers one condition only, and the converter's source is not part of this model.
- `Params.Expr` holds real constants, leaves and sums only. The tests use no other expression form.
