/** Bits, registers as views over them, and the circuit's bit enumeration:
    the Bit Flattener's side of the converter. */
module Bits {
  import opened Seqs

  /** A bit is an identity; two different numbers are two different bits.
      Qubits and clbits are numbered independently. */
  type Bit = nat

  /** Appends `bits` to the enumeration `acc`, skipping every bit that is
      already enumerated; this is how a circuit takes in a register that
      overlaps bits it already holds. */
  function AddBits(acc: seq<Bit>, bits: seq<Bit>): (r: seq<Bit>)
    requires Distinct(acc)
    ensures Distinct(r)
    ensures |acc| <= |r| && r[..|acc|] == acc
    ensures forall b :: b in r <==> b in acc || b in bits
    decreases |bits|
  {
    if bits == [] then acc
    else if bits[0] in acc then AddBits(acc, bits[1..])
    else AddBits(acc + [bits[0]], bits[1..])
  }

  /** The bits of `groups` (registers or lists of loose bits) one after the
      other, repeats included. */
  function Concat(groups: seq<seq<Bit>>): seq<Bit> {
    if groups == [] then [] else Concat(groups[..|groups| - 1]) + groups[|groups| - 1]
  }

  /** The enumeration of a circuit built from `groups` in this order: each bit
      gets the next position the first time it is seen and none after. */
  function Enumerate(groups: seq<seq<Bit>>): (r: seq<Bit>)
    ensures Distinct(r)
    ensures forall b :: b in r <==> b in Concat(groups)
  {
    AddBits([], Concat(groups))
  }

  lemma {:induction false} ConcatAppend(a: seq<seq<Bit>>, b: seq<seq<Bit>>)
    ensures Concat(a + b) == Concat(a) + Concat(b)
    decreases |b|
  {
    if b == [] {
      assert a + b == a;
    } else {
      var n := |b| - 1;
      assert (a + b)[..|a + b| - 1] == a + b[..n];
      ConcatAppend(a, b[..n]);
    }
  }

  /** Where the bit at index `j` of group `g` stands in the concatenation:
      after every bit of the groups before it. */
  lemma ConcatIndex(groups: seq<seq<Bit>>, g: nat, j: nat)
    requires g < |groups| && j < |groups[g]|
    ensures |Concat(groups[..g])| + j < |Concat(groups)|
    ensures Concat(groups)[|Concat(groups[..g])| + j] == groups[g][j]
  {
    assert groups == groups[..g] + ([groups[g]] + groups[g + 1..]);
    ConcatAppend(groups[..g], [groups[g]] + groups[g + 1..]);
    ConcatAppend([groups[g]], groups[g + 1..]);
    assert Concat([groups[g]]) == groups[g] by { assert [groups[g]][..0] == groups[..0]; }
  }

  lemma {:induction false} AddBitsFresh(acc: seq<Bit>, bits: seq<Bit>)
    requires Distinct(acc + bits)
    ensures Distinct(acc)
    ensures AddBits(acc, bits) == acc + bits
    decreases |bits|
  {
    assert forall i :: 0 <= i < |acc| ==> acc[i] == (acc + bits)[i];
    if bits != [] {
      assert (acc + [bits[0]]) + bits[1..] == acc + bits;
      assert bits[0] == (acc + bits)[|acc|];
      assert bits[0] !in acc;
      AddBitsFresh(acc + [bits[0]], bits[1..]);
    }
  }

  /** Without overlap, the enumeration is the plain concatenation. */
  lemma EnumerateDisjoint(groups: seq<seq<Bit>>)
    requires Distinct(Concat(groups))
    ensures Enumerate(groups) == Concat(groups)
  {
    AddBitsFresh([], Concat(groups));
  }

  /** Without overlap, the `j`-th bit of group `g` is enumerated at the sum of
      the sizes of the groups before it, plus `j`. */
  lemma RegisterPosition(groups: seq<seq<Bit>>, g: nat, j: nat)
    requires Distinct(Concat(groups))
    requires g < |groups| && j < |groups[g]|
    ensures groups[g][j] in Enumerate(groups)
    ensures IndexOf(Enumerate(groups), groups[g][j]) == |Concat(groups[..g])| + j
  {
    EnumerateDisjoint(groups);
    ConcatIndex(groups, g, j);
    IndexOfDistinct(Concat(groups), |Concat(groups[..g])| + j);
  }

  /** A bit shared by overlapping groups is enumerated once: the number of
      enumerated bits is the number of distinct bits, never more than the
      summed group sizes, and equal to that sum exactly when nothing overlaps. */
  lemma EnumerateCount(groups: seq<seq<Bit>>)
    ensures |Enumerate(groups)| == |Elems(Concat(groups))|
    ensures |Enumerate(groups)| <= |Concat(groups)|
    ensures |Enumerate(groups)| == |Concat(groups)| <==> Distinct(Concat(groups))
  {
    var r := Enumerate(groups);
    ElemsCard(r);
    ElemsCard(Concat(groups));
    assert Elems(r) == Elems(Concat(groups));
  }

  /** Without overlap, the only position at which the enumeration holds the
      `j`-th bit of group `g` is the sum of the sizes before it, plus `j`. */
  lemma EnumeratedAt(groups: seq<seq<Bit>>, g: nat, j: nat, x: nat)
    requires Distinct(Concat(groups))
    requires g < |groups| && j < |groups[g]|
    requires x < |Enumerate(groups)| && Enumerate(groups)[x] == groups[g][j]
    ensures x == |Concat(groups[..g])| + j
  {
    RegisterPosition(groups, g, j);
    IndexOfDistinct(Enumerate(groups), x);
  }

  lemma {:induction false} AddBitsAppend(acc: seq<Bit>, a: seq<Bit>, b: seq<Bit>)
    requires Distinct(acc)
    ensures AddBits(acc, a + b) == AddBits(AddBits(acc, a), b)
    decreases |a|
  {
    if a == [] {
      assert a + b == b;
    } else {
      assert (a + b)[0] == a[0] && (a + b)[1..] == a[1..] + b;
      if a[0] in acc {
        AddBitsAppend(acc, a[1..], b);
      } else {
        AddBitsAppend(acc + [a[0]], a[1..], b);
      }
    }
  }

  /** Taking in a register whose bits the circuit already holds adds nothing. */
  lemma {:induction false} AddBitsPresent(acc: seq<Bit>, bits: seq<Bit>)
    requires Distinct(acc)
    requires forall j :: 0 <= j < |bits| ==> bits[j] in acc
    ensures AddBits(acc, bits) == acc
    decreases |bits|
  {
    if bits != [] {
      AddBitsPresent(acc, bits[1..]);
    }
  }
}
