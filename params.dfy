/** Symbolic parameters, parameter expressions, their canonical order and
    substitution: the Parameter Collector & Remapper of the converter. */
module Params {
  import opened Seqs

  /** A named symbolic leaf. Identity is the whole value: two parameters that
      share a name are different parameters when their `id`s differ. */
  datatype Parameter = Parameter(name: string, id: nat)

  /** An operation's parameter entry: a number, a bare parameter, or a sum
      such as `theta + phi`. */
  datatype Expr = Const(value: real) | Leaf(param: Parameter) | Add(left: Expr, right: Expr)

  // ---------------------------------------------------------------------
  // Canonical order: by name (lexicographic on characters), ties by id.
  // ---------------------------------------------------------------------

  /** Strict lexicographic order on names; a proper prefix comes first. */
  predicate NameLt(a: string, b: string)
    decreases |a|
  {
    |b| > 0 && (|a| == 0 || a[0] < b[0] || (a[0] == b[0] && NameLt(a[1..], b[1..])))
  }

  lemma {:induction false} NameLtIrreflexive(a: string)
    ensures !NameLt(a, a)
    decreases |a|
  {
    if |a| > 0 {
      NameLtIrreflexive(a[1..]);
    }
  }

  lemma {:induction false} NameLtTransitive(a: string, b: string, c: string)
    requires NameLt(a, b) && NameLt(b, c)
    ensures NameLt(a, c)
    decreases |a|
  {
    if |a| > 0 && a[0] == b[0] && NameLt(a[1..], b[1..]) && b[0] == c[0] {
      NameLtTransitive(a[1..], b[1..], c[1..]);
    }
  }

  lemma {:induction false} NameLtTotal(a: string, b: string)
    requires a != b
    ensures NameLt(a, b) || NameLt(b, a)
    decreases |a|
  {
    if |a| > 0 && |b| > 0 && a[0] == b[0] {
      assert a == [a[0]] + a[1..] && b == [b[0]] + b[1..];
      NameLtTotal(a[1..], b[1..]);
    }
  }

  /** The order in which the instruction lists its parameters: by name,
      then by id. It never relates a parameter to itself, and of two
      different parameters one always comes first. */
  predicate ParamLt(p: Parameter, q: Parameter): (lt: bool)
    ensures lt ==> p != q
    ensures p != q && !lt ==> NameLt(q.name, p.name) || (p.name == q.name && q.id < p.id)
  {
    assert !NameLt(p.name, p.name) by { NameLtIrreflexive(p.name); }
    assert p.name != q.name ==> NameLt(p.name, q.name) || NameLt(q.name, p.name) by {
      if p.name != q.name { NameLtTotal(p.name, q.name); }
    }
    NameLt(p.name, q.name) || (p.name == q.name && p.id < q.id)
  }

  lemma ParamLtIrreflexive(p: Parameter)
    ensures !ParamLt(p, p)
  {
    NameLtIrreflexive(p.name);
  }

  lemma ParamLtTransitive(p: Parameter, q: Parameter, r: Parameter)
    requires ParamLt(p, q) && ParamLt(q, r)
    ensures ParamLt(p, r)
  {
    if NameLt(p.name, q.name) && NameLt(q.name, r.name) {
      NameLtTransitive(p.name, q.name, r.name);
    }
  }

  lemma ParamLtAsymmetric(p: Parameter, q: Parameter)
    ensures !(ParamLt(p, q) && ParamLt(q, p))
  {
    if ParamLt(p, q) && ParamLt(q, p) {
      ParamLtTransitive(p, q, p);
      ParamLtIrreflexive(p);
    }
  }

  predicate StrictlySorted(s: seq<Parameter>) {
    forall i, j :: 0 <= i < j < |s| ==> ParamLt(s[i], s[j])
  }

  lemma SortedCons(x: Parameter, s: seq<Parameter>)
    requires StrictlySorted(s)
    requires |s| > 0 ==> ParamLt(x, s[0])
    ensures StrictlySorted([x] + s)
  {
    forall j | 0 < j < |s| {
      ParamLtTransitive(x, s[0], s[j]);
    }
  }

  /** The first entry of a sorted list precedes every other member. */
  lemma SortedFirst(s: seq<Parameter>, y: Parameter)
    requires StrictlySorted(s) && y in s
    ensures y == s[0] || ParamLt(s[0], y)
  {
  }

  /** Without the first entry, a sorted list holds exactly the other members. */
  lemma SortedTail(s: seq<Parameter>)
    requires StrictlySorted(s) && |s| > 0
    ensures forall y :: y in s[1..] <==> y in s && y != s[0]
  {
    ParamLtIrreflexive(s[0]);
    assert s == [s[0]] + s[1..];
  }

  /** A strictly sorted list has no duplicate. */
  lemma SortedDistinct(s: seq<Parameter>)
    requires StrictlySorted(s)
    ensures Distinct(s)
  {
    forall i, j | 0 <= i < j < |s| ensures s[i] != s[j] {
      ParamLtIrreflexive(s[i]);
    }
  }

  /** Two strictly sorted lists with the same members are the same list:
      the canonical parameter list depends only on the set of parameters. */
  lemma {:induction false} SortedUnique(a: seq<Parameter>, b: seq<Parameter>)
    requires StrictlySorted(a) && StrictlySorted(b)
    requires forall y :: y in a <==> y in b
    ensures a == b
  {
    assert |a| > 0 ==> a[0] in b;
    assert |b| > 0 ==> b[0] in a;
    if |a| > 0 && |b| > 0 {
      SortedFirst(b, a[0]);
      SortedFirst(a, b[0]);
      ParamLtAsymmetric(a[0], b[0]);
      SortedTail(a);
      SortedTail(b);
      SortedUnique(a[1..], b[1..]);
      assert a == [a[0]] + a[1..] && b == [b[0]] + b[1..];
    }
  }

  /** Adds `x` to a sorted list unless it is already there. */
  function Insert(x: Parameter, s: seq<Parameter>): (r: seq<Parameter>)
    requires StrictlySorted(s)
    ensures StrictlySorted(r)
    ensures forall y :: y in r <==> y == x || y in s
  {
    if s == [] then [x]
    else if x == s[0] then s
    else if ParamLt(x, s[0]) then
      SortedCons(x, s);
      [x] + s
    else
      assert ParamLt(s[0], x);
      var t := Insert(x, s[1..]);
      SortedTail(s);
      SortedCons(s[0], t);
      [s[0]] + t
  }

  /** Every distinct parameter of `xs` exactly once, in canonical order. */
  function Canonical(xs: seq<Parameter>): (r: seq<Parameter>)
    ensures StrictlySorted(r) && Distinct(r)
    ensures forall y :: y in r <==> y in xs
  {
    var r := if xs == [] then [] else Insert(xs[0], Canonical(xs[1..]));
    SortedDistinct(r);
    r
  }

  /** The canonical list does not depend on the order or multiplicity in
      which the parameters were encountered. */
  lemma CanonicalBySet(xs: seq<Parameter>, ys: seq<Parameter>)
    requires forall y :: y in xs <==> y in ys
    ensures Canonical(xs) == Canonical(ys)
  {
    SortedUnique(Canonical(xs), Canonical(ys));
  }

  // ---------------------------------------------------------------------
  // Leaves and substitution.
  // ---------------------------------------------------------------------

  /** The parameters an expression references, left to right, with repeats. */
  function LeafSeq(e: Expr): seq<Parameter> {
    match e
    case Const(_) => []
    case Leaf(p) => [p]
    case Add(l, r) => LeafSeq(l) + LeafSeq(r)
  }

  /** The parameters a list of parameter entries references, in order. */
  function ExprsLeaves(ps: seq<Expr>): seq<Parameter> {
    if ps == [] then [] else LeafSeq(ps[0]) + ExprsLeaves(ps[1..])
  }

  /** Replaces every leaf that `m` maps by its replacement; a new tree. Its
      leaves are the unmapped leaves and the leaves of the replacements, and
      a tree with no mapped leaf comes back unchanged; `SubstEval` gives its
      value. */
  function Subst(e: Expr, m: map<Parameter, Expr>): (r: Expr)
    ensures forall p :: p in LeafSeq(r) <==>
      (p in LeafSeq(e) && p !in m) || exists q :: q in LeafSeq(e) && q in m && p in LeafSeq(m[q])
    ensures (forall q :: q in LeafSeq(e) ==> q !in m) ==> r == e
  {
    match e
    case Const(_) => e
    case Leaf(p) => if p in m then m[p] else e
    case Add(l, r) => Add(Subst(l, m), Subst(r, m))
  }

  /** Substitutes every entry of a parameter list in place: entry `j` of the
      result is entry `j` substituted, and a list with no mapped leaf comes
      back unchanged. */
  function SubstAll(ps: seq<Expr>, m: map<Parameter, Expr>): (r: seq<Expr>)
    ensures |r| == |ps|
    ensures forall j :: 0 <= j < |ps| ==> r[j] == Subst(ps[j], m)
    ensures (forall q :: q in ExprsLeaves(ps) ==> q !in m) ==> r == ps
  {
    var r := seq(|ps|, j requires 0 <= j < |ps| => Subst(ps[j], m));
    assert (forall q :: q in ExprsLeaves(ps) ==> q !in m) ==> r == ps by {
      if forall q :: q in ExprsLeaves(ps) ==> q !in m {
        forall j | 0 <= j < |ps| ensures r[j] == ps[j] {
          ExprsLeavesAt(ps, j);
        }
      }
    }
    r
  }

  /** The value of an expression once every parameter is bound by `env`. */
  function Eval(e: Expr, env: Parameter -> real): real {
    match e
    case Const(v) => v
    case Leaf(p) => env(p)
    case Add(l, r) => Eval(l, env) + Eval(r, env)
  }

  /** The binding that gives a mapped parameter the value of its
      replacement under `env`, and any other parameter its own value. */
  function Through(m: map<Parameter, Expr>, env: Parameter -> real): Parameter -> real {
    p => if p in m then Eval(m[p], env) else env(p)
  }

  /** Substitution is meaningful: the substituted tree evaluates, under any
      binding, to what the original tree evaluates to once every mapped
      parameter takes its replacement's value. */
  lemma {:induction false} SubstEval(e: Expr, m: map<Parameter, Expr>, env: Parameter -> real)
    ensures Eval(Subst(e, m), env) == Eval(e, Through(m, env))
  {
    match e
    case Const(_) =>
    case Leaf(p) =>
    case Add(l, r) =>
      SubstEval(l, m, env);
      SubstEval(r, m, env);
  }

  /** The same, entry by entry, for a parameter list. */
  lemma SubstAllEval(ps: seq<Expr>, m: map<Parameter, Expr>, env: Parameter -> real)
    ensures forall j :: 0 <= j < |ps| ==>
      Eval(SubstAll(ps, m)[j], env) == Eval(ps[j], Through(m, env))
  {
    forall j | 0 <= j < |ps| ensures Eval(SubstAll(ps, m)[j], env) == Eval(ps[j], Through(m, env)) {
      SubstEval(ps[j], m, env);
    }
  }

  /** The identity map on `used`: what the converter substitutes when the
      caller gives no parameter map. */
  function IdentityMap(used: seq<Parameter>): (m: map<Parameter, Expr>)
    ensures m.Keys == Elems(used)
  {
    map p | p in used :: Leaf(p)
  }

  /** Substituting a parameter by itself changes nothing. */
  lemma {:induction false} SubstIdentity(e: Expr, m: map<Parameter, Expr>)
    requires forall q :: q in LeafSeq(e) ==> q in m && m[q] == Leaf(q)
    ensures Subst(e, m) == e
  {
    match e
    case Const(_) =>
    case Leaf(p) =>
    case Add(l, r) =>
      SubstIdentity(l, m);
      SubstIdentity(r, m);
  }

  lemma SubstAllIdentity(ps: seq<Expr>, m: map<Parameter, Expr>)
    requires forall q :: q in ExprsLeaves(ps) ==> q in m && m[q] == Leaf(q)
    ensures SubstAll(ps, m) == ps
  {
    forall j | 0 <= j < |ps| ensures Subst(ps[j], m) == ps[j] {
      ExprsLeavesAt(ps, j);
      SubstIdentity(ps[j], m);
    }
  }

  lemma {:induction false} ExprsLeavesAt(ps: seq<Expr>, j: nat)
    requires j < |ps|
    ensures forall q :: q in LeafSeq(ps[j]) ==> q in ExprsLeaves(ps)
  {
    if j > 0 {
      ExprsLeavesAt(ps[1..], j - 1);
    }
  }

  /** The leaves of a fully substituted entry list are exactly the leaves
      of the replacements of its own leaves. */
  lemma {:induction false} SubstAllLeaves(ps: seq<Expr>, m: map<Parameter, Expr>)
    requires forall q :: q in ExprsLeaves(ps) ==> q in m
    ensures forall p :: p in ExprsLeaves(SubstAll(ps, m)) <==>
      exists q :: q in ExprsLeaves(ps) && q in m && p in LeafSeq(m[q])
  {
    if ps != [] {
      SubstAllLeaves(ps[1..], m);
      assert SubstAll(ps, m) == [Subst(ps[0], m)] + SubstAll(ps[1..], m);
    }
  }

  /** The parameters of an entry list with a first entry. */
  lemma ExprsLeavesCons(e: Expr, es: seq<Expr>)
    ensures ExprsLeaves([e] + es) == LeafSeq(e) + ExprsLeaves(es)
  {
    assert ([e] + es)[1..] == es;
  }
}
