/**
 * The kernel source templates (Sources/Warp/KernelSources.swift) as text:
 * every template is an `extern "C" __global__ void KERNEL(<parameters>)`
 * header followed by a body, with the placeholder tokens TYPE, KERNEL,
 * FUNC and OP that the kernel compiler substitutes before compiling.
 * The parameter list is kept as data, so the signature each template
 * declares and the text it renders come from one definition.
 */
module WarpKernelSources {

  datatype Placeholder = TYPE | KERNEL | FUNC | OP

  /** A template is literal text interleaved with placeholder tokens. */
  datatype Piece = Lit(text: string) | Hole(token: Placeholder)

  datatype ParamKind =
    | ScalarParam     // TYPE name
    | ArrayParam      // TYPE name[]
    | PointerParam    // TYPE *name
    | LongLongParam   // long long name

  datatype Param = Param(isConst: bool, kind: ParamKind, name: string)

  datatype Template = Template(params: seq<Param>, body: seq<Piece>)

  function TokenName(p: Placeholder): string
  {
    match p
    case TYPE => "TYPE"
    case KERNEL => "KERNEL"
    case FUNC => "FUNC"
    case OP => "OP"
  }

  function ParamPieces(p: Param): seq<Piece>
  {
    (if p.isConst then [Lit("const ")] else []) +
    match p.kind
    case ScalarParam => [Hole(TYPE), Lit(" " + p.name)]
    case ArrayParam => [Hole(TYPE), Lit(" " + p.name + "[]")]
    case PointerParam => [Hole(TYPE), Lit(" *" + p.name)]
    case LongLongParam => [Lit("long long " + p.name)]
  }

  function ParamListPieces(ps: seq<Param>): seq<Piece>
  {
    if |ps| == 0 then []
    else if |ps| == 1 then ParamPieces(ps[0])
    else ParamPieces(ps[0]) + [Lit(", ")] + ParamListPieces(ps[1..])
  }

  function Pieces(t: Template): seq<Piece>
  {
    [Lit("extern \"C\" __global__ void "), Hole(KERNEL), Lit("(")]
    + ParamListPieces(t.params) + [Lit(")")] + t.body
  }

  /** The raw template text, placeholders spelled as their tokens. */
  function Text(ps: seq<Piece>): string
  {
    if |ps| == 0 then ""
    else (match ps[0] case Lit(s) => s case Hole(p) => TokenName(p)) + Text(ps[1..])
  }

  function Occurrences(ps: seq<Piece>, p: Placeholder): nat
  {
    if |ps| == 0 then 0
    else (if ps[0] == Hole(p) then 1 else 0) + Occurrences(ps[1..], p)
  }

  /** Parameters whose declaration names the element type. */
  function TypedParams(ps: seq<Param>): nat
  {
    if |ps| == 0 then 0
    else (if ps[0].kind == LongLongParam then 0 else 1) + TypedParams(ps[1..])
  }

  lemma {:induction false} OccurrencesAppend(a: seq<Piece>, b: seq<Piece>, p: Placeholder)
    ensures Occurrences(a + b, p) == Occurrences(a, p) + Occurrences(b, p)
  {
    if |a| == 0 {
      assert a + b == b;
    } else {
      assert (a + b)[1..] == a[1..] + b;
      OccurrencesAppend(a[1..], b, p);
    }
  }

  lemma OccurrencesSingle(x: Piece, p: Placeholder)
    ensures Occurrences([x], p) == if x == Hole(p) then 1 else 0
  {
    assert [x][1..] == [];
  }

  lemma OccurrencesPair(x: Piece, y: Piece, p: Placeholder)
    ensures Occurrences([x, y], p) == (if x == Hole(p) then 1 else 0) + (if y == Hole(p) then 1 else 0)
  {
    assert [x, y] == [x] + [y];
    OccurrencesAppend([x], [y], p);
    OccurrencesSingle(x, p);
    OccurrencesSingle(y, p);
  }

  /** The shape of every template body: literal text, optionally around one placeholder. */
  lemma OccurrencesAround(before: string, hole: Placeholder, after: string, p: Placeholder)
    ensures Occurrences([Lit(before), Hole(hole), Lit(after)], p) == if hole == p then 1 else 0
  {
    assert [Lit(before), Hole(hole), Lit(after)] == [Lit(before)] + [Hole(hole), Lit(after)];
    OccurrencesAppend([Lit(before)], [Hole(hole), Lit(after)], p);
    OccurrencesSingle(Lit(before), p);
    OccurrencesPair(Hole(hole), Lit(after), p);
  }

  lemma ParamOccurrences(q: Param, p: Placeholder)
    ensures Occurrences(ParamPieces(q), p) ==
      if p == TYPE && q.kind != LongLongParam then 1 else 0
  {
    var tail := match q.kind
      case ScalarParam => [Hole(TYPE), Lit(" " + q.name)]
      case ArrayParam => [Hole(TYPE), Lit(" " + q.name + "[]")]
      case PointerParam => [Hole(TYPE), Lit(" *" + q.name)]
      case LongLongParam => [Lit("long long " + q.name)];
    var head: seq<Piece> := if q.isConst then [Lit("const ")] else [];
    assert ParamPieces(q) == head + tail;
    OccurrencesAppend(head, tail, p);
    if q.isConst {
      OccurrencesSingle(Lit("const "), p);
    }
    if q.kind == LongLongParam {
      OccurrencesSingle(tail[0], p);
    } else {
      OccurrencesPair(tail[0], tail[1], p);
    }
  }

  /** A parameter list holds no KERNEL, FUNC or OP token and one TYPE token per typed parameter. */
  lemma {:induction false} ParamListOccurrences(ps: seq<Param>, p: Placeholder)
    ensures Occurrences(ParamListPieces(ps), p) == if p == TYPE then TypedParams(ps) else 0
  {
    if |ps| == 1 {
      ParamOccurrences(ps[0], p);
    } else if |ps| > 1 {
      ParamOccurrences(ps[0], p);
      ParamListOccurrences(ps[1..], p);
      OccurrencesAppend(ParamPieces(ps[0]), [Lit(", ")], p);
      OccurrencesAppend(ParamPieces(ps[0]) + [Lit(", ")], ParamListPieces(ps[1..]), p);
    }
  }

  /** Occurrences of a token in a whole template: one KERNEL in the header, TYPE
      once per typed parameter, and whatever the body holds. */
  lemma TemplateOccurrences(t: Template, p: Placeholder)
    ensures Occurrences(Pieces(t), p) ==
      (if p == KERNEL then 1 else 0) + (if p == TYPE then TypedParams(t.params) else 0)
      + Occurrences(t.body, p)
  {
    var head := [Lit("extern \"C\" __global__ void "), Hole(KERNEL), Lit("(")];
    var ps := ParamListPieces(t.params);
    assert Pieces(t) == head + ps + [Lit(")")] + t.body;
    OccurrencesAppend(head, ps, p);
    OccurrencesAppend(head + ps, [Lit(")")], p);
    OccurrencesAppend(head + ps + [Lit(")")], t.body, p);
    ParamListOccurrences(t.params, p);
  }

  // ---------------------------------------------------------------------
  // The three template enums
  // ---------------------------------------------------------------------

  const Tid := " { size_t tid = blockIdx.x * blockDim.x + threadIdx.x; if (tid < count) "

  /** KernelSource: templates over TYPE alone. */
  datatype KernelSource = Sum | Asum | Fill
  {
    function Source(): Template
    {
      match this
      case Sum => Template(
        [Param(true, ArrayParam, "vector"), Param(true, LongLongParam, "count"), Param(false, PointerParam, "result")],
        [Lit(" { *result = 0; for (long i = 0; i < count; i++) *result += vector[i]; }")])
      case Asum => Template(
        [Param(true, ArrayParam, "vector"), Param(true, LongLongParam, "count"), Param(false, PointerParam, "result")],
        [Lit(" { *result = 0; for (long i = 0; i < count; i++) *result += abs(vector[i]); }")])
      case Fill => Template(
        [Param(false, ArrayParam, "vector"), Param(false, ScalarParam, "x"), Param(true, LongLongParam, "count")],
        [Lit(Tid + "vector[tid] = x; } ")])
    }

    function RawValue(): string { Text(Pieces(Source())) }
  }

  /** FunctorialKernelSource: templates over TYPE and a one-place function FUNC. */
  datatype FunctorialKernelSource = Transform
  {
    function Source(): Template
    {
      Template(
        [Param(true, ArrayParam, "vector"), Param(true, LongLongParam, "count"), Param(false, ArrayParam, "result")],
        [Lit(Tid + "result[tid] = "), Hole(FUNC), Lit("(vector[tid]); } ")])
    }

    function RawValue(): string { Text(Pieces(Source())) }
  }

  /** BinaryOperationKernelSource: templates over TYPE and a binary operation OP. */
  datatype BinaryOperationKernelSource = Elementwise | ScalarRight
  {
    function Source(): Template
    {
      match this
      case Elementwise => Template(
        [Param(true, ScalarParam, "a"), Param(true, ArrayParam, "x"), Param(true, ScalarParam, "b"),
         Param(true, ArrayParam, "y"), Param(true, LongLongParam, "count"), Param(false, ArrayParam, "result")],
        [Lit(Tid + "result[tid] = "), Hole(OP), Lit("(a * x[tid], b * y[tid]); } ")])
      case ScalarRight => Template(
        [Param(true, ScalarParam, "a"), Param(true, ArrayParam, "x"), Param(true, ScalarParam, "rval"),
         Param(true, LongLongParam, "count"), Param(false, ArrayParam, "result")],
        [Lit(Tid + "result[tid] = "), Hole(OP), Lit("(a * x[tid], rval); } ")])
    }

    function RawValue(): string { Text(Pieces(Source())) }
  }

  /** Every plain template names its entry point once, its element type at least
      once, and holds neither FUNC nor OP. */
  lemma KernelSourcePlaceholders(k: KernelSource)
    ensures Occurrences(Pieces(k.Source()), KERNEL) == 1
    ensures Occurrences(Pieces(k.Source()), TYPE) >= 1
    ensures Occurrences(Pieces(k.Source()), FUNC) == 0
    ensures Occurrences(Pieces(k.Source()), OP) == 0
  {
    var t := k.Source();
    forall p: Placeholder
      ensures Occurrences(Pieces(t), p) == (if p == KERNEL then 1 else 0) + (if p == TYPE then TypedParams(t.params) else 0)
    {
      TemplateOccurrences(t, p);
      OccurrencesSingle(t.body[0], p);
    }
  }

  /** The transform template names FUNC exactly once and no OP. */
  lemma FunctorialPlaceholders(k: FunctorialKernelSource)
    ensures Occurrences(Pieces(k.Source()), KERNEL) == 1
    ensures Occurrences(Pieces(k.Source()), TYPE) >= 1
    ensures Occurrences(Pieces(k.Source()), FUNC) == 1
    ensures Occurrences(Pieces(k.Source()), OP) == 0
  {
    var t := k.Source();
    forall p: Placeholder
      ensures Occurrences(Pieces(t), p) == (if p == KERNEL then 1 else 0) + (if p == TYPE then TypedParams(t.params) else 0)
        + (if p == FUNC then 1 else 0)
    {
      TemplateOccurrences(t, p);
      OccurrencesAround(t.body[0].text, FUNC, t.body[2].text, p);
    }
  }

  /** The binary templates name OP exactly once and no FUNC. */
  lemma BinaryPlaceholders(k: BinaryOperationKernelSource)
    ensures Occurrences(Pieces(k.Source()), KERNEL) == 1
    ensures Occurrences(Pieces(k.Source()), TYPE) >= 1
    ensures Occurrences(Pieces(k.Source()), OP) == 1
    ensures Occurrences(Pieces(k.Source()), FUNC) == 0
  {
    var t := k.Source();
    forall p: Placeholder
      ensures Occurrences(Pieces(t), p) == (if p == KERNEL then 1 else 0) + (if p == TYPE then TypedParams(t.params) else 0)
        + (if p == OP then 1 else 0)
    {
      TemplateOccurrences(t, p);
      OccurrencesAround(t.body[0].text, OP, t.body[2].text, p);
    }
  }

  // ---------------------------------------------------------------------
  // StaticString identity: equality and hashing go by the text's address
  // ---------------------------------------------------------------------

  datatype StaticString = StaticString(utf8Start: nat, text: string)

  /** `==`: two static strings are equal when they start at the same address. */
  predicate Equal(lhs: StaticString, rhs: StaticString)
  {
    lhs.utf8Start == rhs.utf8Start
  }

  /** hashValue: the hash of the start address (`hashOfAddress` is the pointer's hash). */
  function HashValue(s: StaticString, hashOfAddress: nat -> int): int
  {
    hashOfAddress(s.utf8Start)
  }

  /** Equatable and Hashable agree, and `==` is an equivalence. */
  lemma EqualImpliesEqualHash(a: StaticString, b: StaticString, hashOfAddress: nat -> int)
    requires Equal(a, b)
    ensures HashValue(a, hashOfAddress) == HashValue(b, hashOfAddress)
    ensures Equal(b, a)
  {
  }

  lemma EqualIsTransitive(a: StaticString, b: StaticString, c: StaticString)
    requires Equal(a, b) && Equal(b, c)
    ensures Equal(a, c)
  {
  }

  /** Identity, not contents: the same text stored at two addresses is not `==`. */
  lemma EqualIgnoresText(text: string, p: nat, q: nat)
    requires p != q
    ensures !Equal(StaticString(p, text), StaticString(q, text))
  {
  }
}
