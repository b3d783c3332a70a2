/** Filter expressions and what they mean in SQL's three-valued logic. */
module Filter {
  import opened Options

  /** A column value. `Datum` stands for every non-boolean type; its order is a parameter. */
  datatype Value = Null | Bool(b: bool) | Datum(d: int)

  datatype ScalarKind =
    | Boolean | Int8 | Int16 | Int32 | Int64 | UInt8 | UInt16 | UInt32 | UInt64
    | Float32 | Float64 | Utf8 | OtherKind(name: string)

  /** A typed literal; `Null` is the typed null. */
  datatype Scalar = Scalar(kind: ScalarKind, value: Value)

  datatype Operator = Eq | NotEq | Lt | LtEq | Gt | GtEq | And | Or | OtherOperator(name: string)

  datatype Expr =
    | Column(relation: Option<string>, name: string)
    | Literal(scalar: Scalar)
    | BinaryExpr(left: Expr, op: Operator, right: Expr)
    | Not(expr: Expr)
    | IsNotNull(expr: Expr)
    | IsNull(expr: Expr)
    | Between(expr: Expr, negated: bool, low: Expr, high: Expr)
    | InList(expr: Expr, list: seq<Expr>, negated: bool)
    | OtherExpr(name: string)

  /**
   * One row, and the order on non-null values; the engines are taken to agree on that order.
   * `other` gives expressions and operators outside of the translated fragment some meaning.
   */
  datatype Context = Context(row: string -> Value, le: (Value, Value) -> bool, other: string -> Value)

  // ----- three-valued logic

  /** Kleene conjunction; what is not a boolean counts as unknown. */
  function KAnd(a: Value, b: Value): Value {
    if a == Bool(false) || b == Bool(false) then Bool(false)
    else if a == Bool(true) && b == Bool(true) then Bool(true)
    else Null
  }

  function KOr(a: Value, b: Value): Value {
    if a == Bool(true) || b == Bool(true) then Bool(true)
    else if a == Bool(false) && b == Bool(false) then Bool(false)
    else Null
  }

  function KNot(a: Value): Value {
    if a.Bool? then Bool(!a.b) else Null
  }

  /** Comparison operators are unknown on null and otherwise follow the order. */
  function Compare(ctx: Context, op: Operator, a: Value, b: Value): Value {
    if a.Null? || b.Null? then Null
    else match op
      case Eq => Bool(a == b)
      case NotEq => Bool(a != b)
      case LtEq => Bool(ctx.le(a, b))
      case GtEq => Bool(ctx.le(b, a))
      case Lt => Bool(!ctx.le(b, a))
      case Gt => Bool(!ctx.le(a, b))
      case And => Null
      case Or => Null
      case OtherOperator(name) => ctx.other(name)
  }

  function Apply(ctx: Context, op: Operator, a: Value, b: Value): Value {
    match op
    case And => KAnd(a, b)
    case Or => KOr(a, b)
    case _ => Compare(ctx, op, a, b)
  }

  /** A total order on the non-null values. */
  ghost predicate TotalOrder(le: (Value, Value) -> bool) {
    && (forall a: Value, b: Value :: le(a, b) || le(b, a))
    && (forall a: Value, b: Value :: le(a, b) && le(b, a) ==> a == b)
    && (forall a: Value, b: Value, c: Value :: le(a, b) && le(b, c) ==> le(a, c))
  }

  /** The truth tables: true needs all (one) of the operands, false one (all), anything else is unknown. */
  lemma {:induction false} KleeneTables(a: Value, b: Value)
    ensures KAnd(a, b) == Bool(true) <==> a == Bool(true) && b == Bool(true)
    ensures KAnd(a, b) == Bool(false) <==> a == Bool(false) || b == Bool(false)
    ensures KOr(a, b) == Bool(true) <==> a == Bool(true) || b == Bool(true)
    ensures KOr(a, b) == Bool(false) <==> a == Bool(false) && b == Bool(false)
    ensures KNot(a) == Bool(true) <==> a == Bool(false)
    ensures KNot(a) == Bool(false) <==> a == Bool(true)
    ensures (KAnd(a, b).Bool? || KAnd(a, b).Null?) && (KOr(a, b).Bool? || KOr(a, b).Null?) && (KNot(a).Bool? || KNot(a).Null?)
  {
  }

  /**
   * The six comparisons: unknown exactly on null; on other values equality and the order decide, each
   * operator has its opposite and its mirror image, and over a total order exactly one of less, equal and
   * greater holds.
   */
  lemma {:induction false} ComparisonLaws(ctx: Context, a: Value, b: Value)
    ensures forall op: Operator :: op in {Eq, NotEq, Lt, LtEq, Gt, GtEq} ==>
              (Apply(ctx, op, a, b).Null? <==> a.Null? || b.Null?)
    ensures !a.Null? && !b.Null? ==> Apply(ctx, Eq, a, b) == Bool(a == b) && Apply(ctx, LtEq, a, b) == Bool(ctx.le(a, b))
    ensures Apply(ctx, NotEq, a, b) == KNot(Apply(ctx, Eq, a, b))
    ensures Apply(ctx, Lt, a, b) == KNot(Apply(ctx, GtEq, a, b))
    ensures Apply(ctx, Gt, a, b) == KNot(Apply(ctx, LtEq, a, b))
    ensures Apply(ctx, GtEq, a, b) == Apply(ctx, LtEq, b, a) && Apply(ctx, Gt, a, b) == Apply(ctx, Lt, b, a)
    ensures TotalOrder(ctx.le) && !a.Null? && !b.Null? ==>
              && (Accepts(Apply(ctx, LtEq, a, b)) <==> Accepts(Apply(ctx, Lt, a, b)) || Accepts(Apply(ctx, Eq, a, b)))
              && (Accepts(Apply(ctx, Lt, a, b)) || Accepts(Apply(ctx, Eq, a, b)) || Accepts(Apply(ctx, Gt, a, b)))
              && !(Accepts(Apply(ctx, Lt, a, b)) && Accepts(Apply(ctx, Eq, a, b)))
              && !(Accepts(Apply(ctx, Lt, a, b)) && Accepts(Apply(ctx, Gt, a, b)))
              && !(Accepts(Apply(ctx, Eq, a, b)) && Accepts(Apply(ctx, Gt, a, b)))
  {
    if TotalOrder(ctx.le) {
      assert ctx.le(a, b) || ctx.le(b, a);
      assert ctx.le(a, b) && ctx.le(b, a) ==> a == b;
    }
  }

  /** A row passes a filter that is true; unknown rejects like false. */
  predicate Accepts(v: Value) {
    v == Bool(true)
  }

  /** `x IN (v1, ..., vn)` is `x = v1 OR ... OR x = vn` (section 8.4 of ISO/IEC 9075-2). */
  function AnyEqual(ctx: Context, x: Value, values: seq<Value>): Value {
    if values == [] then Bool(false)
    else KOr(Compare(ctx, Eq, x, values[0]), AnyEqual(ctx, x, values[1..]))
  }

  /** The meaning of an expression; BETWEEN as in section 8.3 of ISO/IEC 9075-2. */
  function Eval(e: Expr, ctx: Context): Value
    decreases e, 1
  {
    match e
    case Column(_, name) => ctx.row(name)
    case Literal(s) => s.value
    case BinaryExpr(l, op, r) => Apply(ctx, op, Eval(l, ctx), Eval(r, ctx))
    case Not(x) => KNot(Eval(x, ctx))
    case IsNotNull(x) => Bool(!Eval(x, ctx).Null?)
    case IsNull(x) => Bool(Eval(x, ctx).Null?)
    case Between(x, negated, low, high) =>
      var v := Eval(x, ctx);
      var within := KAnd(Compare(ctx, GtEq, v, Eval(low, ctx)), Compare(ctx, LtEq, v, Eval(high, ctx)));
      if negated then KNot(within) else within
    case InList(x, list, negated) =>
      var within := AnyEqual(ctx, Eval(x, ctx), EvalAll(list, ctx));
      if negated then KNot(within) else within
    case OtherExpr(name) => ctx.other(name)
  }

  function EvalAll(es: seq<Expr>, ctx: Context): (vs: seq<Value>)
    ensures |vs| == |es|
    decreases es, 0
  {
    if es == [] then [] else [Eval(es[0], ctx)] + EvalAll(es[1..], ctx)
  }

  /** `x BETWEEN low AND high` is `x >= low AND x <= high`, and NOT BETWEEN its negation (section 8.3). */
  lemma {:induction false} BetweenIsTwoComparisons(x: Expr, negated: bool, low: Expr, high: Expr, ctx: Context)
    ensures var both := BinaryExpr(BinaryExpr(x, GtEq, low), And, BinaryExpr(x, LtEq, high));
            Eval(Between(x, negated, low, high), ctx) == Eval(if negated then Not(both) else both, ctx)
  {
    var above, below := BinaryExpr(x, GtEq, low), BinaryExpr(x, LtEq, high);
    assert Eval(BinaryExpr(above, And, below), ctx) == KAnd(Eval(above, ctx), Eval(below, ctx));
    assert Eval(Not(BinaryExpr(above, And, below)), ctx) == KNot(Eval(BinaryExpr(above, And, below), ctx));
  }

  // ----- the fragment both translators accept

  predicate SupportedKind(k: ScalarKind) {
    !k.OtherKind?
  }

  predicate SupportedScalar(s: Scalar) {
    SupportedKind(s.kind) && !s.value.Null?
  }

  /** The kinds of literal that are translated; a null of any kind is not. */
  lemma {:induction false} SupportedScalars(s: Scalar)
    ensures SupportedScalar(s)
            <==> !s.value.Null?
                 && s.kind in {Boolean, Int8, Int16, Int32, Int64, UInt8, UInt16, UInt32, UInt64, Float32, Float64, Utf8}
  {
  }

  predicate LiteralList(list: seq<Expr>) {
    forall i :: 0 <= i < |list| ==> list[i].Literal? && SupportedScalar(list[i].scalar)
  }

  predicate Translatable(e: Expr) {
    match e
    case Column(_, _) => true
    case Literal(s) => SupportedScalar(s)
    case BinaryExpr(l, op, r) => !op.OtherOperator? && Translatable(l) && Translatable(r)
    case Not(x) => Translatable(x)
    case IsNotNull(x) => Translatable(x)
    case IsNull(x) => Translatable(x)
    case Between(x, _, low, high) => Translatable(x) && Translatable(low) && Translatable(high)
    case InList(x, list, _) => LiteralList(list) && Translatable(x)
    case OtherExpr(_) => false
  }

  datatype TranslateError =
    | UnsupportedOperator(op: Operator)
    | UnsupportedLiteral(scalar: Scalar)
    | NotALiteral(expr: Expr)
    | UnsupportedExpr(expr: Expr)

  datatype Result<+T> = Success(value: T) | Failure(error: TranslateError) {
    predicate IsFailure() {
      Failure?
    }
    function PropagateFailure<U>(): Result<U>
      requires Failure?
    {
      Failure(error)
    }
    function Extract(): T
      requires Success?
    {
      value
    }
  }

  /** The values of a literal list, or the error of its first bad element. */
  function ExtractScalarList(list: seq<Expr>): (r: Result<seq<Value>>)
    ensures r.Success? <==> LiteralList(list)
    ensures r.Success? ==> |r.value| == |list| && forall i :: 0 <= i < |list| ==> r.value[i] == list[i].scalar.value
  {
    if list == [] then Success([])
    else if !list[0].Literal? then Failure(NotALiteral(list[0]))
    else if !SupportedScalar(list[0].scalar) then Failure(UnsupportedLiteral(list[0].scalar))
    else
      var rest :- ExtractScalarList(list[1..]);
      Success([list[0].scalar.value] + rest)
  }

  /** The error is that of the first element that is not a supported literal. */
  lemma {:induction false} FirstBadLiteral(list: seq<Expr>) returns (i: nat)
    requires !LiteralList(list)
    ensures i < |list| && LiteralList(list[..i]) && !(list[i].Literal? && SupportedScalar(list[i].scalar))
    ensures ExtractScalarList(list)
         == Failure(if list[i].Literal? then UnsupportedLiteral(list[i].scalar) else NotALiteral(list[i]))
  {
    if list[0].Literal? && SupportedScalar(list[0].scalar) {
      i := FirstBadLiteral(list[1..]);
      i := i + 1;
      assert list[..i] == [list[0]] + list[1..][..i - 1];
    } else {
      i := 0;
    }
  }

  lemma {:induction false} LiteralsEvaluateToThemselves(list: seq<Expr>, ctx: Context)
    requires LiteralList(list)
    ensures EvalAll(list, ctx) == ExtractScalarList(list).value
    ensures forall i :: 0 <= i < |list| ==> !ExtractScalarList(list).value[i].Null?
  {
    if list != [] {
      LiteralsEvaluateToThemselves(list[1..], ctx);
    }
  }

  /** On non-null list values: unknown for a null operand unless the list is empty, else membership. */
  lemma {:induction false} AnyEqualIsMembership(ctx: Context, x: Value, values: seq<Value>)
    requires forall i :: 0 <= i < |values| ==> !values[i].Null?
    ensures x.Null? ==> AnyEqual(ctx, x, values) == if values == [] then Bool(false) else Null
    ensures !x.Null? ==> AnyEqual(ctx, x, values) == Bool(x in values)
  {
    if values != [] {
      AnyEqualIsMembership(ctx, x, values[1..]);
      assert x in values <==> x == values[0] || x in values[1..];
    }
  }

  /** The meaning of IN over a literal list. */
  lemma {:induction false} InLiterals(ctx: Context, x: Value, list: seq<Expr>)
    requires LiteralList(list)
    ensures AnyEqual(ctx, x, EvalAll(list, ctx))
         == if x.Null? then (if list == [] then Bool(false) else Null)
            else Bool(x in ExtractScalarList(list).value)
  {
    LiteralsEvaluateToThemselves(list, ctx);
    var values := ExtractScalarList(list).value;
    assert values == [] <==> list == [];
    AnyEqualIsMembership(ctx, x, values);
  }

  // ----- conjunctions of filters

  /** The filters of one scan joined by AND, left to right; nothing for no filters. */
  function Conjunction(filters: seq<Expr>): Option<Expr>
    decreases |filters|
  {
    if filters == [] then None
    else if |filters| == 1 then Some(filters[0])
    else Some(BinaryExpr(Conjunction(filters[..|filters| - 1]).value, And, filters[|filters| - 1]))
  }

  /** The conjunction passes exactly the rows that every filter passes. */
  lemma {:induction false} ConjunctionMeans(filters: seq<Expr>, ctx: Context)
    ensures Conjunction(filters).Some? <==> filters != []
    ensures Conjunction(filters).Some? ==>
              (Accepts(Eval(Conjunction(filters).value, ctx))
               <==> forall i :: 0 <= i < |filters| ==> Accepts(Eval(filters[i], ctx)))
    ensures Conjunction(filters).Some? ==>
              (Translatable(Conjunction(filters).value)
               <==> forall i :: 0 <= i < |filters| ==> Translatable(filters[i]))
    decreases |filters|
  {
    if |filters| > 1 {
      ConjunctionMeans(filters[..|filters| - 1], ctx);
    }
  }
}
