/** Translation of filters to ibis expressions, and exactly what it preserves. */
module IbisFilter {
  import opened Options
  import opened Filter
  import PyArrowFilter

  datatype IbisExpr =
    | Deferred(name: string)
    | IbisLiteral(value: Value)
    | Call(op: PyArrowFilter.PyOp, left: IbisExpr, right: IbisExpr)
    | Invert(expr: IbisExpr)
    | NotNull(expr: IbisExpr)
    | IbisIsNull(expr: IbisExpr)
    | IsIn(expr: IbisExpr, values: seq<Value>)
    | NotIn(expr: IbisExpr, values: seq<Value>)
    | IbisBetween(expr: IbisExpr, low: IbisExpr, high: IbisExpr)

  /** ibis compiles to SQL: three-valued IN, NOT IN and BETWEEN. */
  function EvalIbis(e: IbisExpr, ctx: Context): Value {
    match e
    case Deferred(name) => ctx.row(name)
    case IbisLiteral(v) => v
    case Call(op, l, r) => PyArrowFilter.PyApply(ctx, op, EvalIbis(l, ctx), EvalIbis(r, ctx))
    case Invert(x) => KNot(EvalIbis(x, ctx))
    case NotNull(x) => Bool(!EvalIbis(x, ctx).Null?)
    case IbisIsNull(x) => Bool(EvalIbis(x, ctx).Null?)
    case IsIn(x, values) => AnyEqual(ctx, EvalIbis(x, ctx), values)
    case NotIn(x, values) => KNot(AnyEqual(ctx, EvalIbis(x, ctx), values))
    case IbisBetween(x, low, high) =>
      KAnd(Compare(ctx, GtEq, EvalIbis(x, ctx), EvalIbis(low, ctx)),
           Compare(ctx, LtEq, EvalIbis(x, ctx), EvalIbis(high, ctx)))
  }

  /** As written: a negated IN becomes `isin`, a plain IN becomes `notin`. */
  function Translate(e: Expr): Result<IbisExpr> {
    match e
    case Column(_, name) => Success(Deferred(name))
    case Literal(s) => if SupportedScalar(s) then Success(IbisLiteral(s.value)) else Failure(UnsupportedLiteral(s))
    case BinaryExpr(l, op, r) =>
      var pyOp :- PyArrowFilter.OperatorToPy(op);
      var left :- Translate(l);
      var right :- Translate(r);
      Success(Call(pyOp, left, right))
    case Not(x) =>
      var py :- Translate(x);
      Success(Invert(py))
    case IsNotNull(x) =>
      var py :- Translate(x);
      Success(NotNull(py))
    case IsNull(x) =>
      var py :- Translate(x);
      Success(IbisIsNull(py))
    case InList(x, list, negated) =>
      var values :- ExtractScalarList(list);
      var py :- Translate(x);
      Success(if negated then IsIn(py, values) else NotIn(py, values))
    case Between(x, negated, low, high) =>
      var pyLow :- Translate(low);
      var pyHigh :- Translate(high);
      var py :- Translate(x);
      var ret := IbisBetween(py, pyLow, pyHigh);
      Success(if negated then Invert(ret) else ret)
    case OtherExpr(_) => Failure(UnsupportedExpr(e))
  }

  /** Both translators accept exactly the same filters. */
  lemma {:induction false} TranslatesExactlyTheFragment(e: Expr)
    ensures Translate(e).Success? <==> Translatable(e)
    ensures Translate(e).Success? <==> PyArrowFilter.Translate(e).Success?
  {
    PyArrowFilter.TranslatesExactlyTheFragment(e);
    match e
    case Column(_, _) =>
    case Literal(_) =>
    case BinaryExpr(l, _, r) => TranslatesExactlyTheFragment(l); TranslatesExactlyTheFragment(r);
    case Not(x) => TranslatesExactlyTheFragment(x);
    case IsNotNull(x) => TranslatesExactlyTheFragment(x);
    case IsNull(x) => TranslatesExactlyTheFragment(x);
    case Between(x, _, low, high) =>
      TranslatesExactlyTheFragment(x); TranslatesExactlyTheFragment(low); TranslatesExactlyTheFragment(high);
    case InList(x, _, _) => TranslatesExactlyTheFragment(x);
    case OtherExpr(_) =>
  }

  /** The same filter with IN and NOT IN exchanged everywhere. */
  function Flipped(e: Expr): Expr {
    match e
    case Column(_, _) => e
    case Literal(_) => e
    case BinaryExpr(l, op, r) => BinaryExpr(Flipped(l), op, Flipped(r))
    case Not(x) => Not(Flipped(x))
    case IsNotNull(x) => IsNotNull(Flipped(x))
    case IsNull(x) => IsNull(Flipped(x))
    case Between(x, negated, low, high) => Between(Flipped(x), negated, Flipped(low), Flipped(high))
    case InList(x, list, negated) => InList(Flipped(x), list, !negated)
    case OtherExpr(_) => e
  }

  /** The meaning of every translation, on every row: the flipped filter, value for value. */
  lemma {:induction false} TranslationMeansFlipped(e: Expr, ctx: Context)
    requires Translatable(e)
    ensures Translate(e).Success? && EvalIbis(Translate(e).value, ctx) == Eval(Flipped(e), ctx)
  {
    match e
    case Column(_, _) =>
    case Literal(_) =>
    case BinaryExpr(l, op, r) =>
      TranslationMeansFlipped(l, ctx); TranslationMeansFlipped(r, ctx);
      PyArrowFilter.OperatorMeans(op, Eval(Flipped(l), ctx), Eval(Flipped(r), ctx), ctx);
    case Not(x) => TranslationMeansFlipped(x, ctx);
    case IsNotNull(x) => TranslationMeansFlipped(x, ctx);
    case IsNull(x) => TranslationMeansFlipped(x, ctx);
    case Between(x, negated, low, high) =>
      TranslationMeansFlipped(x, ctx); TranslationMeansFlipped(low, ctx); TranslationMeansFlipped(high, ctx);
      BetweenMeansFlipped(x, negated, low, high, ctx);
    case InList(x, list, negated) =>
      TranslationMeansFlipped(x, ctx);
      LiteralsEvaluateToThemselves(list, ctx);
  }

  predicate MeansFlipped(e: Expr, ctx: Context) {
    Translate(e).Success? && EvalIbis(Translate(e).value, ctx) == Eval(Flipped(e), ctx)
  }

  lemma {:induction false} BetweenMeansFlipped(x: Expr, negated: bool, low: Expr, high: Expr, ctx: Context)
    requires MeansFlipped(x, ctx) && MeansFlipped(low, ctx) && MeansFlipped(high, ctx)
    ensures MeansFlipped(Between(x, negated, low, high), ctx)
  {
  }

  predicate InListFree(e: Expr) {
    match e
    case Column(_, _) => true
    case Literal(_) => true
    case BinaryExpr(l, _, r) => InListFree(l) && InListFree(r)
    case Not(x) => InListFree(x)
    case IsNotNull(x) => InListFree(x)
    case IsNull(x) => InListFree(x)
    case Between(x, _, low, high) => InListFree(x) && InListFree(low) && InListFree(high)
    case InList(_, _, _) => false
    case OtherExpr(_) => true
  }

  /** Flipping leaves a filter alone exactly when it has no IN, and undoes itself. */
  lemma {:induction false} FlippedTwice(e: Expr)
    ensures Flipped(Flipped(e)) == e
    ensures Flipped(e) == e <==> InListFree(e)
    ensures Translatable(Flipped(e)) <==> Translatable(e)
  {
    match e
    case Column(_, _) =>
    case Literal(_) =>
    case BinaryExpr(l, _, r) => FlippedTwice(l); FlippedTwice(r);
    case Not(x) => FlippedTwice(x);
    case IsNotNull(x) => FlippedTwice(x);
    case IsNull(x) => FlippedTwice(x);
    case Between(x, _, low, high) => FlippedTwice(x); FlippedTwice(low); FlippedTwice(high);
    case InList(x, _, _) => FlippedTwice(x);
    case OtherExpr(_) =>
  }

  /** Filters without IN keep their meaning, value for value, on every row. */
  lemma {:induction false} InListFreeIsPreserved(e: Expr, ctx: Context)
    requires Translatable(e) && InListFree(e)
    ensures Translate(e).Success? && EvalIbis(Translate(e).value, ctx) == Eval(e, ctx)
  {
    TranslationMeansFlipped(e, ctx);
    FlippedTwice(e);
  }

  /**
   * An IN as written denotes the complement of its source. Rows are kept alike exactly when IN is
   * unknown: a null operand and a non-empty list. Everywhere else the pushed filter keeps the rows the
   * query wanted gone.
   */
  lemma {:induction false} InListIsComplemented(x: Expr, list: seq<Expr>, negated: bool, ctx: Context)
    requires Translatable(x) && InListFree(x) && LiteralList(list)
    ensures var e := InList(x, list, negated);
            && Translate(e).Success?
            && EvalIbis(Translate(e).value, ctx) == KNot(Eval(e, ctx))
            && ((Accepts(EvalIbis(Translate(e).value, ctx)) <==> Accepts(Eval(e, ctx)))
                <==> Eval(x, ctx).Null? && list != [])
  {
    var e := InList(x, list, negated);
    TranslationMeansFlipped(e, ctx);
    FlippedTwice(x);
    InLiterals(ctx, Eval(x, ctx), list);
  }

  /**
   * Pushdown repaired at the caller: a filter flipped before translation is preserved, so the pushed
   * filter of any table is right exactly for the flipped query.
   */
  lemma {:induction false} FlippingFirstIsExact(e: Expr, ctx: Context)
    requires Translatable(e)
    ensures Translate(Flipped(e)).Success? && EvalIbis(Translate(Flipped(e)).value, ctx) == Eval(e, ctx)
  {
    FlippedTwice(e);
    TranslationMeansFlipped(Flipped(e), ctx);
  }

  /** A concrete row and filter: `c IN (1)` keeps `c = 2` and drops `c = 1`. */
  lemma {:induction false} InListKeepsTheWrongRows(one: Context, two: Context)
    requires one.row("c") == Datum(1) && two.row("c") == Datum(2)
    ensures var e := InList(Column(None, "c"), [Literal(Scalar(Int64, Datum(1)))], false);
            && Translate(e).Success?
            && Accepts(Eval(e, one)) && !Accepts(EvalIbis(Translate(e).value, one))
            && !Accepts(Eval(e, two)) && Accepts(EvalIbis(Translate(e).value, two))
  {
    var x, list := Column(None, "c"), [Literal(Scalar(Int64, Datum(1)))];
    InListIsComplemented(x, list, false, one);
    InListIsComplemented(x, list, false, two);
    InLiterals(one, Datum(1), list);
    InLiterals(two, Datum(2), list);
  }
}
