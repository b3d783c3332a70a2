/** Translation of filters to pyarrow compute expressions, and exactly what it preserves. */
module PyArrowFilter {
  import opened Options
  import opened Filter

  /** The Python operators the translation calls. */
  datatype PyOp = PyEq | PyNe | PyLt | PyLe | PyGt | PyGe | PyAnd | PyOr

  datatype PcExpr =
    | Field(name: string)
    | PcScalar(value: Value)
    | Call(op: PyOp, left: PcExpr, right: PcExpr)
    | Invert(expr: PcExpr)
    | IsValid(expr: PcExpr)
    | PcIsNull(expr: PcExpr)
    | IsIn(expr: PcExpr, values: seq<Value>)

  function PyApply(ctx: Context, op: PyOp, a: Value, b: Value): Value {
    match op
    case PyAnd => KAnd(a, b)
    case PyOr => KOr(a, b)
    case PyEq => Compare(ctx, Eq, a, b)
    case PyNe => Compare(ctx, NotEq, a, b)
    case PyLt => Compare(ctx, Lt, a, b)
    case PyLe => Compare(ctx, LtEq, a, b)
    case PyGt => Compare(ctx, Gt, a, b)
    case PyGe => Compare(ctx, GtEq, a, b)
  }

  /**
   * pyarrow's rules: Kleene and/or/invert, comparisons that propagate null, and an `isin` that is
   * false on a null input.
   */
  function EvalPc(e: PcExpr, ctx: Context): Value {
    match e
    case Field(name) => ctx.row(name)
    case PcScalar(v) => v
    case Call(op, l, r) => PyApply(ctx, op, EvalPc(l, ctx), EvalPc(r, ctx))
    case Invert(x) => KNot(EvalPc(x, ctx))
    case IsValid(x) => Bool(!EvalPc(x, ctx).Null?)
    case PcIsNull(x) => Bool(EvalPc(x, ctx).Null?)
    case IsIn(x, values) =>
      var v := EvalPc(x, ctx);
      Bool(!v.Null? && v in values)
  }

  function OperatorToPy(op: Operator): Result<PyOp> {
    match op
    case Eq => Success(PyEq)
    case NotEq => Success(PyNe)
    case Lt => Success(PyLt)
    case LtEq => Success(PyLe)
    case Gt => Success(PyGt)
    case GtEq => Success(PyGe)
    case And => Success(PyAnd)
    case Or => Success(PyOr)
    case OtherOperator(_) => Failure(UnsupportedOperator(op))
  }

  function Translate(e: Expr): Result<PcExpr> {
    match e
    case Column(_, name) => Success(Field(name))
    case Literal(s) => if SupportedScalar(s) then Success(PcScalar(s.value)) else Failure(UnsupportedLiteral(s))
    case BinaryExpr(l, op, r) =>
      var pyOp :- OperatorToPy(op);
      var left :- Translate(l);
      var right :- Translate(r);
      Success(Call(pyOp, left, right))
    case Not(x) =>
      var py :- Translate(x);
      Success(Invert(py))
    case IsNotNull(x) =>
      var py :- Translate(x);
      Success(IsValid(py))
    case IsNull(x) =>
      var py :- Translate(x);
      Success(PcIsNull(py))
    case Between(x, negated, low, high) =>
      var py :- Translate(x);
      var pyLow :- Translate(low);
      var pyHigh :- Translate(high);
      var ret := Call(PyAnd, Call(PyLe, pyLow, py), Call(PyLe, py, pyHigh));
      Success(if negated then Invert(ret) else ret)
    case InList(x, list, negated) =>
      var values :- ExtractScalarList(list);
      var py :- Translate(x);
      Success(if negated then Invert(IsIn(py, values)) else IsIn(py, values))
    case OtherExpr(_) => Failure(UnsupportedExpr(e))
  }

  /** The translation is defined on exactly the translatable fragment. */
  lemma {:induction false} TranslatesExactlyTheFragment(e: Expr)
    ensures Translate(e).Success? <==> Translatable(e)
  {
    match e
    case Column(_, _) =>
    case Literal(_) =>
    case BinaryExpr(l, _, r) => TranslatesExactlyTheFragment(l); TranslatesExactlyTheFragment(r);
    case Not(x) => TranslatesExactlyTheFragment(x);
    case IsNotNull(x) => TranslatesExactlyTheFragment(x);
    case IsNull(x) => TranslatesExactlyTheFragment(x);
    case Between(x, _, low, high) =>
      TranslatesExactlyTheFragment(x); TranslatesExactlyTheFragment(low); TranslatesExactlyTheFragment(high);
    case InList(x, _, _) => TranslatesExactlyTheFragment(x);
    case OtherExpr(_) =>
  }

  /** A literal is translated to its value, or reported as it is. */
  lemma {:induction false} LiteralTranslates(s: Scalar)
    ensures Translate(Literal(s))
         == if !s.value.Null?
               && s.kind in {Boolean, Int8, Int16, Int32, Int64, UInt8, UInt16, UInt32, UInt64, Float32, Float64, Utf8}
            then Success(PcScalar(s.value)) else Failure(UnsupportedLiteral(s))
  {
    SupportedScalars(s);
  }

  /** The SQL filter a pushed filter really is: each IN demands a non-null operand. */
  function Guarded(e: Expr): Expr {
    match e
    case Column(_, _) => e
    case Literal(_) => e
    case BinaryExpr(l, op, r) => BinaryExpr(Guarded(l), op, Guarded(r))
    case Not(x) => Not(Guarded(x))
    case IsNotNull(x) => IsNotNull(Guarded(x))
    case IsNull(x) => IsNull(Guarded(x))
    case Between(x, negated, low, high) => Between(Guarded(x), negated, Guarded(low), Guarded(high))
    case InList(x, list, negated) =>
      var within := BinaryExpr(InList(Guarded(x), list, false), And, IsNotNull(Guarded(x)));
      if negated then Not(within) else within
    case OtherExpr(_) => e
  }

  lemma {:induction false} GuardedIn(x: Expr, list: seq<Expr>, negated: bool, ctx: Context)
    requires LiteralList(list)
    ensures var v := Eval(Guarded(x), ctx);
            var within := Bool(!v.Null? && v in ExtractScalarList(list).value);
            Eval(Guarded(InList(x, list, negated)), ctx) == if negated then KNot(within) else within
  {
    var g := Guarded(x);
    var plain := InList(g, list, false);
    var within := BinaryExpr(plain, And, IsNotNull(g));
    InLiterals(ctx, Eval(g, ctx), list);
    assert Eval(within, ctx) == KAnd(Eval(plain, ctx), Eval(IsNotNull(g), ctx));
    assert Eval(Not(within), ctx) == KNot(Eval(within, ctx));
  }

  lemma {:induction false} OperatorMeans(op: Operator, a: Value, b: Value, ctx: Context)
    requires !op.OtherOperator?
    ensures OperatorToPy(op).Success? && PyApply(ctx, OperatorToPy(op).value, a, b) == Apply(ctx, op, a, b)
  {
  }

  lemma {:induction false} BetweenCalls(py: PcExpr, low: PcExpr, high: PcExpr, ctx: Context)
    ensures EvalPc(Call(PyAnd, Call(PyLe, low, py), Call(PyLe, py, high)), ctx)
         == KAnd(Compare(ctx, LtEq, EvalPc(low, ctx), EvalPc(py, ctx)), Compare(ctx, LtEq, EvalPc(py, ctx), EvalPc(high, ctx)))
  {
    assert EvalPc(Call(PyLe, low, py), ctx) == Compare(ctx, LtEq, EvalPc(low, ctx), EvalPc(py, ctx));
    assert EvalPc(Call(PyLe, py, high), ctx) == Compare(ctx, LtEq, EvalPc(py, ctx), EvalPc(high, ctx));
  }

  /** The meaning of every translation, on every row: the guarded filter, value for value. */
  lemma {:induction false} TranslationMeansGuarded(e: Expr, ctx: Context)
    requires Translatable(e)
    ensures Translate(e).Success? && EvalPc(Translate(e).value, ctx) == Eval(Guarded(e), ctx)
  {
    match e
    case Column(_, _) =>
    case Literal(_) =>
    case BinaryExpr(l, op, r) =>
      TranslationMeansGuarded(l, ctx); TranslationMeansGuarded(r, ctx);
      BinaryMeansGuarded(l, op, r, ctx);
    case Not(x) => TranslationMeansGuarded(x, ctx);
    case IsNotNull(x) => TranslationMeansGuarded(x, ctx);
    case IsNull(x) => TranslationMeansGuarded(x, ctx);
    case Between(x, negated, low, high) =>
      TranslationMeansGuarded(x, ctx); TranslationMeansGuarded(low, ctx); TranslationMeansGuarded(high, ctx);
      BetweenMeansGuarded(x, negated, low, high, ctx);
    case InList(x, list, negated) =>
      TranslationMeansGuarded(x, ctx);
      InMeansGuarded(x, list, negated, ctx);
  }

  predicate MeansGuarded(e: Expr, ctx: Context) {
    Translate(e).Success? && EvalPc(Translate(e).value, ctx) == Eval(Guarded(e), ctx)
  }

  lemma {:induction false} BinaryMeansGuarded(l: Expr, op: Operator, r: Expr, ctx: Context)
    requires MeansGuarded(l, ctx) && MeansGuarded(r, ctx) && !op.OtherOperator?
    ensures MeansGuarded(BinaryExpr(l, op, r), ctx)
  {
    OperatorMeans(op, Eval(Guarded(l), ctx), Eval(Guarded(r), ctx), ctx);
  }

  lemma {:induction false} InMeansGuarded(x: Expr, list: seq<Expr>, negated: bool, ctx: Context)
    requires MeansGuarded(x, ctx) && LiteralList(list)
    ensures MeansGuarded(InList(x, list, negated), ctx)
  {
    GuardedIn(x, list, negated, ctx);
  }

  lemma {:induction false} BetweenMeansGuarded(x: Expr, negated: bool, low: Expr, high: Expr, ctx: Context)
    requires MeansGuarded(x, ctx) && MeansGuarded(low, ctx) && MeansGuarded(high, ctx)
    ensures MeansGuarded(Between(x, negated, low, high), ctx)
  {
    BetweenCalls(Translate(x).value, Translate(low).value, Translate(high).value, ctx);
  }

  // ----- when the guard makes no difference

  /** Always a non-null boolean, given the columns that are declared non-null. */
  predicate Definite(e: Expr, notNull: set<string>)
    decreases e, 0
  {
    match e
    case BinaryExpr(l, op, r) =>
      if op.And? || op.Or? then Definite(l, notNull) && Definite(r, notNull)
      else !op.OtherOperator? && NonNull(l, notNull) && NonNull(r, notNull)
    case Not(x) => Definite(x, notNull)
    case IsNotNull(_) => true
    case IsNull(_) => true
    case Between(x, _, low, high) => NonNull(x, notNull) && NonNull(low, notNull) && NonNull(high, notNull)
    case InList(x, list, _) => NonNull(x, notNull) && LiteralList(list)
    case _ => false
  }

  predicate NonNull(e: Expr, notNull: set<string>)
    decreases e, 1
  {
    match e
    case Column(_, name) => name in notNull
    case Literal(s) => !s.value.Null?
    case _ => Definite(e, notNull)
  }

  /** Every IN in the expression has an operand that cannot be null. */
  predicate Exact(e: Expr, notNull: set<string>) {
    match e
    case Column(_, _) => true
    case Literal(_) => true
    case BinaryExpr(l, _, r) => Exact(l, notNull) && Exact(r, notNull)
    case Not(x) => Exact(x, notNull)
    case IsNotNull(x) => Exact(x, notNull)
    case IsNull(x) => Exact(x, notNull)
    case Between(x, _, low, high) => Exact(x, notNull) && Exact(low, notNull) && Exact(high, notNull)
    case InList(x, list, _) => Exact(x, notNull) && (NonNull(x, notNull) || list == [])
    case OtherExpr(_) => true
  }

  /** Every IN over a nullable operand sits where false and unknown are the same: under an even
      number of negations, its own included. */
  predicate Positive(e: Expr, positive: bool, notNull: set<string>) {
    match e
    case BinaryExpr(l, op, r) =>
      if op.And? || op.Or? then Positive(l, positive, notNull) && Positive(r, positive, notNull)
      else Exact(e, notNull)
    case Not(x) => Positive(x, !positive, notNull)
    case InList(x, list, negated) => Exact(x, notNull) && (Exact(e, notNull) || negated != positive)
    case _ => Exact(e, notNull)
  }

  /** Forms that are positive whatever their columns hold: filters that are exact, IN, and AND and OR of positive ones. */
  lemma {:induction false} PositiveForms(e: Expr, f: Expr, list: seq<Expr>, notNull: set<string>)
    ensures Exact(e, notNull) ==> Positive(e, true, notNull) && Positive(e, false, notNull)
    ensures Exact(e, notNull) ==> Positive(InList(e, list, false), true, notNull) && Positive(InList(e, list, true), false, notNull)
    ensures Exact(e, notNull) && NonNull(e, notNull) ==> Exact(InList(e, list, false), notNull) && Exact(InList(e, list, true), notNull)
    ensures Positive(e, true, notNull) && Positive(f, true, notNull) ==>
              Positive(BinaryExpr(e, And, f), true, notNull) && Positive(BinaryExpr(e, Or, f), true, notNull)
    ensures Positive(e, false, notNull) ==> Positive(Not(e), true, notNull)
  {
    ExactIsPositive(e, true, notNull);
    ExactIsPositive(e, false, notNull);
  }

  lemma {:induction false} ExactIsPositive(e: Expr, positive: bool, notNull: set<string>)
    ensures Exact(e, notNull) ==> Positive(e, positive, notNull)
  {
    match e
    case BinaryExpr(l, _, r) => ExactIsPositive(l, positive, notNull); ExactIsPositive(r, positive, notNull);
    case Not(x) => ExactIsPositive(x, !positive, notNull);
    case _ =>
  }

  ghost predicate Conforms(ctx: Context, notNull: set<string>) {
    forall c :: c in notNull ==> !ctx.row(c).Null?
  }

  lemma {:induction false} NonNullIsSound(e: Expr, notNull: set<string>, ctx: Context)
    requires Conforms(ctx, notNull)
    ensures NonNull(e, notNull) ==> !Eval(e, ctx).Null?
    ensures Definite(e, notNull) ==> Eval(e, ctx).Bool?
  {
    assert !e.Column? && !e.Literal? ==> NonNull(e, notNull) == Definite(e, notNull);
    match e
    case BinaryExpr(l, op, r) =>
      NonNullIsSound(l, notNull, ctx); NonNullIsSound(r, notNull, ctx);
      if Definite(e, notNull) && !op.And? && !op.Or? {
        assert NonNull(l, notNull) && NonNull(r, notNull);
      }
    case Not(x) => NonNullIsSound(x, notNull, ctx);
    case Between(x, _, low, high) =>
      NonNullIsSound(x, notNull, ctx); NonNullIsSound(low, notNull, ctx); NonNullIsSound(high, notNull, ctx);
    case InList(x, list, _) =>
      NonNullIsSound(x, notNull, ctx);
      if LiteralList(list) {
        InLiterals(ctx, Eval(x, ctx), list);
      }
    case _ =>
  }

  lemma {:induction false} ExactIsUnchanged(e: Expr, notNull: set<string>, ctx: Context)
    requires Translatable(e) && Exact(e, notNull) && Conforms(ctx, notNull)
    ensures Eval(Guarded(e), ctx) == Eval(e, ctx)
  {
    match e
    case Column(_, _) =>
    case Literal(_) =>
    case BinaryExpr(l, _, r) => ExactIsUnchanged(l, notNull, ctx); ExactIsUnchanged(r, notNull, ctx);
    case Not(x) => ExactIsUnchanged(x, notNull, ctx);
    case IsNotNull(x) => ExactIsUnchanged(x, notNull, ctx);
    case IsNull(x) => ExactIsUnchanged(x, notNull, ctx);
    case Between(x, _, low, high) =>
      ExactIsUnchanged(x, notNull, ctx); ExactIsUnchanged(low, notNull, ctx); ExactIsUnchanged(high, notNull, ctx);
    case InList(x, list, negated) =>
      ExactIsUnchanged(x, notNull, ctx);
      NonNullIsSound(x, notNull, ctx);
      GuardedIn(x, list, negated, ctx);
      InLiterals(ctx, Eval(x, ctx), list);
  }

  /** The pushed value may be false (true under negation) where SQL says unknown. */
  predicate Blurs(positive: bool, sql: Value, pushed: Value) {
    sql == pushed || (sql.Null? && pushed == Bool(!positive))
  }

  lemma {:induction false} PositiveBlurs(e: Expr, positive: bool, notNull: set<string>, ctx: Context)
    requires Translatable(e) && Positive(e, positive, notNull) && Conforms(ctx, notNull)
    ensures Blurs(positive, Eval(e, ctx), Eval(Guarded(e), ctx))
  {
    match e
    case BinaryExpr(l, op, r) =>
      if op.And? || op.Or? {
        PositiveBlurs(l, positive, notNull, ctx);
        PositiveBlurs(r, positive, notNull, ctx);
      } else {
        ExactIsUnchanged(e, notNull, ctx);
      }
    case Not(x) => PositiveBlurs(x, !positive, notNull, ctx);
    case InList(x, list, negated) =>
      ExactIsUnchanged(x, notNull, ctx);
      GuardedIn(x, list, negated, ctx);
      InLiterals(ctx, Eval(x, ctx), list);
      if Exact(e, notNull) {
        ExactIsUnchanged(e, notNull, ctx);
      }
    case _ => ExactIsUnchanged(e, notNull, ctx);
  }

  /**
   * Pushdown is exact: for every translatable filter whose INs over nullable operands sit in positive
   * position, and every row of the table, pyarrow keeps the row exactly when SQL does.
   */
  lemma {:induction false} PushdownKeepsRows(e: Expr, notNull: set<string>, ctx: Context)
    requires Translatable(e) && Positive(e, true, notNull) && Conforms(ctx, notNull)
    ensures Translate(e).Success?
    ensures Accepts(EvalPc(Translate(e).value, ctx)) <==> Accepts(Eval(e, ctx))
  {
    TranslationMeansGuarded(e, ctx);
    PositiveBlurs(e, true, notNull, ctx);
  }

  /** Every IN over a nullable operand is reached from the top through AND, OR and NOT alone. */
  predicate KleenePlaced(e: Expr, notNull: set<string>) {
    match e
    case BinaryExpr(l, op, r) =>
      if op.And? || op.Or? then KleenePlaced(l, notNull) && KleenePlaced(r, notNull) else Exact(e, notNull)
    case Not(x) => KleenePlaced(x, notNull)
    case InList(x, list, _) => Exact(x, notNull)
    case _ => Exact(e, notNull)
  }

  /**
   * As long as every IN over a nullable operand is reached through AND, OR and NOT alone, whatever its
   * polarity, the error is one-sided: where SQL is definite the pushed filter agrees, so no row is lost and
   * no row that SQL calls false is kept; only unknown rows can be. Below a null test or a comparison this is
   * no longer so (`NullTestOverIn`, `ComparisonOverIn`).
   */
  lemma {:induction false} PushedIsMoreDefinite(e: Expr, notNull: set<string>, ctx: Context)
    requires Translatable(e) && KleenePlaced(e, notNull) && Conforms(ctx, notNull)
    ensures Translate(e).Success?
    ensures Eval(e, ctx).Null? || EvalPc(Translate(e).value, ctx) == Eval(e, ctx)
  {
    TranslationMeansGuarded(e, ctx);
    GuardedIsMoreDefinite(e, notNull, ctx);
  }

  lemma {:induction false} GuardedIsMoreDefinite(e: Expr, notNull: set<string>, ctx: Context)
    requires Translatable(e) && KleenePlaced(e, notNull) && Conforms(ctx, notNull)
    ensures Eval(e, ctx).Null? || Eval(Guarded(e), ctx) == Eval(e, ctx)
  {
    match e
    case BinaryExpr(l, op, r) =>
      if op.And? || op.Or? {
        GuardedIsMoreDefinite(l, notNull, ctx);
        GuardedIsMoreDefinite(r, notNull, ctx);
      } else {
        ExactIsUnchanged(e, notNull, ctx);
      }
    case Not(x) => GuardedIsMoreDefinite(x, notNull, ctx);
    case InList(x, list, negated) =>
      ExactIsUnchanged(x, notNull, ctx);
      GuardedIn(x, list, negated, ctx);
      InLiterals(ctx, Eval(x, ctx), list);
    case _ => ExactIsUnchanged(e, notNull, ctx);
  }

  /** The condition is needed: for NOT IN, rows are kept alike exactly when the operand is not null. */
  lemma {:induction false} NotInDiffersExactlyOnNull(x: Expr, list: seq<Expr>, notNull: set<string>, ctx: Context)
    requires Translatable(x) && LiteralList(list) && Exact(x, notNull) && Conforms(ctx, notNull)
    ensures Translate(InList(x, list, true)).Success?
    ensures (Accepts(EvalPc(Translate(InList(x, list, true)).value, ctx)) <==> Accepts(Eval(InList(x, list, true), ctx)))
            <==> !Eval(x, ctx).Null? || list == []
  {
    var e := InList(x, list, true);
    TranslationMeansGuarded(e, ctx);
    ExactIsUnchanged(x, notNull, ctx);
    GuardedIn(x, list, true, ctx);
    InLiterals(ctx, Eval(x, ctx), list);
  }

  /** A row and a filter the two engines disagree on: `c NOT IN (1)` where `c` is null. */
  lemma {:induction false} NotInKeepsNulls(ctx: Context)
    requires ctx.row("c").Null?
    ensures var e := InList(Column(None, "c"), [Literal(Scalar(Int64, Datum(1)))], true);
            && Translate(e).Success? && Accepts(EvalPc(Translate(e).value, ctx)) && !Accepts(Eval(e, ctx))
  {
    var x, list := Column(None, "c"), [Literal(Scalar(Int64, Datum(1)))];
    NotInDiffersExactlyOnNull(x, list, {}, ctx);
    InLiterals(ctx, Eval(x, ctx), list);
  }

  // ----- IN below null tests and comparisons

  /** What a pushed IN evaluates to: SQL's value, except that unknown becomes false (true for NOT IN). */
  lemma {:induction false} PushedIn(x: Expr, list: seq<Expr>, negated: bool, notNull: set<string>, ctx: Context)
    requires Translatable(x) && LiteralList(list) && Exact(x, notNull) && Conforms(ctx, notNull)
    ensures Eval(Guarded(InList(x, list, negated)), ctx)
         == if Eval(x, ctx).Null? && list != [] then Bool(negated) else Eval(InList(x, list, negated), ctx)
    ensures Eval(InList(x, list, negated), ctx).Null? <==> Eval(x, ctx).Null? && list != []
  {
    ExactIsUnchanged(x, notNull, ctx);
    GuardedIn(x, list, negated, ctx);
    InLiterals(ctx, Eval(x, ctx), list);
  }

  /** Whether the two engines keep the same rows. */
  ghost predicate KeepsAlike(e: Expr, ctx: Context) {
    Translate(e).Success? && (Accepts(EvalPc(Translate(e).value, ctx)) <==> Accepts(Eval(e, ctx)))
  }

  /**
   * A null test of an IN keeps the right rows if and only if the operand is not null or the list is empty:
   * otherwise IS NULL loses the row and IS NOT NULL keeps it wrongly.
   */
  lemma {:induction false} NullTestOverIn(x: Expr, list: seq<Expr>, negated: bool, notNull: set<string>, ctx: Context)
    requires Translatable(x) && LiteralList(list) && Exact(x, notNull) && Conforms(ctx, notNull)
    ensures KeepsAlike(IsNull(InList(x, list, negated)), ctx) <==> !Eval(x, ctx).Null? || list == []
    ensures KeepsAlike(IsNotNull(InList(x, list, negated)), ctx) <==> !Eval(x, ctx).Null? || list == []
  {
    var e := InList(x, list, negated);
    PushedIn(x, list, negated, notNull, ctx);
    TranslationMeansGuarded(IsNull(e), ctx);
    TranslationMeansGuarded(IsNotNull(e), ctx);
  }

  /**
   * A comparison with an IN, on either side, keeps the right rows if and only if the operand is not null, the
   * list is empty, or the comparison does not hold of false (true for NOT IN) either.
   */
  lemma {:induction false} ComparisonOverIn(x: Expr, list: seq<Expr>, negated: bool, op: Operator, y: Expr, notNull: set<string>,
                                            ctx: Context)
    requires Translatable(x) && LiteralList(list) && Exact(x, notNull) && Conforms(ctx, notNull)
    requires Translatable(y) && Exact(y, notNull) && !op.And? && !op.Or? && !op.OtherOperator?
    ensures KeepsAlike(BinaryExpr(InList(x, list, negated), op, y), ctx)
            <==> !Eval(x, ctx).Null? || list == [] || !Accepts(Compare(ctx, op, Bool(negated), Eval(y, ctx)))
    ensures KeepsAlike(BinaryExpr(y, op, InList(x, list, negated)), ctx)
            <==> !Eval(x, ctx).Null? || list == [] || !Accepts(Compare(ctx, op, Eval(y, ctx), Bool(negated)))
  {
    var e := InList(x, list, negated);
    PushedIn(x, list, negated, notNull, ctx);
    ExactIsUnchanged(y, notNull, ctx);
    TranslationMeansGuarded(BinaryExpr(e, op, y), ctx);
    TranslationMeansGuarded(BinaryExpr(y, op, e), ctx);
  }

  /** A row that is lost: `(c IN (1)) IS NULL` where `c` is null. */
  lemma {:induction false} NullTestLosesNulls(ctx: Context)
    requires ctx.row("c").Null?
    ensures var e := IsNull(InList(Column(None, "c"), [Literal(Scalar(Int64, Datum(1)))], false));
            && Translate(e).Success? && !Accepts(EvalPc(Translate(e).value, ctx)) && Accepts(Eval(e, ctx))
  {
    var x, list := Column(None, "c"), [Literal(Scalar(Int64, Datum(1)))];
    PushedIn(x, list, false, {}, ctx);
    TranslationMeansGuarded(IsNull(InList(x, list, false)), ctx);
  }

  /** A row kept wrongly without any negation: `(c IN (1)) = false` where `c` is null. */
  lemma {:induction false} ComparisonKeepsNulls(ctx: Context)
    requires ctx.row("c").Null?
    ensures var e := BinaryExpr(InList(Column(None, "c"), [Literal(Scalar(Int64, Datum(1)))], false), Eq,
                                Literal(Scalar(Boolean, Bool(false))));
            && Translate(e).Success? && Accepts(EvalPc(Translate(e).value, ctx)) && !Accepts(Eval(e, ctx))
  {
    var x, list, no := Column(None, "c"), [Literal(Scalar(Int64, Datum(1)))], Literal(Scalar(Boolean, Bool(false)));
    PushedIn(x, list, false, {}, ctx);
    ExactIsUnchanged(no, {}, ctx);
    TranslationMeansGuarded(BinaryExpr(InList(x, list, false), Eq, no), ctx);
  }
}
