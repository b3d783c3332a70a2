/** What the table providers say about filters, and what their scans do with them. */
module Pushdown {
  import opened Options
  import opened Filter
  import PyArrowFilter
  import IbisFilter

  datatype Verdict = ExactPushdown | Unsupported

  /** What planning a scan comes to: the pushed filters, an error, or a panicking `unwrap`. */
  datatype Plan<T> = Planned(filters: T) | PlanError(error: TranslateError) | UnwrapPanics

  // ----- pyarrow datasets: one conjunction

  function DatasetVerdicts(filters: seq<Expr>): (verdicts: seq<Verdict>)
    ensures |verdicts| == |filters|
  {
    seq(|filters|, i requires 0 <= i < |filters| =>
      if PyArrowFilter.Translate(filters[i]).Success? then ExactPushdown else Unsupported)
  }

  function DatasetScan(filters: seq<Expr>): Plan<Option<PyArrowFilter.PcExpr>> {
    match Conjunction(filters)
    case None => Planned(None)
    case Some(all) =>
      match PyArrowFilter.Translate(all)
      case Success(pc) => Planned(Some(pc))
      case Failure(e) => PlanError(e)
  }

  /** A scanner without a filter returns every row. */
  predicate DatasetKeeps(filter: Option<PyArrowFilter.PcExpr>, ctx: Context) {
    filter.None? || Accepts(PyArrowFilter.EvalPc(filter.value, ctx))
  }

  // ----- ibis tables and Python providers: a tuple of filters

  function IbisVerdicts(filters: seq<Expr>): (verdicts: seq<Verdict>)
    ensures |verdicts| == |filters|
  {
    seq(|filters|, i requires 0 <= i < |filters| =>
      if IbisFilter.Translate(filters[i]).Success? then ExactPushdown else Unsupported)
  }

  function IbisScan(filters: seq<Expr>): Plan<seq<IbisFilter.IbisExpr>> {
    if filters == [] then Planned([])
    else match IbisFilter.Translate(filters[0])
      case Failure(_) => UnwrapPanics
      case Success(first) =>
        match IbisScan(filters[1..])
        case Planned(rest) => Planned([first] + rest)
        case other => other
  }

  /** `table.filter(*predicates)` keeps a row that passes all of them. */
  predicate IbisKeeps(filters: seq<IbisFilter.IbisExpr>, ctx: Context) {
    forall i :: 0 <= i < |filters| ==> Accepts(IbisFilter.EvalIbis(filters[i], ctx))
  }

  // ----- the planner

  /** DataFusion pushes the filters reported exact and keeps the rest for itself. */
  function Pushed(filters: seq<Expr>, verdicts: seq<Verdict>): seq<Expr>
    requires |filters| == |verdicts|
  {
    if filters == [] then []
    else (if verdicts[0].ExactPushdown? then [filters[0]] else []) + Pushed(filters[1..], verdicts[1..])
  }

  predicate SqlKeeps(filters: seq<Expr>, ctx: Context) {
    forall i :: 0 <= i < |filters| ==> Accepts(Eval(filters[i], ctx))
  }

  lemma {:induction false} PushedAreTranslatable(filters: seq<Expr>, verdicts: seq<Verdict>)
    requires verdicts == DatasetVerdicts(filters) || verdicts == IbisVerdicts(filters)
    ensures forall f :: f in Pushed(filters, verdicts) ==> Translatable(f)
  {
    if filters != [] {
      PyArrowFilter.TranslatesExactlyTheFragment(filters[0]);
      IbisFilter.TranslatesExactlyTheFragment(filters[0]);
      assert verdicts == DatasetVerdicts(filters) ==> verdicts[1..] == DatasetVerdicts(filters[1..]);
      assert verdicts == IbisVerdicts(filters) ==> verdicts[1..] == IbisVerdicts(filters[1..]);
      PushedAreTranslatable(filters[1..], verdicts[1..]);
    }
  }

  /** Planning a dataset scan succeeds exactly when each filter on its own was reported exact. */
  lemma {:induction false} DatasetScanAgreesWithVerdicts(filters: seq<Expr>, ctx: Context)
    ensures DatasetScan(filters).Planned? <==> forall v :: v in DatasetVerdicts(filters) ==> v.ExactPushdown?
  {
    ConjunctionMeans(filters, ctx);
    if filters != [] {
      PyArrowFilter.TranslatesExactlyTheFragment(Conjunction(filters).value);
    }
    var verdicts := DatasetVerdicts(filters);
    forall i | 0 <= i < |filters|
      ensures verdicts[i].ExactPushdown? <==> Translatable(filters[i])
    {
      PyArrowFilter.TranslatesExactlyTheFragment(filters[i]);
    }
    if forall v :: v in verdicts ==> v.ExactPushdown? {
      forall i | 0 <= i < |filters|
        ensures Translatable(filters[i])
      {
        assert verdicts[i] in verdicts;
      }
    }
  }

  /** The `unwrap`s of an ibis or provider scan panic exactly when some filter was not reported exact. */
  lemma {:induction false} IbisScanAgreesWithVerdicts(filters: seq<Expr>)
    ensures IbisScan(filters).Planned? <==> forall i :: 0 <= i < |filters| ==> IbisVerdicts(filters)[i].ExactPushdown?
    ensures !IbisScan(filters).Planned? ==> IbisScan(filters).UnwrapPanics?
    ensures IbisScan(filters).Planned? ==>
              && |IbisScan(filters).filters| == |filters|
              && forall i :: 0 <= i < |filters| ==>
                   IbisFilter.Translate(filters[i]) == Success(IbisScan(filters).filters[i])
  {
    if filters != [] {
      IbisScanAgreesWithVerdicts(filters[1..]);
      var all, rest := IbisVerdicts(filters), IbisVerdicts(filters[1..]);
      assert all == [all[0]] + rest;
      assert forall i :: 0 <= i < |rest| ==> rest[i] == all[i + 1];
      assert forall i :: 1 <= i < |all| ==> all[i] == rest[i - 1];
    }
  }

  /** Planning with the planner's own selection never fails, for either kind of table. */
  lemma {:induction false} PlannedScansNeverFail(filters: seq<Expr>, ctx: Context)
    ensures DatasetScan(Pushed(filters, DatasetVerdicts(filters))).Planned?
    ensures IbisScan(Pushed(filters, IbisVerdicts(filters))).Planned?
  {
    var d, i := Pushed(filters, DatasetVerdicts(filters)), Pushed(filters, IbisVerdicts(filters));
    PushedAreTranslatable(filters, DatasetVerdicts(filters));
    PushedAreTranslatable(filters, IbisVerdicts(filters));
    forall k | 0 <= k < |d|
      ensures DatasetVerdicts(d)[k].ExactPushdown?
    {
      PyArrowFilter.TranslatesExactlyTheFragment(d[k]);
    }
    forall k | 0 <= k < |i|
      ensures IbisVerdicts(i)[k].ExactPushdown?
    {
      IbisFilter.TranslatesExactlyTheFragment(i[k]);
    }
    DatasetScanAgreesWithVerdicts(d, ctx);
    IbisScanAgreesWithVerdicts(i);
  }

  /** A filter that is a NOT IN whose operand has no nullable IN in it. */
  predicate PlainNotIn(f: Expr, notNull: set<string>) {
    f.InList? && f.negated && PyArrowFilter.Exact(f.expr, notNull)
  }

  /** A row SQL rejects only because a NOT IN is unknown on it. */
  predicate UnknownNotIn(f: Expr, ctx: Context) {
    f.InList? && f.negated && Eval(f.expr, ctx).Null? && f.list != []
  }

  /** Every planned dataset scan, on every row: it keeps what all guarded filters keep. */
  lemma {:induction false} DatasetScanKeepsGuarded(filters: seq<Expr>, ctx: Context)
    requires DatasetScan(filters).Planned?
    ensures DatasetKeeps(DatasetScan(filters).filters, ctx)
            <==> forall i :: 0 <= i < |filters| ==> Accepts(Eval(PyArrowFilter.Guarded(filters[i]), ctx))
  {
    ConjunctionMeans(filters, ctx);
    if filters != [] {
      PyArrowFilter.TranslatesExactlyTheFragment(Conjunction(filters).value);
      ConjunctionPushes(filters, ctx);
      forall i | 0 <= i < |filters|
        ensures PyArrowFilter.EvalPc(PyArrowFilter.Translate(filters[i]).value, ctx)
             == Eval(PyArrowFilter.Guarded(filters[i]), ctx)
      {
        PyArrowFilter.TranslationMeansGuarded(filters[i], ctx);
      }
    }
  }

  /**
   * Exactly which rows a dataset scan returns when each filter is in positive form or a plain NOT IN:
   * those SQL keeps, and besides them those whose only fault is an unknown NOT IN. Hence the scan is
   * exact when no NOT IN operand can be null.
   */
  lemma {:induction false} DatasetScanReturns(filters: seq<Expr>, notNull: set<string>, ctx: Context)
    requires DatasetScan(filters).Planned? && PyArrowFilter.Conforms(ctx, notNull)
    requires forall i :: 0 <= i < |filters| ==>
               PyArrowFilter.Positive(filters[i], true, notNull) || PlainNotIn(filters[i], notNull)
    ensures DatasetKeeps(DatasetScan(filters).filters, ctx)
            <==> forall i :: 0 <= i < |filters| ==> Accepts(Eval(filters[i], ctx)) || UnknownNotIn(filters[i], ctx)
  {
    DatasetScanKeepsGuarded(filters, ctx);
    ConjunctionMeans(filters, ctx);
    if filters != [] {
      PyArrowFilter.TranslatesExactlyTheFragment(Conjunction(filters).value);
    }
    forall i | 0 <= i < |filters|
      ensures Accepts(Eval(PyArrowFilter.Guarded(filters[i]), ctx))
              <==> Accepts(Eval(filters[i], ctx)) || UnknownNotIn(filters[i], ctx)
    {
      PyArrowFilter.TranslationMeansGuarded(filters[i], ctx);
      FilterPasses(filters[i], notNull, ctx);
    }
  }

  lemma {:induction false} FilterPasses(f: Expr, notNull: set<string>, ctx: Context)
    requires Translatable(f) && PyArrowFilter.Conforms(ctx, notNull)
    requires PyArrowFilter.Positive(f, true, notNull) || PlainNotIn(f, notNull)
    ensures PyArrowFilter.Translate(f).Success?
    ensures Accepts(PyArrowFilter.EvalPc(PyArrowFilter.Translate(f).value, ctx))
            <==> Accepts(Eval(f, ctx)) || UnknownNotIn(f, ctx)
  {
    if PlainNotIn(f, notNull) {
      PyArrowFilter.NotInDiffersExactlyOnNull(f.expr, f.list, notNull, ctx);
      InLiterals(ctx, Eval(f.expr, ctx), f.list);
    } else {
      PyArrowFilter.PushdownKeepsRows(f, notNull, ctx);
    }
  }

  /** The pushed conjunction passes exactly the rows every translated filter passes. */
  lemma {:induction false} ConjunctionPushes(filters: seq<Expr>, ctx: Context)
    requires filters != [] && forall i :: 0 <= i < |filters| ==> Translatable(filters[i])
    ensures Conjunction(filters).Some? && PyArrowFilter.Translate(Conjunction(filters).value).Success?
    ensures forall i :: 0 <= i < |filters| ==> PyArrowFilter.Translate(filters[i]).Success?
    ensures Accepts(PyArrowFilter.EvalPc(PyArrowFilter.Translate(Conjunction(filters).value).value, ctx))
            <==> forall i :: 0 <= i < |filters| ==>
                   Accepts(PyArrowFilter.EvalPc(PyArrowFilter.Translate(filters[i]).value, ctx))
    decreases |filters|
  {
    var last := filters[|filters| - 1];
    PyArrowFilter.TranslatesExactlyTheFragment(last);
    if |filters| > 1 {
      var front := filters[..|filters| - 1];
      ConjunctionPushes(front, ctx);
      assert forall i :: 0 <= i < |front| ==> front[i] == filters[i];
    }
  }

  /**
   * Every planned ibis or provider scan, on every row: it keeps what the filters with IN and NOT IN
   * exchanged keep; so over filters without IN it keeps exactly what SQL keeps.
   */
  lemma {:induction false} IbisScanReturns(filters: seq<Expr>, ctx: Context)
    requires IbisScan(filters).Planned?
    ensures IbisKeeps(IbisScan(filters).filters, ctx)
            <==> forall i :: 0 <= i < |filters| ==> Accepts(Eval(IbisFilter.Flipped(filters[i]), ctx))
    ensures (forall i :: 0 <= i < |filters| ==> IbisFilter.InListFree(filters[i])) ==>
              (IbisKeeps(IbisScan(filters).filters, ctx) <==> SqlKeeps(filters, ctx))
  {
    IbisScanAgreesWithVerdicts(filters);
    forall i | 0 <= i < |filters|
      ensures IbisFilter.EvalIbis(IbisScan(filters).filters[i], ctx) == Eval(IbisFilter.Flipped(filters[i]), ctx)
      ensures IbisFilter.InListFree(filters[i]) ==> IbisFilter.Flipped(filters[i]) == filters[i]
    {
      IbisFilter.TranslatesExactlyTheFragment(filters[i]);
      IbisFilter.TranslationMeansFlipped(filters[i], ctx);
      IbisFilter.FlippedTwice(filters[i]);
    }
  }

  /** Filters without IN are exact, so the theorem on whole queries speaks of them for every table. */
  lemma {:induction false} InListFreeIsExact(e: Expr, notNull: set<string>)
    requires IbisFilter.InListFree(e)
    ensures PyArrowFilter.Exact(e, notNull) && PyArrowFilter.Positive(e, true, notNull)
  {
    PyArrowFilter.ExactIsPositive(e, true, notNull);
    match e
    case BinaryExpr(l, _, r) => InListFreeIsExact(l, notNull); InListFreeIsExact(r, notNull);
    case Not(x) => InListFreeIsExact(x, notNull);
    case IsNotNull(x) => InListFreeIsExact(x, notNull);
    case IsNull(x) => InListFreeIsExact(x, notNull);
    case Between(x, _, low, high) =>
      InListFreeIsExact(x, notNull); InListFreeIsExact(low, notNull); InListFreeIsExact(high, notNull);
    case _ =>
  }

  // ----- whole queries

  /** The filters DataFusion evaluates itself. */
  function Residual(filters: seq<Expr>, verdicts: seq<Verdict>): seq<Expr>
    requires |filters| == |verdicts|
  {
    if filters == [] then []
    else (if verdicts[0].ExactPushdown? then [] else [filters[0]]) + Residual(filters[1..], verdicts[1..])
  }

  /** No filter is lost or evaluated twice between the table and the planner. */
  lemma {:induction false} PushedAndResidual(filters: seq<Expr>, verdicts: seq<Verdict>)
    requires |filters| == |verdicts|
    ensures multiset(Pushed(filters, verdicts)) + multiset(Residual(filters, verdicts)) == multiset(filters)
  {
    if filters != [] {
      PushedAndResidual(filters[1..], verdicts[1..]);
      assert filters == [filters[0]] + filters[1..];
    }
  }

  lemma {:induction false} SplitKeeps(filters: seq<Expr>, verdicts: seq<Verdict>, ctx: Context)
    requires |filters| == |verdicts|
    ensures SqlKeeps(Pushed(filters, verdicts), ctx) && SqlKeeps(Residual(filters, verdicts), ctx)
            <==> SqlKeeps(filters, ctx)
  {
    if filters != [] {
      var rest := filters[1..];
      SplitKeeps(rest, verdicts[1..], ctx);
      assert filters == [filters[0]] + rest;
      KeepsSplit(filters[0], rest, ctx);
      KeepsSplit(filters[0], if verdicts[0].ExactPushdown? then Pushed(rest, verdicts[1..]) else Residual(rest, verdicts[1..]), ctx);
      assert [] + Pushed(rest, verdicts[1..]) == Pushed(rest, verdicts[1..]);
      assert [] + Residual(rest, verdicts[1..]) == Residual(rest, verdicts[1..]);
    }
  }

  lemma {:induction false} KeepsSplit(f: Expr, rest: seq<Expr>, ctx: Context)
    ensures SqlKeeps([f] + rest, ctx) <==> Accepts(Eval(f, ctx)) && SqlKeeps(rest, ctx)
  {
    assert ([f] + rest)[0] == f;
    assert forall i :: 0 <= i < |rest| ==> ([f] + rest)[i + 1] == rest[i];
  }

  lemma {:induction false} PushedAreFilters(filters: seq<Expr>, verdicts: seq<Verdict>, i: nat)
    requires |filters| == |verdicts| && i < |Pushed(filters, verdicts)|
    ensures Pushed(filters, verdicts)[i] in filters
  {
    if verdicts[0].ExactPushdown? {
      if i > 0 {
        PushedAreFilters(filters[1..], verdicts[1..], i - 1);
      }
    } else {
      PushedAreFilters(filters[1..], verdicts[1..], i);
    }
  }

  /**
   * A query over a dataset: what the scan returns, filtered by what was not pushed, is what SQL keeps, for
   * any mix of supported and unsupported filters whose INs over nullable operands are in positive form.
   */
  lemma {:induction false} DatasetQueryIsCorrect(filters: seq<Expr>, notNull: set<string>, ctx: Context)
    requires PyArrowFilter.Conforms(ctx, notNull)
    requires forall f :: f in filters ==> PyArrowFilter.Positive(f, true, notNull)
    ensures var v := DatasetVerdicts(filters);
            && DatasetScan(Pushed(filters, v)).Planned?
            && (DatasetKeeps(DatasetScan(Pushed(filters, v)).filters, ctx) && SqlKeeps(Residual(filters, v), ctx)
                <==> SqlKeeps(filters, ctx))
  {
    var v := DatasetVerdicts(filters);
    var pushed := Pushed(filters, v);
    PlannedScansNeverFail(filters, ctx);
    SplitKeeps(filters, v, ctx);
    PushedAreTranslatable(filters, v);
    DatasetScanKeepsGuarded(pushed, ctx);
    forall i | 0 <= i < |pushed|
      ensures Accepts(Eval(PyArrowFilter.Guarded(pushed[i]), ctx)) <==> Accepts(Eval(pushed[i], ctx))
    {
      PushedAreFilters(filters, v, i);
      PyArrowFilter.PositiveBlurs(pushed[i], true, notNull, ctx);
    }
  }

  /** The same for ibis tables and Python providers, for filters without IN. */
  lemma {:induction false} IbisQueryIsCorrect(filters: seq<Expr>, ctx: Context)
    requires forall f :: f in filters ==> IbisFilter.InListFree(f)
    ensures var v := IbisVerdicts(filters);
            && IbisScan(Pushed(filters, v)).Planned?
            && (IbisKeeps(IbisScan(Pushed(filters, v)).filters, ctx) && SqlKeeps(Residual(filters, v), ctx)
                <==> SqlKeeps(filters, ctx))
  {
    var v := IbisVerdicts(filters);
    var pushed := Pushed(filters, v);
    PlannedScansNeverFail(filters, ctx);
    SplitKeeps(filters, v, ctx);
    forall i | 0 <= i < |pushed|
      ensures IbisFilter.InListFree(pushed[i])
    {
      PushedAreFilters(filters, v, i);
    }
    IbisScanReturns(pushed, ctx);
  }
}
