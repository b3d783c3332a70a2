/** The ordering kept for a registered reader: a prefix of the declared sort order. */
module SortOrder {
  import opened Options
  import opened Filter

  datatype SortExpr = SortExpr(expr: Expr, asc: bool, nullsFirst: bool)

  datatype Ordering = Kept(order: seq<SortExpr>) | UnsupportedSort(expr: Expr)

  /** A plain column of the schema. */
  predicate Present(sort: SortExpr, schema: seq<string>) {
    sort.expr.Column? && sort.expr.name in schema
  }

  /** The first entry that is not a plain column of the schema, or the length of the list. */
  function FirstOther(sorts: seq<SortExpr>, schema: seq<string>): (k: nat)
    ensures k <= |sorts|
    ensures forall i :: 0 <= i < k ==> Present(sorts[i], schema)
    ensures k < |sorts| ==> !Present(sorts[k], schema)
  {
    if sorts == [] || !Present(sorts[0], schema) then 0 else 1 + FirstOther(sorts[1..], schema)
  }

  /**
   * The loop over the declared order. It keeps the longest prefix of plain columns the schema has, and
   * fails exactly when the entry that ends this prefix is not a column at all.
   */
  method KeepPrefix(declared: Option<seq<SortExpr>>, schema: seq<string>) returns (r: Ordering)
    ensures var sorts := if declared.Some? then declared.value else [];
            var k := FirstOther(sorts, schema);
            r == if k < |sorts| && !sorts[k].expr.Column? then UnsupportedSort(sorts[k].expr) else Kept(sorts[..k])
    ensures var sorts := if declared.Some? then declared.value else [];
            r.Kept? ==>
              && r.order <= sorts
              && (forall i :: 0 <= i < |r.order| ==> r.order[i].expr.Column? && r.order[i].expr.name in schema)
              && (|r.order| < |sorts| ==> sorts[|r.order|].expr.Column? && sorts[|r.order|].expr.name !in schema)
    ensures var sorts := if declared.Some? then declared.value else [];
            r.UnsupportedSort? ==>
              exists k :: 0 <= k < |sorts| && sorts[k].expr == r.expr && !r.expr.Column?
                          && forall i :: 0 <= i < k ==> sorts[i].expr.Column? && sorts[i].expr.name in schema
  {
    var sorts := if declared.Some? then declared.value else [];
    var ordering: seq<SortExpr> := [];
    for i := 0 to |sorts|
      invariant ordering == sorts[..i]
      invariant forall j :: 0 <= j < i ==> Present(sorts[j], schema)
    {
      if sorts[i].expr.Column? && sorts[i].expr.name in schema {
        ordering := ordering + [sorts[i]];
      } else if sorts[i].expr.Column? {
        FirstOtherIs(sorts, schema, i);
        return Kept(ordering);
      } else {
        FirstOtherIs(sorts, schema, i);
        return UnsupportedSort(sorts[i].expr);
      }
    }
    FirstOtherIs(sorts, schema, |sorts|);
    assert sorts[..|sorts|] == sorts;
    r := Kept(ordering);
  }

  /** `FirstOther` is determined by what it promises. */
  lemma {:induction false} FirstOtherIs(sorts: seq<SortExpr>, schema: seq<string>, k: nat)
    requires k <= |sorts| && forall i :: 0 <= i < k ==> Present(sorts[i], schema)
    requires k < |sorts| ==> !Present(sorts[k], schema)
    ensures FirstOther(sorts, schema) == k
  {
  }

  // ----- sorted rows

  type Row = string -> Value

  datatype Comparison = Less | Equal | Greater

  /** One sort key: nulls at the asked end, other values in the asked direction. */
  function CompareKey(sort: SortExpr, le: (Value, Value) -> bool, a: Value, b: Value): Comparison {
    if a == b then Equal
    else if a.Null? then (if sort.nullsFirst then Less else Greater)
    else if b.Null? then (if sort.nullsFirst then Greater else Less)
    else if le(a, b) == sort.asc then Less else Greater
  }

  /**
   * What one key asks for: ascending follows the order on non-null values and descending reverses it; nulls
   * come first or last as asked, whatever the direction; equal values are not ordered.
   */
  lemma {:induction false} KeyLaws(sort: SortExpr, le: (Value, Value) -> bool, a: Value, b: Value)
    requires TotalOrder(le)
    ensures CompareKey(sort, le, a, b).Equal? <==> a == b
    ensures a != b && !a.Null? && !b.Null? ==>
              (CompareKey(sort, le, a, b).Less? <==> if sort.asc then le(a, b) else le(b, a))
    ensures a != b && !a.Null? && !b.Null? ==>
              (CompareKey(sort, le, a, b).Less? <==> CompareKey(sort.(asc := !sort.asc), le, a, b).Greater?)
    ensures a.Null? && !b.Null? ==> (CompareKey(sort, le, a, b).Less? <==> sort.nullsFirst)
    ensures CompareKey(sort, le, a, b).Less? <==> CompareKey(sort, le, b, a).Greater?
  {
    assert le(a, b) || le(b, a);
    assert le(a, b) && le(b, a) ==> a == b;
  }

  /** Lexicographic comparison: rows are in order if at the first key that tells them apart the first is less. */
  lemma {:induction false} FirstDifferenceDecides(order: seq<SortExpr>, k: nat, a: Row, b: Row,
                                                  le: (Value, Value) -> bool, other: string -> Value)
    requires k <= |order|
    requires forall i :: 0 <= i < k ==> Key(order[i], a, le, other) == Key(order[i], b, le, other)
    requires k < |order| ==> Key(order[k], a, le, other) != Key(order[k], b, le, other)
    ensures InOrder(order, a, b, le, other)
            <==> k == |order| || CompareKey(order[k], le, Key(order[k], a, le, other), Key(order[k], b, le, other)).Less?
    decreases k
  {
    if k > 0 {
      assert Key(order[0], a, le, other) == Key(order[0], b, le, other);
      FirstDifferenceDecides(order[1..], k - 1, a, b, le, other);
    }
  }

  function Key(sort: SortExpr, row: Row, le: (Value, Value) -> bool, other: string -> Value): Value {
    Eval(sort.expr, Context(row, le, other))
  }

  /** Lexicographic order: the first key that differs decides. */
  predicate InOrder(order: seq<SortExpr>, a: Row, b: Row, le: (Value, Value) -> bool, other: string -> Value) {
    if order == [] then true
    else match CompareKey(order[0], le, Key(order[0], a, le, other), Key(order[0], b, le, other))
      case Less => true
      case Greater => false
      case Equal => InOrder(order[1..], a, b, le, other)
  }

  ghost predicate Sorted(order: seq<SortExpr>, rows: seq<Row>, le: (Value, Value) -> bool, other: string -> Value) {
    forall i, j :: 0 <= i < j < |rows| ==> InOrder(order, rows[i], rows[j], le, other)
  }

  lemma {:induction false} PrefixInOrder(order: seq<SortExpr>, k: nat, a: Row, b: Row,
                                         le: (Value, Value) -> bool, other: string -> Value)
    requires k <= |order| && InOrder(order, a, b, le, other)
    ensures InOrder(order[..k], a, b, le, other)
    decreases k
  {
    if k > 0 {
      assert order[..k][1..] == order[1..][..k - 1];
      if CompareKey(order[0], le, Key(order[0], a, le, other), Key(order[0], b, le, other)).Equal? {
        PrefixInOrder(order[1..], k - 1, a, b, le, other);
      }
    }
  }

  /** Rows sorted by the declared order are sorted by the order that is kept. */
  lemma {:induction false} KeptOrderHolds(sorts: seq<SortExpr>, schema: seq<string>, rows: seq<Row>,
                       le: (Value, Value) -> bool, other: string -> Value)
    requires Sorted(sorts, rows, le, other)
    ensures Sorted(sorts[..FirstOther(sorts, schema)], rows, le, other)
  {
    var k := FirstOther(sorts, schema);
    forall i, j | 0 <= i < j < |rows|
      ensures InOrder(sorts[..k], rows[i], rows[j], le, other)
    {
      PrefixInOrder(sorts, k, rows[i], rows[j], le, other);
    }
  }

  /** Skipping a key instead of stopping at it would not do: rows sorted by (a, b) need not be sorted by b. */
  lemma {:induction false} GapIsNoOrder(le: (Value, Value) -> bool, other: string -> Value)
    requires le(Datum(1), Datum(2)) && !le(Datum(2), Datum(1))
    ensures exists order: seq<SortExpr>, rows: seq<Row> ::
              |order| == 2 && Sorted(order, rows, le, other) && !Sorted(order[1..], rows, le, other)
  {
    var byA, byB := SortExpr(Column(None, "a"), true, true), SortExpr(Column(None, "b"), true, true);
    var first: Row := (c: string) => if c == "a" then Datum(1) else Datum(2);
    var second: Row := (c: string) => if c == "a" then Datum(2) else Datum(1);
    var order, rows := [byA, byB], [first, second];
    assert Key(byA, first, le, other) == Datum(1) && Key(byA, second, le, other) == Datum(2);
    assert Key(byB, first, le, other) == Datum(2) && Key(byB, second, le, other) == Datum(1);
    assert CompareKey(byB, le, Datum(2), Datum(1)) == Greater;
    assert InOrder(order, first, second, le, other);
    assert Sorted(order, rows, le, other);
    assert order[1..] == [byB];
    assert !InOrder(order[1..], rows[0], rows[1], le, other);
    assert !Sorted(order[1..], rows, le, other);
  }
}
