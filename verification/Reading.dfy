/** What a reader answers, and the plain sequential reading of it: the reference for the bridge. */
module Reading {
  import opened Options
  import opened Schema

  datatype Error = ReaderError(code: int) | SchemaMismatch(expected: seq<Field>, actual: seq<Field>)

  /** One item of the async stream. */
  datatype Item = Ok(batch: RecordBatch) | Err(error: Error)

  /** One answer of the pull closure; `Panic` is an unwinding call. */
  datatype Pulled = Batch(batch: RecordBatch) | Fault(error: Error) | Exhausted | Panic

  /** `reader(n)` is what the n-th call of the closure answers. */
  type Reader = nat -> Pulled

  /** Does this answer leave the stream open? */
  predicate Continues(schema: seq<Field>, p: Pulled) {
    p.Batch? && Matches(schema, p.batch.fields)
  }

  /** The items this answer contributes: a batch, an error, or nothing. */
  function ItemsOf(schema: seq<Field>, p: Pulled): (items: seq<Item>)
    ensures |items| <= 1
  {
    match p
    case Batch(batch) =>
      if Matches(schema, batch.fields) then [Ok(batch)] else [Err(SchemaMismatch(schema, batch.fields))]
    case Fault(e) => [Err(e)]
    case Exhausted => []
    case Panic => []
  }

  /**
   * The sequential reading: call the reader `n` times starting with call `from`, stopping at the
   * first answer that is not a matching batch.
   */
  function Read(reader: Reader, schema: seq<Field>, from: nat, n: nat): seq<Item>
    decreases n
  {
    if n == 0 then []
    else if Continues(schema, reader(from)) then ItemsOf(schema, reader(from)) + Read(reader, schema, from + 1, n - 1)
    else ItemsOf(schema, reader(from))
  }

  /** The first `n` answers all leave the stream open. */
  predicate OpenFor(reader: Reader, schema: seq<Field>, n: nat) {
    forall k: nat :: k < n ==> Continues(schema, reader(k))
  }

  lemma {:induction false} ReadExtends(reader: Reader, schema: seq<Field>, from: nat, n: nat)
    requires forall k: nat :: from <= k < from + n ==> Continues(schema, reader(k))
    ensures |Read(reader, schema, from, n)| == n
    ensures Read(reader, schema, from, n + 1) == Read(reader, schema, from, n) + ItemsOf(schema, reader(from + n))
    decreases n
  {
    if n == 0 {
      assert Read(reader, schema, from + 1, 0) == [];
    } else {
      ReadExtends(reader, schema, from + 1, n - 1);
      assert Read(reader, schema, from, n + 1) == ItemsOf(schema, reader(from)) + Read(reader, schema, from + 1, n);
    }
  }

  /** The i-th item of a reading is what the i-th answer contributes. */
  lemma {:induction false} ReadItemIs(reader: Reader, schema: seq<Field>, from: nat, n: nat, i: nat)
    requires i < |Read(reader, schema, from, n)|
    ensures ItemsOf(schema, reader(from + i)) == [Read(reader, schema, from, n)[i]]
    decreases n
  {
    if Continues(schema, reader(from)) && i > 0 {
      ReadItemIs(reader, schema, from + 1, n - 1, i - 1);
    }
  }

  /** After a terminal answer further calls change nothing. */
  lemma {:induction false} ReadStops(reader: Reader, schema: seq<Field>, from: nat, k: nat, n: nat)
    requires k < n
    requires !Continues(schema, reader(from + k))
    ensures Read(reader, schema, from, n) == Read(reader, schema, from, k + 1)
    decreases n
  {
    if Continues(schema, reader(from)) {
      ReadStops(reader, schema, from + 1, k - 1, n - 1);
      assert Read(reader, schema, from, n) == ItemsOf(schema, reader(from)) + Read(reader, schema, from + 1, n - 1);
      assert Read(reader, schema, from, k + 1) == ItemsOf(schema, reader(from)) + Read(reader, schema, from + 1, k);
    }
  }

  /** An error is the last item of a reading, so a reading holds at most one. */
  lemma {:induction false} ErrorIsLast(reader: Reader, schema: seq<Field>, from: nat, n: nat, i: nat)
    requires i < |Read(reader, schema, from, n)|
    requires Read(reader, schema, from, n)[i].Err?
    ensures i == |Read(reader, schema, from, n)| - 1
    decreases n
  {
    if Continues(schema, reader(from)) {
      ErrorIsLast(reader, schema, from + 1, n - 1, i - 1);
    }
  }

  /** Every batch in a reading matches the advertised schema. */
  lemma {:induction false} ReadItemsMatch(reader: Reader, schema: seq<Field>, from: nat, n: nat, i: nat)
    requires i < |Read(reader, schema, from, n)|
    requires Read(reader, schema, from, n)[i].Ok?
    ensures Matches(schema, Read(reader, schema, from, n)[i].batch.fields)
    ensures var fields := Read(reader, schema, from, n)[i].batch.fields;
            && |fields| == |schema|
            && forall k :: 0 <= k < |fields| ==> fields[k].name == schema[k].name && fields[k].dataType == schema[k].dataType
    decreases n
  {
    if Continues(schema, reader(from)) && i > 0 {
      ReadItemsMatch(reader, schema, from + 1, n - 1, i - 1);
    }
  }
}
