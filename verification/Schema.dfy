/** Column schemas, record batches, the positional schema check and column projection. */
module Schema {
  import opened Options

  /** `nullable` and `metadata` travel with a field but take no part in the comparison. */
  datatype Field = Field(name: string, dataType: string, nullable: bool, metadata: string)

  /** `columns[i]` is the data of the i-th field. */
  datatype RecordBatch = RecordBatch(fields: seq<Field>, columns: seq<seq<int>>)

  predicate WellFormed(batch: RecordBatch) {
    |batch.columns| == |batch.fields|
  }

  /** Name and type agree; nullability and metadata are not compared. */
  predicate SameColumn(want: Field, got: Field) {
    want.name == got.name && want.dataType == got.dataType
  }

  /**
   * The scan over both field lists side by side. `shared` says that the batch and the plan
   * hold the same schema allocation, which the source accepts without looking at the fields.
   */
  method CheckBatchSchema(schema: seq<Field>, shared: bool, batch: RecordBatch) returns (ok: bool)
    requires shared ==> schema == batch.fields
    ensures ok <==> |schema| == |batch.fields|
                    && forall i :: 0 <= i < |schema| ==>
                         schema[i].name == batch.fields[i].name && schema[i].dataType == batch.fields[i].dataType
    ensures ok <==> Matches(schema, batch.fields)
  {
    if shared {
      return true;
    }
    if |schema| != |batch.fields| {
      return false;
    }
    for i := 0 to |schema|
      invariant forall k :: 0 <= k < i ==> SameColumn(schema[k], batch.fields[k])
    {
      if !SameColumn(schema[i], batch.fields[i]) {
        return false;
      }
    }
    return true;
  }

  predicate Matches(want: seq<Field>, got: seq<Field>) {
    && |want| == |got|
    && forall i :: 0 <= i < |want| ==> SameColumn(want[i], got[i])
  }

  /** What the check compares: names and types by position, and nothing else. */
  lemma {:induction false} MatchesCompares(want: seq<Field>, got: seq<Field>)
    ensures Matches(want, got)
            <==> |want| == |got|
                 && forall i :: 0 <= i < |want| ==> want[i].name == got[i].name && want[i].dataType == got[i].dataType
    ensures forall i, nullable, metadata | 0 <= i < |got| ::
              Matches(want, got[i := got[i].(nullable := nullable, metadata := metadata)]) <==> Matches(want, got)
  {
    forall i, nullable, metadata | 0 <= i < |got|
      ensures Matches(want, got[i := got[i].(nullable := nullable, metadata := metadata)]) <==> Matches(want, got)
    {
      var other := got[i := got[i].(nullable := nullable, metadata := metadata)];
      assert forall k :: 0 <= k < |got| ==> got[k].name == other[k].name && got[k].dataType == other[k].dataType;
    }
  }

  predicate InRange(indices: seq<nat>, n: nat) {
    forall k :: 0 <= k < |indices| ==> indices[k] < n
  }

  function Select<T>(items: seq<T>, indices: seq<nat>): (r: seq<T>)
    requires InRange(indices, |items|)
    ensures |r| == |indices|
    ensures forall k :: 0 <= k < |indices| ==> r[k] == items[indices[k]]
  {
    seq(|indices|, k requires 0 <= k < |indices| => items[indices[k]])
  }

  /** Projection of a schema; an index out of range is an error. */
  function ProjectSchema(schema: seq<Field>, projection: Option<seq<nat>>): Option<seq<Field>> {
    match projection
    case None => Some(schema)
    case Some(indices) => if InRange(indices, |schema|) then Some(Select(schema, indices)) else None
  }

  /** Projection of a batch: fields and columns together. */
  function ProjectBatch(batch: RecordBatch, projection: Option<seq<nat>>): Option<RecordBatch> {
    match projection
    case None => Some(batch)
    case Some(indices) =>
      if WellFormed(batch) && InRange(indices, |batch.fields|)
      then Some(RecordBatch(Select(batch.fields, indices), Select(batch.columns, indices)))
      else None
  }

  /**
   * A projected batch: for in-range indices, and only then, there is one; its k-th field and its k-th column
   * are those at the k-th index. Without a projection the batch stays as it is.
   */
  lemma {:induction false} ProjectBatchSelects(batch: RecordBatch, indices: seq<nat>)
    requires WellFormed(batch)
    ensures ProjectBatch(batch, None) == Some(batch)
    ensures ProjectBatch(batch, Some(indices)).Some? <==> forall k :: 0 <= k < |indices| ==> indices[k] < |batch.fields|
    ensures ProjectBatch(batch, Some(indices)).Some? ==>
              var r := ProjectBatch(batch, Some(indices)).value;
              && |r.fields| == |r.columns| == |indices|
              && forall k :: 0 <= k < |indices| ==>
                   indices[k] < |batch.fields| && r.fields[k] == batch.fields[indices[k]] && r.columns[k] == batch.columns[indices[k]]
  {
  }

  /**
   * Projecting both sides and then checking accepts a batch exactly when it agrees with the
   * declared schema at every selected position; duplicated and reordered indices are allowed.
   */
  lemma {:induction false} ProjectionCommutesWithCheck(declared: seq<Field>, batch: RecordBatch, indices: seq<nat>)
    requires WellFormed(batch)
    requires InRange(indices, |declared|)
    ensures ProjectBatch(batch, Some(indices)).Some? <==> InRange(indices, |batch.fields|)
    ensures InRange(indices, |batch.fields|) ==>
              (Matches(ProjectSchema(declared, Some(indices)).value, ProjectBatch(batch, Some(indices)).value.fields)
               <==> forall i :: i in indices ==> SameColumn(declared[i], batch.fields[i]))
  {
  }

  /**
   * A batch that conforms to the declared schema is never rejected after projection, and
   * projecting twice is projecting once along the composed index list.
   */
  lemma {:induction false} ConformingBatchIsKept(declared: seq<Field>, batch: RecordBatch, projection: Option<seq<nat>>)
    requires WellFormed(batch) && Matches(declared, batch.fields)
    requires ProjectSchema(declared, projection).Some?
    ensures ProjectBatch(batch, projection).Some?
    ensures WellFormed(ProjectBatch(batch, projection).value)
    ensures Matches(ProjectSchema(declared, projection).value, ProjectBatch(batch, projection).value.fields)
    ensures forall further: seq<nat> | projection.Some? && InRange(further, |projection.value|) ::
              ProjectBatch(ProjectBatch(batch, projection).value, Some(further))
              == ProjectBatch(batch, Some(Select(projection.value, further)))
  {
    if projection.Some? {
      ProjectionCommutesWithCheck(declared, batch, projection.value);
      forall further: seq<nat> | InRange(further, |projection.value|)
        ensures ProjectBatch(ProjectBatch(batch, projection).value, Some(further))
             == ProjectBatch(batch, Some(Select(projection.value, further)))
      {
        var composed := Select(projection.value, further);
        assert Select(Select(batch.fields, projection.value), further) == Select(batch.fields, composed);
        assert Select(Select(batch.columns, projection.value), further) == Select(batch.columns, composed);
      }
    }
  }
}
