/** The pull closures of dataset and ibis scans: state filled on the first call, and what rests on the bridge. */
module LazyPulls {
  import opened Options
  import opened Schema
  import opened Reading
  import opened Bridge
  import opened BridgeTheorems

  // ----- pyarrow datasets

  /** The filter and columns of a plan, as handed to a scanner. */
  datatype ScanArgs = ScanArgs(columns: Option<seq<string>>, filter: Option<int>)

  /** How far building the scanner gets. */
  datatype Build =
    | FragmentFails | SchemaFails           // before the captures are taken
    | ColumnsFail | FilterFails | SizeFails // while they are put into the arguments
    | ScannerFails | BatchesFail            // the scanner call raises, or its iterator cannot be made
    | Builds

  /** What the environment does in one call: how a build would go, and what the iterator answers. */
  datatype Env = Env(build: Build, next: Pulled)

  /** The closure's captures, and every set of arguments a scanner was called with. */
  datatype DatasetState = DatasetState(iter: bool, columns: Option<seq<string>>, filter: Option<int>,
                                       scanners: seq<ScanArgs>)

  const BUILD_ERROR: Pulled := Fault(ReaderError(0))

  function Start(plan: ScanArgs): DatasetState {
    DatasetState(false, plan.columns, plan.filter, [])
  }

  /** The build attempt: the captures are emptied on the way to the scanner call. */
  function BuildNext(s: DatasetState, build: Build): DatasetState {
    match build
    case FragmentFails => s
    case SchemaFails => s
    case ColumnsFail => s.(columns := None)
    case FilterFails => s.(columns := None, filter := None)
    case SizeFails => s.(columns := None, filter := None)
    case ScannerFails => DatasetState(false, None, None, s.scanners + [ScanArgs(s.columns, s.filter)])
    case BatchesFail => DatasetState(false, None, None, s.scanners + [ScanArgs(s.columns, s.filter)])
    case Builds => DatasetState(true, None, None, s.scanners + [ScanArgs(s.columns, s.filter)])
  }

  function CallNext(s: DatasetState, env: Env): (DatasetState, Pulled) {
    if s.iter then (s, env.next)
    else
      var built := BuildNext(s, env.build);
      (built, if built.iter then env.next else BUILD_ERROR)
  }

  class DatasetPull {
    var iter: bool
    var columns: Option<seq<string>>
    var filter: Option<int>
    ghost var scanners: seq<ScanArgs>

    ghost function State(): DatasetState
      reads this
    {
      DatasetState(iter, columns, filter, scanners)
    }

    constructor (plan: ScanArgs)
      ensures State() == Start(plan)
    {
      iter, columns, filter, scanners := false, plan.columns, plan.filter, [];
    }

    /** The `scanner` call, with the captures moved out of the closure. */
    method CallScanner()
      requires !iter
      modifies this
      ensures State() == DatasetState(false, None, None, old(scanners) + [ScanArgs(old(columns), old(filter))])
    {
      scanners := scanners + [ScanArgs(columns, filter)];
      columns := None;
      filter := None;
    }

    /** One call of the closure. */
    method Call(env: Env) returns (p: Pulled)
      modifies this
      ensures (State(), p) == CallNext(old(State()), env)
    {
      if !iter {
        match env.build {
          case FragmentFails => return BUILD_ERROR;
          case SchemaFails => return BUILD_ERROR;
          case ColumnsFail =>
            columns := None;
            return BUILD_ERROR;
          case FilterFails =>
            columns, filter := None, None;
            return BUILD_ERROR;
          case SizeFails =>
            columns, filter := None, None;
            return BUILD_ERROR;
          case ScannerFails =>
            CallScanner();
            return BUILD_ERROR;
          case BatchesFail =>
            CallScanner();
            return BUILD_ERROR;
          case Builds =>
            CallScanner();
            iter := true;
        }
      }
      p := env.next;
    }
  }

  /** The closure after its first `n` calls. */
  function After(plan: ScanArgs, envs: nat -> Env, n: nat): DatasetState {
    if n == 0 then Start(plan) else CallNext(After(plan, envs, n - 1), envs(n - 1)).0
  }

  /** The reader a dataset scan hands to the bridge. */
  function DatasetReader(plan: ScanArgs, envs: nat -> Env): Reader {
    (n: nat) => CallNext(After(plan, envs, n), envs(n)).1
  }

  /** The first `n` answers were batches. */
  ghost predicate AllBatches(reader: Reader, n: nat) {
    forall k: nat :: k < n ==> reader(k).Batch?
  }

  /** In every run of the bridge only the last call can have answered anything else. */
  lemma {:induction false} OnlyBatchesBefore(cfg: Config, s: Stream)
    requires Reachable(cfg, s) && s.tally.started > 0
    ensures AllBatches(cfg.reader, s.tally.started - 1)
  {
    forall k: nat | k < s.tally.started - 1
      ensures cfg.reader(k).Batch?
    {
      TerminalContract(cfg, s, k);
    }
  }

  /** While only batches have come back, one scanner was built, with the plan's own arguments. */
  lemma {:induction false} BuiltOnce(plan: ScanArgs, envs: nat -> Env, n: nat)
    requires AllBatches(DatasetReader(plan, envs), n)
    ensures n > 0 ==> After(plan, envs, n).iter && After(plan, envs, n).scanners == [plan]
  {
    if n > 0 {
      BuiltOnce(plan, envs, n - 1);
      assert DatasetReader(plan, envs)(n - 1).Batch?;
    }
  }

  /**
   * What the terminal contract buys: in every run of the bridge every scanner a dataset scan ever calls
   * carries the plan's filter and columns, although the closure gives them away on its first attempt.
   */
  lemma {:induction false} ScannersCarryThePlan(plan: ScanArgs, envs: nat -> Env, cfg: Config, s: Stream)
    requires cfg.reader == DatasetReader(plan, envs) && Reachable(cfg, s)
    ensures forall i :: 0 <= i < |After(plan, envs, s.tally.started).scanners| ==>
              After(plan, envs, s.tally.started).scanners[i] == plan
    ensures |After(plan, envs, s.tally.started).scanners| <= 1
  {
    if s.tally.started > 0 {
      OnlyBatchesBefore(cfg, s);
      ScannersAfter(plan, envs, s.tally.started - 1);
    }
  }

  lemma {:induction false} ScannersAfter(plan: ScanArgs, envs: nat -> Env, n: nat)
    requires AllBatches(DatasetReader(plan, envs), n)
    ensures After(plan, envs, n + 1).scanners == [] || After(plan, envs, n + 1).scanners == [plan]
  {
    BuiltOnce(plan, envs, n);
    OneMoreCall(plan, envs, n);
  }

  lemma {:induction false} OneMoreCall(plan: ScanArgs, envs: nat -> Env, n: nat)
    requires n > 0 ==> After(plan, envs, n).iter && After(plan, envs, n).scanners == [plan]
    ensures After(plan, envs, n + 1).scanners == [] || After(plan, envs, n + 1).scanners == [plan]
  {
  }

  /**
   * What one call answers while only batches have come back: the iterator's own answer, or, on the first
   * call, the failure of the build as an error. The iterator is advanced once per call.
   */
  lemma {:induction false} DatasetAnswer(plan: ScanArgs, envs: nat -> Env, n: nat)
    requires AllBatches(DatasetReader(plan, envs), n)
    ensures var p := DatasetReader(plan, envs)(n);
            if n > 0 || envs(0).build.Builds? then p == envs(n).next else p.Fault?
  {
    BuiltOnce(plan, envs, n);
  }

  /**
   * What the consumer of a dataset scan gets, in every run of the bridge: item i is the i-th batch of the
   * scanner's iterator, or its own error, or a mismatch of its i-th batch, or the failure to build the scanner,
   * and then it is the first item. The stream ends without an error only if the scanner was built and its
   * iterator has said so after every batch was delivered.
   */
  lemma {:induction false} DatasetScanDelivers(plan: ScanArgs, envs: nat -> Env, cfg: Config, s: Stream)
    requires cfg.reader == DatasetReader(plan, envs) && Reachable(cfg, s)
    ensures forall i :: 0 <= i < |s.consumer.delivered| ==>
              match s.consumer.delivered[i]
              case Ok(batch) => envs(i).next == Batch(batch) && envs(0).build.Builds?
              case Err(e) =>
                || envs(i).next == Fault(e)
                || (envs(i).next.Batch? && e == SchemaMismatch(cfg.schema, envs(i).next.batch.fields))
                || (i == 0 && !envs(0).build.Builds? && BUILD_ERROR == Fault(e))
    ensures var n := |s.consumer.delivered|;
            s.consumer.view.SawEnd? && (n > 0 ==> s.consumer.delivered[n - 1].Ok?) ==>
              envs(0).build.Builds? && envs(n).next.Exhausted?
  {
    forall i | 0 <= i < |s.consumer.delivered|
      ensures match s.consumer.delivered[i]
              case Ok(batch) => envs(i).next == Batch(batch) && envs(0).build.Builds?
              case Err(e) =>
                || envs(i).next == Fault(e)
                || (envs(i).next.Batch? && e == SchemaMismatch(cfg.schema, envs(i).next.batch.fields))
                || (i == 0 && !envs(0).build.Builds? && BUILD_ERROR == Fault(e))
    {
      DatasetItem(plan, envs, cfg, s, i);
    }
    if s.consumer.view.SawEnd? && (|s.consumer.delivered| > 0 ==> s.consumer.delivered[|s.consumer.delivered| - 1].Ok?) {
      DatasetEnd(plan, envs, cfg, s);
    }
  }

  lemma {:induction false} BatchesBeforeItem(cfg: Config, s: Stream, i: nat)
    requires Reachable(cfg, s) && i < |s.consumer.delivered|
    ensures AllBatches(cfg.reader, i)
  {
    forall k: nat | k < i
      ensures cfg.reader(k).Batch?
    {
      ItemIsAnswer(cfg, s, k);
    }
  }

  lemma {:induction false} DatasetItem(plan: ScanArgs, envs: nat -> Env, cfg: Config, s: Stream, i: nat)
    requires cfg.reader == DatasetReader(plan, envs) && Reachable(cfg, s) && i < |s.consumer.delivered|
    ensures match s.consumer.delivered[i]
            case Ok(batch) => envs(i).next == Batch(batch) && envs(0).build.Builds?
            case Err(e) =>
              || envs(i).next == Fault(e)
              || (envs(i).next.Batch? && e == SchemaMismatch(cfg.schema, envs(i).next.batch.fields))
              || (i == 0 && !envs(0).build.Builds? && BUILD_ERROR == Fault(e))
  {
    ItemIsAnswer(cfg, s, i);
    BatchesBeforeItem(cfg, s, i);
    DatasetAnswer(plan, envs, i);
    if i > 0 {
      FirstWasBuilt(plan, envs, i);
    }
  }

  lemma {:induction false} FirstWasBuilt(plan: ScanArgs, envs: nat -> Env, n: nat)
    requires n > 0 && AllBatches(DatasetReader(plan, envs), n)
    ensures envs(0).build.Builds?
  {
    assert DatasetReader(plan, envs)(0).Batch?;
    DatasetAnswer(plan, envs, 0);
  }

  /** An end that no error precedes comes from an answer without an item: the reader said it was exhausted. */
  lemma {:induction false} SilentEnd(cfg: Config, s: Stream)
    requires Reachable(cfg, s) && s.consumer.view.SawEnd?
    requires var n := |s.consumer.delivered|; n > 0 ==> s.consumer.delivered[n - 1].Ok?
    ensures cfg.reader(|s.consumer.delivered|).Exhausted?
    ensures AllBatches(cfg.reader, |s.consumer.delivered|)
  {
    var n, k := s.tally.started, s.tally.started - 1;
    DeliversTheReading(cfg, s, n);
    OnlyBatchesBefore(cfg, s);
    forall j: nat | j < k
      ensures Continues(cfg.schema, cfg.reader(j))
    {
      TerminalContract(cfg, s, j);
    }
    ReadExtends(cfg.reader, cfg.schema, 0, k);
    var last := ItemsOf(cfg.schema, cfg.reader(k));
    assert s.consumer.delivered == Read(cfg.reader, cfg.schema, 0, k) + last;
    LastOfBoth(Read(cfg.reader, cfg.schema, 0, k), last);
  }

  lemma {:induction false} LastOfBoth(front: seq<Item>, last: seq<Item>)
    ensures last != [] ==> (front + last)[|front + last| - 1] == last[|last| - 1]
  {
  }

  lemma {:induction false} DatasetEnd(plan: ScanArgs, envs: nat -> Env, cfg: Config, s: Stream)
    requires cfg.reader == DatasetReader(plan, envs) && Reachable(cfg, s) && s.consumer.view.SawEnd?
    requires var n := |s.consumer.delivered|; n > 0 ==> s.consumer.delivered[n - 1].Ok?
    ensures envs(0).build.Builds? && envs(|s.consumer.delivered|).next.Exhausted?
  {
    var n := |s.consumer.delivered|;
    SilentEnd(cfg, s);
    DatasetAnswer(plan, envs, n);
    if n > 0 {
      FirstWasBuilt(plan, envs, n);
    }
  }

  /** Did this attempt empty the captures before it failed? */
  predicate GaveAway(build: Build) {
    !build.FragmentFails? && !build.SchemaFails?
  }

  /**
   * Without that contract it would go wrong, and exactly when: called again after a failed first attempt,
   * the closure calls its scanner with the plan's arguments if and only if the failure came before the
   * captures were taken, or the taken ones were empty anyway.
   */
  lemma {:induction false} RetryLosesTheFilter(plan: ScanArgs, first: Build, next: Pulled)
    requires !first.Builds?
    ensures var s1 := CallNext(Start(plan), Env(first, next)).0;
            var s2 := CallNext(s1, Env(Builds, next)).0;
            && |s2.scanners| > 0
            && (s2.scanners[|s2.scanners| - 1] == plan
                <==> !GaveAway(first) || (plan.columns.None? && (plan.filter.None? || first.ColumnsFail?)))
  {
  }

  // ----- ibis tables

  /** What the environment does in one call: would the iterator be built, and what does it answer. */
  datatype IbisEnv = IbisEnv(builds: bool, next: Pulled)

  const PROJECTION_ERROR: Pulled := Fault(ReaderError(1))

  /** A raw answer of the Python iterator, projected in Rust. */
  function Projected(p: Pulled, projection: Option<seq<nat>>): Pulled {
    if p.Batch? && projection.Some? then
      match ProjectBatch(p.batch, projection)
      case Some(batch) => Batch(batch)
      case None => PROJECTION_ERROR
    else p
  }

  /** One call of the closure, from whether it has its iterator. */
  function IbisCallNext(iter: bool, env: IbisEnv, projection: Option<seq<nat>>): (bool, Pulled) {
    if iter || env.builds then (true, Projected(env.next, projection)) else (false, BUILD_ERROR)
  }

  class IbisPull {
    const projection: Option<seq<nat>>
    var iter: bool

    constructor (projection: Option<seq<nat>>)
      ensures this.projection == projection && !iter
    {
      this.projection := projection;
      iter := false;
    }

    /** One call: build the iterator unless there is one, advance it, project the batch. */
    method Call(env: IbisEnv) returns (p: Pulled)
      modifies this
      ensures (iter, p) == IbisCallNext(old(iter), env, projection)
    {
      if !iter {
        if env.builds {
          iter := true;
        } else {
          return BUILD_ERROR;
        }
      }
      p := env.next;
      if p.Batch? && projection.Some? {
        var projected := ProjectBatch(p.batch, projection);
        p := if projected.Some? then Batch(projected.value) else PROJECTION_ERROR;
      }
    }
  }

  /** Does the closure have its iterator after its first `n` calls? */
  function IbisAfter(projection: Option<seq<nat>>, envs: nat -> IbisEnv, n: nat): bool {
    if n == 0 then false else IbisCallNext(IbisAfter(projection, envs, n - 1), envs(n - 1), projection).0
  }

  /** The reader an ibis scan hands to the bridge. */
  function IbisReader(projection: Option<seq<nat>>, envs: nat -> IbisEnv): Reader {
    (n: nat) => IbisCallNext(IbisAfter(projection, envs, n), envs(n), projection).1
  }

  /** The batches the iterator yields are well formed and keep to the declared schema. */
  ghost predicate KeepsSchema(declared: seq<Field>, envs: nat -> IbisEnv) {
    forall n: nat :: envs(n).next.Batch? ==> WellFormed(envs(n).next.batch) && Matches(declared, envs(n).next.batch.fields)
  }

  lemma {:induction false} IbisAnswer(declared: seq<Field>, schema: seq<Field>, projection: Option<seq<nat>>,
                                      envs: nat -> IbisEnv, n: nat)
    requires ProjectSchema(declared, projection) == Some(schema) && KeepsSchema(declared, envs)
    ensures var p := IbisReader(projection, envs)(n);
            if IbisAfter(projection, envs, n) || envs(n).builds then
              if envs(n).next.Batch? then
                ProjectBatch(envs(n).next.batch, projection).Some?
                && p == Batch(ProjectBatch(envs(n).next.batch, projection).value) && Continues(schema, p)
              else p == envs(n).next
            else p == BUILD_ERROR
  {
    if envs(n).next.Batch? {
      ConformingBatchIsKept(declared, envs(n).next.batch, projection);
    }
  }

  /** While only batches have come back the iterator was built by the first call. */
  lemma {:induction false} IbisBuiltOnce(projection: Option<seq<nat>>, envs: nat -> IbisEnv, n: nat)
    requires IbisReader(projection, envs)(0).Batch? && n > 0
    ensures IbisAfter(projection, envs, n) && envs(0).builds
  {
    if n > 1 {
      IbisBuiltOnce(projection, envs, n - 1);
    }
  }

  /** Column k of the batch, field and data, is the raw batch's at the k-th index; all of it without a projection. */
  predicate SelectedFrom(batch: RecordBatch, raw: RecordBatch, projection: Option<seq<nat>>) {
    match projection
    case None => batch == raw
    case Some(indices) =>
      && |batch.fields| == |batch.columns| == |indices|
      && forall k :: 0 <= k < |indices| ==>
           && indices[k] < |raw.fields| && indices[k] < |raw.columns|
           && batch.fields[k] == raw.fields[indices[k]] && batch.columns[k] == raw.columns[indices[k]]
  }

  /**
   * What the consumer of an ibis scan gets, in every run of the bridge: if the iterator keeps to the declared
   * schema, item i is the i-th batch of the iterator, projected; or the iterator's own error; or the failure
   * to build it, and then it is the first item. The schema check behind the projection rejects nothing.
   */
  lemma {:induction false} IbisScanDelivers(declared: seq<Field>, projection: Option<seq<nat>>, envs: nat -> IbisEnv, cfg: Config,
                                            s: Stream, i: nat)
    requires ProjectSchema(declared, projection) == Some(cfg.schema) && KeepsSchema(declared, envs)
    requires cfg.reader == IbisReader(projection, envs)
    requires Reachable(cfg, s) && i < |s.consumer.delivered|
    ensures match s.consumer.delivered[i]
            case Ok(batch) =>
              && envs(i).next.Batch? && ProjectBatch(envs(i).next.batch, projection) == Some(batch)
              && SelectedFrom(batch, envs(i).next.batch, projection)
            case Err(e) => envs(i).next == Fault(e) || (i == 0 && !envs(0).builds && BUILD_ERROR == Fault(e))
  {
    ItemIsAnswer(cfg, s, i);
    if projection.Some? && envs(i).next.Batch? {
      ProjectBatchSelects(envs(i).next.batch, projection.value);
    }
    IbisAnswer(declared, cfg.schema, projection, envs, i);
    if i > 0 {
      ItemIsAnswer(cfg, s, 0);
      IbisBuiltOnce(projection, envs, i);
    }
  }

  /** An ibis scan ends without an error only if its iterator was built and has said it was exhausted. */
  lemma {:induction false} IbisScanEnds(projection: Option<seq<nat>>, envs: nat -> IbisEnv, cfg: Config, s: Stream)
    requires cfg.reader == IbisReader(projection, envs) && Reachable(cfg, s) && s.consumer.view.SawEnd?
    requires var n := |s.consumer.delivered|; n > 0 ==> s.consumer.delivered[n - 1].Ok?
    ensures envs(0).builds && envs(|s.consumer.delivered|).next.Exhausted?
  {
    var n := |s.consumer.delivered|;
    SilentEnd(cfg, s);
    if n > 0 {
      assert cfg.reader(0).Batch?;
      IbisBuiltOnce(projection, envs, n);
    }
  }
}
