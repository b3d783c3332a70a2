/** Who keeps whom alive: no cycle through the session, and codecs that upgrade as long as they are used. */
module FfiLifetime {
  import opened Options
  import opened FfiTable

  // ----- what every operation keeps

  /** The references of an object lead where they should. */
  ghost predicate WiredObject(heap: seq<Object>, o: Object) {
    match o
    case Session(catalog, _) => At(heap, catalog).Catalog?
    case Catalog(tables) => forall t :: t in tables ==> At(heap, t).Table?
    case DataFrame(catalog, table) => At(heap, catalog).Catalog? && At(heap, table).Table?
    case Table(inner, host) =>
      && At(heap, inner).Provider?
      && (host.Some? ==> At(heap, host.value).HostContext?)
      && (At(heap, inner).codec.Some? ==>
            var codec := At(heap, At(heap, inner).codec.value);
            && codec.Codec?
            && (if host.Some? then codec.taskCtx == host.value else At(heap, codec.taskCtx).Session?))
    case Provider(codec) => codec.Some? ==> At(heap, codec.value).Codec?
    case Codec(target) => At(heap, target).HostContext? || At(heap, target).ScanContext? || At(heap, target).Session?
    case HostContext(session, _, _, _) => At(heap, session).Session?
    case ScanContext(_) => true
    case Unallocated => false
  }

  ghost predicate WiredCall(heap: seq<Object>, c: Call) {
    match c
    case Check(table, target, session, _) =>
      && At(heap, table).Table? && At(heap, session).Session?
      && (target == session || (At(heap, target).HostContext? && At(heap, target).session == session))
    case Scan(table, provider, context) =>
      && At(heap, table).Table? && At(heap, provider).Provider?
      && (context.None? ==> At(heap, table).hostContext.None? && At(heap, table).inner == provider)
      && (context.Some? ==>
            && At(heap, context.value).ScanContext?
            && (At(heap, provider).codec.Some? ==> At(heap, At(heap, provider).codec.value) == Codec(context.value)))
  }

  ghost predicate Wired(p: Process) {
    && (forall r {:trigger WiredObject(p.heap, p.heap[r])} :: 0 <= r < |p.heap| ==> WiredObject(p.heap, p.heap[r]))
    && (forall r :: r in p.handles ==> At(p.heap, r).Session? || At(p.heap, r).DataFrame?)
    && (forall id {:trigger WiredCall(p.heap, p.calls[id])} :: id in p.calls ==> WiredCall(p.heap, p.calls[id]))
  }

  /** An object keeps its kind and its references; only a catalog's tables come and go. */
  predicate SameRefs(o: Object, o': Object) {
    match o
    case Session(catalog, _) => o'.Session? && o'.catalog == catalog
    case Catalog(_) => o'.Catalog?
    case HostContext(session, snapshot, _, _) => o'.HostContext? && o'.session == session && o'.snapshot == snapshot
    case _ => o == o'
  }

  ghost predicate Grew(heap: seq<Object>, heap': seq<Object>) {
    |heap| <= |heap'| && forall r :: 0 <= r < |heap| ==> SameRefs(heap[r], heap'[r])
  }

  lemma {:induction false} WiredGrows(heap: seq<Object>, heap': seq<Object>, o: Object, o': Object)
    requires Grew(heap, heap') && WiredObject(heap, o) && SameRefs(o, o')
    requires o.Catalog? ==> o' == o
    ensures WiredObject(heap', o')
  {
  }

  lemma {:induction false} CallGrows(heap: seq<Object>, heap': seq<Object>, c: Call)
    requires Grew(heap, heap') && WiredCall(heap, c)
    ensures WiredCall(heap', c)
  {
  }

  lemma {:induction false} PushdownGrows(p: Process, id: nat, t: Ref)
    requires Next(p, BeginPushdown(id, t)).Some?
    ensures Grew(p.heap, Next(p, BeginPushdown(id, t)).value.heap)
  {
  }

  lemma {:induction false} NextGrows(p: Process, op: Op)
    requires Next(p, op).Some?
    ensures Grew(p.heap, Next(p, op).value.heap)
  {
    if op.BeginPushdown? {
      PushdownGrows(p, op.id, op.table);
    } else if op.Register? {
      RegisterGrows(p, op.session, op.foreign, op.binding);
    } else if op.BeginScan? {
      ScanGrows(p, op.id, op.table, op.planning);
    } else if op.FinishPushdown? {
      FinishGrows(p, op.id, op.target);
    } else {
      OthersGrow(p, op);
    }
  }

  lemma {:induction false} ScanGrows(p: Process, id: nat, t: Ref, planning: TaskContext)
    requires Next(p, BeginScan(id, t, planning)).Some?
    ensures Grew(p.heap, Next(p, BeginScan(id, t, planning)).value.heap)
  {
  }

  lemma {:induction false} FinishGrows(p: Process, id: nat, target: Ref)
    requires Next(p, FinishPushdown(id, target)).Some?
    ensures Grew(p.heap, Next(p, FinishPushdown(id, target)).value.heap)
  {
  }

  lemma {:induction false} OthersGrow(p: Process, op: Op)
    requires Next(p, op).Some? && !op.BeginPushdown? && !op.Register? && !op.BeginScan? && !op.FinishPushdown?
    ensures Grew(p.heap, Next(p, op).value.heap)
  {
  }

  lemma {:induction false} RegisterGrows(p: Process, session: Ref, foreign: bool, binding: Binding)
    requires RegisterTable(p, session, foreign, binding).Some?
    ensures Grew(p.heap, RegisterTable(p, session, foreign, binding).value.heap)
  {
  }

  lemma {:induction false} ImportedIsWired(p: Process, session: Ref, foreign: bool, binding: Binding, r: Ref)
    requires Wired(p) && RegisterTable(p, session, foreign, binding).Some?
    requires |p.heap| <= r < |RegisterTable(p, session, foreign, binding).value.heap|
    ensures var heap := RegisterTable(p, session, foreign, binding).value.heap; WiredObject(heap, heap[r])
  {
    var heap := RegisterTable(p, session, foreign, binding).value.heap;
    var n := |p.heap|;
    assert At(heap, session).Session?;
    assert heap[n..] == Imported(n, session, p.heap[session].registry, foreign, binding);
    assert heap[r] == heap[n..][r - n];
    assert binding.Hosted? ==> heap[n + 1] == heap[n..][1] && heap[n + 2] == heap[n..][2];
  }

  lemma {:induction false} CatalogStaysWired(p: Process, session: Ref, foreign: bool, binding: Binding)
    requires Wired(p) && RegisterTable(p, session, foreign, binding).Some?
    ensures var heap := RegisterTable(p, session, foreign, binding).value.heap;
            WiredObject(heap, heap[p.heap[session].catalog])
  {
    var heap := RegisterTable(p, session, foreign, binding).value.heap;
    assert heap[|heap| - 1].Table?;
    assert WiredObject(p.heap, p.heap[p.heap[session].catalog]);
  }

  /** The objects an operation allocates, and the catalog it writes, are wired. */
  lemma {:induction false} NewIsWired(p: Process, op: Op, r: Ref)
    requires Wired(p) && Next(p, op).Some? && r < |Next(p, op).value.heap|
    requires r < |p.heap| ==> p.heap[r].Catalog? && Next(p, op).value.heap[r] != p.heap[r]
    ensures WiredObject(Next(p, op).value.heap, Next(p, op).value.heap[r])
  {
    if op.Register? {
      if r < |p.heap| {
        CatalogStaysWired(p, op.session, op.foreign, op.binding);
      } else {
        ImportedIsWired(p, op.session, op.foreign, op.binding, r);
      }
    } else if op.BeginScan? {
      BoundIsWired(p, op.id, op.table, op.planning, r);
    } else if op.Deregister? {
      assert WiredObject(p.heap, p.heap[r]);
    } else if op.MakeFrame? {
      assert WiredObject(p.heap, p.heap[p.heap[op.session].catalog]);
    } else if !op.NewSession? {
      OthersAllocateNothing(p, op, r);
    }
  }

  lemma {:induction false} BoundIsWired(p: Process, id: nat, t: Ref, planning: TaskContext, r: Ref)
    requires Wired(p) && Next(p, BeginScan(id, t, planning)).Some?
    requires |p.heap| <= r < |Next(p, BeginScan(id, t, planning)).value.heap|
    ensures var heap := Next(p, BeginScan(id, t, planning)).value.heap; WiredObject(heap, heap[r])
  {
    var heap, n := Next(p, BeginScan(id, t, planning)).value.heap, |p.heap|;
    assert heap[n] == ScanContext(planning);
    if n + 1 < |heap| {
      assert heap[n + 1] == Codec(n) && heap[n + 2] == Provider(Some(n + 1));
    }
  }

  lemma {:induction false} OthersAllocateNothing(p: Process, op: Op, r: Ref)
    requires Next(p, op).Some? && !op.Register? && !op.BeginScan? && !op.Deregister? && !op.NewSession? && !op.MakeFrame?
    ensures |Next(p, op).value.heap| == |p.heap|
    ensures r < |p.heap| && p.heap[r].Catalog? ==> Next(p, op).value.heap[r] == p.heap[r]
  {
  }

  lemma {:induction false} StartedIsWired(p: Process, op: Op, id: nat)
    requires Wired(p) && Next(p, op).Some? && id in Next(p, op).value.calls
    requires id in p.calls ==> Next(p, op).value.calls[id] != p.calls[id]
    ensures WiredCall(Next(p, op).value.heap, Next(p, op).value.calls[id])
  {
    if op.BeginPushdown? {
      if id != op.id {
        OthersKeepTheirCalls(p, op, id);
      }
      CheckIsWired(p, op.id, op.table);
    } else if op.BeginScan? {
      if id != op.id {
        OthersKeepTheirCalls(p, op, id);
      }
      ScanIsWired(p, op.id, op.table, op.planning);
    } else if op.ReadRegistry? {
      if id != op.id {
        OthersKeepTheirCalls(p, op, id);
      }
      ReadIsWired(p, op.id);
    } else {
      OthersStartNothing(p, op);
    }
  }

  /** A call operation touches no call but its own. */
  lemma {:induction false} OthersKeepTheirCalls(p: Process, op: Op, other: nat)
    requires Next(p, op).Some? && (op.BeginPushdown? || op.BeginScan? || op.ReadRegistry?) && other != op.id
    requires other in Next(p, op).value.calls
    ensures other in p.calls && Next(p, op).value.calls[other] == p.calls[other]
  {
  }

  lemma {:induction false} ReadIsWired(p: Process, id: nat)
    requires Wired(p) && Next(p, ReadRegistry(id)).Some?
    ensures id in Next(p, ReadRegistry(id)).value.calls
    ensures WiredCall(Next(p, ReadRegistry(id)).value.heap, Next(p, ReadRegistry(id)).value.calls[id])
  {
    assert WiredCall(p.heap, p.calls[id]);
  }

  lemma {:induction false} OthersStartNothing(p: Process, op: Op)
    requires Next(p, op).Some? && !op.BeginPushdown? && !op.BeginScan? && !op.ReadRegistry?
    ensures var q := Next(p, op).value; forall id :: id in q.calls ==> id in p.calls && q.calls[id] == p.calls[id]
  {
  }

  lemma {:induction false} CheckIsWired(p: Process, id: nat, t: Ref)
    requires Wired(p) && Next(p, BeginPushdown(id, t)).Some? && id in Next(p, BeginPushdown(id, t)).value.calls
    ensures WiredCall(Next(p, BeginPushdown(id, t)).value.heap, Next(p, BeginPushdown(id, t)).value.calls[id])
  {
    assert WiredObject(p.heap, p.heap[t]);
    var codec := p.heap[p.heap[t].inner].codec;
    if codec.Some? {
      var target := p.heap[codec.value].taskCtx;
      assert WiredObject(p.heap, p.heap[target]);
    }
  }

  lemma {:induction false} ScanIsWired(p: Process, id: nat, t: Ref, planning: TaskContext)
    requires Wired(p) && Next(p, BeginScan(id, t, planning)).Some?
    ensures id in Next(p, BeginScan(id, t, planning)).value.calls
    ensures WiredCall(Next(p, BeginScan(id, t, planning)).value.heap, Next(p, BeginScan(id, t, planning)).value.calls[id])
  {
    TableWiring(p, t);
    ScanStarts(p, id, t, planning);
  }

  lemma {:induction false} ScanStarts(p: Process, id: nat, t: Ref, planning: TaskContext)
    requires Next(p, BeginScan(id, t, planning)).Some?
    requires At(p.heap, t).Table? && At(p.heap, At(p.heap, t).inner).Provider?
    ensures id in Next(p, BeginScan(id, t, planning)).value.calls
    ensures WiredCall(Next(p, BeginScan(id, t, planning)).value.heap, Next(p, BeginScan(id, t, planning)).value.calls[id])
  {
    if p.heap[t].hostContext.Some? {
      BoundForIsWired(p, id, t, p.heap[t].inner, planning);
    } else {
      assert Next(p, BeginScan(id, t, planning)).value == p.(calls := p.calls[id := Scan(t, p.heap[t].inner, None)]);
    }
  }

  lemma {:induction false} BoundForIsWired(p: Process, id: nat, t: Ref, inner: Ref, planning: TaskContext)
    requires At(p.heap, t).Table? && At(p.heap, inner).Provider?
    ensures var q := BoundFor(p, id, t, inner, planning); id in q.calls && WiredCall(q.heap, q.calls[id])
  {
    var heap, n := BoundFor(p, id, t, inner, planning).heap, |p.heap|;
    assert heap[n] == ScanContext(planning);
    if n + 1 < |heap| {
      assert heap[n + 1] == Codec(n) && heap[n + 2] == Provider(Some(n + 1));
    }
  }

  lemma {:induction false} HandlesAreWired(p: Process, op: Op)
    requires Wired(p) && Next(p, op).Some?
    ensures forall r :: r in Next(p, op).value.handles ==>
              At(Next(p, op).value.heap, r).Session? || At(Next(p, op).value.heap, r).DataFrame?
  {
    NextGrows(p, op);
    HandlesAreKept(p, op);
  }

  lemma {:induction false} HandlesAreKept(p: Process, op: Op)
    requires Next(p, op).Some?
    ensures var q := Next(p, op).value;
            forall r :: r in q.handles ==> r in p.handles || At(q.heap, r).Session? || At(q.heap, r).DataFrame?
  {
    if op.BeginPushdown? {
      assert Next(p, op).value.handles == p.handles;
    }
  }

  lemma {:induction false} WiredStep(p: Process, op: Op)
    requires Wired(p) && Next(p, op).Some?
    ensures Wired(Next(p, op).value)
  {
    var q := Next(p, op).value;
    NextGrows(p, op);
    HandlesAreWired(p, op);
    forall r | 0 <= r < |q.heap|
      ensures WiredObject(q.heap, q.heap[r])
    {
      if r < |p.heap| && (!p.heap[r].Catalog? || q.heap[r] == p.heap[r]) {
        WiredGrows(p.heap, q.heap, p.heap[r], q.heap[r]);
      } else {
        NewIsWired(p, op, r);
      }
    }
    forall id | id in q.calls
      ensures WiredCall(q.heap, q.calls[id])
    {
      if id in p.calls && q.calls[id] == p.calls[id] {
        CallGrows(p.heap, q.heap, p.calls[id]);
      } else {
        StartedIsWired(p, op, id);
      }
    }
  }

  lemma {:induction false} RunWired(p: Process, ops: seq<Op>)
    requires Wired(p) && Run(p, ops).Some?
    ensures Wired(Run(p, ops).value) && Grew(p.heap, Run(p, ops).value.heap)
    decreases |ops|
  {
    if ops != [] {
      var before := ops[..|ops| - 1];
      RunWired(p, before);
      WiredStep(Run(p, before).value, ops[|ops| - 1]);
      NextGrows(Run(p, before).value, ops[|ops| - 1]);
    }
  }

  lemma {:induction false} ReachableIsWired(p: Process)
    requires Reachable(p)
    ensures Wired(p)
  {
    var ops :| Run(BOOT, ops) == Some(p);
    RunWired(BOOT, ops);
  }

  lemma {:induction false} RunOne(p: Process, ops: seq<Op>, op: Op)
    requires Run(p, ops).Some?
    ensures Run(p, ops + [op]) == Next(Run(p, ops).value, op)
  {
    assert (ops + [op])[..|ops|] == ops;
  }

  lemma {:induction false} ReachableStep(p: Process, op: Op) returns (q: Process)
    requires Reachable(p) && Next(p, op).Some?
    ensures q == Next(p, op).value && Reachable(q)
  {
    q := Next(p, op).value;
    var ops :| Run(BOOT, ops) == Some(p);
    RunOne(BOOT, ops, op);
    assert Run(BOOT, ops + [op]) == Some(q);
  }

  // ----- no cycles

  function Rank(o: Object): nat {
    match o
    case Session(_, _) => 5
    case DataFrame(_, _) => 5
    case Catalog(_) => 4
    case Table(_, _) => 3
    case Provider(_) => 2
    case Codec(_) => 1
    case HostContext(_, _, _, _) => 1
    case ScanContext(_) => 1
    case Unallocated => 0
  }

  /**
   * In every reachable process strong references only lead down: a chain of them never comes back, so
   * reference counting frees everything, and none leads from a table, its provider, its codec or its task
   * context provider to a session.
   */
  lemma {:induction false} NoStrongCycle(p: Process, path: seq<Ref>)
    requires Reachable(p) && |path| > 1 && StrongPath(p.heap, path)
    ensures Rank(At(p.heap, path[|path| - 1])) < Rank(At(p.heap, path[0]))
    ensures path[0] != path[|path| - 1]
    ensures At(p.heap, path[0]).Table? ==> !At(p.heap, path[|path| - 1]).Session?
  {
    ReachableIsWired(p);
    RanksFall(p, path);
  }

  lemma {:induction false} RanksFall(p: Process, path: seq<Ref>)
    requires Wired(p) && |path| > 1 && StrongPath(p.heap, path)
    ensures Rank(At(p.heap, path[|path| - 1])) < Rank(At(p.heap, path[0]))
    decreases |path|
  {
    var last := |path| - 1;
    assert path[last - 1 + 1] in Strong(At(p.heap, path[last - 1]));
    OwnerRanksHigher(p, path[last - 1], path[last]);
    if |path| > 2 {
      assert StrongPath(p.heap, path[..last]);
      RanksFall(p, path[..last]);
    }
  }

  lemma {:induction false} OwnerRanksHigher(p: Process, a: Ref, b: Ref)
    requires Wired(p) && b in Strong(At(p.heap, a))
    ensures Rank(At(p.heap, b)) < Rank(At(p.heap, a))
  {
    assert WiredObject(p.heap, p.heap[a]);
  }

  // ----- lifetimes

  /** Python holds the session, or a pushdown check that has upgraded it is running. */
  ghost predicate SessionHeld(p: Process, s: Ref) {
    s in p.handles || exists id :: id in p.calls && p.calls[id].Check? && p.calls[id].session == s
  }

  /** Strong references of others never extend the life of a session: neither tables nor DataFrames do. */
  lemma {:induction false} SessionLifetime(p: Process, s: Ref)
    requires Reachable(p) && At(p.heap, s).Session?
    ensures Alive(p, s) <==> SessionHeld(p, s)
  {
    ReachableIsWired(p);
    if SessionHeld(p, s) {
      assert Root(p, s);
      assert StrongPath(p.heap, [s]);
    }
    if Alive(p, s) {
      TopIsRoot(p, s);
      RootSession(p, s);
    }
  }

  lemma {:induction false} RootSession(p: Process, s: Ref)
    requires Wired(p) && At(p.heap, s).Session? && Root(p, s)
    ensures SessionHeld(p, s)
  {
    if s !in p.handles {
      var id :| id in p.calls && s in Locals(p.calls[id]);
      assert WiredCall(p.heap, p.calls[id]);
    }
  }

  lemma {:induction false} RootIsAlive(p: Process, r: Ref)
    requires Root(p, r)
    ensures Alive(p, r)
  {
    assert StrongPath(p.heap, [r]);
  }

  lemma {:induction false} OwnedIsAlive(p: Process, a: Ref, b: Ref)
    requires Alive(p, a) && b in Strong(At(p.heap, a))
    ensures Alive(p, b)
  {
    var path :| |path| > 0 && Root(p, path[0]) && path[|path| - 1] == a && StrongPath(p.heap, path);
    assert StrongPath(p.heap, path + [b]);
  }

  lemma {:induction false} OwnerOf(p: Process, path: seq<Ref>) returns (owner: Ref)
    requires |path| > 1 && Root(p, path[0]) && StrongPath(p.heap, path)
    ensures owner == path[|path| - 2] && path[|path| - 1] in Strong(At(p.heap, owner)) && Alive(p, owner)
  {
    owner := path[|path| - 2];
    assert path[|path| - 2 + 1] in Strong(At(p.heap, owner));
    assert StrongPath(p.heap, path[..|path| - 1]);
  }

  /** A root leads to the catalog: a session or DataFrame that Python or a check holds. */
  ghost predicate CatalogHeld(p: Process, c: Ref) {
    exists r :: Root(p, r) && (At(p.heap, r).Session? || At(p.heap, r).DataFrame?) && At(p.heap, r).catalog == c
  }

  ghost predicate TableHeld(p: Process, t: Ref) {
    || Root(p, t)
    || (exists r :: Root(p, r) && At(p.heap, r).DataFrame? && At(p.heap, r).table == t)
    || (exists c :: CatalogHeld(p, c) && At(p.heap, c).Catalog? && t in At(p.heap, c).tables)
  }

  lemma {:induction false} TopHasNoOwner(p: Process, a: Ref, r: Ref)
    requires Wired(p) && (At(p.heap, r).Session? || At(p.heap, r).DataFrame?)
    ensures r !in Strong(At(p.heap, a))
  {
    assert a < |p.heap| ==> WiredObject(p.heap, p.heap[a]);
  }

  lemma {:induction false} TopIsRoot(p: Process, r: Ref)
    requires Wired(p) && Alive(p, r) && (At(p.heap, r).Session? || At(p.heap, r).DataFrame?)
    ensures Root(p, r)
  {
    var path :| |path| > 0 && Root(p, path[0]) && path[|path| - 1] == r && StrongPath(p.heap, path);
    if |path| > 1 {
      var owner := OwnerOf(p, path);
      TopHasNoOwner(p, owner, r);
    }
  }

  lemma {:induction false} CatalogIsHeld(p: Process, c: Ref)
    requires Wired(p) && Alive(p, c) && At(p.heap, c).Catalog?
    ensures CatalogHeld(p, c)
  {
    var path :| |path| > 0 && Root(p, path[0]) && path[|path| - 1] == c && StrongPath(p.heap, path);
    if |path| > 1 {
      var owner := OwnerOf(p, path);
      CatalogOwner(p, owner, c);
      TopIsRoot(p, owner);
    } else {
      RootKind(p, c);
    }
  }

  lemma {:induction false} CatalogOwner(p: Process, owner: Ref, c: Ref)
    requires Wired(p) && At(p.heap, c).Catalog? && c in Strong(At(p.heap, owner))
    ensures (At(p.heap, owner).Session? || At(p.heap, owner).DataFrame?) && At(p.heap, owner).catalog == c
  {
    assert WiredObject(p.heap, At(p.heap, owner));
  }

  lemma {:induction false} RootKind(p: Process, r: Ref)
    requires Wired(p) && Root(p, r)
    ensures !At(p.heap, r).Catalog?
  {
    if r !in p.handles {
      var id :| id in p.calls && r in Locals(p.calls[id]);
      LocalKind(p.heap, p.calls[id], r);
    }
  }

  lemma {:induction false} LocalKind(heap: seq<Object>, c: Call, r: Ref)
    requires WiredCall(heap, c) && r in Locals(c)
    ensures !At(heap, r).Catalog?
  {
  }

  /**
   * A table lives exactly as long as a call runs on it, a DataFrame reads it, or a catalog that lists it is
   * held by a session or by a DataFrame, whether or not the session that registered it is still there.
   */
  lemma {:induction false} TableLifetime(p: Process, t: Ref)
    requires Reachable(p) && At(p.heap, t).Table?
    ensures Alive(p, t) <==> TableHeld(p, t)
  {
    ReachableIsWired(p);
    if TableHeld(p, t) {
      HeldIsAlive(p, t);
    }
    if Alive(p, t) {
      var path :| |path| > 0 && Root(p, path[0]) && path[|path| - 1] == t && StrongPath(p.heap, path);
      if |path| > 1 {
        var owner := OwnerOf(p, path);
        assert WiredObject(p.heap, At(p.heap, owner));
        if At(p.heap, owner).Catalog? {
          CatalogIsHeld(p, owner);
        } else {
          TopIsRoot(p, owner);
        }
      }
    }
  }

  lemma {:induction false} HeldIsAlive(p: Process, t: Ref)
    requires TableHeld(p, t)
    ensures Alive(p, t)
  {
    if Root(p, t) {
      RootIsAlive(p, t);
    } else if r :| Root(p, r) && At(p.heap, r).DataFrame? && At(p.heap, r).table == t {
      RootIsAlive(p, r);
      OwnedIsAlive(p, r, t);
    } else {
      var c :| CatalogHeld(p, c) && At(p.heap, c).Catalog? && t in At(p.heap, c).tables;
      var r :| Root(p, r) && (At(p.heap, r).Session? || At(p.heap, r).DataFrame?) && At(p.heap, r).catalog == c;
      RootIsAlive(p, r);
      OwnedIsAlive(p, r, c);
      OwnedIsAlive(p, c, t);
    }
  }

  // ----- codecs

  /** Is this codec bound straight to a session? */
  predicate BoundToSession(p: Process, codec: Ref) {
    At(p.heap, codec).Codec? && At(p.heap, At(p.heap, codec).taskCtx).Session?
  }

  /** The codec the foreign side uses when a call of this kind is made on a table. */
  function CodecOf(p: Process, t: Ref): Option<Ref> {
    match At(p.heap, t)
    case Table(inner, _) => (match At(p.heap, inner)
                             case Provider(codec) => codec
                             case _ => None)
    case _ => None
  }

  /** What a table's references lead to. */
  lemma {:induction false} TableWiring(p: Process, t: Ref)
    requires Wired(p) && At(p.heap, t).Table?
    ensures At(p.heap, At(p.heap, t).inner).Provider?
    ensures At(p.heap, t).hostContext.Some? ==> At(p.heap, At(p.heap, t).hostContext.value).HostContext?
    ensures CodecOf(p, t).Some? ==>
              && At(p.heap, CodecOf(p, t).value).Codec?
              && (if At(p.heap, t).hostContext.Some? then At(p.heap, CodecOf(p, t).value).taskCtx == At(p.heap, t).hostContext.value
                  else BoundToSession(p, CodecOf(p, t).value))
  {
    assert WiredObject(p.heap, p.heap[t]);
  }

  /** A hosted table's own codec, and the codec of a running scan, point to something that is alive. */
  lemma {:induction false} HostedTargetsLive(p: Process)
    requires Wired(p)
    ensures forall t :: At(p.heap, t).Table? && At(p.heap, t).hostContext.Some? && Alive(p, t) ==>
              Alive(p, At(p.heap, t).hostContext.value)
    ensures forall id :: id in p.calls && p.calls[id].Scan? && p.calls[id].context.Some? ==>
              Alive(p, p.calls[id].context.value)
  {
    forall t | At(p.heap, t).Table? && At(p.heap, t).hostContext.Some? && Alive(p, t)
      ensures Alive(p, At(p.heap, t).hostContext.value)
    {
      OwnedIsAlive(p, t, At(p.heap, t).hostContext.value);
    }
    forall id | id in p.calls && p.calls[id].Scan? && p.calls[id].context.Some?
      ensures Alive(p, p.calls[id].context.value)
    {
      assert p.calls[id].context.value in Locals(p.calls[id]);
      RootIsAlive(p, p.calls[id].context.value);
    }
  }

  /** Only a codec bound straight to a session was ever out of scope. */
  ghost predicate HostedUpgraded(p: Process) {
    forall i :: 0 <= i < |p.uses| && p.uses[i].outcome.OutOfScope? ==> BoundToSession(p, p.uses[i].codec)
  }

  lemma {:induction false} NewUse(p: Process, op: Op)
    requires Wired(p) && Next(p, op).Some?
    ensures p.uses <= Next(p, op).value.uses
    ensures |Next(p, op).value.uses| <= |p.uses| + 1
    ensures |Next(p, op).value.uses| == |p.uses| + 1 ==>
              var use := Next(p, op).value.uses[|p.uses|];
              && At(p.heap, use.codec).Codec?
              && (use.outcome.Upgraded? <==> Alive(p, At(p.heap, use.codec).taskCtx))
              && (use.outcome.OutOfScope? ==> BoundToSession(p, use.codec))
  {
    if op.BeginPushdown? {
      UseInCheck(p, op.id, op.table);
    } else if op.UseInScan? {
      assert WiredCall(p.heap, p.calls[op.id]);
      HostedTargetsLive(p);
      assert WiredObject(p.heap, At(p.heap, p.calls[op.id].table));
    }
  }

  lemma {:induction false} UseInCheck(p: Process, id: nat, t: Ref)
    requires Wired(p) && Next(p, BeginPushdown(id, t)).Some?
    ensures Next(p, BeginPushdown(id, t)).value.uses
         == p.uses + match CodecOf(p, t)
                     case None => []
                     case Some(codec) =>
                       [Use(codec, if Alive(p, At(p.heap, codec).taskCtx) then Upgraded else OutOfScope)]
    ensures CodecOf(p, t).Some? ==>
              var codec := CodecOf(p, t).value;
              At(p.heap, codec).Codec? && (BoundToSession(p, codec) || Alive(p, At(p.heap, codec).taskCtx))
  {
    TableWiring(p, t);
    CheckUses(p, id, t);
    if CodecOf(p, t).Some? && At(p.heap, t).hostContext.Some? {
      OwnedIsAlive(p, t, At(p.heap, t).hostContext.value);
    }
  }

  lemma {:induction false} CheckUses(p: Process, id: nat, t: Ref)
    requires Next(p, BeginPushdown(id, t)).Some?
    ensures Alive(p, t) && At(p.heap, t).Table?
    ensures Next(p, BeginPushdown(id, t)).value.uses
         == p.uses + match CodecOf(p, t)
                     case None => []
                     case Some(codec) =>
                       [Use(codec, if At(p.heap, codec).Codec? && Alive(p, At(p.heap, codec).taskCtx) then Upgraded else OutOfScope)]
  {
  }

  lemma {:induction false} HostedUpgradedStep(p: Process, op: Op)
    requires Wired(p) && HostedUpgraded(p) && Next(p, op).Some?
    ensures HostedUpgraded(Next(p, op).value)
  {
    NewUse(p, op);
    NextGrows(p, op);
    var q := Next(p, op).value;
    UsesExtend(p, q);
  }

  lemma {:induction false} UsesExtend(p: Process, q: Process)
    requires HostedUpgraded(p) && Grew(p.heap, q.heap) && p.uses <= q.uses && |q.uses| <= |p.uses| + 1
    requires |q.uses| == |p.uses| + 1 && q.uses[|p.uses|].outcome.OutOfScope? ==> BoundToSession(p, q.uses[|p.uses|].codec)
    ensures HostedUpgraded(q)
  {
    forall i | 0 <= i < |q.uses| && q.uses[i].outcome.OutOfScope?
      ensures BoundToSession(q, q.uses[i].codec)
    {
      if i < |p.uses| {
        assert q.uses[i] == p.uses[i];
      }
      StaysBound(p, q, q.uses[i].codec);
    }
  }

  lemma {:induction false} StaysBound(p: Process, q: Process, codec: Ref)
    requires BoundToSession(p, codec) && Grew(p.heap, q.heap)
    ensures BoundToSession(q, codec)
  {
  }

  lemma {:induction false} RunUpgrades(ops: seq<Op>)
    requires Run(BOOT, ops).Some?
    ensures HostedUpgraded(Run(BOOT, ops).value)
    decreases |ops|
  {
    if ops != [] {
      var before := ops[..|ops| - 1];
      RunUpgrades(before);
      RunWired(BOOT, before);
      HostedUpgradedStep(Run(BOOT, before).value, ops[|ops| - 1]);
    }
  }

  lemma {:induction false} HostedIsNotBoundToSession(p: Process, t: Ref)
    requires Wired(p) && At(p.heap, t).Table? && CodecOf(p, t).Some?
    ensures BoundToSession(p, CodecOf(p, t).value) <==> At(p.heap, t).hostContext.None?
  {
    assert WiredObject(p.heap, At(p.heap, t));
  }

  /**
   * In every run, with any number of sessions, tables, DataFrames and calls in flight: no use of the codec of
   * a hosted table, nor of the codec bound for a scan or insert that is running, ever found its task context
   * provider out of scope; only a codec bound straight to a session can.
   */
  lemma {:induction false} HostedCodecsUpgrade(p: Process, i: nat)
    requires Reachable(p) && i < |p.uses| && p.uses[i].outcome.OutOfScope?
    ensures BoundToSession(p, p.uses[i].codec)
    ensures forall t :: At(p.heap, t).Table? && CodecOf(p, t) == Some(p.uses[i].codec) ==> At(p.heap, t).hostContext.None?
    ensures forall id :: id in p.calls && p.calls[id].Scan? && At(p.heap, p.calls[id].provider) == Provider(Some(p.uses[i].codec)) ==>
              p.calls[id].context.None?
  {
    var ops :| Run(BOOT, ops) == Some(p);
    RunUpgrades(ops);
    ReachableIsWired(p);
    forall t | At(p.heap, t).Table? && CodecOf(p, t) == Some(p.uses[i].codec)
      ensures At(p.heap, t).hostContext.None?
    {
      HostedIsNotBoundToSession(p, t);
    }
    forall id | id in p.calls && p.calls[id].Scan? && At(p.heap, p.calls[id].provider) == Provider(Some(p.uses[i].codec))
      ensures p.calls[id].context.None?
    {
      assert WiredCall(p.heap, p.calls[id]);
    }
  }

  /**
   * Why the table hosts its own: whichever call uses it, a codec bound straight to a session is out of scope
   * if and only if neither Python nor a running check holds that session.
   */
  lemma {:induction false} DirectCodecNeedsTheSession(p: Process, op: Op)
    requires Reachable(p) && Next(p, op).Some? && |Next(p, op).value.uses| > |p.uses|
    requires BoundToSession(p, Next(p, op).value.uses[|p.uses|].codec)
    ensures var use := Next(p, op).value.uses[|p.uses|];
            use.outcome.OutOfScope? <==> !SessionHeld(p, At(p.heap, use.codec).taskCtx)
  {
    ReachableIsWired(p);
    NewUse(p, op);
    SessionLifetime(p, At(p.heap, Next(p, op).value.uses[|p.uses|].codec).taskCtx);
  }

  /**
   * A pushdown check on a foreign table bound that way can be made whenever the table is alive, and fails with the
   * session gone, however alive the table is.
   */
  lemma {:induction false} DirectCheckFails(p: Process, id: nat, t: Ref)
    requires Reachable(p) && At(p.heap, t).Table? && At(p.heap, t).hostContext.None? && CodecOf(p, t).Some?
    requires TableHeld(p, t) && id !in p.calls
    ensures Next(p, BeginPushdown(id, t)).Some?
    ensures var codec := CodecOf(p, t).value;
            && At(p.heap, codec).Codec?
            && Next(p, BeginPushdown(id, t)).value.uses
               == p.uses + [Use(codec, if SessionHeld(p, At(p.heap, codec).taskCtx) then Upgraded else OutOfScope)]
  {
    ReachableIsWired(p);
    assert WiredObject(p.heap, At(p.heap, t));
    TableLifetime(p, t);
    CheckIsEnabled(p, id, t);
    UseInCheck(p, id, t);
    SessionLifetime(p, At(p.heap, CodecOf(p, t).value).taskCtx);
  }

  /** A hosted table can be checked whenever it is alive, and the check upgrades its codec, if it uses one. */
  lemma {:induction false} HostedCheckAlwaysWorks(p: Process, id: nat, t: Ref)
    requires Reachable(p) && At(p.heap, t).Table? && At(p.heap, t).hostContext.Some? && TableHeld(p, t) && id !in p.calls
    ensures Next(p, BeginPushdown(id, t)).Some?
    ensures Next(p, BeginPushdown(id, t)).value.uses
         == p.uses + (if CodecOf(p, t).Some? then [Use(CodecOf(p, t).value, Upgraded)] else [])
  {
    ReachableIsWired(p);
    assert WiredObject(p.heap, At(p.heap, t));
    TableLifetime(p, t);
    CheckIsEnabled(p, id, t);
    UseInCheck(p, id, t);
  }

  lemma {:induction false} CheckIsEnabled(p: Process, id: nat, t: Ref)
    requires Wired(p) && At(p.heap, t).Table? && Alive(p, t) && id !in p.calls
    ensures Next(p, BeginPushdown(id, t)).Some?
  {
    TableWiring(p, t);
    WiringEnables(p, id, t);
  }

  lemma {:induction false} WiringEnables(p: Process, id: nat, t: Ref)
    requires At(p.heap, t).Table? && Alive(p, t) && id !in p.calls && At(p.heap, At(p.heap, t).inner).Provider?
    requires CodecOf(p, t).Some? ==>
               && At(p.heap, CodecOf(p, t).value).Codec?
               && var target := At(p.heap, At(p.heap, CodecOf(p, t).value).taskCtx); target.HostContext? || target.Session?
    ensures Next(p, BeginPushdown(id, t)).Some?
  {
    if CodecOf(p, t).Some? {
      var target := At(p.heap, CodecOf(p, t).value).taskCtx;
      assert TaskCtx(Upgrade(p, CodecOf(p, t).value, target), id, t, target).Some?;
    }
  }

  // ----- scans

  /** A scan or insert keeps what was bound for it until it ends, whatever else happens. */
  lemma {:induction false} ScanKeepsItsContext(p: Process, ops: seq<Op>, id: nat)
    requires Reachable(p) && Run(p, ops).Some?
    requires id in p.calls && p.calls[id].Scan? && p.calls[id].context.Some?
    requires forall i :: 0 <= i < |ops| ==> ops[i] != EndScan(id)
    ensures var q := Run(p, ops).value;
            var context := p.calls[id].context.value;
            && id in q.calls && q.calls[id] == p.calls[id]
            && Alive(q, context) && At(q.heap, context) == At(p.heap, context)
    decreases |ops|
  {
    ReachableIsWired(p);
    RunWired(p, ops);
    ScanGoesOn(p, ops, id);
    var q := Run(p, ops).value;
    assert WiredCall(p.heap, p.calls[id]);
    HostedTargetsLive(q);
  }

  lemma {:induction false} ScanGoesOn(p: Process, ops: seq<Op>, id: nat)
    requires Run(p, ops).Some? && id in p.calls && p.calls[id].Scan?
    requires forall i :: 0 <= i < |ops| ==> ops[i] != EndScan(id)
    ensures id in Run(p, ops).value.calls && Run(p, ops).value.calls[id] == p.calls[id]
    decreases |ops|
  {
    if ops != [] {
      ScanGoesOn(p, ops[..|ops| - 1], id);
      assert ops[|ops| - 1] != EndScan(id);
    }
  }

  /**
   * From its start to its end, through any run, a scan or insert on a hosted table serves the task context of
   * the session that planned it: the object it keeps holds exactly that context, and the codec a foreign
   * provider uses points to that object and upgrades. A local provider is used as it is.
   */
  lemma {:induction false} ScanServesItsPlanner(p: Process, id: nat, t: Ref, planning: TaskContext, ops: seq<Op>)
    requires Reachable(p) && At(p.heap, t).Table? && At(p.heap, t).hostContext.Some?
    requires Next(p, BeginScan(id, t, planning)).Some? && Run(Next(p, BeginScan(id, t, planning)).value, ops).Some?
    requires forall i :: 0 <= i < |ops| ==> ops[i] != EndScan(id)
    ensures var q := Run(Next(p, BeginScan(id, t, planning)).value, ops).value;
            && id in q.calls && BoundTo(q.heap, q.calls[id], planning)
            && (CodecOf(p, t).None? <==> At(q.heap, q.calls[id].provider) == Provider(None))
            && (CodecOf(p, t).None? ==> q.calls[id].provider == At(p.heap, t).inner)
            && (CodecOf(p, t).Some? ==>
                  Next(q, UseInScan(id)) == Some(q.(uses := q.uses + [Use(At(q.heap, q.calls[id].provider).codec.value, Upgraded)])))
  {
    var begun := ReachableStep(p, BeginScan(id, t, planning));
    InnerIsProvider(p, t);
    BeginsBound(p, id, t, planning);
    ScanKeepsItsContext(begun, ops, id);
    ReachableIsWired(begun);
    RunWired(begun, ops);
    var q := Run(begun, ops).value;
    StaysBoundTo(begun.heap, q.heap, begun.calls[id], planning);
    if CodecOf(p, t).Some? {
      UsesItsContext(q, id, At(q.heap, q.calls[id].provider).codec.value, q.calls[id].context.value);
    }
  }

  /** The scan keeps an object that holds exactly this context, and a codec of its provider points to that object. */
  ghost predicate BoundTo(heap: seq<Object>, c: Call, planning: TaskContext) {
    && c.Scan? && c.context.Some?
    && At(heap, c.context.value) == ScanContext(planning)
    && At(heap, c.provider).Provider?
    && (At(heap, c.provider).codec.Some? ==> At(heap, At(heap, c.provider).codec.value) == Codec(c.context.value))
  }

  lemma {:induction false} StaysBoundTo(heap: seq<Object>, heap': seq<Object>, c: Call, planning: TaskContext)
    requires BoundTo(heap, c, planning) && Grew(heap, heap')
    ensures BoundTo(heap', c, planning) && At(heap', c.provider) == At(heap, c.provider)
  {
  }

  lemma {:induction false} InnerIsProvider(p: Process, t: Ref)
    requires Reachable(p) && At(p.heap, t).Table?
    ensures At(p.heap, At(p.heap, t).inner).Provider?
  {
    ReachableIsWired(p);
    TableWiring(p, t);
  }

  lemma {:induction false} BeginsBound(p: Process, id: nat, t: Ref, planning: TaskContext)
    requires At(p.heap, t).Table? && At(p.heap, t).hostContext.Some? && At(p.heap, At(p.heap, t).inner).Provider?
    requires Next(p, BeginScan(id, t, planning)).Some?
    ensures var q := Next(p, BeginScan(id, t, planning)).value;
            && id in q.calls && BoundTo(q.heap, q.calls[id], planning)
            && (CodecOf(p, t).None? <==> At(q.heap, q.calls[id].provider) == Provider(None))
            && (CodecOf(p, t).None? ==> q.calls[id].provider == At(p.heap, t).inner)
  {
    assert Next(p, BeginScan(id, t, planning)) == Some(BoundFor(p, id, t, p.heap[t].inner, planning));
    BindsPlanner(p, id, t, p.heap[t].inner, planning);
  }

  lemma {:induction false} BindsPlanner(p: Process, id: nat, t: Ref, inner: Ref, planning: TaskContext)
    requires At(p.heap, inner).Provider?
    ensures var q := BoundFor(p, id, t, inner, planning);
            && id in q.calls && BoundTo(q.heap, q.calls[id], planning)
            && (At(p.heap, inner).codec.None? <==> At(q.heap, q.calls[id].provider) == Provider(None))
            && (At(p.heap, inner).codec.None? ==> q.calls[id].provider == inner)
  {
    var heap, n := BoundFor(p, id, t, inner, planning).heap, |p.heap|;
    assert heap[n] == ScanContext(planning);
    if n + 1 < |heap| {
      assert heap[n + 1] == Codec(n) && heap[n + 2] == Provider(Some(n + 1));
    }
  }

  lemma {:induction false} UsesItsContext(q: Process, id: nat, codec: Ref, context: Ref)
    requires id in q.calls && q.calls[id].Scan? && At(q.heap, q.calls[id].provider) == Provider(Some(codec))
    requires At(q.heap, codec) == Codec(context) && Alive(q, context)
    ensures Next(q, UseInScan(id)) == Some(q.(uses := q.uses + [Use(codec, Upgraded)]))
  {
  }

  // ----- what a scan allocates goes with it

  predicate SharesContext(c: Call, d: Call) {
    c.Scan? && d.Scan? && c.context.Some? && c.context == d.context
  }

  /** No two calls keep the same task context. */
  ghost predicate OwnContexts(p: Process) {
    forall i, j :: i in p.calls && j in p.calls && SharesContext(p.calls[i], p.calls[j]) ==> i == j
  }

  lemma {:induction false} OwnContextsStep(p: Process, op: Op)
    requires Wired(p) && OwnContexts(p) && Next(p, op).Some?
    ensures OwnContexts(Next(p, op).value)
  {
    var q := Next(p, op).value;
    forall id | id in q.calls && q.calls[id].Scan? && q.calls[id].context.Some?
      ensures if op.BeginScan? && id == op.id then q.calls[id].context.value == |p.heap|
              else id in p.calls && q.calls[id] == p.calls[id] && q.calls[id].context.value < |p.heap|
    {
      ScanSince(p, op, id);
      if id in p.calls {
        assert WiredCall(p.heap, p.calls[id]);
      }
    }
  }

  lemma {:induction false} ScanSince(p: Process, op: Op, id: nat)
    requires Next(p, op).Some? && id in Next(p, op).value.calls && Next(p, op).value.calls[id].Scan?
    requires Next(p, op).value.calls[id].context.Some?
    ensures if op.BeginScan? && id == op.id then Next(p, op).value.calls[id].context.value == |p.heap| && id !in p.calls
            else id in p.calls && Next(p, op).value.calls[id] == p.calls[id]
  {
    if op.BeginPushdown? {
      StartsACheck(p, op.id, op.table, id);
    }
  }

  lemma {:induction false} StartsACheck(p: Process, id: nat, t: Ref, other: nat)
    requires Next(p, BeginPushdown(id, t)).Some? && other in Next(p, BeginPushdown(id, t)).value.calls
    requires Next(p, BeginPushdown(id, t)).value.calls[other].Scan?
    ensures other in p.calls && Next(p, BeginPushdown(id, t)).value.calls[other] == p.calls[other]
  {
  }

  lemma {:induction false} RunOwnContexts(ops: seq<Op>)
    requires Run(BOOT, ops).Some?
    ensures OwnContexts(Run(BOOT, ops).value)
    decreases |ops|
  {
    if ops != [] {
      var before := ops[..|ops| - 1];
      RunOwnContexts(before);
      RunWired(BOOT, before);
      OwnContextsStep(Run(BOOT, before).value, ops[|ops| - 1]);
    }
  }

  /** When a scan or insert ends, the task context it kept is gone with it: nothing else holds it. */
  lemma {:induction false} ScanContextDiesWithScan(p: Process, id: nat)
    requires Reachable(p) && Next(p, EndScan(id)).Some? && p.calls[id].context.Some?
    ensures Alive(p, p.calls[id].context.value) && !Alive(Next(p, EndScan(id)).value, p.calls[id].context.value)
  {
    var ops :| Run(BOOT, ops) == Some(p);
    RunOwnContexts(ops);
    ReachableIsWired(p);
    KeptIsAlive(p, id);
    WiredStep(p, EndScan(id));
    EndsAlone(p, id);
    NobodyKeeps(Next(p, EndScan(id)).value, p.calls[id].context.value);
  }

  lemma {:induction false} KeptIsAlive(p: Process, id: nat)
    requires Wired(p) && id in p.calls && p.calls[id].Scan? && p.calls[id].context.Some?
    ensures Alive(p, p.calls[id].context.value) && At(p.heap, p.calls[id].context.value).ScanContext?
  {
    assert WiredCall(p.heap, p.calls[id]);
    assert p.calls[id].context.value in Locals(p.calls[id]);
    RootIsAlive(p, p.calls[id].context.value);
  }

  lemma {:induction false} EndsAlone(p: Process, id: nat)
    requires OwnContexts(p) && Next(p, EndScan(id)).Some? && p.calls[id].context.Some?
    ensures var q := Next(p, EndScan(id)).value;
            && q.heap == p.heap
            && forall other :: other in q.calls && q.calls[other].Scan? ==> q.calls[other].context != p.calls[id].context
  {
    var q := Next(p, EndScan(id)).value;
    forall other | other in q.calls && q.calls[other].Scan?
      ensures q.calls[other].context != p.calls[id].context
    {
      assert SharesContext(p.calls[id], p.calls[other]) ==> id == other;
    }
  }

  lemma {:induction false} NobodyKeeps(p: Process, r: Ref)
    requires Wired(p) && At(p.heap, r).ScanContext?
    requires forall id :: id in p.calls && p.calls[id].Scan? ==> p.calls[id].context != Some(r)
    ensures !Alive(p, r)
  {
    if Alive(p, r) {
      ContextIsHeldByScan(p, r);
    }
  }

  lemma {:induction false} ContextHasNoOwner(p: Process, a: Ref, r: Ref)
    requires Wired(p) && At(p.heap, r).ScanContext?
    ensures r !in Strong(At(p.heap, a))
  {
    assert a < |p.heap| ==> WiredObject(p.heap, p.heap[a]);
  }

  /** Only running scans hold a scan's task context. */
  lemma {:induction false} ContextIsHeldByScan(p: Process, r: Ref)
    requires Wired(p) && At(p.heap, r).ScanContext? && Alive(p, r)
    ensures exists id :: id in p.calls && p.calls[id].Scan? && p.calls[id].context == Some(r)
  {
    var path :| |path| > 0 && Root(p, path[0]) && path[|path| - 1] == r && StrongPath(p.heap, path);
    if |path| > 1 {
      var owner := OwnerOf(p, path);
      ContextHasNoOwner(p, owner, r);
    } else {
      var id :| id in p.calls && r in Locals(p.calls[id]);
      LocalContext(p.heap, p.calls[id], r);
    }
  }

  lemma {:induction false} LocalContext(heap: seq<Object>, c: Call, r: Ref)
    requires WiredCall(heap, c) && r in Locals(c) && At(heap, r).ScanContext?
    ensures c.Scan? && c.context == Some(r)
  {
  }

  // ----- registering, dropping, deregistering

  /**
   * A registration makes a table of the asked kind, held through the session's catalog; a foreign one has a codec,
   * bound to a task context provider of the table's own, with the session's registry as snapshot, or to the session.
   */
  lemma {:induction false} RegistrationBinds(p: Process, session: Ref, foreign: bool, binding: Binding) returns (t: Ref)
    requires Reachable(p) && Next(p, Register(session, foreign, binding)).Some?
    ensures var q := Next(p, Register(session, foreign, binding)).value;
            && !At(p.heap, t).Table? && At(q.heap, t).Table? && Alive(q, t)
            && t in At(q.heap, At(p.heap, session).catalog).tables
            && (CodecOf(q, t).Some? <==> foreign)
            && (binding.Hosted? <==> At(q.heap, t).hostContext.Some?)
            && (binding.Hosted? ==>
                  At(q.heap, At(q.heap, t).hostContext.value)
                  == HostContext(session, At(p.heap, session).registry, At(p.heap, session).registry, []))
            && (binding.Direct? && foreign ==> At(q.heap, CodecOf(q, t).value) == Codec(session))
  {
    ReachableIsWired(p);
    t := RegistrationFacts(p, session, foreign, binding);
    HeldThroughCatalog(Next(p, Register(session, foreign, binding)).value, session, At(p.heap, session).catalog, t);
  }

  lemma {:induction false} RegistrationFacts(p: Process, session: Ref, foreign: bool, binding: Binding) returns (t: Ref)
    requires Wired(p) && RegisterTable(p, session, foreign, binding).Some?
    ensures var q := RegisterTable(p, session, foreign, binding).value;
            && q.handles == p.handles && At(p.heap, session).Session? && At(q.heap, session) == At(p.heap, session)
            && At(q.heap, At(p.heap, session).catalog).Catalog? && t in At(q.heap, At(p.heap, session).catalog).tables
            && !At(p.heap, t).Table? && At(q.heap, t).Table?
            && (CodecOf(q, t).Some? <==> foreign)
            && (binding.Hosted? <==> At(q.heap, t).hostContext.Some?)
            && (binding.Hosted? ==>
                  At(q.heap, At(q.heap, t).hostContext.value)
                  == HostContext(session, At(p.heap, session).registry, At(p.heap, session).registry, []))
            && (binding.Direct? && foreign ==> At(q.heap, CodecOf(q, t).value) == Codec(session))
  {
    t := |RegisterTable(p, session, foreign, binding).value.heap| - 1;
    RegisteredObjects(p, session, foreign, binding);
  }

  lemma {:induction false} HeldThroughCatalog(p: Process, session: Ref, catalog: Ref, t: Ref)
    requires session in p.handles && At(p.heap, session).Session? && At(p.heap, session).catalog == catalog
    requires At(p.heap, catalog).Catalog? && t in At(p.heap, catalog).tables
    ensures Alive(p, t)
  {
    RootIsAlive(p, session);
    OwnedIsAlive(p, session, catalog);
    OwnedIsAlive(p, catalog, t);
  }

  lemma {:induction false} RegisteredObjects(p: Process, session: Ref, foreign: bool, binding: Binding)
    requires Wired(p) && RegisterTable(p, session, foreign, binding).Some?
    ensures var heap := RegisterTable(p, session, foreign, binding).value.heap;
            var n, t := |p.heap|, |heap| - 1;
            && t >= n && At(heap, session) == At(p.heap, session) && At(p.heap, session).Session?
            && At(heap, At(p.heap, session).catalog).Catalog? && t in At(heap, At(p.heap, session).catalog).tables
            && (match binding
                case Hosted =>
                  && At(heap, t) == Table(n + 2, Some(n)) && At(heap, n + 2) == Provider(if foreign then Some(n + 1) else None)
                  && At(heap, n) == HostContext(session, At(p.heap, session).registry, At(p.heap, session).registry, [])
                case Direct =>
                  && At(heap, t) == Table(n + 1, None) && At(heap, n + 1) == Provider(if foreign then Some(n) else None)
                  && At(heap, n) == Codec(session))
  {
    var heap := RegisterTable(p, session, foreign, binding).value.heap;
    var n := |p.heap|;
    assert WiredObject(p.heap, p.heap[session]);
    assert heap[n..] == Imported(n, session, p.heap[session].registry, foreign, binding);
    assert forall k :: 0 <= k < |heap[n..]| ==> heap[n + k] == heap[n..][k];
    assert heap[n] == heap[n..][0] && heap[n + 1] == heap[n..][1] && heap[n + 2] == heap[n..][2];
  }

  /**
   * A DataFrame keeps the table it reads and its session's catalog: whatever is deregistered, dropped or finished
   * meanwhile, both are alive as long as Python holds the DataFrame.
   */
  lemma {:induction false} DataFrameKeepsItsTable(p: Process, session: Ref, t: Ref, ops: seq<Op>)
    requires Reachable(p) && Next(p, MakeFrame(session, t)).Some?
    requires Run(Next(p, MakeFrame(session, t)).value, ops).Some?
    requires |p.heap| in Run(Next(p, MakeFrame(session, t)).value, ops).value.handles
    ensures Alive(Run(Next(p, MakeFrame(session, t)).value, ops).value, t)
    ensures At(p.heap, session).Session? && Alive(Run(Next(p, MakeFrame(session, t)).value, ops).value, At(p.heap, session).catalog)
  {
    var made := ReachableStep(p, MakeFrame(session, t));
    ReachableIsWired(made);
    RunWired(made, ops);
    FrameIsMade(p, session, t);
    FrameHolds(made.heap, Run(made, ops).value, |p.heap|, At(p.heap, session).catalog, t);
  }

  lemma {:induction false} FrameIsMade(p: Process, session: Ref, t: Ref)
    requires Next(p, MakeFrame(session, t)).Some?
    ensures At(p.heap, session).Session?
    ensures At(Next(p, MakeFrame(session, t)).value.heap, |p.heap|) == DataFrame(At(p.heap, session).catalog, t)
  {
  }

  lemma {:induction false} FrameHolds(heap: seq<Object>, q: Process, frame: Ref, catalog: Ref, t: Ref)
    requires Grew(heap, q.heap) && At(heap, frame) == DataFrame(catalog, t) && frame in q.handles
    ensures Alive(q, t) && Alive(q, catalog)
  {
    assert At(q.heap, frame) == At(heap, frame);
    assert Root(q, frame);
    RootIsAlive(q, frame);
    OwnedIsAlive(q, frame, t);
    OwnedIsAlive(q, frame, catalog);
  }

  /** Some catalog other than `c` that lists the table is held. */
  ghost predicate ListedElsewhere(p: Process, c: Ref, t: Ref) {
    exists d :: d != c && CatalogHeld(p, d) && At(p.heap, d).Catalog? && t in At(p.heap, d).tables
  }

  /** A deregistered table lives on exactly if a call, a DataFrame or another catalog holds it. */
  lemma {:induction false} DeregisterReleases(p: Process, session: Ref, t: Ref)
    requires Reachable(p) && Next(p, Deregister(session, t)).Some? && At(p.heap, t).Table?
    ensures At(p.heap, session).Session?
    ensures Alive(Next(p, Deregister(session, t)).value, t)
            <==> || Root(p, t)
                 || (exists r :: Root(p, r) && At(p.heap, r).DataFrame? && At(p.heap, r).table == t)
                 || ListedElsewhere(p, At(p.heap, session).catalog, t)
  {
    var q := ReachableStep(p, Deregister(session, t));
    var c := At(p.heap, session).catalog;
    assert q.heap == p.heap[c := Catalog(p.heap[c].tables - {t})];
    TableLifetime(q, t);
    SameRoots(p, q);
    forall r | Root(p, r)
      ensures At(q.heap, r).Session? == At(p.heap, r).Session? && At(q.heap, r).DataFrame? == At(p.heap, r).DataFrame?
      ensures At(p.heap, r).Session? || At(p.heap, r).DataFrame? ==> At(q.heap, r) == At(p.heap, r)
    {
    }
    assert forall d :: CatalogHeld(p, d) <==> CatalogHeld(q, d);
    assert forall d :: d != c ==> At(q.heap, d) == At(p.heap, d);
    assert forall r :: Root(p, r) && At(p.heap, r).DataFrame? ==> At(q.heap, r) == At(p.heap, r);
    assert forall r :: Root(q, r) && At(q.heap, r).DataFrame? ==> At(q.heap, r) == At(p.heap, r);
  }

  lemma {:induction false} SameRoots(p: Process, q: Process)
    requires q.handles == p.handles && q.calls == p.calls
    ensures forall r :: Root(q, r) <==> Root(p, r)
  {
  }

  /** Handles are counted: dropping a clone changes nothing, dropping the last one lets the session go. */
  lemma {:induction false} HandlesAreCounted(p: Process, r: Ref)
    requires Reachable(p) && r in p.handles
    ensures Run(p, [CloneHandle(r)] + [DropHandle(r)]) == Some(p)
    ensures At(p.heap, r).Session? && p.handles[r] == 1 ==>
              (Alive(Next(p, DropHandle(r)).value, r)
               <==> exists id :: id in p.calls && p.calls[id].Check? && p.calls[id].session == r)
  {
    var cloned := Next(p, CloneHandle(r)).value;
    assert cloned.handles - multiset{r} == p.handles;
    assert [] + [CloneHandle(r)] == [CloneHandle(r)];
    RunOne(p, [], CloneHandle(r));
    RunOne(p, [CloneHandle(r)], DropHandle(r));
    if At(p.heap, r).Session? && p.handles[r] == 1 {
      var q := ReachableStep(p, DropHandle(r));
      SessionLifetime(q, r);
    }
  }
}
