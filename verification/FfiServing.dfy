/** Which task context a pushdown check is served, with checks interleaved step by step. */
module FfiServing {
  import opened Options
  import opened FfiTable
  import opened FfiLifetime

  function RegistryOf(p: Process, s: Ref): nat {
    match At(p.heap, s)
    case Session(_, registry) => registry
    case _ => 0
  }

  /** Only a registration moves a registry, and it moves it up. */
  lemma {:induction false} RegistryStep(p: Process, op: Op, s: Ref)
    requires Next(p, op).Some? && At(p.heap, s).Session?
    ensures At(Next(p, op).value.heap, s).Session?
    ensures RegistryOf(Next(p, op).value, s) == RegistryOf(p, s) + (if op == RegisterUdf(s) then 1 else 0)
  {
    NextGrows(p, op);
    if op.BeginPushdown? {
      PushdownKeepsRegistry(p, op.id, op.table, s);
    }
  }

  lemma {:induction false} PushdownKeepsRegistry(p: Process, id: nat, t: Ref, s: Ref)
    requires Next(p, BeginPushdown(id, t)).Some? && At(p.heap, s).Session?
    ensures At(Next(p, BeginPushdown(id, t)).value.heap, s) == At(p.heap, s)
  {
  }

  // ----- a task context provider under interleaved checks

  /** How an operation changes a task context provider. */
  lemma {:induction false} HostStep(p: Process, op: Op, h: Ref)
    requires Next(p, op).Some? && At(p.heap, h).HostContext?
    ensures var was, now := At(p.heap, h), At(Next(p, op).value.heap, h);
            if op.FinishPushdown? && op.target == h then
              var v := p.calls[op.id].read.value;
              now == was.(fallback := v, served := was.served + [v])
            else now == was || (op.BeginPushdown? && now == was.(served := was.served + [was.fallback]))
  {
    if op.BeginPushdown? {
      PushdownServes(p, op.id, op.table, h);
    }
  }

  lemma {:induction false} PushdownServes(p: Process, id: nat, t: Ref, h: Ref)
    requires Next(p, BeginPushdown(id, t)).Some? && At(p.heap, h).HostContext?
    ensures var was, now := At(p.heap, h), At(Next(p, BeginPushdown(id, t)).value.heap, h);
            now == was || now == was.(served := was.served + [was.fallback])
  {
  }

  /** How an operation changes the checks that run on a task context provider. */
  lemma {:induction false} ChecksStep(p: Process, op: Op, id: nat)
    requires Next(p, op).Some? && id in Next(p, op).value.calls && Next(p, op).value.calls[id].Check?
    ensures var now := Next(p, op).value.calls[id];
            || (id in p.calls && now == p.calls[id] && op != ReadRegistry(id))
            || (op == ReadRegistry(id) && id in p.calls && p.calls[id].Check?
                && now == p.calls[id].(read := Some(RegistryOf(p, now.session))))
            || (op == BeginPushdown(id, now.table) && id !in p.calls && now.read.None?)
  {
    if op.BeginPushdown? {
      PushdownStarts(p, op.id, op.table, id);
    }
  }

  lemma {:induction false} PushdownStarts(p: Process, id: nat, t: Ref, other: nat)
    requires Next(p, BeginPushdown(id, t)).Some? && other in Next(p, BeginPushdown(id, t)).value.calls
    ensures var now := Next(p, BeginPushdown(id, t)).value.calls[other];
            (other in p.calls && now == p.calls[other])
            || (other == id && id !in p.calls && now.Check? && now.table == t && now.read.None?)
  {
  }

  predicate On(c: Call, h: Ref) {
    c.Check? && c.target == h
  }

  ghost predicate Remembers(p: Process, h: Ref)
    requires At(p.heap, h).HostContext?
  {
    var host := At(p.heap, h);
    && (host.fallback == host.snapshot || host.fallback in host.served)
    && host.snapshot <= host.fallback <= RegistryOf(p, host.session)
    && (forall v :: v in host.served ==> host.snapshot <= v <= RegistryOf(p, host.session))
    && (forall id :: id in p.calls && On(p.calls[id], h) && p.calls[id].read.Some? ==>
          host.snapshot <= p.calls[id].read.value <= RegistryOf(p, host.session))
  }

  lemma {:induction false} CheckedSession(p: Process, id: nat, h: Ref)
    requires Wired(p) && id in p.calls && On(p.calls[id], h) && At(p.heap, h).HostContext?
    ensures p.calls[id].session == At(p.heap, h).session && At(p.heap, At(p.heap, h).session).Session?
  {
    assert WiredCall(p.heap, p.calls[id]);
  }

  lemma {:induction false} RemembersStep(p: Process, op: Op, h: Ref)
    requires Wired(p) && At(p.heap, h).HostContext? && Remembers(p, h) && Next(p, op).Some?
    ensures At(Next(p, op).value.heap, h).HostContext? && Remembers(Next(p, op).value, h)
  {
    var q, s := Next(p, op).value, At(p.heap, h).session;
    assert WiredObject(p.heap, p.heap[h]);
    HostStep(p, op, h);
    RegistryStep(p, op, s);
    forall id | id in q.calls && On(q.calls[id], h) && q.calls[id].read.Some?
      ensures At(q.heap, h).snapshot <= q.calls[id].read.value <= RegistryOf(q, s)
    {
      ChecksStep(p, op, id);
      CheckedSession(p, id, h);
    }
  }

  /** A task context provider that registration has just made remembers its session's registry. */
  lemma {:induction false} MadeByRegister(p: Process, op: Op, h: Ref)
    requires Wired(p) && Next(p, op).Some? && !At(p.heap, h).HostContext? && At(Next(p, op).value.heap, h).HostContext?
    ensures JustRegistered(Next(p, op).value, h)
  {
    NextGrows(p, op);
    assert h >= |p.heap|;
    NewHost(p, op, h);
    forall id | id in p.calls
      ensures !On(p.calls[id], h)
    {
      assert WiredCall(p.heap, p.calls[id]);
    }
  }

  lemma {:induction false} NewHost(p: Process, op: Op, h: Ref)
    requires Next(p, op).Some? && |p.heap| <= h && At(Next(p, op).value.heap, h).HostContext?
    ensures op.Register? && Next(p, op).value.calls == p.calls
    ensures var q := Next(p, op).value;
            At(q.heap, h) == HostContext(op.session, RegistryOf(q, op.session), RegistryOf(q, op.session), [])
  {
    if !op.Register? && !op.BeginScan? && !op.Deregister? && !op.NewSession? && !op.MakeFrame? {
      OthersAllocateNothing(p, op, h);
    }
  }

  ghost predicate JustRegistered(p: Process, h: Ref) {
    && At(p.heap, h).HostContext? && At(p.heap, h).served == []
    && At(p.heap, h).snapshot == At(p.heap, h).fallback == RegistryOf(p, At(p.heap, h).session)
    && Unchecked(p, h)
  }

  lemma {:induction false} RunRemembers(ops: seq<Op>, h: Ref)
    requires Run(BOOT, ops).Some? && At(Run(BOOT, ops).value.heap, h).HostContext?
    ensures Remembers(Run(BOOT, ops).value, h)
    decreases |ops|
  {
    var before, op := ops[..|ops| - 1], ops[|ops| - 1];
    var p := Run(BOOT, before).value;
    RunWired(BOOT, before);
    if At(p.heap, h).HostContext? {
      RunRemembers(before, h);
      RemembersStep(p, op, h);
    } else {
      MadeByRegister(p, op, h);
    }
  }

  /**
   * With any number of tables, sessions and overlapping checks: a pushdown check on a hosted foreign table
   * whose session is gone is served the registration snapshot or a task context an earlier check on the
   * same table was served, and none is older than the snapshot or newer than the registry ever was.
   */
  lemma {:induction false} ServedWasSeen(p: Process, id: nat, t: Ref, h: Ref)
    requires Reachable(p) && HostedBy(p, t, h) && CodecOf(p, t).Some?
    requires Next(p, BeginPushdown(id, t)).Some? && !SessionHeld(p, At(p.heap, h).session)
    ensures var was, now := At(p.heap, h), At(Next(p, BeginPushdown(id, t)).value.heap, h);
            && now == was.(served := was.served + [was.fallback])
            && (was.fallback == was.snapshot || was.fallback in was.served)
            && was.snapshot <= was.fallback <= RegistryOf(p, was.session)
  {
    CheckWithoutSession(p, id, t, h);
    var ops :| Run(BOOT, ops) == Some(p);
    RunRemembers(ops, h);
  }

  /** The table `t` hosts the task context provider `h`. */
  predicate HostedBy(p: Process, t: Ref, h: Ref) {
    At(p.heap, t).Table? && At(p.heap, t).hostContext == Some(h) && At(p.heap, h).HostContext?
  }

  /** The codec of a hosted foreign table points to the table's own task context provider, which is alive. */
  lemma {:induction false} HostedTarget(p: Process, t: Ref, h: Ref)
    requires Wired(p) && HostedBy(p, t, h) && CodecOf(p, t).Some? && Alive(p, t)
    ensures At(p.heap, CodecOf(p, t).value) == Codec(h) && Alive(p, h) && At(p.heap, At(p.heap, h).session).Session?
  {
    TableWiring(p, t);
    assert WiredObject(p.heap, p.heap[h]);
    OwnedIsAlive(p, t, h);
  }

  /** A check on a hosted foreign table: its codec upgrades, and `task_ctx` is called. */
  lemma {:induction false} HostedCheck(p: Process, id: nat, t: Ref, h: Ref)
    requires HostedBy(p, t, h) && CodecOf(p, t).Some? && At(p.heap, CodecOf(p, t).value) == Codec(h)
    requires Alive(p, t) && Alive(p, h) && id !in p.calls
    ensures Next(p, BeginPushdown(id, t)) == TaskCtx(p.(uses := p.uses + [Use(CodecOf(p, t).value, Upgraded)]), id, t, h)
  {
    var used := Upgrade(p, CodecOf(p, t).value, h);
    assert used == p.(uses := p.uses + [Use(CodecOf(p, t).value, Upgraded)]);
    assert Next(p, BeginPushdown(id, t)) == Pushdown(p, id, t, p.heap[t].inner) == TaskCtx(used, id, t, h);
  }

  lemma {:induction false} CheckWithoutSession(p: Process, id: nat, t: Ref, h: Ref)
    requires Reachable(p) && HostedBy(p, t, h) && CodecOf(p, t).Some?
    requires Next(p, BeginPushdown(id, t)).Some? && !SessionHeld(p, At(p.heap, h).session)
    ensures Next(p, BeginPushdown(id, t)).Some?
    ensures var host := At(p.heap, h);
            At(Next(p, BeginPushdown(id, t)).value.heap, h) == host.(served := host.served + [host.fallback])
  {
    ReachableIsWired(p);
    TableIsAlive(p, id, t);
    HostedTarget(p, t, h);
    HostedCheck(p, id, t, h);
    SessionLifetime(p, At(p.heap, h).session);
    AliveIgnoresUses(p, p.(uses := p.uses + [Use(CodecOf(p, t).value, Upgraded)]), At(p.heap, h).session);
  }

  lemma {:induction false} TableIsAlive(p: Process, id: nat, t: Ref)
    requires Next(p, BeginPushdown(id, t)).Some?
    ensures Alive(p, t) && id !in p.calls
  {
  }

  lemma {:induction false} AliveIgnoresUses(p: Process, q: Process, r: Ref)
    requires q == p.(uses := q.uses)
    ensures Alive(p, r) <==> Alive(q, r)
  {
    if Alive(p, r) {
      var path :| |path| > 0 && Root(p, path[0]) && path[|path| - 1] == r && StrongPath(p.heap, path);
      assert Root(q, path[0]);
    }
    if Alive(q, r) {
      var path :| |path| > 0 && Root(q, path[0]) && path[|path| - 1] == r && StrongPath(q.heap, path);
      assert Root(p, path[0]);
    }
  }

  // ----- when the fallback goes back

  /** Registrations of functions in a schedule. */
  function Udfs(ops: seq<Op>, s: Ref): nat
    decreases |ops|
  {
    if ops == [] then 0
    else Udfs(ops[..|ops| - 1], s) + (if ops[|ops| - 1] == RegisterUdf(s) then 1 else 0)
  }

  /** Where in a schedule the check `id` last read the registry. */
  function ReadAt(ops: seq<Op>, id: nat): (i: nat)
    ensures i <= |ops|
    decreases |ops|
  {
    if ops == [] then 0
    else if ops[|ops| - 1] == ReadRegistry(id) then |ops| - 1
    else ReadAt(ops[..|ops| - 1], id)
  }

  /** Where the check that finished last on `h` had read the registry; the start, if none has finished. */
  function RememberedAt(ops: seq<Op>, h: Ref): (i: nat)
    ensures i <= |ops|
    decreases |ops|
  {
    if ops == [] then 0
    else
      var before := ops[..|ops| - 1];
      match ops[|ops| - 1]
      case FinishPushdown(id, target) => if target == h then ReadAt(before, id) else RememberedAt(before, h)
      case _ => RememberedAt(before, h)
  }

  lemma {:induction false} UdfsBetween(ops: seq<Op>, s: Ref, i: nat, j: nat)
    requires i <= |ops| && j <= |ops|
    ensures i <= j ==> Udfs(ops[..i], s) <= Udfs(ops[..j], s)
    ensures Udfs(ops[..i], s) < Udfs(ops[..j], s) <==> exists k :: i <= k < j && ops[k] == RegisterUdf(s)
    decreases i + j, if j < i then 1 else 0
  {
    if i < j {
      assert ops[..j][..j - 1] == ops[..j - 1];
      assert ops[..j][j - 1] == ops[j - 1];
      UdfsBetween(ops, s, i, j - 1);
    } else if j < i {
      UdfsBetween(ops, s, j, i);
    }
  }

  /** The registry a schedule has produced at position `i`. */
  function RegistryAt(p: Process, ops: seq<Op>, s: Ref, i: nat): nat
    requires i <= |ops|
  {
    RegistryOf(p, s) + Udfs(ops[..i], s)
  }

  lemma {:induction false} RegistryIsCounted(p: Process, ops: seq<Op>, s: Ref)
    requires Run(p, ops).Some? && At(p.heap, s).Session?
    ensures At(Run(p, ops).value.heap, s).Session?
    ensures RegistryOf(Run(p, ops).value, s) == RegistryOf(p, s) + Udfs(ops, s)
    decreases |ops|
  {
    if ops != [] {
      var before := ops[..|ops| - 1];
      RegistryIsCounted(p, before, s);
      RegistryStep(Run(p, before).value, ops[|ops| - 1], s);
    }
  }

  /** What is remembered, and what each running check has read, by the positions of the reads in the schedule. */
  ghost predicate Traced(p: Process, ops: seq<Op>, q: Process, h: Ref)
    requires At(p.heap, h).HostContext?
  {
    var s := At(p.heap, h).session;
    && At(q.heap, h).HostContext? && At(q.heap, h).session == s
    && At(q.heap, h).fallback == RegistryAt(p, ops, s, RememberedAt(ops, h))
    && (forall id :: id in q.calls && On(q.calls[id], h) && q.calls[id].read.Some? ==>
          q.calls[id].read.value == RegistryAt(p, ops, s, ReadAt(ops, id)))
  }

  lemma {:induction false} ShorterPrefix(p: Process, ops: seq<Op>, s: Ref, i: nat)
    requires |ops| > 0 && i <= |ops| - 1
    ensures RegistryAt(p, ops, s, i) == RegistryAt(p, ops[..|ops| - 1], s, i)
  {
    assert ops[..|ops| - 1][..i] == ops[..i];
  }

  lemma {:induction false} TracedStep(p: Process, ops: seq<Op>, h: Ref, q: Process)
    requires Wired(q) && At(p.heap, h).HostContext? && At(p.heap, At(p.heap, h).session).Session?
    requires |ops| > 0 && Run(p, ops[..|ops| - 1]) == Some(q) && Traced(p, ops[..|ops| - 1], q, h)
    requires Next(q, ops[|ops| - 1]).Some?
    ensures Traced(p, ops, Next(q, ops[|ops| - 1]).value, h)
  {
    var before, op, s := ops[..|ops| - 1], ops[|ops| - 1], At(p.heap, h).session;
    var next := Next(q, op).value;
    HostStep(q, op, h);
    ShorterPrefix(p, ops, s, RememberedAt(before, h));
    if op.FinishPushdown? {
      ShorterPrefix(p, ops, s, ReadAt(before, op.id));
    }
    forall id | id in next.calls && On(next.calls[id], h) && next.calls[id].read.Some?
      ensures next.calls[id].read.value == RegistryAt(p, ops, s, ReadAt(ops, id))
    {
      ChecksStep(q, op, id);
      CheckedSession(q, id, h);
      if op == ReadRegistry(id) {
        RegistryIsCounted(p, before, s);
      } else {
        ShorterPrefix(p, ops, s, ReadAt(before, id));
      }
    }
  }

  lemma {:induction false} RunTraces(p: Process, ops: seq<Op>, h: Ref)
    requires Wired(p) && JustRegistered(p, h) && Run(p, ops).Some?
    ensures Traced(p, ops, Run(p, ops).value, h)
    decreases |ops|
  {
    assert WiredObject(p.heap, p.heap[h]);
    if ops != [] {
      var before := ops[..|ops| - 1];
      RunTraces(p, before, h);
      RunWired(p, before);
      TracedStep(p, ops, h, Run(p, before).value);
    }
  }

  /**
   * From registration on, in any schedule: the fallback goes back exactly when a check finishes that read the
   * registry before the check that finished last did, with a function registered between the two reads.
   */
  lemma {:induction false} FallbackGoesBack(p: Process, ops: seq<Op>, h: Ref, op: Op)
    requires Reachable(p) && JustRegistered(p, h) && Run(p, ops + [op]).Some?
    ensures Run(p, ops).Some?
    ensures At(Run(p, ops).value.heap, h).HostContext? && At(Run(p, ops + [op]).value.heap, h).HostContext?
    ensures At(Run(p, ops + [op]).value.heap, h).fallback < At(Run(p, ops).value.heap, h).fallback
            <==> op.FinishPushdown? && op.target == h
                 && exists k :: ReadAt(ops, op.id) <= k < RememberedAt(ops, h) && ops[k] == RegisterUdf(At(p.heap, h).session)
  {
    ReachableIsWired(p);
    assert (ops + [op])[..|ops|] == ops;
    RunTraces(p, ops, h);
    HostStep(Run(p, ops).value, op, h);
    if op.FinishPushdown? && op.target == h {
      UdfsBetween(ops, At(p.heap, h).session, ReadAt(ops, op.id), RememberedAt(ops, h));
    }
  }

  // ----- one check at a time

  /** The operation begins a check on the table that hosts `h`. */
  predicate Begins(p: Process, op: Op, h: Ref) {
    op.BeginPushdown? && HostedBy(p, op.table, h)
  }

  /** No check on `h` is in flight. */
  ghost predicate Unchecked(p: Process, h: Ref) {
    forall id :: id in p.calls ==> !On(p.calls[id], h)
  }

  /** A check on `h` begins only when none is in flight. */
  ghost predicate OneAtATime(p: Process, ops: seq<Op>, h: Ref)
    decreases |ops|
  {
    ops == [] ||
    var before := ops[..|ops| - 1];
    && OneAtATime(p, before, h)
    && Run(p, before).Some?
    && (Begins(Run(p, before).value, ops[|ops| - 1], h) ==> Unchecked(Run(p, before).value, h))
  }

  /** The fallback is the last one served, and the newest. */
  predicate NewestRemembered(host: Object) {
    && host.HostContext?
    && host.fallback == (if host.served == [] then host.snapshot else host.served[|host.served| - 1])
    && (forall v :: v in host.served ==> v <= host.fallback)
  }

  /** At most one check runs on `h`, and what it has read is no older than the fallback. */
  ghost predicate OneCheck(p: Process, h: Ref)
    requires At(p.heap, h).HostContext?
  {
    && (forall i, j :: i in p.calls && j in p.calls && On(p.calls[i], h) && On(p.calls[j], h) ==> i == j)
    && (forall id :: id in p.calls && On(p.calls[id], h) && p.calls[id].read.Some? ==>
          At(p.heap, h).fallback <= p.calls[id].read.value)
  }

  ghost predicate Sequential(p: Process, h: Ref)
    requires At(p.heap, h).HostContext?
  {
    Remembers(p, h) && NewestRemembered(At(p.heap, h)) && OneCheck(p, h)
  }

  lemma {:induction false} StartsOnItsHost(p: Process, id: nat, t: Ref, h: Ref)
    requires Wired(p) && Next(p, BeginPushdown(id, t)).Some? && At(p.heap, h).HostContext?
    requires id in Next(p, BeginPushdown(id, t)).value.calls && On(Next(p, BeginPushdown(id, t)).value.calls[id], h)
    ensures HostedBy(p, t, h)
  {
    StartTarget(p, id, t, h);
    TargetIsHost(p, t, h);
  }

  lemma {:induction false} StartTarget(p: Process, id: nat, t: Ref, h: Ref)
    requires Next(p, BeginPushdown(id, t)).Some? && id in Next(p, BeginPushdown(id, t)).value.calls
    requires On(Next(p, BeginPushdown(id, t)).value.calls[id], h)
    ensures At(p.heap, t).Table? && CodecOf(p, t).Some? && At(p.heap, CodecOf(p, t).value) == Codec(h)
  {
  }

  lemma {:induction false} TargetIsHost(p: Process, t: Ref, h: Ref)
    requires Wired(p) && At(p.heap, t).Table? && CodecOf(p, t).Some? && At(p.heap, CodecOf(p, t).value) == Codec(h)
    requires At(p.heap, h).HostContext?
    ensures HostedBy(p, t, h)
  {
    TableWiring(p, t);
  }

  lemma {:induction false} NewestStep(p: Process, op: Op, h: Ref)
    requires At(p.heap, h).HostContext? && NewestRemembered(At(p.heap, h)) && OneCheck(p, h) && Next(p, op).Some?
    ensures NewestRemembered(At(Next(p, op).value.heap, h))
  {
    HostStep(p, op, h);
  }

  lemma {:induction false} OneCheckStep(p: Process, op: Op, h: Ref)
    requires Wired(p) && At(p.heap, h).HostContext? && Sequential(p, h) && Next(p, op).Some?
    requires Begins(p, op, h) ==> Unchecked(p, h)
    ensures At(Next(p, op).value.heap, h).HostContext? && OneCheck(Next(p, op).value, h)
  {
    var q := Next(p, op).value;
    NextGrows(p, op);
    forall id | id in q.calls && On(q.calls[id], h)
      ensures Begins(p, op, h) ==> id == op.id
      ensures !Begins(p, op, h) ==> id in p.calls && On(p.calls[id], h)
      ensures q.calls[id].read.Some? ==> At(q.heap, h).fallback <= q.calls[id].read.value
    {
      SequentialCheck(p, op, h, id);
    }
  }

  lemma {:induction false} SequentialStep(p: Process, op: Op, h: Ref)
    requires Wired(p) && At(p.heap, h).HostContext? && Sequential(p, h) && Next(p, op).Some?
    requires Begins(p, op, h) ==> Unchecked(p, h)
    ensures At(Next(p, op).value.heap, h).HostContext? && Sequential(Next(p, op).value, h)
  {
    RemembersStep(p, op, h);
    NewestStep(p, op, h);
    OneCheckStep(p, op, h);
  }

  lemma {:induction false} SequentialCheck(p: Process, op: Op, h: Ref, id: nat)
    requires Wired(p) && At(p.heap, h).HostContext? && Sequential(p, h) && Next(p, op).Some?
    requires Begins(p, op, h) ==> Unchecked(p, h)
    requires id in Next(p, op).value.calls && On(Next(p, op).value.calls[id], h)
    ensures Begins(p, op, h) ==> id == op.id
    ensures !Begins(p, op, h) ==> id in p.calls && On(p.calls[id], h)
    ensures At(Next(p, op).value.heap, h).HostContext?
    ensures var now := Next(p, op).value.calls[id].read;
            now.Some? ==> At(Next(p, op).value.heap, h).fallback <= now.value
  {
    HostStep(p, op, h);
    ChecksStep(p, op, id);
    if id in p.calls {
      CheckedSession(p, id, h);
      if op.FinishPushdown? && op.target == h {
        assert On(p.calls[op.id], h);
        FinishRemoves(p, op.id, h);
      }
    } else {
      StartsOnItsHost(p, id, op.table, h);
    }
  }

  lemma {:induction false} FinishRemoves(p: Process, id: nat, h: Ref)
    requires Next(p, FinishPushdown(id, h)).Some?
    ensures id !in Next(p, FinishPushdown(id, h)).value.calls
  {
  }

  lemma {:induction false} RunSequential(p: Process, ops: seq<Op>, h: Ref)
    requires Wired(p) && At(p.heap, h).HostContext? && Sequential(p, h) && OneAtATime(p, ops, h) && Run(p, ops).Some?
    ensures At(Run(p, ops).value.heap, h).HostContext? && Sequential(Run(p, ops).value, h)
    decreases |ops|
  {
    if ops != [] {
      var before := ops[..|ops| - 1];
      RunSequential(p, before, h);
      RunWired(p, before);
      SequentialStep(Run(p, before).value, ops[|ops| - 1], h);
    }
  }

  /**
   * As documented, when checks do not overlap: the fallback is what the last check was served (or the
   * registration snapshot, if there was none), and nothing newer was ever served.
   */
  lemma {:induction false} LastRememberedIsServed(p: Process, ops: seq<Op>, h: Ref)
    requires Reachable(p) && JustRegistered(p, h) && OneAtATime(p, ops, h) && Run(p, ops).Some?
    ensures NewestRemembered(At(Run(p, ops).value.heap, h))
  {
    ReachableIsWired(p);
    RunSequential(p, ops, h);
  }

  // ----- one uninterrupted check, and one run that loses a function

  /** Run without interruption, the steps of a pushdown check are one call of `task_ctx`. */
  lemma {:induction false} AtomicCheckIsTaskCtx(p: Process, id: nat, t: Ref, h: Ref)
    requires Reachable(p) && HostedBy(p, t, h) && CodecOf(p, t).Some? && TableHeld(p, t) && id !in p.calls
    ensures var host := At(p.heap, h);
            var live := SessionHeld(p, host.session);
            var ops := if live then [BeginPushdown(id, t)] + [ReadRegistry(id)] + [FinishPushdown(id, h)]
                       else [BeginPushdown(id, t)];
            var v := Served(if live then Some(RegistryOf(p, host.session)) else None, host.fallback);
            Run(p, ops) == Some(p.(heap := p.heap[h := host.(fallback := v, served := host.served + [v])],
                                   uses := p.uses + [Use(CodecOf(p, t).value, Upgraded)]))
  {
    BeginsOnHost(p, id, t, h);
    assert [] + [BeginPushdown(id, t)] == [BeginPushdown(id, t)];
    RunOne(p, [], BeginPushdown(id, t));
    if SessionHeld(p, At(p.heap, h).session) {
      var used := p.(uses := p.uses + [Use(CodecOf(p, t).value, Upgraded)]);
      FinishesOnHost(used, id, Check(t, h, At(p.heap, h).session, None));
      RunOne(p, [BeginPushdown(id, t)], ReadRegistry(id));
      RunOne(p, [BeginPushdown(id, t)] + [ReadRegistry(id)], FinishPushdown(id, h));
    }
  }

  lemma {:induction false} BeginsOnHost(p: Process, id: nat, t: Ref, h: Ref)
    requires Reachable(p) && HostedBy(p, t, h) && CodecOf(p, t).Some? && TableHeld(p, t) && id !in p.calls
    ensures var host := At(p.heap, h);
            var used := p.(uses := p.uses + [Use(CodecOf(p, t).value, Upgraded)]);
            Next(p, BeginPushdown(id, t))
            == Some(if SessionHeld(p, host.session) then used.(calls := p.calls[id := Check(t, h, host.session, None)])
                    else used.(heap := p.heap[h := host.(served := host.served + [host.fallback])]))
    ensures At(p.heap, At(p.heap, h).session).Session?
  {
    ReachableIsWired(p);
    TableLifetime(p, t);
    HostedTarget(p, t, h);
    HostedCheck(p, id, t, h);
    SessionLifetime(p, At(p.heap, h).session);
    AliveIgnoresUses(p, p.(uses := p.uses + [Use(CodecOf(p, t).value, Upgraded)]), At(p.heap, h).session);
  }

  lemma {:induction false} FinishesOnHost(p: Process, id: nat, c: Call)
    requires id !in p.calls && c.Check? && c.read.None? && At(p.heap, c.target).HostContext? && At(p.heap, c.session).Session?
    ensures var v := RegistryOf(p, c.session);
            var host := At(p.heap, c.target);
            var begun := p.(calls := p.calls[id := c]);
            var read := p.(calls := p.calls[id := c.(read := Some(v))]);
            && Next(begun, ReadRegistry(id)) == Some(read)
            && Next(read, FinishPushdown(id, c.target))
               == Some(p.(heap := p.heap[c.target := host.(fallback := v, served := host.served + [v])]))
  {
    var v := RegistryOf(p, c.session);
    assert p.calls[id := c][id := c.(read := Some(v))] == p.calls[id := c.(read := Some(v))];
    assert p.calls[id := c.(read := Some(v))] - {id} == p.calls;
  }

  /** A session (at 1) with one hosted foreign table (at 5) and a DataFrame over it (at 6). */
  function OneTable(registry: nat, host: Object): seq<Object> {
    [Catalog({5}), Session(0, registry), host, Codec(2), Provider(Some(3)), Table(4, Some(2)), DataFrame(0, 5)]
  }

  /** Reached with Python holding the session and the DataFrame, and these calls in flight. */
  ghost predicate AtOneTable(p: Process, registry: nat, host: Object, calls: map<nat, Call>) {
    Reachable(p) && p.heap == OneTable(registry, host) && p.handles == multiset{1, 6} && p.calls == calls
  }

  lemma {:induction false} FirstSession()
    ensures Next(BOOT, NewSession) == Some(Process([Catalog({}), Session(0, 0)], multiset{1}, map[], []))
  {
    assert BOOT.heap + [Catalog({}), Session(0, 0)] == [Catalog({}), Session(0, 0)];
    assert BOOT.handles + multiset{1} == multiset{1};
  }

  lemma {:induction false} FirstTable(p: Process)
    requires p == Process([Catalog({}), Session(0, 0)], multiset{1}, map[], [])
    ensures Next(p, Register(1, true, Hosted)) == Some(p.(heap := OneTable(0, HostContext(1, 0, 0, []))[..6]))
  {
    var grown := p.heap + Imported(2, 1, 0, true, Hosted);
    assert |grown| == 6 && {} + {5} == {5};
    assert grown[0 := Catalog({5})] == OneTable(0, HostContext(1, 0, 0, []))[..6];
  }

  lemma {:induction false} FirstFrame(p: Process, host: Object)
    requires p.heap == OneTable(0, host)[..6] && p.handles == multiset{1}
    ensures Next(p, MakeFrame(1, 5)) == Some(p.(heap := OneTable(0, host), handles := multiset{1, 6}))
  {
    assert p.heap[0] == Catalog({5}) && p.heap[1] == Session(0, 0) && |p.heap| == 6;
    assert p.heap + [DataFrame(0, 5)] == OneTable(0, host);
    assert p.handles + multiset{6} == multiset{1, 6};
  }

  lemma {:induction false} OneTableIsReachable() returns (p: Process)
    ensures AtOneTable(p, 0, HostContext(1, 0, 0, []), map[])
  {
    assert Run(BOOT, []) == Some(BOOT);
    FirstSession();
    p := ReachableStep(BOOT, NewSession);
    FirstTable(p);
    p := ReachableStep(p, Register(1, true, Hosted));
    FirstFrame(p, HostContext(1, 0, 0, []));
    p := ReachableStep(p, MakeFrame(1, 5));
  }

  /** With the table alive and its session held, a check on it begins. */
  lemma {:induction false} BeginsOnOneTable(p: Process, registry: nat, host: Object, id: nat)
    requires p.heap == OneTable(registry, host) && host.HostContext? && host.session == 1
    requires 1 in p.handles && 6 in p.handles && id !in p.calls
    ensures Next(p, BeginPushdown(id, 5)) == Some(p.(calls := p.calls[id := Check(5, 2, 1, None)], uses := p.uses + [Use(3, Upgraded)]))
  {
    RootIsAlive(p, 6);
    OwnedIsAlive(p, 6, 5);
    OwnedIsAlive(p, 5, 2);
    RootIsAlive(p, 1);
    AliveIgnoresUses(p, Upgrade(p, 3, 2), 1);
  }

  lemma {:induction false} ReadFromOneTable(p: Process, registry: nat, host: Object, id: nat)
    requires p.heap == OneTable(registry, host) && id in p.calls && p.calls[id] == Check(5, 2, 1, None)
    ensures Next(p, ReadRegistry(id)) == Some(p.(calls := p.calls[id := Check(5, 2, 1, Some(registry))]))
  {
  }

  /** A check begins and reads the registry. */
  lemma {:induction false} ReadsOnOneTable(p: Process, registry: nat, host: Object, calls: map<nat, Call>, id: nat)
      returns (q: Process)
    requires AtOneTable(p, registry, host, calls) && host.HostContext? && host.session == 1 && id !in calls
    ensures AtOneTable(q, registry, host, calls[id := Check(5, 2, 1, Some(registry))])
  {
    BeginsOnOneTable(p, registry, host, id);
    q := ReachableStep(p, BeginPushdown(id, 5));
    ReadFromOneTable(q, registry, host, id);
    q := ReachableStep(q, ReadRegistry(id));
    assert calls[id := Check(5, 2, 1, None)][id := Check(5, 2, 1, Some(registry))]
        == calls[id := Check(5, 2, 1, Some(registry))];
  }

  lemma {:induction false} RegistersOnOneTable(p: Process, registry: nat, host: Object, calls: map<nat, Call>)
      returns (q: Process)
    requires AtOneTable(p, registry, host, calls)
    ensures AtOneTable(q, registry + 1, host, calls)
  {
    RegisterOnOneTable(p, registry, host);
    q := ReachableStep(p, RegisterUdf(1));
  }

  lemma {:induction false} RegisterOnOneTable(p: Process, registry: nat, host: Object)
    requires p.heap == OneTable(registry, host) && 1 in p.handles
    ensures Next(p, RegisterUdf(1)) == Some(p.(heap := OneTable(registry + 1, host)))
  {
    assert p.heap[1] == Session(0, registry);
    assert p.heap[1 := Session(0, registry + 1)] == OneTable(registry + 1, host);
  }

  lemma {:induction false} FinishesOnOneTable(p: Process, registry: nat, host: Object, calls: map<nat, Call>, id: nat)
      returns (q: Process)
    requires AtOneTable(p, registry, host, calls) && host.HostContext?
    requires id in calls && calls[id].Check? && calls[id].target == 2 && calls[id].read.Some?
    ensures var v := calls[id].read.value;
            AtOneTable(q, registry, HostContext(host.session, host.snapshot, v, host.served + [v]), calls - {id})
  {
    var v := calls[id].read.value;
    var host' := HostContext(host.session, host.snapshot, v, host.served + [v]);
    assert p.heap[2] == host;
    assert p.heap[2 := host'] == OneTable(registry, host');
    q := ReachableStep(p, FinishPushdown(id, 2));
  }

  /** Two checks overlap: one reads, a function is registered, the other reads and finishes, the first finishes. */
  lemma {:induction false} OverlappingChecks() returns (p: Process)
    ensures AtOneTable(p, 1, HostContext(1, 0, 0, [1, 0]), map[])
  {
    var first, second := Check(5, 2, 1, Some(0)), Check(5, 2, 1, Some(1));
    p := OneTableIsReachable();
    p := ReadsOnOneTable(p, 0, HostContext(1, 0, 0, []), map[], 0);
    p := RegistersOnOneTable(p, 0, HostContext(1, 0, 0, []), map[0 := first]);
    p := ReadsOnOneTable(p, 1, HostContext(1, 0, 0, []), map[0 := first], 1);
    p := FinishesOnOneTable(p, 1, HostContext(1, 0, 0, []), map[0 := first, 1 := second], 1);
    assert map[0 := first, 1 := second] - {1} == map[0 := first] && [] + [1] == [1];
    p := FinishesOnOneTable(p, 1, HostContext(1, 0, 1, [1]), map[0 := first], 0);
    assert map[0 := first] - {0} == map[] && [1] + [0] == [1, 0];
  }

  /**
   * A run that loses a function to the fallback: the session is gone, its table is alive, a check was served
   * the registry with the function, and every check from now on is served the one without.
   */
  lemma {:induction false} OverlapLosesAFunction() returns (p: Process, t: Ref, h: Ref)
    ensures Reachable(p) && HostedBy(p, t, h) && TableHeld(p, t) && !SessionHeld(p, At(p.heap, h).session)
    ensures At(p.heap, h).snapshot + 1 in At(p.heap, h).served && At(p.heap, h).fallback == At(p.heap, h).snapshot
  {
    var host := HostContext(1, 0, 0, [1, 0]);
    assert host.served[0] == 1;
    var busy := OverlappingChecks();
    p := DropsSession(busy, 1, host);
    t, h := 5, 2;
  }

  lemma {:induction false} DropsSession(p: Process, registry: nat, host: Object) returns (q: Process)
    requires AtOneTable(p, registry, host, map[]) && host.HostContext?
    ensures Reachable(q) && HostedBy(q, 5, 2) && TableHeld(q, 5) && !SessionHeld(q, 1) && At(q.heap, 2) == host
  {
    assert p.handles - multiset{1} == multiset{6};
    q := ReachableStep(p, DropHandle(1));
    assert q.handles == multiset{6} && q.heap == OneTable(registry, host);
    FrameHoldsTable(q, registry, host);
  }

  lemma {:induction false} FrameHoldsTable(p: Process, registry: nat, host: Object)
    requires p.heap == OneTable(registry, host) && host.HostContext? && 6 in p.handles
    ensures HostedBy(p, 5, 2) && TableHeld(p, 5)
  {
    assert Root(p, 6) && At(p.heap, 6).DataFrame? && At(p.heap, 6).table == 5;
  }
}
