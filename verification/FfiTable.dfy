/**
 * Imported table providers as a heap of reference-counted objects: sessions, catalogs, DataFrames,
 * tables, their providers and codecs, and the task context providers the codecs point to weakly.
 */
module FfiTable {
  import opened Options

  /** A task context is a snapshot of a session's function registry, named by the registry's version. */
  type TaskContext = nat

  // ----- HostTaskContext

  /** What a call of `task_ctx` serves, and remembers: the live session's context, or the fallback. */
  function Served(session: Option<TaskContext>, fallback: TaskContext): TaskContext {
    match session
    case Some(current) => current
    case None => fallback
  }

  class HostTaskContext {
    var fallback: TaskContext

    constructor (snapshot: TaskContext)
      ensures fallback == snapshot
    {
      fallback := snapshot;
    }

    method Remember(taskCtx: TaskContext)
      modifies this
      ensures fallback == taskCtx
    {
      fallback := taskCtx;
    }

    /** `session` is what upgrading the weak reference gives. */
    method TaskCtx(session: Option<TaskContext>) returns (taskCtx: TaskContext)
      modifies this
      ensures taskCtx == Served(session, old(fallback)) && fallback == taskCtx
    {
      match session
      case Some(current) =>
        Remember(current);
        taskCtx := current;
      case None =>
        taskCtx := fallback;
    }
  }

  // ----- objects

  /** An address; objects are never moved and addresses are never reused. */
  type Ref = nat

  datatype Object =
    | Session(catalog: Ref, registry: nat)
    | Catalog(tables: set<Ref>)
    | DataFrame(catalog: Ref, table: Ref)         // its own session state, and a plan over a table
    | Table(inner: Ref, hostContext: Option<Ref>) // None: a table that binds its codec straight to the session
    | Provider(codec: Option<Ref>)                // None: local to this library, uses no codec
    | Codec(taskCtx: Ref)                         // weak
    | HostContext(session: Ref,                   // weak
                  snapshot: TaskContext, fallback: TaskContext,
                  served: seq<TaskContext>)       // history: what pushdown checks were served
    | ScanContext(taskCtx: TaskContext)
    | Unallocated

  /** The strong references an object holds. */
  function Strong(o: Object): set<Ref> {
    match o
    case Session(catalog, _) => {catalog}
    case Catalog(tables) => tables
    case DataFrame(catalog, table) => {catalog, table}
    case Table(inner, host) => {inner} + (if host.Some? then {host.value} else {})
    case Provider(codec) => if codec.Some? then {codec.value} else {}
    case _ => {}
  }

  /** A call in progress, with the references it holds. */
  datatype Call =
    /** A pushdown check inside `task_ctx`: the codec and the session were upgraded, the registry is read next. */
    | Check(table: Ref, target: Ref, session: Ref, read: Option<TaskContext>)
    /** A scan or insert: the provider `bound_for` returned and the task context kept beside it. */
    | Scan(table: Ref, provider: Ref, context: Option<Ref>)

  function Locals(c: Call): set<Ref> {
    match c
    case Check(table, target, session, _) => {table, target, session}
    case Scan(table, provider, context) => {table, provider} + (if context.Some? then {context.value} else {})
  }

  datatype Outcome = Upgraded | OutOfScope

  /** One use of a codec by the foreign side. */
  datatype Use = Use(codec: Ref, outcome: Outcome)

  datatype Process = Process(
    heap: seq<Object>,
    handles: multiset<Ref>,  // strong references Python holds
    calls: map<nat, Call>,
    uses: seq<Use>)          // history

  const BOOT: Process := Process([], multiset{}, map[], [])

  function At(heap: seq<Object>, r: Ref): Object {
    if r < |heap| then heap[r] else Unallocated
  }

  ghost predicate Root(p: Process, r: Ref) {
    r in p.handles || exists id :: id in p.calls && r in Locals(p.calls[id])
  }

  ghost predicate StrongPath(heap: seq<Object>, path: seq<Ref>) {
    forall i :: 0 <= i < |path| - 1 ==> path[i + 1] in Strong(At(heap, path[i]))
  }

  /** Some chain of strong references leads to the object from Python or from a running call. */
  ghost predicate Alive(p: Process, r: Ref) {
    exists path :: |path| > 0 && Root(p, path[0]) && path[|path| - 1] == r && StrongPath(p.heap, path)
  }

  // ----- operations

  datatype Binding = Hosted | Direct

  datatype Op =
    | NewSession
    | RegisterUdf(session: Ref)
    | Register(session: Ref, foreign: bool, binding: Binding)
    | Deregister(session: Ref, table: Ref)
    | MakeFrame(session: Ref, table: Ref)
    | CloneHandle(ref: Ref)
    | DropHandle(ref: Ref)
    | BeginPushdown(id: nat, table: Ref)            // the foreign side upgrades the codec, `task_ctx` upgrades the session
    | ReadRegistry(id: nat)
    | FinishPushdown(id: nat, target: Ref)          // remember and serve
    | BeginScan(id: nat, table: Ref, planning: TaskContext)
    | UseInScan(id: nat)                            // the foreign side upgrades the scan's codec
    | EndScan(id: nat)

  /** Upgrading the weak reference of a codec: it answers exactly while the referent is alive. */
  ghost function Upgrade(p: Process, codec: Ref, target: Ref): Process {
    p.(uses := p.uses + [Use(codec, if Alive(p, target) then Upgraded else OutOfScope)])
  }

  /** The objects a registration allocates at address `n`; the table is the last of them. */
  function Imported(n: Ref, session: Ref, registry: nat, foreign: bool, binding: Binding): (objects: seq<Object>)
    ensures |objects| > 0
  {
    match binding
    case Hosted =>
      [HostContext(session, registry, registry, []), Codec(n), Provider(if foreign then Some(n + 1) else None),
       Table(n + 2, Some(n))]
    case Direct =>
      [Codec(session), Provider(if foreign then Some(n) else None), Table(n + 1, None)]
  }

  function RegisterTable(p: Process, session: Ref, foreign: bool, binding: Binding): Option<Process> {
    match At(p.heap, session)
    case Session(catalog, registry) =>
      (match At(p.heap, catalog)
       case Catalog(tables) =>
         var heap := p.heap + Imported(|p.heap|, session, registry, foreign, binding);
         Some(p.(heap := heap[catalog := Catalog(tables + {|heap| - 1})]))
       case _ => None)
    case _ => None
  }

  /** A pushdown check reaches the foreign side, which upgrades the table's own codec. */
  ghost function Pushdown(p: Process, id: nat, table: Ref, inner: Ref): Option<Process> {
    match At(p.heap, inner)
    case Provider(None) => Some(p)
    case Provider(Some(codec)) =>
      (match At(p.heap, codec)
       case Codec(target) =>
         var used := Upgrade(p, codec, target);
         if !Alive(p, target) then Some(used) else TaskCtx(used, id, table, target)
       case _ => None)
    case _ => None
  }

  /** `task_ctx` of what the codec points to, up to the point where it holds the session. */
  ghost function TaskCtx(p: Process, id: nat, table: Ref, target: Ref): Option<Process> {
    match At(p.heap, target)
    case HostContext(session, snapshot, fallback, served) =>
      if Alive(p, session) then Some(p.(calls := p.calls[id := Check(table, target, session, None)]))
      else Some(p.(heap := p.heap[target := HostContext(session, snapshot, fallback, served + [fallback])]))
    case Session(_, _) => Some(p.(calls := p.calls[id := Check(table, target, target, None)]))
    case _ => None
  }

  function Finish(p: Process, id: nat, target: Ref, taskCtx: TaskContext): Process {
    var done := p.(calls := p.calls - {id});
    match At(p.heap, target)
    case HostContext(session, snapshot, _, served) =>
      done.(heap := p.heap[target := HostContext(session, snapshot, taskCtx, served + [taskCtx])])
    case _ => done
  }

  /** `bound_for`: a fresh task context, and a provider with a codec of its own pointing to it. */
  function BoundFor(p: Process, id: nat, table: Ref, inner: Ref, planning: TaskContext): Process {
    var context := |p.heap|;
    if At(p.heap, inner) == Provider(None) then
      p.(heap := p.heap + [ScanContext(planning)], calls := p.calls[id := Scan(table, inner, Some(context))])
    else
      p.(heap := p.heap + [ScanContext(planning), Codec(context), Provider(Some(context + 1))],
         calls := p.calls[id := Scan(table, context + 2, Some(context))])
  }

  function CatalogOf(p: Process, session: Ref): Option<Ref> {
    match At(p.heap, session)
    case Session(catalog, _) => if At(p.heap, catalog).Catalog? then Some(catalog) else None
    case _ => None
  }

  ghost function Next(p: Process, op: Op): Option<Process> {
    match op
    case NewSession =>
      Some(p.(heap := p.heap + [Catalog({}), Session(|p.heap|, 0)], handles := p.handles + multiset{|p.heap| + 1}))
    case RegisterUdf(s) =>
      if s in p.handles && At(p.heap, s).Session?
      then Some(p.(heap := p.heap[s := Session(p.heap[s].catalog, p.heap[s].registry + 1)])) else None
    case Register(s, foreign, binding) =>
      if s in p.handles then RegisterTable(p, s, foreign, binding) else None
    case Deregister(s, t) =>
      if s in p.handles && CatalogOf(p, s).Some?
      then Some(p.(heap := p.heap[CatalogOf(p, s).value := Catalog(p.heap[CatalogOf(p, s).value].tables - {t})])) else None
    case MakeFrame(s, t) =>
      if s in p.handles && CatalogOf(p, s).Some? && t in p.heap[CatalogOf(p, s).value].tables
      then Some(p.(heap := p.heap + [DataFrame(CatalogOf(p, s).value, t)], handles := p.handles + multiset{|p.heap|})) else None
    case CloneHandle(r) => if r in p.handles then Some(p.(handles := p.handles + multiset{r})) else None
    case DropHandle(r) => if r in p.handles then Some(p.(handles := p.handles - multiset{r})) else None
    case BeginPushdown(id, t) =>
      if id !in p.calls && At(p.heap, t).Table? && Alive(p, t) then Pushdown(p, id, t, p.heap[t].inner) else None
    case ReadRegistry(id) =>
      if id in p.calls && p.calls[id].Check? && p.calls[id].read.None? && At(p.heap, p.calls[id].session).Session?
      then Some(p.(calls := p.calls[id := p.calls[id].(read := Some(p.heap[p.calls[id].session].registry))])) else None
    case FinishPushdown(id, target) =>
      if id in p.calls && p.calls[id].Check? && p.calls[id].target == target && p.calls[id].read.Some?
      then Some(Finish(p, id, target, p.calls[id].read.value)) else None
    case BeginScan(id, t, planning) =>
      if id in p.calls || !At(p.heap, t).Table? || !Alive(p, t) then None
      else if p.heap[t].hostContext.Some? then Some(BoundFor(p, id, t, p.heap[t].inner, planning))
      else Some(p.(calls := p.calls[id := Scan(t, p.heap[t].inner, None)]))
    case UseInScan(id) =>
      if id in p.calls && p.calls[id].Scan? then
        (match At(p.heap, p.calls[id].provider)
         case Provider(Some(codec)) =>
           (match At(p.heap, codec)
            case Codec(target) => Some(Upgrade(p, codec, target))
            case _ => None)
         case _ => None)
      else None
    case EndScan(id) => if id in p.calls && p.calls[id].Scan? then Some(p.(calls := p.calls - {id})) else None
  }

  ghost function Run(p: Process, ops: seq<Op>): Option<Process>
    decreases |ops|
  {
    if ops == [] then Some(p)
    else
      match Run(p, ops[..|ops| - 1])
      case None => None
      case Some(q) => Next(q, ops[|ops| - 1])
  }

  /** Some run of the process leads here. */
  ghost predicate Reachable(p: Process) {
    exists ops :: Run(BOOT, ops) == Some(p)
  }
}
