/**
 * The demand-driven stream bridge as a state machine: a coordinator task, a pull host (a dedicated
 * thread or one blocking task per round), the drain loop, a bounded channel, a demand semaphore
 * and the consumer. Every atomic operation on shared state is one step; steps of the components
 * interleave freely.
 */
module Bridge {
  import opened Options
  import opened Schema
  import opened Reading

  const CHANNEL_CAPACITY: nat := 8
  const SPECULATION_BUDGET: nat := 64
  const AFFINE_THREAD_BUDGET: nat := 128

  datatype ReadAhead = OnDemand | Buffered

  /** What a stream is built from. */
  datatype Config = Config(reader: Reader, schema: seq<Field>, readAhead: ReadAhead)

  /** Permission for one pull; `Speculative` owns a permit of the process-wide budget. */
  datatype Credit = Demanded | Speculative

  /** Free permits of the two process-wide budgets. */
  datatype Budget = Budget(spec: nat, threads: nat)

  /** How a drain round ended. */
  datatype Outcome = More | Ended | Unwound

  /** Why the coordinator left its loop. `TookEmpty` is the `expect` of an empty guard firing. */
  datatype Exit = Broke | Panicked | TookEmpty

  /** Where an abort caught the coordinator. */
  datatype Window = BeforeFirstPoll | OutputUnjoined | Elsewhere

  datatype Coordinator =
    | Unpolled                     // spawned, never polled; the future captures the closure
    | Top                          // loop head, about to try the demand semaphore
    | TryBudget                    // no demand; about to try the speculation budget
    | Parked                       // awaiting demand
    | Reserving(credit: Credit)    // awaiting a channel slot
    | Dispatching(credit: Credit)  // holds slot and credit, about to hand them to the host
    | InRound                      // awaiting the outcome of the round
    | Finished(exit: Exit)
    | Aborted(window: Window)

  datatype Thread = Spawned | Idle | Busy | Exiting | Exited

  datatype Host = Unbuilt | Affine(thread: Thread) | Pool

  /** Progress of the current drain round. */
  datatype Round =
    | NoRound
    | Queued                     // job sent or blocking task spawned, not begun
    | Ready                      // about to call the closure
    | Pulling                    // inside the closure
    | Sent                       // batch sent, about to take the next slot
    | Slotted                    // next slot taken, about to try the demand semaphore
    | SlottedDry                 // no demand, about to try the speculation budget
    | Leaving(outcome: Outcome)  // drain returned; the job's own credit is still held
    | Reported(outcome: Outcome) // outcome handed over, not yet received

  datatype Place = AsyncWorker | BlockingPool | PullThread

  /** Who owns the pull closure. */
  datatype Owner =
    | Captured                 // in the coordinator's future
    | Mailbox                  // in the Init message
    | OnThread                 // local of the pull thread
    | InGuard                  // in the PullGuard
    | InTask                   // moved into a blocking task
    | InOutput                 // in the output of a finished, unjoined blocking task
    | InDisposal               // handed to a detached drop task
    | Destroyed(place: Place)

  /** What the consumer has seen besides items. */
  datatype View = Open | SawEnd | SawPanic

  /** The demand semaphore with its history: `added == permits + taken` at all times. */
  datatype Semaphore = Semaphore(permits: nat, added: nat, taken: nat)

  /** The bounded channel: contents, slots reserved and not used, every item ever put in. */
  datatype Channel = Channel(queue: seq<Item>, reserved: nat, sent: seq<Item>)

  /** The running round, the credit it came with and the speculative credits the drain drew. */
  datatype Drain = Drain(round: Round, jobCredit: Option<Credit>, extra: nat)

  datatype Consumer = Consumer(requested: bool, view: View, dropped: bool, delivered: seq<Item>)

  /**
   * History: speculative credits ever taken, credits given up without a pull, calls of the
   * closure, and calls made before the stream was dropped.
   */
  datatype Tally = Tally(speculated: nat, abandoned: nat, started: nat, startedAtDrop: nat)

  datatype Stream = Stream(
    coordinator: Coordinator,
    host: Host,
    owner: Owner,
    drain: Drain,
    channel: Channel,
    demand: Semaphore,
    consumer: Consumer,
    tally: Tally)

  datatype Action =
    | Poll                        // add demand unless a request is pending
    | Take                        // receive the next item
    | SeeEnd                      // receive None
    | SeePanic                    // the producer's panic is resumed on the consumer
    | DropStream
    | Coordinate(spawns: bool)    // next atomic operation of the coordinator; `spawns`: would a thread spawn succeed
    | Abort                       // the JoinSet's abort takes effect
    | Work                        // next atomic operation of the pull host
    | Dispose                     // the detached drop task runs

  datatype Stepped = Blocked | Moved(s: Stream, b: Budget)

  /** A freshly spawned stream. */
  predicate Fresh(s: Stream) {
    && s.coordinator.Unpolled? && s.host.Unbuilt? && s.owner.Captured?
    && s.drain == Drain(NoRound, None, 0)
    && s.channel == Channel([], 0, [])
    && s.demand == Semaphore(0, 0, 0)
    && s.consumer == Consumer(false, Open, false, [])
    && s.tally == Tally(0, 0, 0, 0)
  }

  // ----- small updates

  function SpecOf(c: Credit): nat {
    if c.Speculative? then 1 else 0
  }

  function GiveBack(b: Budget, n: nat): Budget {
    b.(spec := b.spec + n)
  }

  predicate CanSpeculate(cfg: Config, b: Budget) {
    cfg.readAhead.Buffered? && b.spec > 0
  }

  function WithRound(s: Stream, r: Round): Stream {
    s.(drain := s.drain.(round := r))
  }

  /** `try_acquire` followed by `forget`. */
  function TakePermit(d: Semaphore): Semaphore {
    if d.permits == 0 then d else d.(permits := d.permits - 1, taken := d.taken + 1)
  }

  predicate SlotFree(c: Channel) {
    |c.queue| + c.reserved < CHANNEL_CAPACITY
  }

  function ReserveSlot(c: Channel): Channel {
    c.(reserved := c.reserved + 1)
  }

  function ReleaseSlot(c: Channel): Channel {
    if c.reserved == 0 then c else c.(reserved := c.reserved - 1)
  }

  /** `permit.send`: the reserved slot becomes a message, or nothing once the receiver is gone. */
  function Send(c: Channel, closed: bool, items: seq<Item>): Channel {
    var free := ReleaseSlot(c);
    free.(queue := if closed then c.queue else c.queue + items, sent := c.sent + items)
  }

  function Speculate(t: Tally): Tally {
    t.(speculated := t.speculated + 1)
  }

  function Abandon(t: Tally): Tally {
    t.(abandoned := t.abandoned + 1)
  }

  // ----- consumer

  function PollNext(s: Stream, b: Budget): Stepped {
    if s.consumer.dropped || s.consumer.view.SawPanic? then Blocked
    else if s.consumer.requested then Moved(s, b)
    else Moved(s.(demand := s.demand.(permits := s.demand.permits + 1, added := s.demand.added + 1),
                  consumer := s.consumer.(requested := true)), b)
  }

  function TakeNext(s: Stream, b: Budget): Stepped {
    if s.consumer.dropped || !s.consumer.view.Open? || !s.consumer.requested || s.channel.queue == [] then Blocked
    else Moved(s.(consumer := s.consumer.(requested := false, delivered := s.consumer.delivered + [s.channel.queue[0]]),
                  channel := s.channel.(queue := s.channel.queue[1..])), b)
  }

  /** The channel ends when its senders are gone, which is when the coordinator has finished. */
  function SeeEndNext(s: Stream, b: Budget): Stepped {
    if s.consumer.dropped || s.consumer.view.SawPanic? || !s.consumer.requested || s.channel.queue != []
       || s.coordinator != Finished(Broke)
    then Blocked
    else Moved(s.(consumer := s.consumer.(view := SawEnd)), b)
  }

  function SeePanicNext(s: Stream, b: Budget): Stepped {
    if s.consumer.dropped || !s.consumer.view.Open? || !s.consumer.requested
       || !s.coordinator.Finished? || s.coordinator.exit.Broke?
    then Blocked
    else Moved(s.(consumer := s.consumer.(view := SawPanic)), b)
  }

  function DropNext(s: Stream, b: Budget): Stepped {
    if s.consumer.dropped then Blocked
    else Moved(s.(consumer := s.consumer.(dropped := true),
                  channel := s.channel.(queue := []),
                  tally := s.tally.(startedAtDrop := s.tally.started)), b)
  }

  // ----- coordinator

  predicate Done(c: Coordinator) {
    c.Finished? || c.Aborted?
  }

  /** Dropping the host: a guarded closure goes to a detached drop task, a job sender just closes. */
  function Leave(s: Stream, c: Coordinator): Stream {
    s.(coordinator := c, owner := if s.owner.InGuard? then InDisposal else s.owner)
  }

  /** Leaving with a credit that was never spent. */
  function LeaveUnspent(s: Stream, b: Budget, credit: Credit, c: Coordinator): Stepped {
    Moved(Leave(s.(tally := Abandon(s.tally)), c), GiveBack(b, SpecOf(credit)))
  }

  function BuildHost(s: Stream, b: Budget, spawns: bool): Stepped {
    if b.threads > 0 && spawns
    then Moved(s.(coordinator := Top, host := Affine(Spawned), owner := Mailbox), b.(threads := b.threads - 1))
    else Moved(s.(coordinator := Top, host := Pool, owner := InGuard), b)
  }

  function Dispatch(s: Stream, b: Budget, c: Credit): Stepped {
    if s.host.Affine? && s.host.thread.Exited? then
      // the send fails; the job drops with its slot and credit
      LeaveUnspent(s.(channel := ReleaseSlot(s.channel)), b, c, Finished(Broke))
    else if s.host.Affine? then
      Moved(s.(coordinator := InRound, drain := Drain(Queued, Some(c), 0)), b)
    else if s.owner.InGuard? then
      Moved(s.(coordinator := InRound, drain := Drain(Queued, Some(c), 0), owner := InTask), b)
    else
      LeaveUnspent(s.(channel := ReleaseSlot(s.channel)), b, c, Finished(TookEmpty))
  }

  function Receive(s: Stream, b: Budget): Stepped {
    if !s.drain.round.Reported? then Blocked
    else
      var back := s.(drain := s.drain.(round := NoRound), owner := if s.owner.InOutput? then InGuard else s.owner);
      match s.drain.round.outcome
      case More => Moved(back.(coordinator := Top), b)
      case Ended => Moved(Leave(back, Finished(Broke)), b)
      case Unwound => Moved(Leave(back, Finished(Panicked)), b)
  }

  function CoordinateNext(cfg: Config, s: Stream, b: Budget, spawns: bool): Stepped {
    match s.coordinator
    case Unpolled => BuildHost(s, b, spawns)
    case Top =>
      if s.demand.permits > 0
      then Moved(s.(coordinator := Reserving(Demanded), demand := TakePermit(s.demand)), b)
      else Moved(s.(coordinator := TryBudget), b)
    case TryBudget =>
      if CanSpeculate(cfg, b)
      then Moved(s.(coordinator := Reserving(Speculative), tally := Speculate(s.tally)), b.(spec := b.spec - 1))
      else Moved(s.(coordinator := Parked), b)
    case Parked =>
      if s.demand.permits > 0
      then Moved(s.(coordinator := Reserving(Demanded), demand := TakePermit(s.demand)), b)
      else Blocked
    case Reserving(c) =>
      if s.consumer.dropped then LeaveUnspent(s, b, c, Finished(Broke))
      else if SlotFree(s.channel) then Moved(s.(coordinator := Dispatching(c), channel := ReserveSlot(s.channel)), b)
      else Blocked
    case Dispatching(c) => Dispatch(s, b, c)
    case InRound => Receive(s, b)
    case Finished(_) => Blocked
    case Aborted(_) => Blocked
  }

  /** An abort lands only where the coordinator awaits, or before its first poll. */
  function AbortNext(s: Stream, b: Budget): Stepped {
    if !s.consumer.dropped then Blocked
    else match s.coordinator
      case Unpolled =>
        Moved(s.(coordinator := Aborted(BeforeFirstPoll), owner := Destroyed(AsyncWorker)), b)
      case Parked => Moved(Leave(s, Aborted(Elsewhere)), b)
      case Reserving(c) => LeaveUnspent(s, b, c, Aborted(Elsewhere))
      case InRound =>
        if s.drain.round.Reported? && s.owner.InOutput?
        then Moved(s.(coordinator := Aborted(OutputUnjoined), drain := s.drain.(round := NoRound),
                      owner := Destroyed(AsyncWorker)), b)
        else if s.drain.round.Reported?
        then Moved(s.(coordinator := Aborted(Elsewhere), drain := s.drain.(round := NoRound)), b)
        else Moved(s.(coordinator := Aborted(Elsewhere)), b)
      case _ => Blocked
  }

  // ----- pull host

  /** Return from the drain: the credits it drew are dropped. */
  function ReturnFrom(s: Stream, b: Budget, o: Outcome): Stepped {
    Moved(s.(drain := s.drain.(round := Leaving(o), extra := 0)), GiveBack(b, s.drain.extra))
  }

  function PullReturns(cfg: Config, s: Stream, b: Budget): Stepped {
    if s.tally.started == 0 then Blocked
    else
      var p := cfg.reader(s.tally.started - 1);
      var s1 := s.(channel := Send(s.channel, s.consumer.dropped, ItemsOf(cfg.schema, p)));
      if Continues(cfg.schema, p) then Moved(WithRound(s1, Sent), b)
      else ReturnFrom(s1, b, if p.Panic? then Unwound else Ended)
  }

  /** The round's own credit is dropped, then the outcome is handed over. */
  function Report(s: Stream, b: Budget, o: Outcome): Stepped {
    var heard := s.coordinator.InRound?;
    var s1 := s.(drain := s.drain.(round := if heard then Reported(o) else NoRound, jobCredit := None));
    var b1 := if s.drain.jobCredit.Some? then GiveBack(b, SpecOf(s.drain.jobCredit.value)) else b;
    if s.host.Affine? then
      Moved(s1.(host := Affine(if o.More? then Idle else Exiting)), b1)
    else
      Moved(s1.(owner := if heard && !o.Unwound? then InOutput else Destroyed(BlockingPool)), b1)
  }

  function ExitThread(s: Stream, b: Budget): Stepped {
    Moved(s.(host := Affine(Exited), owner := Destroyed(PullThread)), b.(threads := b.threads + 1))
  }

  /** A pull thread outside of a round: it takes the reader, waits for jobs, and exits when told to. */
  function ThreadNext(s: Stream, b: Budget): Stepped {
    if !s.host.Affine? then Blocked
    else match s.host.thread
      case Spawned => Moved(s.(host := Affine(Idle), owner := OnThread), b)
      case Idle => if Done(s.coordinator) then ExitThread(s, b) else Blocked
      case Exiting => ExitThread(s, b)
      case _ => Blocked
  }

  function BeginRound(s: Stream, b: Budget): Stepped {
    if !s.host.Affine? then Moved(WithRound(s, Ready), b)
    else if s.host.thread.Spawned? then ThreadNext(s, b)
    else if s.host.thread.Idle? then Moved(WithRound(s, Ready).(host := Affine(Busy)), b)
    else Blocked
  }

  function WorkNext(cfg: Config, s: Stream, b: Budget): Stepped {
    match s.drain.round
    case NoRound => ThreadNext(s, b)
    case Reported(_) => ThreadNext(s, b)
    case Queued => BeginRound(s, b)
    case Ready => Moved(WithRound(s, Pulling).(tally := s.tally.(started := s.tally.started + 1)), b)
    case Pulling => PullReturns(cfg, s, b)
    case Sent =>
      if s.consumer.dropped || !SlotFree(s.channel) then ReturnFrom(s, b, More)
      else Moved(WithRound(s, Slotted).(channel := ReserveSlot(s.channel)), b)
    case Slotted =>
      if s.demand.permits > 0
      then Moved(WithRound(s, Ready).(demand := TakePermit(s.demand)), b)
      else Moved(WithRound(s, SlottedDry), b)
    case SlottedDry =>
      if CanSpeculate(cfg, b)
      then Moved(s.(drain := s.drain.(round := Ready, extra := s.drain.extra + 1), tally := Speculate(s.tally)),
                 b.(spec := b.spec - 1))
      else ReturnFrom(s.(channel := ReleaseSlot(s.channel)), b, More)
    case Leaving(o) => Report(s, b, o)
  }

  function DisposeNext(s: Stream, b: Budget): Stepped {
    if s.owner.InDisposal? then Moved(s.(owner := Destroyed(BlockingPool)), b) else Blocked
  }

  function Next(cfg: Config, a: Action, s: Stream, b: Budget): Stepped {
    match a
    case Poll => PollNext(s, b)
    case Take => TakeNext(s, b)
    case SeeEnd => SeeEndNext(s, b)
    case SeePanic => SeePanicNext(s, b)
    case DropStream => DropNext(s, b)
    case Coordinate(spawns) => CoordinateNext(cfg, s, b, spawns)
    case Abort => AbortNext(s, b)
    case Work => WorkNext(cfg, s, b)
    case Dispose => DisposeNext(s, b)
  }

  /** Steps the producer side takes on its own. */
  predicate Internal(a: Action) {
    a.Coordinate? || a.Abort? || a.Work? || a.Dispose?
  }

  // ----- runs

  /**
   * A run of one stream: at each step the budgets hold whatever the rest of the process left
   * there, and the stream takes one action.
   */
  datatype Event = Event(action: Action, budget: Budget)

  function Run(cfg: Config, s: Stream, events: seq<Event>): Option<Stream>
    decreases |events|
  {
    if events == [] then Some(s)
    else
      match Next(cfg, events[0].action, s, events[0].budget)
      case Blocked => None
      case Moved(s', _) => Run(cfg, s', events[1..])
  }

  /** `s` is reachable: some run leads to it from the start. */
  ghost predicate Reachable(cfg: Config, s: Stream) {
    exists start, events :: Fresh(start) && Run(cfg, start, events) == Some(s)
  }
}
