/** Progress: a waiting consumer is served, and a dropped stream gives everything back. */
module BridgeProgress {
  import opened Options
  import opened Schema
  import opened Reading
  import opened Bridge
  import opened BridgeInvariants

  // ----- a pending consumer

  /** The consumer has asked and there is nothing to give it yet. */
  predicate Waiting(s: Stream) {
    && s.consumer.requested && !s.consumer.dropped && s.consumer.view.Open?
    && s.channel.queue == [] && !s.coordinator.Finished?
  }

  function RoundRank(r: Round): nat {
    match r
    case Sent => 20
    case Slotted => 19
    case SlottedDry => 18
    case Leaving(o) => if o.More? then 17 else 5
    case Reported(o) => if o.More? then 16 else 4
    case Queued => 9
    case Ready => 8
    case Pulling => 7
    case NoRound => 0
  }

  function CoordinatorRank(s: Stream): nat {
    match s.coordinator
    case Unpolled => 15
    case Top => 14
    case TryBudget => 13
    case Parked => 12
    case Reserving(_) => 11
    case Dispatching(_) => 10
    case InRound => RoundRank(s.drain.round)
    case Finished(_) => 0
    case Aborted(_) => 0
  }

  /** Producer steps left until the next item, the end, or a panic, provided that pulls return. */
  function StepsToItem(s: Stream): (n: nat)
    ensures n <= 41
  {
    2 * CoordinatorRank(s) + Bit(s.host.Affine? && (s.host.thread.Spawned? || s.host.thread.Exiting?))
  }

  /** No lost demand: a waiting consumer's credit is in the semaphore, in hand, or in a running pull. */
  lemma {:induction false} WaitingIsFunded(cfg: Config, s: Stream)
    requires Inv(cfg, s) && Waiting(s)
    ensures s.demand.permits > 0 || InHand(s) > 0 || s.drain.round.Pulling? || NoMorePulls(s)
  {
    assert |s.channel.sent| == |s.consumer.delivered|;
  }

  /**
   * While the consumer waits, the producer can always take a step, whatever the budgets hold: either
   * a pull is running or the coordinator or its host can move.
   */
  lemma {:induction false} WaitingCanStep(cfg: Config, s: Stream, b: Budget)
    requires Inv(cfg, s) && Waiting(s)
    ensures Next(cfg, Coordinate(true), s, b).Moved? || Next(cfg, Work, s, b).Moved?
  {
    WaitingIsFunded(cfg, s);
  }

  lemma {:induction false} WaitingAdvancesCoordinator(cfg: Config, a: Action, s: Stream, b: Budget)
    requires Inv(cfg, s) && Waiting(s) && ByCoordinator(a) && Next(cfg, a, s, b).Moved?
    ensures var s' := Next(cfg, a, s, b).s; Waiting(s') ==> StepsToItem(s') < StepsToItem(s)
  {
    WaitingIsFunded(cfg, s);
  }

  lemma {:induction false} WaitingAdvances(cfg: Config, a: Action, s: Stream, b: Budget)
    requires Inv(cfg, s) && Waiting(s) && Internal(a) && Next(cfg, a, s, b).Moved?
    ensures var s' := Next(cfg, a, s, b).s; Waiting(s') ==> StepsToItem(s') < StepsToItem(s)
  {
    if ByCoordinator(a) {
      WaitingAdvancesCoordinator(cfg, a, s, b);
    } else {
      WaitingIsFunded(cfg, s);
      if a.Work? && s.drain.round.Pulling? {
        var p := cfg.reader(s.tally.started - 1);
        if Continues(cfg.schema, p) {
          assert ItemsOf(cfg.schema, p) == [Ok(p.batch)];
        }
      }
    }
  }

  lemma {:induction false} InternalKeepsConsumer(cfg: Config, a: Action, s: Stream, b: Budget)
    requires Internal(a) && Next(cfg, a, s, b).Moved?
    ensures Next(cfg, a, s, b).s.consumer == s.consumer
  {
  }

  /** A run is its first event followed by the rest. */
  lemma {:induction false} RunHead(cfg: Config, s: Stream, events: seq<Event>, k: nat)
    requires k < |events| && Next(cfg, events[0].action, s, events[0].budget).Moved?
    ensures Run(cfg, s, events[..k + 1])
         == Run(cfg, Next(cfg, events[0].action, s, events[0].budget).s, events[1..][..k])
  {
    assert events[..k + 1][1..] == events[1..][..k];
  }

  ghost predicate AllInternal(events: seq<Event>) {
    forall i :: 0 <= i < |events| ==> Internal(events[i].action)
  }

  /**
   * Progress: any schedule of producer steps longer than `StepsToItem` passes a state in which the
   * consumer need not wait, for every content of the budgets along the way.
   */
  lemma {:induction false} WaitingEnds(cfg: Config, s: Stream, events: seq<Event>) returns (k: nat)
    requires Inv(cfg, s) && AllInternal(events) && Run(cfg, s, events).Some?
    requires |events| > StepsToItem(s)
    ensures k <= |events| && Run(cfg, s, events[..k]).Some? && !Waiting(Run(cfg, s, events[..k]).value)
    ensures Run(cfg, s, events[..k]).value.consumer == s.consumer && Inv(cfg, Run(cfg, s, events[..k]).value)
    decreases |events|
  {
    if !Waiting(s) {
      k := 0;
    } else {
      var s' := Next(cfg, events[0].action, s, events[0].budget).s;
      InvStep(cfg, events[0].action, s, events[0].budget);
      WaitingAdvances(cfg, events[0].action, s, events[0].budget);
      InternalKeepsConsumer(cfg, events[0].action, s, events[0].budget);
      if Waiting(s') {
        k := WaitingEnds(cfg, s', events[1..]);
      } else {
        k := 0;
      }
      RunHead(cfg, s, events, k);
      k := k + 1;
    }
  }

  /** A consumer that asked and need not wait is answered by its next poll. */
  lemma {:induction false} NotWaitingIsServed(cfg: Config, s: Stream, b: Budget)
    requires Inv(cfg, s) && !Waiting(s)
    requires s.consumer.requested && !s.consumer.dropped && s.consumer.view.Open?
    ensures Next(cfg, Take, s, b).Moved? || Next(cfg, SeeEnd, s, b).Moved? || Next(cfg, SeePanic, s, b).Moved?
  {
  }

  /**
   * The promise to the consumer: after it has asked, every schedule of producer steps longer than
   * `StepsToItem` passes a point where a poll returns an item, the end, or the reader's panic.
   */
  lemma {:induction false} PendingConsumerIsServed(cfg: Config, s: Stream, events: seq<Event>, b: Budget) returns (k: nat)
    requires Reachable(cfg, s)
    requires s.consumer.requested && !s.consumer.dropped && s.consumer.view.Open?
    requires AllInternal(events) && Run(cfg, s, events).Some? && |events| > StepsToItem(s)
    ensures k <= |events| && Run(cfg, s, events[..k]).Some?
    ensures var now := Run(cfg, s, events[..k]).value;
            Next(cfg, Take, now, b).Moved? || Next(cfg, SeeEnd, now, b).Moved? || Next(cfg, SeePanic, now, b).Moved?
  {
    ReachableInv(cfg, s);
    k := WaitingEnds(cfg, s, events);
    NotWaitingIsServed(cfg, Run(cfg, s, events[..k]).value, b);
  }

  // ----- a dropped stream

  /** Speculation permits a stream holds: in the coordinator's hand, with the round, in the drain. */
  function SpecHeld(s: Stream): nat {
    (match s.coordinator
     case Reserving(c) => SpecOf(c)
     case Dispatching(c) => SpecOf(c)
     case _ => 0)
    + (if s.drain.jobCredit.Some? then SpecOf(s.drain.jobCredit.value) else 0)
    + s.drain.extra
  }

  /** Pull threads a stream holds. */
  function ThreadsHeld(s: Stream): nat {
    Bit(s.host.Affine? && !s.host.thread.Exited?)
  }

  /** Nothing is left of the stream: no credit, slot, thread or closure. */
  ghost predicate Released(s: Stream) {
    && Done(s.coordinator) && s.drain.round.NoRound?
    && SpecHeld(s) == 0 && ThreadsHeld(s) == 0 && s.channel.reserved == 0
    && s.owner.Destroyed?
  }

  function DroppedBase(s: Stream): nat {
    match s.drain.round
    case Queued => 29
    case Slotted => 28
    case SlottedDry => 27
    case Ready => 26
    case Pulling => 25
    case Sent => 24
    case Leaving(_) => 23
    case Reported(_) => 22
    case NoRound =>
      match s.coordinator
      case Unpolled => 22
      case Top => 21
      case TryBudget => 20
      case Parked => 19
      case Reserving(_) => 18
      case Dispatching(_) => 30
      case _ => 0
  }

  function ThreadRank(h: Host): nat {
    if !h.Affine? then 0
    else match h.thread
      case Spawned => 3
      case Idle => 2
      case Busy => 2
      case Exiting => 1
      case Exited => 0
  }

  /** Producer steps left until a dropped stream is released, provided that pulls return. */
  function StepsToRelease(s: Stream): nat {
    16 * DroppedBase(s) + 8 * Bit(!Done(s.coordinator)) + 2 * ThreadRank(s.host) + Bit(s.owner.InDisposal?)
  }

  /**
   * Cancellation does not wait for the reader: wherever the coordinator of a dropped stream awaits, the abort
   * lands in one step, even while a pull is stuck, and takes the credit it had in hand with it.
   */
  lemma {:induction false} AbortLands(cfg: Config, s: Stream, b: Budget)
    requires Reachable(cfg, s) && s.consumer.dropped
    requires s.coordinator.Unpolled? || s.coordinator.Parked? || s.coordinator.Reserving? || s.coordinator.InRound?
    ensures Next(cfg, Abort, s, b).Moved?
    ensures var m := Next(cfg, Abort, s, b);
            && m.s.coordinator.Aborted? && m.s.tally.started == s.tally.started
            && m.b.spec == b.spec + (if s.coordinator.Reserving? then SpecOf(s.coordinator.credit) else 0)
  {
    ReachableInv(cfg, s);
  }

  lemma {:induction false} DroppedAdvances(cfg: Config, a: Action, s: Stream, b: Budget)
    requires Inv(cfg, s) && s.consumer.dropped && Internal(a) && Next(cfg, a, s, b).Moved?
    ensures StepsToRelease(Next(cfg, a, s, b).s) < StepsToRelease(s)
    ensures Next(cfg, a, s, b).s.consumer.dropped
  {
  }

  /** A dropped stream in which nothing can move any more has given everything back. */
  lemma {:induction false} StuckMeansReleased(cfg: Config, s: Stream, b: Budget)
    requires Inv(cfg, s) && s.consumer.dropped
    requires forall a: Action :: Internal(a) ==> Next(cfg, a, s, b).Blocked?
    ensures Released(s)
  {
    assert Next(cfg, Coordinate(true), s, b).Blocked?;
    assert Next(cfg, Abort, s, b).Blocked?;
    assert Next(cfg, Work, s, b).Blocked?;
    assert Next(cfg, Dispose, s, b).Blocked?;
  }

  lemma {:induction false} DroppedRunEnds(cfg: Config, s: Stream, events: seq<Event>, b: Budget)
    requires Inv(cfg, s) && s.consumer.dropped
    requires AllInternal(events) && Run(cfg, s, events).Some?
    ensures |events| <= StepsToRelease(s)
    ensures (forall a: Action :: Internal(a) ==> Next(cfg, a, Run(cfg, s, events).value, b).Blocked?)
            ==> Released(Run(cfg, s, events).value)
    decreases |events|
  {
    if events == [] {
      if forall a: Action :: Internal(a) ==> Next(cfg, a, s, b).Blocked? {
        StuckMeansReleased(cfg, s, b);
      }
    } else {
      var s' := Next(cfg, events[0].action, s, events[0].budget).s;
      InvStep(cfg, events[0].action, s, events[0].budget);
      DroppedAdvances(cfg, events[0].action, s, events[0].budget);
      DroppedRunEnds(cfg, s', events[1..], b);
    }
  }

  /**
   * Cancellation: every schedule of producer steps of a dropped stream is finite, bounded by
   * `StepsToRelease`, and one that cannot be extended ends with every credit, slot, thread and the
   * closure released.
   */
  lemma {:induction false} DroppedIsReleased(cfg: Config, s: Stream, events: seq<Event>, b: Budget)
    requires Reachable(cfg, s) && s.consumer.dropped
    requires AllInternal(events) && Run(cfg, s, events).Some?
    ensures |events| <= StepsToRelease(s)
    ensures (forall a: Action :: Internal(a) ==> Next(cfg, a, Run(cfg, s, events).value, b).Blocked?)
            ==> Released(Run(cfg, s, events).value)
  {
    ReachableInv(cfg, s);
    DroppedRunEnds(cfg, s, events, b);
  }
}
