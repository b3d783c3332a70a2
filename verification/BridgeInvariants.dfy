/** What every step of the bridge keeps: shape, ownership, the credit ledger, the reading, cancellation. */
module BridgeInvariants {
  import opened Options
  import opened Schema
  import opened Reading
  import opened Bridge

  // ----- shape of the protocol state

  predicate RoundHoldsSlot(r: Round) {
    r.Queued? || r.Ready? || r.Pulling? || r.Slotted? || r.SlottedDry?
  }

  predicate Draining(r: Round) {
    r.Ready? || r.Pulling? || r.Sent? || r.Slotted? || r.SlottedDry? || r.Leaving?
  }

  predicate Active(r: Round) {
    r.Queued? || Draining(r)
  }

  function Bit(p: bool): nat {
    if p then 1 else 0
  }

  /** The slots held by the producer side: never more than one. */
  function SlotsHeld(s: Stream): nat {
    Bit(s.coordinator.Dispatching?) + Bit(RoundHoldsSlot(s.drain.round))
  }

  ghost predicate Shape(s: Stream) {
    && (s.coordinator.InRound? ==> !s.drain.round.NoRound?)
    && (s.coordinator.Aborted? ==> !s.drain.round.Reported?)
    && (!s.coordinator.InRound? && !s.coordinator.Aborted? ==> s.drain.round.NoRound?)
    && (s.coordinator.Aborted? ==> s.consumer.dropped)
    && (s.drain.jobCredit.Some? <==> Active(s.drain.round))
    && (s.drain.extra > 0 ==> Draining(s.drain.round) && !s.drain.round.Leaving?)
    && s.channel.reserved == SlotsHeld(s)
    && |s.channel.queue| + s.channel.reserved <= CHANNEL_CAPACITY
    && (s.consumer.dropped ==> s.channel.queue == [])
  }

  // ----- the closure has one owner, where the protocol says

  /** The round ended for good; the coordinator has not heard it yet. */
  predicate OverReported(s: Stream) {
    s.drain.round.Reported? && !s.drain.round.outcome.More?
  }

  ghost predicate Owned(s: Stream) {
    match s.host
    case Unbuilt =>
      || (s.coordinator.Unpolled? && s.owner.Captured?)
      || (s.coordinator == Aborted(BeforeFirstPoll) && s.owner == Destroyed(AsyncWorker) && s.drain.round.NoRound?)
    case Affine(thread) =>
      && !s.coordinator.Unpolled?
      && (s.coordinator.Aborted? ==> s.coordinator.window.Elsewhere?)
      && (thread.Busy? <==> Draining(s.drain.round))
      && (thread.Exiting? || thread.Exited? ==> Done(s.coordinator) || OverReported(s))
      && (OverReported(s) || (s.coordinator.Finished? && s.coordinator.exit.Panicked?) ==> thread.Exiting? || thread.Exited?)
      && (thread.Exited? ==> !Active(s.drain.round))
      && (thread.Exiting? ==> !Active(s.drain.round))
      && s.owner == (if thread.Spawned? then Mailbox else if thread.Exited? then Destroyed(PullThread) else OnThread)
    case Pool =>
      && !s.coordinator.Unpolled?
      && (s.coordinator.Aborted? ==> !s.coordinator.window.BeforeFirstPoll?)
      && (s.coordinator == Aborted(OutputUnjoined) ==> s.drain.round.NoRound?)
      && (Active(s.drain.round) <==> s.owner.InTask?)
      && (s.drain.round.Reported? && !s.drain.round.outcome.Unwound? <==> s.owner.InOutput?)
      && (s.drain.round.Reported? && s.drain.round.outcome.Unwound? ==> s.owner == Destroyed(BlockingPool))
      && (s.drain.round.NoRound? && !Done(s.coordinator) <==> s.owner.InGuard?)
      && (s.drain.round.NoRound? && Done(s.coordinator) ==>
            s.owner == if s.coordinator == Aborted(OutputUnjoined) then Destroyed(AsyncWorker)
                       else if s.owner.InDisposal? then InDisposal else Destroyed(BlockingPool))
  }

  ghost predicate NeverEmpty(s: Stream) {
    s.coordinator != Finished(TookEmpty)
  }

  ghost predicate Structure(s: Stream) {
    Shape(s) && Owned(s) && NeverEmpty(s)
  }

  // ----- the reading

  /** Calls of the closure that have returned. */
  function Completed(s: Stream): nat {
    if s.drain.round.Pulling? && s.tally.started > 0 then s.tally.started - 1 else s.tally.started
  }

  /** The last answer was an end without an item: exhaustion or a panic. */
  predicate Silent(cfg: Config, s: Stream) {
    Completed(s) > 0 && (cfg.reader(Completed(s) - 1).Exhausted? || cfg.reader(Completed(s) - 1).Panic?)
  }

  /** The last answer that came back ended the stream. */
  predicate Terminated(cfg: Config, s: Stream) {
    Completed(s) > 0 && !Continues(cfg.schema, cfg.reader(Completed(s) - 1))
  }

  /** No component may call the closure again. */
  predicate NoMorePulls(s: Stream) {
    || (s.drain.round.Leaving? && !s.drain.round.outcome.More?)
    || OverReported(s)
    || (Done(s.coordinator) && s.drain.round.NoRound?)
  }

  /** What went into the channel is the sequential reading, and nothing is called past its end. */
  ghost predicate Reads(cfg: Config, s: Stream) {
    && (s.drain.round.Pulling? ==> s.tally.started > 0)
    && (Completed(s) > 0 ==> OpenFor(cfg.reader, cfg.schema, Completed(s) - 1))
    && s.channel.sent == Read(cfg.reader, cfg.schema, 0, Completed(s))
    && (Terminated(cfg, s) ==> NoMorePulls(s))
  }

  predicate LastIsPanic(cfg: Config, s: Stream) {
    Completed(s) > 0 && cfg.reader(Completed(s) - 1).Panic?
  }

  /** An end that is reported, or acted on before the stream is dropped, is the reader's own. */
  ghost predicate EndsHonestly(cfg: Config, s: Stream) {
    && ((s.drain.round.Leaving? || s.drain.round.Reported?) && !s.drain.round.outcome.More? ==>
          Terminated(cfg, s) && (s.drain.round.outcome.Unwound? <==> LastIsPanic(cfg, s)))
    && (s.coordinator.Finished? && !s.consumer.dropped ==>
          Terminated(cfg, s) && (s.coordinator.exit.Panicked? <==> LastIsPanic(cfg, s)))
    && (s.coordinator.Finished? && s.coordinator.exit.Panicked? ==> Terminated(cfg, s))
  }

  /** What the consumer has seen. */
  ghost predicate Seen(cfg: Config, s: Stream) {
    && (!s.consumer.dropped ==> s.channel.sent == s.consumer.delivered + s.channel.queue)
    && s.consumer.delivered <= s.channel.sent
    && (s.consumer.view.SawEnd? ==>
          s.coordinator == Finished(Broke) && s.consumer.delivered == s.channel.sent
          && Terminated(cfg, s) && !LastIsPanic(cfg, s))
    && (s.consumer.view.SawPanic? ==>
          s.coordinator == Finished(Panicked) && Terminated(cfg, s) && LastIsPanic(cfg, s))
  }

  ghost predicate Faithful(cfg: Config, s: Stream) {
    Reads(cfg, s) && EndsHonestly(cfg, s) && Seen(cfg, s)
  }

  // ----- the credit ledger

  /** Credit taken and not yet spent on a pull. */
  function InHand(s: Stream): nat {
    Bit(s.coordinator.Reserving? || s.coordinator.Dispatching?) + Bit(s.drain.round.Queued? || s.drain.round.Ready?)
  }

  /** Every credit is accounted for: granted, taken, in hand, spent on a pull, or given up. */
  ghost predicate Balanced(s: Stream) {
    && s.demand.added == |s.consumer.delivered| + Bit(s.consumer.requested)
    && s.demand.permits + s.demand.taken == s.demand.added
    && s.demand.taken + s.tally.speculated == s.tally.started + InHand(s) + s.tally.abandoned
    && (s.tally.abandoned > 0 ==> s.consumer.dropped && Done(s.coordinator))
    && s.tally.abandoned <= 1
  }

  /** Every pull has its slot: the producer runs at most the channel's capacity ahead. */
  ghost predicate Bounded(cfg: Config, s: Stream) {
    && s.tally.started == |s.channel.sent| + Bit(s.drain.round.Pulling?) + Bit(Silent(cfg, s))
    && |s.channel.sent| + s.channel.reserved + Bit(Silent(cfg, s)) <= |s.consumer.delivered| + CHANNEL_CAPACITY
  }

  /** Speculation stops at one credit beyond the channel's capacity, and never starts on demand. */
  ghost predicate Speculated(cfg: Config, s: Stream) {
    && s.tally.speculated <= CHANNEL_CAPACITY + 1
    && (s.coordinator.TryBudget? || s.drain.round.SlottedDry? ==> s.tally.speculated <= CHANNEL_CAPACITY)
    && (cfg.readAhead.OnDemand? ==> s.tally.speculated == 0)
  }

  ghost predicate Ledger(cfg: Config, s: Stream) {
    Balanced(s) && Bounded(cfg, s) && Speculated(cfg, s)
  }

  // ----- cancellation

  /** A slot is held for a pull that has not started. */
  predicate MayStart(s: Stream) {
    s.coordinator.Dispatching? || s.drain.round.Queued? || s.drain.round.Ready? || s.drain.round.Slotted? || s.drain.round.SlottedDry?
  }

  ghost predicate Cancelled(s: Stream) {
    s.consumer.dropped ==> s.tally.startedAtDrop <= s.tally.started && s.tally.started + Bit(MayStart(s)) <= s.tally.startedAtDrop + 1
  }

  ghost predicate Inv(cfg: Config, s: Stream) {
    Structure(s) && Faithful(cfg, s) && Ledger(cfg, s) && Cancelled(s)
  }

  // ----- preservation, one aspect and one component at a time

  predicate ByCoordinator(a: Action) {
    a.Coordinate? || a.Abort?
  }

  lemma {:induction false} StructureCoordinator(cfg: Config, a: Action, s: Stream, b: Budget)
    requires Structure(s) && ByCoordinator(a) && Next(cfg, a, s, b).Moved?
    ensures Structure(Next(cfg, a, s, b).s)
  {
  }

  lemma {:induction false} ShapeWork(cfg: Config, a: Action, s: Stream, b: Budget)
    requires Shape(s) && a.Work? && Next(cfg, a, s, b).Moved?
    ensures Shape(Next(cfg, a, s, b).s)
  {
  }

  lemma {:induction false} OwnedWork(cfg: Config, a: Action, s: Stream, b: Budget)
    requires Structure(s) && a.Work? && Next(cfg, a, s, b).Moved?
    ensures Owned(Next(cfg, a, s, b).s) && NeverEmpty(Next(cfg, a, s, b).s)
  {
  }

  lemma {:induction false} StructureStep(cfg: Config, a: Action, s: Stream, b: Budget)
    requires Structure(s) && Next(cfg, a, s, b).Moved?
    ensures Structure(Next(cfg, a, s, b).s)
  {
    if ByCoordinator(a) {
      StructureCoordinator(cfg, a, s, b);
    } else if a.Work? {
      ShapeWork(cfg, a, s, b);
      OwnedWork(cfg, a, s, b);
    }
  }

  lemma {:induction false} CancelledStep(cfg: Config, a: Action, s: Stream, b: Budget)
    requires Structure(s) && Cancelled(s) && Next(cfg, a, s, b).Moved?
    ensures Cancelled(Next(cfg, a, s, b).s)
  {
  }

  lemma {:induction false} FaithfulPull(cfg: Config, a: Action, s: Stream, b: Budget)
    requires Structure(s) && Faithful(cfg, s) && s.drain.round.Pulling?
    requires a.Work? && Next(cfg, a, s, b).Moved?
    ensures Faithful(cfg, Next(cfg, a, s, b).s)
  {
    ReadExtends(cfg.reader, cfg.schema, 0, s.tally.started - 1);
    assert !Terminated(cfg, s);
  }

  /** Any step but the return of a pull leaves what has been read alone. */
  lemma {:induction false} ReadingUntouched(cfg: Config, a: Action, s: Stream, b: Budget)
    requires !(a.Work? && s.drain.round.Pulling?) && Next(cfg, a, s, b).Moved?
    requires Shape(s) && Reads(cfg, s)
    ensures Completed(Next(cfg, a, s, b).s) == Completed(s)
    ensures Next(cfg, a, s, b).s.channel.sent == s.channel.sent
  {
  }

  lemma {:induction false} ReadsStep(cfg: Config, a: Action, s: Stream, b: Budget)
    requires !(a.Work? && s.drain.round.Pulling?) && Next(cfg, a, s, b).Moved?
    requires Structure(s) && Reads(cfg, s) && EndsHonestly(cfg, s)
    ensures Reads(cfg, Next(cfg, a, s, b).s)
  {
    ReadingUntouched(cfg, a, s, b);
  }

  lemma {:induction false} EndsHonestlyStep(cfg: Config, a: Action, s: Stream, b: Budget)
    requires !(a.Work? && s.drain.round.Pulling?) && Next(cfg, a, s, b).Moved?
    requires Structure(s) && Reads(cfg, s) && EndsHonestly(cfg, s)
    ensures EndsHonestly(cfg, Next(cfg, a, s, b).s)
  {
    ReadingUntouched(cfg, a, s, b);
  }

  lemma {:induction false} SeenInternal(cfg: Config, a: Action, s: Stream, b: Budget)
    requires !(a.Work? && s.drain.round.Pulling?) && Internal(a) && Next(cfg, a, s, b).Moved?
    requires Structure(s) && Faithful(cfg, s)
    ensures Seen(cfg, Next(cfg, a, s, b).s)
  {
    ReadingUntouched(cfg, a, s, b);
  }

  lemma {:induction false} SeenByConsumer(cfg: Config, a: Action, s: Stream, b: Budget)
    requires !Internal(a) && Next(cfg, a, s, b).Moved?
    requires Structure(s) && Faithful(cfg, s)
    ensures Seen(cfg, Next(cfg, a, s, b).s)
  {
    ReadingUntouched(cfg, a, s, b);
  }

  lemma {:induction false} SeenStep(cfg: Config, a: Action, s: Stream, b: Budget)
    requires !(a.Work? && s.drain.round.Pulling?) && Next(cfg, a, s, b).Moved?
    requires Structure(s) && Faithful(cfg, s)
    ensures Seen(cfg, Next(cfg, a, s, b).s)
  {
    if Internal(a) {
      SeenInternal(cfg, a, s, b);
    } else {
      SeenByConsumer(cfg, a, s, b);
    }
  }

  lemma {:induction false} FaithfulStep(cfg: Config, a: Action, s: Stream, b: Budget)
    requires Structure(s) && Faithful(cfg, s) && Next(cfg, a, s, b).Moved?
    ensures Faithful(cfg, Next(cfg, a, s, b).s)
  {
    if a.Work? && s.drain.round.Pulling? {
      FaithfulPull(cfg, a, s, b);
    } else {
      ReadsStep(cfg, a, s, b);
      EndsHonestlyStep(cfg, a, s, b);
      SeenStep(cfg, a, s, b);
    }
  }

  lemma {:induction false} BalancedCoordinator(cfg: Config, a: Action, s: Stream, b: Budget)
    requires Structure(s) && Balanced(s) && ByCoordinator(a) && Next(cfg, a, s, b).Moved?
    ensures Balanced(Next(cfg, a, s, b).s)
  {
  }

  lemma {:induction false} BalancedWork(cfg: Config, a: Action, s: Stream, b: Budget)
    requires Shape(s) && Balanced(s) && a.Work? && Next(cfg, a, s, b).Moved?
    ensures Balanced(Next(cfg, a, s, b).s)
  {
  }

  lemma {:induction false} BalancedStep(cfg: Config, a: Action, s: Stream, b: Budget)
    requires Structure(s) && Balanced(s) && Next(cfg, a, s, b).Moved?
    ensures Balanced(Next(cfg, a, s, b).s)
  {
    if ByCoordinator(a) {
      BalancedCoordinator(cfg, a, s, b);
    } else if a.Work? {
      BalancedWork(cfg, a, s, b);
    }
  }

  lemma {:induction false} BoundedPull(cfg: Config, a: Action, s: Stream, b: Budget)
    requires Shape(s) && Faithful(cfg, s) && Bounded(cfg, s) && s.drain.round.Pulling?
    requires a.Work? && Next(cfg, a, s, b).Moved?
    ensures Bounded(cfg, Next(cfg, a, s, b).s)
  {
    assert !Terminated(cfg, s);
  }

  /** A free slot before the stream is dropped is room for one more item. */
  lemma {:induction false} SlotIsRoom(cfg: Config, s: Stream)
    requires Shape(s) && Faithful(cfg, s) && Bounded(cfg, s)
    requires !s.consumer.dropped && SlotFree(s.channel) && !NoMorePulls(s)
    ensures |s.channel.sent| + s.channel.reserved + 1 <= |s.consumer.delivered| + CHANNEL_CAPACITY
    ensures !Silent(cfg, s)
  {
  }

  lemma {:induction false} BoundedWork(cfg: Config, a: Action, s: Stream, b: Budget)
    requires Shape(s) && Faithful(cfg, s) && Bounded(cfg, s) && !s.drain.round.Pulling?
    requires a.Work? && Next(cfg, a, s, b).Moved?
    ensures Bounded(cfg, Next(cfg, a, s, b).s)
  {
    if s.drain.round.Sent? && !s.consumer.dropped && SlotFree(s.channel) {
      SlotIsRoom(cfg, s);
    }
  }

  lemma {:induction false} BoundedCoordinator(cfg: Config, a: Action, s: Stream, b: Budget)
    requires Shape(s) && Faithful(cfg, s) && Bounded(cfg, s) && ByCoordinator(a) && Next(cfg, a, s, b).Moved?
    ensures Bounded(cfg, Next(cfg, a, s, b).s)
  {
    if s.coordinator.Reserving? && !s.consumer.dropped && SlotFree(s.channel) {
      SlotIsRoom(cfg, s);
    }
  }

  lemma {:induction false} BoundedStep(cfg: Config, a: Action, s: Stream, b: Budget)
    requires Shape(s) && Faithful(cfg, s) && Bounded(cfg, s) && Next(cfg, a, s, b).Moved?
    ensures Bounded(cfg, Next(cfg, a, s, b).s)
  {
    if ByCoordinator(a) {
      BoundedCoordinator(cfg, a, s, b);
    } else if a.Work? {
      if s.drain.round.Pulling? {
        BoundedPull(cfg, a, s, b);
      } else {
        BoundedWork(cfg, a, s, b);
      }
    }
  }

  /** With no demand left and no credit in hand, all that was speculated fits the channel. */
  lemma {:induction false} DryMeansRoom(cfg: Config, s: Stream)
    requires Shape(s) && Balanced(s) && Bounded(cfg, s)
    requires s.demand.permits == 0 && InHand(s) == 0 && !Done(s.coordinator)
    ensures s.tally.speculated <= CHANNEL_CAPACITY
  {
  }

  lemma {:induction false} SpeculatedStep(cfg: Config, a: Action, s: Stream, b: Budget)
    requires Shape(s) && Ledger(cfg, s) && Next(cfg, a, s, b).Moved?
    ensures Speculated(cfg, Next(cfg, a, s, b).s)
  {
    if s.demand.permits == 0 && InHand(s) == 0 && (s.coordinator.Top? || s.drain.round.Slotted?) {
      if !Done(s.coordinator) {
        DryMeansRoom(cfg, s);
      }
    }
  }

  lemma {:induction false} LedgerStep(cfg: Config, a: Action, s: Stream, b: Budget)
    requires Structure(s) && Faithful(cfg, s) && Ledger(cfg, s) && Next(cfg, a, s, b).Moved?
    ensures Ledger(cfg, Next(cfg, a, s, b).s)
  {
    BalancedStep(cfg, a, s, b);
    BoundedStep(cfg, a, s, b);
    SpeculatedStep(cfg, a, s, b);
  }

  lemma {:induction false} InvStep(cfg: Config, a: Action, s: Stream, b: Budget)
    requires Inv(cfg, s) && Next(cfg, a, s, b).Moved?
    ensures Inv(cfg, Next(cfg, a, s, b).s)
  {
    StructureStep(cfg, a, s, b);
    FaithfulStep(cfg, a, s, b);
    LedgerStep(cfg, a, s, b);
    CancelledStep(cfg, a, s, b);
  }

  lemma {:induction false} InvRun(cfg: Config, s: Stream, events: seq<Event>)
    requires Inv(cfg, s) && Run(cfg, s, events).Some?
    ensures Inv(cfg, Run(cfg, s, events).value)
    decreases |events|
  {
    if events != [] {
      InvStep(cfg, events[0].action, s, events[0].budget);
      InvRun(cfg, Next(cfg, events[0].action, s, events[0].budget).s, events[1..]);
    }
  }

  lemma {:induction false} InvInit(cfg: Config, s: Stream)
    requires Fresh(s)
    ensures Inv(cfg, s)
  {
  }

  lemma {:induction false} InvFromStart(cfg: Config, start: Stream, events: seq<Event>)
    requires Fresh(start) && Run(cfg, start, events).Some?
    ensures Inv(cfg, Run(cfg, start, events).value)
  {
    InvInit(cfg, start);
    InvRun(cfg, start, events);
  }

  lemma {:induction false} ReachableInv(cfg: Config, s: Stream)
    requires Reachable(cfg, s)
    ensures Inv(cfg, s)
  {
    var start, events :| Fresh(start) && Run(cfg, start, events) == Some(s);
    InvFromStart(cfg, start, events);
  }
}
