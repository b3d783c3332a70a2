/** Runs that show the bounds are met and where the documented promises stop. */
module BridgeWitness {
  import opened Options
  import opened Schema
  import opened Reading
  import opened Bridge
  import opened BridgeInvariants
  import opened BridgeTheorems
  import opened BridgeProgress

  /** A reader that always answers with a matching batch. */
  function Endless(): Reader {
    n => Batch(RecordBatch([], []))
  }

  ghost predicate Steady(cfg: Config) {
    forall n: nat :: Continues(cfg.schema, cfg.reader(n))
  }

  /** One drain step after another until the batch of a pull that is due is in the channel. */
  lemma {:induction false} PullOne(cfg: Config, s: Stream, b: Budget) returns (s': Stream)
    requires Reachable(cfg, s) && Steady(cfg) && s.drain.round.Ready?
    ensures Reachable(cfg, s')
    ensures s' == s.(drain := s.drain.(round := Sent),
                     channel := Send(s.channel, s.consumer.dropped, ItemsOf(cfg.schema, cfg.reader(s.tally.started))),
                     tally := s.tally.(started := s.tally.started + 1))
  {
    s' := ReachableStep(cfg, Work, s, b);
    s' := ReachableStep(cfg, Work, s', b);
  }

  /** From a loop head with no demand: a speculative credit is taken and a pool round begins. */
  lemma {:induction false} BeginSpeculativeRound(cfg: Config, s: Stream, b: Budget) returns (s': Stream)
    requires Reachable(cfg, s) && cfg.readAhead.Buffered? && b.spec > 0
    requires s.coordinator.Top? && s.host.Pool? && s.demand.permits == 0
    requires !s.consumer.dropped && SlotFree(s.channel)
    ensures Reachable(cfg, s')
    ensures s' == s.(coordinator := InRound, owner := InTask, drain := Drain(Ready, Some(Speculative), 0),
                     channel := ReserveSlot(s.channel), tally := Speculate(s.tally))
  {
    ReachableInv(cfg, s);
    s' := ReachableStep(cfg, Coordinate(true), s, b);
    s' := ReachableStep(cfg, Coordinate(true), s', b);
    s' := ReachableStep(cfg, Coordinate(true), s', b);
    s' := ReachableStep(cfg, Coordinate(true), s', b);
    s' := ReachableStep(cfg, Work, s', b);
  }

  /** From a drain that cannot go on: the round returns and the coordinator is at its loop head. */
  lemma {:induction false} EndRound(cfg: Config, s: Stream, b: Budget) returns (s': Stream)
    requires Reachable(cfg, s) && s.host.Pool? && s.coordinator.InRound? && s.drain.round == Leaving(More)
    ensures Reachable(cfg, s')
    ensures s' == s.(coordinator := Top, owner := InGuard, drain := s.drain.(round := NoRound, jobCredit := None))
  {
    ReachableInv(cfg, s);
    s' := ReachableStep(cfg, Work, s, b);
    s' := ReachableStep(cfg, Coordinate(true), s', b);
  }

  lemma {:induction false} FreshStream() returns (s: Stream)
    ensures Fresh(s)
  {
    s := Stream(Unpolled, Unbuilt, Captured, Drain(NoRound, None, 0), Channel([], 0, []), Semaphore(0, 0, 0),
                Consumer(false, Open, false, []), Tally(0, 0, 0, 0));
  }

  lemma {:induction false} PoolStart(cfg: Config, b: Budget) returns (s: Stream)
    ensures Reachable(cfg, s) && s.coordinator.Top? && s.host.Pool? && s.owner.InGuard?
    ensures s.drain == Drain(NoRound, None, 0) && s.channel == Channel([], 0, []) && s.demand == Semaphore(0, 0, 0)
    ensures s.consumer == Consumer(false, Open, false, []) && s.tally == Tally(0, 0, 0, 0)
  {
    s := FreshStream();
    ReachableStart(cfg, s);
    s := ReachableStep(cfg, Coordinate(false), s, b);
  }

  /** A pool stream that has speculated one batch into the channel; its drain is about to go on. */
  lemma {:induction false} OneSpeculated(cfg: Config, b: Budget) returns (s: Stream)
    requires Steady(cfg) && cfg.readAhead.Buffered? && b.spec > 0
    ensures Reachable(cfg, s)
    ensures s.coordinator.InRound? && s.host.Pool? && s.owner.InTask?
    ensures s.drain == Drain(Sent, Some(Speculative), 0)
    ensures |s.channel.queue| == 1 && s.channel.reserved == 0
    ensures s.demand == Semaphore(0, 0, 0) && s.consumer == Consumer(false, Open, false, [])
    ensures s.tally == Tally(1, 0, 1, 0)
  {
    s := PoolStart(cfg, b);
    s := BeginSpeculativeRound(cfg, s, b);
    assert |ItemsOf(cfg.schema, cfg.reader(s.tally.started))| == 1;
    s := PullOne(cfg, s, b);
  }

  /** The bound of nine speculative credits is met by a stream nobody has polled. */
  lemma {:induction false} NineSpeculativeCredits(cfg: Config, b: Budget) returns (s: Stream)
    requires Steady(cfg) && cfg.readAhead.Buffered? && b.spec > 0
    ensures Reachable(cfg, s)
    ensures s.tally.speculated == 9 && s.tally.started == 8 && s.demand.added == 0 && s.consumer.delivered == []
  {
    s := OneSpeculated(cfg, b);
    while |s.channel.queue| < 8
      invariant Reachable(cfg, s)
      invariant s.coordinator.InRound? && s.host.Pool? && s.drain.round.Sent?
      invariant !s.consumer.dropped && s.demand == Semaphore(0, 0, 0) && s.consumer.delivered == []
      invariant s.channel.reserved == 0 && 1 <= |s.channel.queue| <= 8
      invariant s.tally.started == |s.channel.queue| == s.tally.speculated
      decreases 8 - |s.channel.queue|
    {
      s := SpeculateOneMore(cfg, s, b);
    }
    s := ReachableStep(cfg, Work, s, b);
    s := EndRound(cfg, s, b);
    s := ReachableStep(cfg, Coordinate(true), s, b);
    s := ReachableStep(cfg, Coordinate(true), s, b);
  }

  lemma {:induction false} SpeculateOneMore(cfg: Config, s: Stream, b: Budget) returns (s': Stream)
    requires Reachable(cfg, s) && Steady(cfg) && cfg.readAhead.Buffered? && b.spec > 0
    requires s.drain.round.Sent? && !s.consumer.dropped && s.demand.permits == 0
    requires s.channel.reserved == 0 && |s.channel.queue| < 8
    ensures Reachable(cfg, s')
    ensures s'.(drain := s.drain, channel := s.channel, tally := s.tally) == s && s'.drain.round.Sent?
    ensures s'.channel.reserved == 0 && |s'.channel.queue| == |s.channel.queue| + 1
    ensures s'.tally.started == s.tally.started + 1 && s'.tally.speculated == s.tally.speculated + 1
  {
    s' := ReachableStep(cfg, Work, s, b);
    s' := ReachableStep(cfg, Work, s', b);
    s' := ReachableStep(cfg, Work, s', b);
    assert |ItemsOf(cfg.schema, cfg.reader(s'.tally.started))| == 1;
    s' := PullOne(cfg, s', b);
  }

  /** Window one: the stream is dropped before its coordinator is first polled. */
  lemma {:induction false} DroppedBeforeFirstPoll(cfg: Config, b: Budget) returns (s: Stream)
    ensures Reachable(cfg, s) && s.coordinator == Aborted(BeforeFirstPoll) && s.owner == Destroyed(AsyncWorker)
  {
    s := FreshStream();
    ReachableStart(cfg, s);
    s := ReachableStep(cfg, DropStream, s, b);
    s := ReachableStep(cfg, Abort, s, b);
  }

  /** Window two: the abort lands after a blocking task finished and before it is joined. */
  lemma {:induction false} DroppedBeforeJoin(cfg: Config, b: Budget) returns (s: Stream)
    requires Steady(cfg) && cfg.readAhead.Buffered? && b.spec > 0
    ensures Reachable(cfg, s) && s.coordinator == Aborted(OutputUnjoined) && s.owner == Destroyed(AsyncWorker)
  {
    s := OneSpeculated(cfg, b);
    s := ReachableStep(cfg, DropStream, s, b);
    s := ReachableStep(cfg, Work, s, b);
    s := ReachableStep(cfg, Work, s, b);
    s := ReachableStep(cfg, Abort, s, b);
  }

  /** The assumption of these runs is met. */
  lemma {:induction false} EndlessIsSteady(cfg: Config)
    requires cfg.reader == Endless() && cfg.schema == []
    ensures Steady(cfg)
  {
  }
}
