/** What the bridge promises, for every reachable state of every stream. */
module BridgeTheorems {
  import opened Options
  import opened Schema
  import opened Reading
  import opened Bridge
  import opened BridgeInvariants

  /** The columns the plan relies on: as many, with the same names and types, in the same places. */
  predicate HasSchema(batch: RecordBatch, schema: seq<Field>) {
    && |batch.fields| == |schema|
    && forall k :: 0 <= k < |schema| ==>
         batch.fields[k].name == schema[k].name && batch.fields[k].dataType == schema[k].dataType
  }

  /**
   * Refinement: in every interleaving, with either host, either read-ahead mode and any budgets, the
   * consumer has received a prefix of the sequential reading: nothing lost, doubled or reordered.
   * A `None` means the whole reading was delivered; a resumed panic means the reader panicked.
   */
  lemma {:induction false} DeliversTheReading(cfg: Config, s: Stream, n: nat)
    requires Reachable(cfg, s) && n >= s.tally.started
    ensures s.consumer.delivered <= Read(cfg.reader, cfg.schema, 0, n)
    ensures forall i :: 0 <= i < |s.consumer.delivered| && s.consumer.delivered[i].Ok? ==>
              HasSchema(s.consumer.delivered[i].batch, cfg.schema)
    ensures forall i :: 0 <= i < |s.consumer.delivered| && s.consumer.delivered[i].Ok? ==>
              Matches(cfg.schema, s.consumer.delivered[i].batch.fields)
    ensures forall i :: 0 <= i < |s.consumer.delivered| && s.consumer.delivered[i].Err? ==>
              i == |s.consumer.delivered| - 1
              && s.consumer.delivered == Read(cfg.reader, cfg.schema, 0, n)
    ensures s.consumer.view.SawEnd? ==>
              s.consumer.delivered == Read(cfg.reader, cfg.schema, 0, n)
              && s.tally.started > 0 && !Continues(cfg.schema, cfg.reader(s.tally.started - 1))
              && !cfg.reader(s.tally.started - 1).Panic?
    ensures s.consumer.view.SawPanic? ==>
              s.tally.started > 0 && cfg.reader(s.tally.started - 1).Panic?
  {
    ReachableInv(cfg, s);
    var done := Completed(s);
    SentIsPrefix(cfg, s, n);
    var all := Read(cfg.reader, cfg.schema, 0, n);
    forall i | 0 <= i < |s.consumer.delivered|
      ensures s.consumer.delivered[i].Ok? ==> HasSchema(s.consumer.delivered[i].batch, cfg.schema)
      ensures s.consumer.delivered[i].Ok? ==> Matches(cfg.schema, s.consumer.delivered[i].batch.fields)
      ensures s.consumer.delivered[i].Err? ==> i == |all| - 1
    {
      assert s.consumer.delivered[i] == all[i];
      if all[i].Ok? {
        ReadItemsMatch(cfg.reader, cfg.schema, 0, n, i);
      } else {
        ErrorIsLast(cfg.reader, cfg.schema, 0, n, i);
      }
    }
    if Terminated(cfg, s) {
      ReadStops(cfg.reader, cfg.schema, 0, done - 1, n);
    }
  }

  /** Item i is what the i-th answer contributes, and a batch unless it is the last. */
  lemma {:induction false} ItemIsAnswer(cfg: Config, s: Stream, i: nat)
    requires Reachable(cfg, s) && i < |s.consumer.delivered|
    ensures ItemsOf(cfg.schema, cfg.reader(i)) == [s.consumer.delivered[i]]
    ensures i + 1 < |s.consumer.delivered| ==> cfg.reader(i).Batch?
  {
    DeliversTheReading(cfg, s, s.tally.started);
    ReadItemIs(cfg.reader, cfg.schema, 0, s.tally.started, i);
    assert s.consumer.delivered[i] == Read(cfg.reader, cfg.schema, 0, s.tally.started)[i];
  }

  lemma {:induction false} ReadIsMonotone(reader: Reader, schema: seq<Field>, m: nat, n: nat)
    requires m <= n
    requires m > 0 ==> OpenFor(reader, schema, m - 1)
    ensures Read(reader, schema, 0, m) <= Read(reader, schema, 0, n)
    decreases n - m
  {
    if m < n {
      if m > 0 && !Continues(schema, reader(m - 1)) {
        ReadStops(reader, schema, 0, m - 1, n);
      } else {
        ReadExtends(reader, schema, 0, m);
        ReadIsMonotone(reader, schema, m + 1, n);
      }
    }
  }

  lemma {:induction false} SentIsPrefix(cfg: Config, s: Stream, n: nat)
    requires Inv(cfg, s) && n >= s.tally.started
    ensures s.channel.sent <= Read(cfg.reader, cfg.schema, 0, n)
  {
    ReadIsMonotone(cfg.reader, cfg.schema, Completed(s), n);
  }

  /**
   * The credit ledger. Demand is conserved; every pull was paid for by demand or speculation; a
   * request is outstanding for at most one item; and a stream takes at most nine speculative
   * credits in its whole life, however long it is.
   */
  lemma {:induction false} CreditLedger(cfg: Config, s: Stream)
    requires Reachable(cfg, s)
    ensures s.demand.permits == s.demand.added - s.demand.taken
    ensures !s.consumer.dropped ==> s.demand.taken + s.tally.speculated == s.tally.started + InHand(s)
    ensures s.demand.added == |s.consumer.delivered| + (if s.consumer.requested then 1 else 0)
    ensures s.tally.speculated <= CHANNEL_CAPACITY + 1 == 9
    ensures s.tally.started + s.demand.permits <= s.demand.added + s.tally.speculated
  {
    ReachableInv(cfg, s);
  }

  /**
   * On demand the reader is entered at most once per item asked for, and while nothing is asked for
   * no pull runs, nothing is buffered and no permission is left over.
   */
  lemma {:induction false} OnDemandIsLazy(cfg: Config, s: Stream)
    requires Reachable(cfg, s) && cfg.readAhead.OnDemand?
    ensures s.tally.started <= s.demand.added <= |s.consumer.delivered| + 1
    ensures !s.consumer.requested ==>
              !s.drain.round.Pulling? && s.channel.queue == [] && s.demand.permits == 0
              && s.tally.started == |s.consumer.delivered| && InHand(s) == 0
  {
    ReachableInv(cfg, s);
    assert |s.consumer.delivered| <= |s.channel.sent|;
  }

  /** At most one slot is reserved; buffered batches, reserved slots and read-ahead stay within eight. */
  lemma {:induction false} MemoryBound(cfg: Config, s: Stream)
    requires Reachable(cfg, s)
    ensures s.channel.reserved <= 1
    ensures |s.channel.queue| + s.channel.reserved <= CHANNEL_CAPACITY == 8
    ensures s.tally.started <= |s.consumer.delivered| + CHANNEL_CAPACITY
    ensures s.drain.round.Leaving? || s.drain.round.Reported? || s.drain.round.NoRound? ==>
              s.channel.reserved == (if s.coordinator.Dispatching? then 1 else 0)
  {
    ReachableInv(cfg, s);
  }

  /** The closure is called again only after a batch that matches: every other answer is its last. */
  lemma {:induction false} TerminalContract(cfg: Config, s: Stream, k: nat)
    requires Reachable(cfg, s) && k + 1 < s.tally.started
    ensures Continues(cfg.schema, cfg.reader(k))
  {
    ReachableInv(cfg, s);
    if k == Completed(s) - 1 {
      assert !Terminated(cfg, s);
    }
  }

  /** After the stream is dropped at most one more pull starts: the one whose slot was already held. */
  lemma {:induction false} AtMostOnePullAfterDrop(cfg: Config, s: Stream)
    requires Reachable(cfg, s) && s.consumer.dropped
    ensures s.tally.startedAtDrop <= s.tally.started <= s.tally.startedAtDrop + 1
    ensures s.tally.started == s.tally.startedAtDrop + 1 ==> !MayStart(s)
  {
    ReachableInv(cfg, s);
  }

  /** The windows in which an abort finds the closure in the coordinator's hands: both are on an async worker. */
  predicate ExposedToAbort(s: Stream) {
    || s.coordinator.Unpolled?
    || (s.host.Pool? && s.coordinator.InRound? && s.drain.round.Reported? && !s.drain.round.outcome.Unwound?)
  }

  lemma {:induction false} AbortDestroys(s: Stream, b: Budget)
    requires Structure(s) && !s.owner.Destroyed? && AbortNext(s, b).Moved?
    ensures AbortNext(s, b).s.owner == Destroyed(AsyncWorker) <==> ExposedToAbort(s)
  {
  }

  lemma {:induction false} OthersDestroyElsewhere(cfg: Config, a: Action, s: Stream, b: Budget)
    requires !s.owner.Destroyed? && !a.Abort? && Next(cfg, a, s, b).Moved?
    ensures Next(cfg, a, s, b).s.owner != Destroyed(AsyncWorker)
  {
  }

  /**
   * A step destroys the closure on an async worker if and only if it is an abort that finds the coordinator
   * never polled, or a pool round that has reported (without a panic) and has not been joined.
   */
  lemma {:induction false} DiesOnWorker(cfg: Config, a: Action, s: Stream, b: Budget)
    requires Reachable(cfg, s) && !s.owner.Destroyed? && Next(cfg, a, s, b).Moved?
    ensures Next(cfg, a, s, b).s.owner == Destroyed(AsyncWorker) <==> a.Abort? && ExposedToAbort(s)
  {
    ReachableInv(cfg, s);
    if a.Abort? {
      AbortDestroys(s, b);
    } else {
      OthersDestroyElsewhere(cfg, a, s, b);
    }
  }

  /**
   * Who owns the closure. A dedicated thread is the only place its closure is called and destroyed;
   * a pool closure is called only inside a blocking task. The next step destroys it on an async worker
   * exactly when it is an abort in one of two windows. Taking it from the guard never finds the guard
   * empty, and a job is never sent to a thread that is gone.
   */
  lemma {:induction false} ClosureOwnership(cfg: Config, s: Stream)
    requires Reachable(cfg, s)
    ensures forall a, b :: !s.owner.Destroyed? && Next(cfg, a, s, b).Moved? ==>
              (Next(cfg, a, s, b).s.owner == Destroyed(AsyncWorker) <==> a.Abort? && ExposedToAbort(s))
    ensures s.owner == Destroyed(AsyncWorker) <==>
              s.coordinator == Aborted(BeforeFirstPoll) || s.coordinator == Aborted(OutputUnjoined)
    ensures s.host.Affine? && s.owner.Destroyed? ==> s.owner.place.PullThread? && s.host.thread.Exited?
    ensures s.host.Pool? && s.owner.Destroyed? ==> !s.owner.place.PullThread?
    ensures s.drain.round.Ready? || s.drain.round.Pulling? ==>
              s.owner == if s.host.Affine? then OnThread else InTask
    ensures s.coordinator.Dispatching? ==>
              (s.host.Affine? && !s.host.thread.Exited? && !s.owner.Destroyed?) || (s.host.Pool? && s.owner.InGuard?)
    ensures s.coordinator != Finished(TookEmpty)
  {
    ReachableInv(cfg, s);
    forall a, b | !s.owner.Destroyed? && Next(cfg, a, s, b).Moved?
      ensures Next(cfg, a, s, b).s.owner == Destroyed(AsyncWorker) <==> a.Abort? && ExposedToAbort(s)
    {
      DiesOnWorker(cfg, a, s, b);
    }
  }

  /** A closure is destroyed once: nothing revives it and nothing calls it afterwards. */
  lemma {:induction false} DestroyedForGood(cfg: Config, a: Action, s: Stream, b: Budget)
    requires Reachable(cfg, s) && s.owner.Destroyed? && Next(cfg, a, s, b).Moved?
    ensures Next(cfg, a, s, b).s.owner == s.owner
    ensures Next(cfg, a, s, b).s.tally.started == s.tally.started
  {
    ReachableInv(cfg, s);
  }

  // ----- building runs

  lemma {:induction false} RunAppend(cfg: Config, s: Stream, events: seq<Event>, e: Event)
    requires Run(cfg, s, events).Some?
    ensures Run(cfg, s, events + [e])
         == match Next(cfg, e.action, Run(cfg, s, events).value, e.budget)
            case Blocked => None
            case Moved(s', _) => Some(s')
    decreases |events|
  {
    if events == [] {
      assert events + [e] == [e];
    } else {
      assert (events + [e])[1..] == events[1..] + [e];
      RunAppend(cfg, Next(cfg, events[0].action, s, events[0].budget).s, events[1..], e);
    }
  }

  lemma {:induction false} ReachableStart(cfg: Config, s: Stream)
    requires Fresh(s)
    ensures Reachable(cfg, s)
  {
    assert Run(cfg, s, []) == Some(s);
  }

  lemma {:induction false} ReachableStep(cfg: Config, a: Action, s: Stream, b: Budget) returns (s': Stream)
    requires Reachable(cfg, s) && Next(cfg, a, s, b).Moved?
    ensures Reachable(cfg, s') && s' == Next(cfg, a, s, b).s
  {
    s' := Next(cfg, a, s, b).s;
    var start, events :| Fresh(start) && Run(cfg, start, events) == Some(s);
    RunAppend(cfg, start, events, Event(a, b));
    assert Run(cfg, start, events + [Event(a, b)]) == Some(s');
  }

  // ----- polling again

  /** While a request is pending, and after the end, one step of whatever kind. */
  lemma {:induction false} PendingStep(cfg: Config, a: Action, s: Stream, b: Budget)
    requires Inv(cfg, s) && Next(cfg, a, s, b).Moved?
    ensures var s' := Next(cfg, a, s, b).s;
            && s.consumer.delivered <= s'.consumer.delivered
            && (s.consumer.requested && s'.consumer.delivered == s.consumer.delivered ==>
                  s'.consumer.requested && s'.demand.added == s.demand.added)
            && (s.consumer.view.SawEnd? ==>
                  && s'.consumer.view.SawEnd? && s'.consumer.delivered == s.consumer.delivered
                  && s'.coordinator == s.coordinator && s'.tally.started == s.tally.started)
  {
  }

  lemma {:induction false} PendingRun(cfg: Config, s: Stream, events: seq<Event>)
    requires Inv(cfg, s) && Run(cfg, s, events).Some?
    ensures var s' := Run(cfg, s, events).value;
            && s.consumer.delivered <= s'.consumer.delivered
            && (s.consumer.requested && s'.consumer.delivered == s.consumer.delivered ==>
                  s'.consumer.requested && s'.demand.added == s.demand.added)
            && (s.consumer.view.SawEnd? ==>
                  && s'.consumer.view.SawEnd? && s'.consumer.delivered == s.consumer.delivered
                  && s'.coordinator == s.coordinator && s'.tally.started == s.tally.started)
    decreases |events|
  {
    if events != [] {
      var s1 := Next(cfg, events[0].action, s, events[0].budget).s;
      PendingStep(cfg, events[0].action, s, events[0].budget);
      InvStep(cfg, events[0].action, s, events[0].budget);
      PendingRun(cfg, s1, events[1..]);
    }
  }

  /**
   * Until the item asked for is delivered, no run adds demand, however often the stream is polled. Once the
   * end was seen no run delivers an item, calls the closure, or moves the coordinator, and polls that find
   * the end again add nothing either; all that is left to happen is that the host cleans up.
   */
  lemma {:induction false} RepollAddsNothing(cfg: Config, s: Stream, events: seq<Event>)
    requires Reachable(cfg, s) && s.consumer.requested && Run(cfg, s, events).Some?
    ensures var s' := Run(cfg, s, events).value;
            && (s'.consumer.delivered == s.consumer.delivered ==> s'.consumer.requested && s'.demand.added == s.demand.added)
            && (s.consumer.view.SawEnd? ==>
                  && s'.consumer.delivered == s.consumer.delivered && s'.demand.added == s.demand.added
                  && s'.coordinator == s.coordinator && s'.tally.started == s.tally.started)
  {
    ReachableInv(cfg, s);
    PendingRun(cfg, s, events);
  }
}
