/**
 * The stream bridge as it runs: the drain loop, the coordinator loop and `poll_next` updating shared
 * state in place while the other components interfere. Every method stays inside the state machine
 * of module Bridge, so what is proved there of every reachable state holds after every operation.
 */
module Runtime {
  import opened Options
  import opened Schema
  import opened Reading
  import opened Bridge
  import opened BridgeInvariants
  import opened BridgeTheorems
  import opened BridgeProgress

  /** What `poll_next` answers; `Resumed` is the producer's panic raised on the consumer. */
  datatype Polled = Pending | Got(item: Item) | End | Resumed

  /** A drain returns `true` or `false`, unwinds, or is seen while its pull has not returned yet. */
  datatype Drained = Returned(ended: bool) | Unwinding | StillPulling

  class SharedStream {
    const cfg: Config
    var coordinator: Coordinator
    var host: Host
    var owner: Owner
    var drain: Drain
    var channel: Channel
    var demand: Semaphore
    var consumer: Consumer
    var tally: Tally
    var budget: Budget         // free permits of the process-wide budgets
    ghost var start: Stream
    ghost var events: seq<Event>

    ghost function State(): Stream
      reads this
    {
      Stream(coordinator, host, owner, drain, channel, demand, consumer, tally)
    }

    /** The state was reached by a run of the state machine. */
    ghost predicate Valid()
      reads this
    {
      Fresh(start) && Run(cfg, start, events) == Some(State())
    }

    constructor (cfg: Config, budget: Budget)
      ensures Valid() && this.cfg == cfg && Fresh(State())
    {
      this.cfg := cfg;
      coordinator, host, owner := Unpolled, Unbuilt, Captured;
      drain := Drain(NoRound, None, 0);
      channel := Channel([], 0, []);
      demand := Semaphore(0, 0, 0);
      consumer := Consumer(false, Open, false, []);
      tally := Tally(0, 0, 0, 0);
      this.budget := budget;
      events := [];
      start := Stream(Unpolled, Unbuilt, Captured, Drain(NoRound, None, 0), Channel([], 0, []), Semaphore(0, 0, 0),
                      Consumer(false, Open, false, []), Tally(0, 0, 0, 0));
    }

    lemma {:induction false} ValidIsReachable()
      requires Valid()
      ensures Reachable(cfg, State()) && Inv(cfg, State())
    {
      ReachableInv(cfg, State());
    }

    /** After fields have been written the way one step does, the step joins the run. */
    ghost method Record(a: Action, before: Stream, b: Budget)
      requires Fresh(start) && Run(cfg, start, events) == Some(before)
      requires Next(cfg, a, before, b).Moved? && Next(cfg, a, before, b).s == State()
      modifies `events
      ensures Valid()
    {
      RunAppend(cfg, start, events, Event(a, b));
      events := events + [Event(a, b)];
    }

    /** Any one step of the machine. */
    method Other(a: Action)
      requires Valid()
      modifies this
      ensures Valid() && start == old(start)
      ensures var m := Next(cfg, a, old(State()), old(budget));
              if m.Moved? then State() == m.s && budget == m.b else State() == old(State()) && budget == old(budget)
    {
      var before := Stream(coordinator, host, owner, drain, channel, demand, consumer, tally);
      var m := Next(cfg, a, before, budget);
      if m.Moved? {
        ghost var b := budget;
        coordinator, host, owner := m.s.coordinator, m.s.host, m.s.owner;
        drain, channel, demand := m.s.drain, m.s.channel, m.s.demand;
        consumer, tally := m.s.consumer, m.s.tally;
        budget := m.b;
        Record(a, before, b);
      }
    }

    // ----- consumer

    /** The producer side only ever appends to the channel. */
    lemma {:induction false} ProducerAppends(a: Action, s: Stream, b: Budget)
      requires Inv(cfg, s) && !s.consumer.dropped && Internal(a) && Next(cfg, a, s, b).Moved?
      ensures s.channel.queue <= Next(cfg, a, s, b).s.channel.queue
    {
    }

    method ProducerStep(a: Action)
      requires Valid() && !consumer.dropped && Internal(a)
      modifies this
      ensures Valid() && consumer == old(consumer) && old(channel.queue) <= channel.queue
    {
      ghost var before, b := State(), budget;
      ValidIsReachable();
      Other(a);
      if Next(cfg, a, before, b).Moved? {
        InternalKeepsConsumer(cfg, a, before, b);
        ProducerAppends(a, before, b);
      }
    }

    /** The producer side runs on while the consumer is inside `poll_next`. */
    method ProducerRunsOn()
      requires Valid() && !consumer.dropped
      modifies this
      ensures Valid() && consumer == old(consumer) && old(channel.queue) <= channel.queue
    {
      var n: nat := *;
      while n > 0
        invariant Valid() && consumer == old(consumer) && old(channel.queue) <= channel.queue
      {
        var a: Action := *;
        if Internal(a) {
          ProducerStep(a);
        }
        budget := *;
        n := n - 1;
      }
    }

    /** Ask once per item: a request that is pending is not repeated. */
    method Ask()
      requires Valid() && !consumer.dropped && !consumer.view.SawPanic?
      modifies `demand, `consumer, `events
      ensures Valid() && consumer == old(consumer).(requested := true)
      ensures demand.permits == old(demand.permits) + (if old(consumer.requested) then 0 else 1)
    {
      ghost var before := State();
      if !consumer.requested {
        demand := demand.(permits := demand.permits + 1, added := demand.added + 1);
        consumer := consumer.(requested := true);
      }
      Record(Poll, before, budget);
    }

    /** Take the head of the channel. */
    method Receive() returns (item: Item)
      requires Valid() && !consumer.dropped && consumer.view.Open? && consumer.requested && channel.queue != []
      modifies `consumer, `channel, `events
      ensures Valid() && item == old(channel.queue)[0] && channel == old(channel).(queue := old(channel.queue)[1..])
      ensures consumer == old(consumer).(requested := false, delivered := old(consumer.delivered) + [item])
    {
      ghost var before := State();
      item := channel.queue[0];
      consumer := consumer.(requested := false, delivered := consumer.delivered + [item]);
      channel := channel.(queue := channel.queue[1..]);
      Record(Take, before, budget);
    }

    /** The end or the producer's panic, whichever the coordinator left with. */
    method Conclude()
      requires Valid() && !consumer.dropped && consumer.requested && coordinator.Finished?
      requires if coordinator.exit.Broke? then !consumer.view.SawPanic? && channel.queue == [] else consumer.view.Open?
      modifies `consumer, `events
      ensures Valid()
      ensures consumer == old(consumer).(view := if coordinator.exit.Broke? then SawEnd else SawPanic)
    {
      ghost var before := State();
      if coordinator.exit.Broke? {
        consumer := consumer.(view := SawEnd);
        Record(SeeEnd, before, budget);
      } else {
        consumer := consumer.(view := SawPanic);
        Record(SeePanic, before, budget);
      }
    }

    /** What a consumer may conclude from what it has been given. */
    lemma {:induction false} ConsumerMayConclude()
      requires Valid()
      ensures consumer.delivered <= Read(cfg.reader, cfg.schema, 0, tally.started)
      ensures demand.added == |consumer.delivered| + (if consumer.requested then 1 else 0)
      ensures consumer.view.SawEnd? ==>
                && consumer.delivered == Read(cfg.reader, cfg.schema, 0, tally.started)
                && tally.started > 0 && !Continues(cfg.schema, cfg.reader(tally.started - 1))
      ensures consumer.view.SawPanic? ==> tally.started > 0 && cfg.reader(tally.started - 1).Panic?
    {
      ValidIsReachable();
      DeliversTheReading(cfg, State(), tally.started);
    }

    /** Once the end was seen the channel stays empty and the coordinator is gone. */
    lemma {:induction false} EndIsFinal()
      requires Valid()
      ensures consumer.view.SawEnd? && !consumer.dropped ==> channel.queue == [] && coordinator == Finished(Broke)
    {
      ValidIsReachable();
      if consumer.view.SawEnd? && !consumer.dropped {
        assert |channel.sent| == |consumer.delivered| + |channel.queue|;
      }
    }

    /**
     * `poll_next`. The item returned is the next one of the sequential reading; `End` means the whole
     * reading has been returned before, and every poll from then on answers `End` again. A poll is pending
     * only if the channel is empty and its producer still there, and leaves exactly one request behind. So
     * an item that was waiting is handed over, unless the producer has panicked.
     */
    method PollNext() returns (polled: Polled)
      requires Valid() && !consumer.dropped && !consumer.view.SawPanic?
      modifies this
      ensures Valid()
      ensures old(consumer.view).SawEnd? ==> polled.End?
      ensures old(channel.queue) != [] ==> polled == Got(old(channel.queue)[0]) || polled.Resumed?
      ensures match polled
              case Got(item) =>
                && consumer.delivered == old(consumer.delivered) + [item]
                && consumer.delivered <= Read(cfg.reader, cfg.schema, 0, tally.started)
                && !consumer.requested
              case End =>
                && consumer.delivered == old(consumer.delivered) == Read(cfg.reader, cfg.schema, 0, tally.started)
                && tally.started > 0 && !Continues(cfg.schema, cfg.reader(tally.started - 1))
              case Resumed =>
                && consumer.delivered == old(consumer.delivered)
                && tally.started > 0 && cfg.reader(tally.started - 1).Panic?
              case Pending =>
                && consumer == old(consumer).(requested := true)
                && demand.added == |consumer.delivered| + 1
                && channel.queue == [] && !coordinator.Finished?
    {
      EndIsFinal();
      Ask();
      ProducerRunsOn();
      EndIsFinal();
      var raise: bool := *;  // whether the builder looks at its coordinator before the channel
      if coordinator.Finished? && !coordinator.exit.Broke? && (raise || channel.queue == []) {
        Conclude();
        polled := Resumed;
      } else if channel.queue != [] {
        var item := Receive();
        polled := Got(item);
      } else if coordinator.Finished? {
        Conclude();
        polled := End;
      } else {
        polled := Pending;
      }
      ConsumerMayConclude();
    }

    // ----- drain

    /** What the consumer and an abort cannot touch while a round runs. */
    lemma {:induction false} RoundIsPrivate(a: Action, s: Stream, b: Budget)
      requires Inv(cfg, s) && Active(s.drain.round) && !a.Work? && !a.Coordinate? && Next(cfg, a, s, b).Moved?
      ensures var s' := Next(cfg, a, s, b).s;
              && s'.drain == s.drain && s'.tally.started == s.tally.started
              && s'.channel.reserved == s.channel.reserved && s'.channel.sent == s.channel.sent
              && s'.host == s.host && s'.owner == s.owner
              && (s'.coordinator == s.coordinator || s'.coordinator == Aborted(Elsewhere))
    {
    }

    method OtherDuringRound(a: Action)
      requires Valid() && Active(drain.round) && !a.Work? && !a.Coordinate?
      modifies this
      ensures Valid() && drain == old(drain) && tally.started == old(tally.started)
      ensures channel.reserved == old(channel.reserved) && channel.sent == old(channel.sent)
      ensures host == old(host) && owner == old(owner)
      ensures coordinator == old(coordinator) || coordinator == Aborted(Elsewhere)
    {
      ghost var before, b := State(), budget;
      ValidIsReachable();
      Other(a);
      if Next(cfg, a, before, b).Moved? {
        RoundIsPrivate(a, before, b);
      }
    }

    /** The consumer, an abort and the rest of the process while a round runs. */
    method OthersDuringRound()
      requires Valid() && Active(drain.round)
      modifies this
      ensures Valid() && drain == old(drain) && tally.started == old(tally.started)
      ensures channel.reserved == old(channel.reserved) && channel.sent == old(channel.sent)
      ensures host == old(host) && owner == old(owner)
      ensures coordinator == old(coordinator) || coordinator == Aborted(Elsewhere)
    {
      var n: nat := *;
      while n > 0
        invariant Valid() && drain == old(drain) && tally.started == old(tally.started)
        invariant channel.reserved == old(channel.reserved) && channel.sent == old(channel.sent)
        invariant host == old(host) && owner == old(owner)
        invariant coordinator == old(coordinator) || coordinator == Aborted(Elsewhere)
      {
        var a: Action := *;
        if !a.Work? && !a.Coordinate? {
          OtherDuringRound(a);
        }
        budget := *;
        n := n - 1;
      }
    }

    method EnterPull()
      requires Valid() && drain.round.Ready?
      modifies `drain, `tally, `events
      ensures Valid() && drain == old(drain).(round := Pulling)
      ensures tally == old(tally).(started := old(tally.started) + 1)
    {
      ghost var before := State();
      drain := drain.(round := Pulling);
      tally := tally.(started := tally.started + 1);
      Record(Work, before, budget);
    }

    /** `permit.send(Ok(batch))`. */
    method SendBatch(batch: RecordBatch)
      requires Valid() && drain.round.Pulling? && tally.started > 0
      requires cfg.reader(tally.started - 1) == Batch(batch) && Matches(cfg.schema, batch.fields)
      modifies `drain, `channel, `events
      ensures Valid() && drain == old(drain).(round := Sent) && channel.reserved == 0
    {
      ghost var before := State();
      ValidIsReachable();
      channel := Channel(if consumer.dropped then channel.queue else channel.queue + [Ok(batch)],
                         channel.reserved - 1, channel.sent + [Ok(batch)]);
      drain := drain.(round := Sent);
      Record(Work, before, budget);
    }

    /** A terminal answer: the error, if any, is sent, the drawn credits are dropped, the drain returns. */
    method LeaveForGood(credits: nat, items: seq<Item>)
      requires Valid() && drain.round.Pulling? && tally.started > 0 && credits == drain.extra
      requires !Continues(cfg.schema, cfg.reader(tally.started - 1))
      requires items == ItemsOf(cfg.schema, cfg.reader(tally.started - 1))
      modifies `drain, `channel, `budget, `events
      ensures Valid() && channel.reserved == 0 && budget.spec == old(budget.spec) + credits
      ensures drain == old(drain).(extra := 0,
                         round := Leaving(if cfg.reader(tally.started - 1).Panic? then Unwound else Ended))
    {
      ghost var before, b := State(), budget;
      ValidIsReachable();
      channel := Channel(if consumer.dropped then channel.queue else channel.queue + items,
                         channel.reserved - 1, channel.sent + items);
      drain := drain.(extra := 0, round := Leaving(if cfg.reader(tally.started - 1).Panic? then Unwound else Ended));
      budget := budget.(spec := budget.spec + credits);
      Record(Work, before, b);
    }

    method TryReserve(credits: nat) returns (ok: bool)
      requires Valid() && drain.round.Sent? && credits == drain.extra
      modifies `drain, `channel, `budget, `events
      ensures Valid() && channel.sent == old(channel.sent)
      ensures ok <==> !consumer.dropped && |old(channel.queue)| < CHANNEL_CAPACITY
      ensures ok ==> drain == old(drain).(round := Slotted) && channel.reserved == 1
      ensures !ok ==> drain == old(drain).(round := Leaving(More), extra := 0) && channel.reserved == 0
                      && budget.spec == old(budget.spec) + credits
    {
      ghost var before, b := State(), budget;
      ValidIsReachable();
      ok := !consumer.dropped && |channel.queue| + channel.reserved < CHANNEL_CAPACITY;
      if ok {
        channel := channel.(reserved := channel.reserved + 1);
        drain := drain.(round := Slotted);
      } else {
        drain := drain.(round := Leaving(More), extra := 0);
        budget := budget.(spec := budget.spec + credits);
      }
      Record(Work, before, b);
    }

    method TryAcquireInRound() returns (ok: bool)
      requires Valid() && drain.round.Slotted?
      modifies `drain, `demand, `events
      ensures Valid()
      ensures ok <==> old(demand.permits) > 0
      ensures drain == old(drain).(round := if ok then Ready else SlottedDry)
      ensures demand.permits == old(demand.permits) - (if ok then 1 else 0)
    {
      ghost var before := State();
      ok := demand.permits > 0;
      if ok {
        demand := demand.(permits := demand.permits - 1, taken := demand.taken + 1);
      }
      drain := drain.(round := if ok then Ready else SlottedDry);
      Record(Work, before, budget);
    }

    method TrySpeculateInRound(credits: nat) returns (ok: bool)
      requires Valid() && drain.round.SlottedDry? && credits == drain.extra
      modifies `drain, `channel, `tally, `budget, `events
      ensures Valid() && channel.sent == old(channel.sent) && tally.started == old(tally.started)
      ensures ok <==> cfg.readAhead.Buffered? && old(budget.spec) > 0
      ensures ok ==> drain == old(drain).(round := Ready, extra := credits + 1)
                     && budget.spec == old(budget.spec) - 1
      ensures !ok ==> drain == old(drain).(round := Leaving(More), extra := 0) && channel.reserved == 0
                      && budget.spec == old(budget.spec) + credits
    {
      ghost var before, b := State(), budget;
      ValidIsReachable();
      ok := cfg.readAhead.Buffered? && budget.spec > 0;
      if ok {
        budget := budget.(spec := budget.spec - 1);
        tally := tally.(speculated := tally.speculated + 1);
        drain := drain.(round := Ready, extra := credits + 1);
      } else {
        channel := channel.(reserved := channel.reserved - 1);
        drain := drain.(round := Leaving(More), extra := 0);
        budget := budget.(spec := budget.spec + credits);
      }
      Record(Work, before, b);
    }

    /** The slot for the next batch first, then the credit for it. */
    method TakeSlotAndCredit(credits: nat) returns (more: bool, credits': nat)
      requires Valid() && drain.round.Sent? && credits == drain.extra && (coordinator.InRound? || coordinator.Aborted?)
      modifies this
      ensures Valid() && tally.started == old(tally.started) && channel.sent == old(channel.sent)
      ensures coordinator == old(coordinator) || coordinator == Aborted(Elsewhere)
      ensures more ==> drain.round.Ready? && credits' == drain.extra
      ensures !more ==> drain.round == Leaving(More) && drain.extra == 0 && channel.reserved == 0
    {
      credits' := credits;
      more := TryReserve(credits);
      if more {
        OthersDuringRound();
        var granted := TryAcquireInRound();
        if !granted {
          OthersDuringRound();
          more := TrySpeculateInRound(credits);
          credits' := credits + 1;
        }
      }
    }

    /** What a drain does with one answer of the closure: `None` means it pulls again. */
    method HandleAnswer(credits: nat, p: Pulled) returns (r: Option<Drained>, credits': nat)
      requires Valid() && drain.round.Pulling? && credits == drain.extra && (coordinator.InRound? || coordinator.Aborted?)
      requires tally.started > 0 && p == cfg.reader(tally.started - 1)
      modifies this
      ensures Valid() && tally.started == old(tally.started)
      ensures coordinator == old(coordinator) || coordinator == Aborted(Elsewhere)
      ensures r.None? ==> Continues(cfg.schema, p) && drain.round.Ready? && credits' == drain.extra
      ensures r.Some? ==> channel.reserved == 0 && drain.extra == 0
      ensures r == Some(Returned(false)) ==> Continues(cfg.schema, p) && drain.round == Leaving(More)
      ensures r == Some(Returned(true)) ==> !Continues(cfg.schema, p) && !p.Panic? && drain.round == Leaving(Ended)
      ensures r == Some(Unwinding) ==> p.Panic? && drain.round == Leaving(Unwound)
      ensures r != Some(StillPulling)
    {
      credits' := credits;
      match p {
        case Batch(batch) =>
          var ok := CheckBatchSchema(cfg.schema, false, batch);
          if ok {
            SendBatch(batch);
            OthersDuringRound();
            var more;
            more, credits' := TakeSlotAndCredit(credits);
            r := if more then None else Some(Returned(false));
          } else {
            LeaveForGood(credits, [Err(SchemaMismatch(cfg.schema, batch.fields))]);
            r := Some(Returned(true));
          }
        case Fault(e) =>
          LeaveForGood(credits, [Err(e)]);
          r := Some(Returned(true));
        case Exhausted =>
          LeaveForGood(credits, []);
          r := Some(Returned(true));
        case Panic =>
          LeaveForGood(credits, []);
          r := Some(Unwinding);
      }
    }

    /**
     * `drain_batches`, interleaved with everything else at every operation on shared state. `horizon`
     * cuts the observation at an arbitrary pull that has not returned.
     */
    method DrainBatches(horizon: nat) returns (r: Drained)
      requires Valid() && drain.round.Ready? && drain.extra == 0 && (coordinator.InRound? || coordinator.Aborted?)
      modifies this
      ensures Valid()
      ensures coordinator == old(coordinator) || coordinator == Aborted(Elsewhere)
      ensures tally.started > old(tally.started)
      ensures r.StillPulling? ==> drain.round.Pulling? && tally.started == old(tally.started) + horizon + 1
      ensures r.Returned? ==> drain.round == Leaving(if r.ended then Ended else More)
      ensures r.Unwinding? ==> drain.round == Leaving(Unwound)
      ensures !r.StillPulling? ==> channel.reserved == 0 && drain.extra == 0
      ensures r == Returned(false) ==> Continues(cfg.schema, cfg.reader(tally.started - 1))
      ensures r == Returned(true) || r.Unwinding? ==> !Continues(cfg.schema, cfg.reader(tally.started - 1))
      ensures r.Unwinding? ==> cfg.reader(tally.started - 1).Panic?
      ensures forall k: nat :: k + 1 < tally.started ==> Continues(cfg.schema, cfg.reader(k))
      ensures channel.sent == Read(cfg.reader, cfg.schema, 0, if r.StillPulling? then tally.started - 1 else tally.started)
    {
      var credits := 0;
      var left := horizon;
      while true
        invariant Valid() && drain.round.Ready? && credits == drain.extra
        invariant tally.started + left == old(tally.started) + horizon
        invariant coordinator == old(coordinator) || coordinator == Aborted(Elsewhere)
        decreases left
      {
        OthersDuringRound();
        EnterPull();
        OthersDuringRound();
        if left == 0 {
          r := StillPulling;
          break;
        }
        left := left - 1;
        var answer;
        answer, credits := HandleAnswer(credits, cfg.reader(tally.started - 1));
        if answer.Some? {
          r := answer.value;
          break;
        }
      }
      DrainFollowsReading();
    }

    lemma {:induction false} DrainFollowsReading()
      requires Valid()
      ensures forall k: nat :: k + 1 < tally.started ==> Continues(cfg.schema, cfg.reader(k))
      ensures channel.sent == Read(cfg.reader, cfg.schema, 0, Completed(State()))
      ensures drain.round.Pulling? ==> tally.started > 0
    {
      ValidIsReachable();
      forall k: nat | k + 1 < tally.started
        ensures Continues(cfg.schema, cfg.reader(k))
      {
        TerminalContract(cfg, State(), k);
      }
    }

    // ----- coordinator

    /** Outside of a round the others can abort the coordinator where it awaits, and nothing else. */
    lemma {:induction false} LoopIsPrivate(a: Action, s: Stream, b: Budget)
      requires Inv(cfg, s) && !s.coordinator.InRound? && !s.coordinator.Unpolled? && !Done(s.coordinator)
      requires !a.Coordinate? && Next(cfg, a, s, b).Moved?
      ensures var s' := Next(cfg, a, s, b).s;
              && s'.drain == s.drain && s'.host.Unbuilt? == s.host.Unbuilt? && s'.tally.started == s.tally.started
              && s'.channel.reserved == s.channel.reserved
              && (s'.coordinator == s.coordinator
                  || ((s.coordinator.Parked? || s.coordinator.Reserving?) && s'.coordinator == Aborted(Elsewhere)))
    {
    }

    method OtherOutsideRound(a: Action)
      requires Valid() && !coordinator.InRound? && !coordinator.Unpolled? && !Done(coordinator) && !a.Coordinate?
      modifies this
      ensures Valid() && tally.started == old(tally.started)
      ensures coordinator == old(coordinator)
              || ((old(coordinator).Parked? || old(coordinator).Reserving?) && coordinator == Aborted(Elsewhere))
    {
      ghost var before, b := State(), budget;
      ValidIsReachable();
      Other(a);
      if Next(cfg, a, before, b).Moved? {
        LoopIsPrivate(a, before, b);
      }
    }

    method OthersOutsideRound()
      requires Valid() && !coordinator.InRound? && !coordinator.Unpolled? && !Done(coordinator)
      modifies this
      ensures Valid() && tally.started == old(tally.started)
      ensures coordinator == old(coordinator)
              || ((old(coordinator).Parked? || old(coordinator).Reserving?) && coordinator == Aborted(Elsewhere))
    {
      var n: nat := *;
      while n > 0 && !Done(coordinator)
        invariant Valid() && tally.started == old(tally.started)
        invariant coordinator == old(coordinator)
                  || ((old(coordinator).Parked? || old(coordinator).Reserving?) && coordinator == Aborted(Elsewhere))
        decreases n
      {
        var a: Action := *;
        if !a.Coordinate? {
          OtherOutsideRound(a);
        }
        budget := *;
        n := n - 1;
      }
    }

    /** `try_acquire().forget()` at the loop head, or the awaited `acquire` of a parked coordinator. */
    method TryAcquire() returns (ok: bool)
      requires Valid() && (coordinator.Top? || coordinator.Parked?)
      modifies `coordinator, `demand, `events
      ensures Valid()
      ensures ok <==> old(demand.permits) > 0
      ensures demand.permits == old(demand.permits) - (if ok then 1 else 0)
      ensures ok ==> coordinator == Reserving(Demanded)
      ensures !ok ==> coordinator == (if old(coordinator).Top? then TryBudget else Parked)
    {
      ghost var before := State();
      ok := demand.permits > 0;
      if ok {
        demand := demand.(permits := demand.permits - 1, taken := demand.taken + 1);
        coordinator := Reserving(Demanded);
        Record(Coordinate(true), before, budget);
      } else if coordinator.Top? {
        coordinator := TryBudget;
        Record(Coordinate(true), before, budget);
      }
    }

    /** `try_speculate`; without a permit the coordinator parks. */
    method TrySpeculate() returns (ok: bool)
      requires Valid() && coordinator.TryBudget?
      modifies `coordinator, `tally, `budget, `events
      ensures Valid()
      ensures ok <==> cfg.readAhead.Buffered? && old(budget.spec) > 0
      ensures coordinator == (if ok then Reserving(Speculative) else Parked) && tally.started == old(tally.started)
      ensures budget.spec == old(budget.spec) - (if ok then 1 else 0)
    {
      ghost var before, b := State(), budget;
      ok := cfg.readAhead.Buffered? && budget.spec > 0;
      if ok {
        budget := budget.(spec := budget.spec - 1);
        tally := tally.(speculated := tally.speculated + 1);
        coordinator := Reserving(Speculative);
      } else {
        coordinator := Parked;
      }
      Record(Coordinate(true), before, b);
    }

    /** Demand first, then the budget, then waiting for demand. */
    method TakeCredit()
      requires Valid() && coordinator.Top?
      modifies this
      ensures Valid() && (coordinator.Reserving? || coordinator.Parked? || coordinator == Aborted(Elsewhere))
      ensures coordinator.Parked? ==> demand.permits == 0
      ensures old(demand.permits) > 0 ==> coordinator == Reserving(Demanded)
      ensures tally.started == old(tally.started)
      ensures coordinator == Reserving(Speculative) ==> cfg.readAhead.Buffered?
    {
      var granted := TryAcquire();
      if !granted {
        OthersOutsideRound();
        var speculative := TrySpeculate();
        if !speculative {
          OthersOutsideRound();
          if coordinator.Parked? {
            var awaited := TryAcquire();
          }
        }
      }
    }

    /** Dropping the host with the coordinator: a guarded closure goes to a detached drop task. */
    method DropHost()
      modifies `owner
      ensures owner == if old(owner).InGuard? then InDisposal else old(owner)
    {
      if owner.InGuard? {
        owner := InDisposal;
      }
    }

    /** The receiver is gone: the credit in hand is dropped and the loop is left. */
    method LeaveWithCredit(credit: Credit)
      requires Valid() && coordinator == Reserving(credit) && consumer.dropped
      modifies `coordinator, `owner, `tally, `budget, `events
      ensures Valid() && coordinator == Finished(Broke) && tally.started == old(tally.started)
      ensures budget.spec == old(budget.spec) + (if credit.Speculative? then 1 else 0)
    {
      ghost var before, b := State(), budget;
      coordinator := Finished(Broke);
      DropHost();
      tally := tally.(abandoned := tally.abandoned + 1);
      if credit.Speculative? {
        budget := budget.(spec := budget.spec + 1);
      }
      Record(Coordinate(true), before, b);
    }

    method ReserveForCredit(credit: Credit)
      requires Valid() && coordinator == Reserving(credit) && !consumer.dropped
      requires |channel.queue| + channel.reserved < CHANNEL_CAPACITY
      modifies `coordinator, `channel, `events
      ensures Valid() && coordinator == Dispatching(credit)
      ensures channel == old(channel).(reserved := old(channel.reserved) + 1)
    {
      ghost var before := State();
      channel := channel.(reserved := channel.reserved + 1);
      coordinator := Dispatching(credit);
      Record(Coordinate(true), before, budget);
    }

    /** `reserve_owned().await`: a slot, or out of the loop once the receiver is gone. */
    method AwaitSlot()
      requires Valid() && coordinator.Reserving?
      modifies this
      ensures Valid() && tally.started == old(tally.started)
      ensures coordinator.Dispatching? || coordinator.Reserving? || Done(coordinator)
      ensures coordinator.Dispatching? ==> coordinator.credit == old(coordinator).credit
      ensures coordinator.Finished? ==> consumer.dropped
      ensures coordinator.Reserving? ==> !consumer.dropped && !SlotFree(channel)
    {
      OthersOutsideRound();
      if coordinator.Reserving? {
        if consumer.dropped {
          LeaveWithCredit(coordinator.credit);
        } else if |channel.queue| + channel.reserved < CHANNEL_CAPACITY {
          ReserveForCredit(coordinator.credit);
        }
      }
    }

    /**
     * Slot and credit go to the host: into the mailbox of its thread, or with the closure into a new blocking
     * task. The thread is there to receive them and the guard holds the closure, so neither can fail.
     */
    method HandOver()
      requires Valid() && coordinator.Dispatching?
      modifies `coordinator, `owner, `drain, `events
      ensures Valid() && coordinator.InRound?
      ensures drain == Drain(Queued, Some(old(coordinator).credit), 0)
      ensures owner == (if host.Affine? then old(owner) else InTask)
    {
      ghost var before := State();
      ValidIsReachable();
      drain := Drain(Queued, Some(coordinator.credit), 0);
      if !host.Affine? {
        owner := InTask;
      }
      coordinator := InRound;
      Record(Coordinate(true), before, budget);
    }

    /** A thread that has not taken the reader yet takes it first. */
    method TakeReader()
      requires Valid() && drain.round.Queued?
      modifies `host, `owner, `events
      ensures Valid() && !host.Unbuilt? && (host.Affine? ==> host.thread.Idle?)
      ensures old(host) == Affine(Spawned) ==> owner == OnThread
    {
      ghost var before := State();
      ValidIsReachable();
      if host == Affine(Spawned) {
        host, owner := Affine(Idle), OnThread;
        Record(Work, before, budget);
      }
    }

    method BeginOnHost()
      requires Valid() && coordinator.Dispatching?
      modifies this
      ensures Valid() && drain.round.Ready? && drain.extra == 0 && (coordinator.InRound? || coordinator.Aborted?)
      ensures tally.started == old(tally.started)
    {
      HandOver();
      OthersDuringRound();
      TakeReader();
      OthersDuringRound();
      BeginDrain();
    }

    method BeginDrain()
      requires Valid() && drain.round.Queued? && !host.Unbuilt? && (host.Affine? ==> host.thread.Idle?)
      modifies `host, `drain, `events
      ensures Valid() && drain == old(drain).(round := Ready)
      ensures host == if old(host).Affine? then Affine(Busy) else old(host)
    {
      ghost var before := State();
      if host.Affine? {
        host := Affine(Busy);
      }
      drain := drain.(round := Ready);
      Record(Work, before, budget);
    }

    /**
     * The drain has returned: the round's own credit is dropped, then the outcome is handed over. A pull
     * thread goes back to its mailbox or is about to exit; a blocking task ends, and hands the closure back
     * unless it unwound or nobody is left to take it.
     */
    method ReportOutcome()
      requires Valid() && drain.round.Leaving? && (coordinator.InRound? || coordinator.Aborted?)
      modifies `host, `owner, `drain, `budget, `events
      ensures Valid() && drain.jobCredit.None?
      ensures drain.round == if coordinator.InRound? then Reported(old(drain.round).outcome) else NoRound
      ensures budget.spec == old(budget.spec) + (if old(drain.jobCredit) == Some(Speculative) then 1 else 0)
    {
      ghost var before, b := State(), budget;
      var outcome, heard := drain.round.outcome, coordinator.InRound?;
      if drain.jobCredit == Some(Speculative) {
        budget := budget.(spec := budget.spec + 1);
      }
      drain := drain.(round := if heard then Reported(outcome) else NoRound, jobCredit := None);
      if host.Affine? {
        host := Affine(if outcome.More? then Idle else Exiting);
      } else {
        owner := if heard && !outcome.Unwound? then InOutput else Destroyed(BlockingPool);
      }
      Record(Work, before, b);
    }

    /** Between report and reception the consumer moves on, a finished thread exits, or an abort lands. */
    lemma {:induction false} ReportIsPrivate(a: Action, s: Stream, b: Budget)
      requires Inv(cfg, s) && s.coordinator.InRound? && s.drain.round.Reported? && !a.Coordinate? && Next(cfg, a, s, b).Moved?
      ensures var s' := Next(cfg, a, s, b).s;
              && ((s'.coordinator.InRound? && s'.drain == s.drain) || s'.coordinator.Aborted?)
              && s'.tally.started == s.tally.started
    {
    }

    method OtherBeforeReception(a: Action)
      requires Valid() && coordinator.InRound? && drain.round.Reported? && !a.Coordinate?
      modifies this
      ensures Valid() && tally.started == old(tally.started) && ((coordinator.InRound? && drain == old(drain)) || coordinator.Aborted?)
    {
      ghost var before, b := State(), budget;
      ValidIsReachable();
      Other(a);
      if Next(cfg, a, before, b).Moved? {
        ReportIsPrivate(a, before, b);
      }
    }

    method OthersBeforeReception()
      requires Valid() && coordinator.InRound? && drain.round.Reported?
      modifies this
      ensures Valid() && tally.started == old(tally.started) && ((coordinator.InRound? && drain == old(drain)) || coordinator.Aborted?)
    {
      var n: nat := *;
      while n > 0 && coordinator.InRound?
        invariant Valid() && tally.started == old(tally.started) && ((coordinator.InRound? && drain == old(drain)) || coordinator.Aborted?)
        decreases n
      {
        var a: Action := *;
        if !a.Coordinate? {
          OtherBeforeReception(a);
        }
        budget := *;
        n := n - 1;
      }
    }

    /** The awaited outcome: the closure is put back into its guard, and the loop goes on or is left. */
    method ReceiveOutcome()
      requires Valid() && coordinator.InRound? && drain.round.Reported?
      modifies `coordinator, `owner, `drain, `events
      ensures Valid() && drain == old(drain).(round := NoRound)
      ensures coordinator == match old(drain.round).outcome
                             case More => Top
                             case Ended => Finished(Broke)
                             case Unwound => Finished(Panicked)
    {
      ghost var before := State();
      var outcome := drain.round.outcome;
      drain := drain.(round := NoRound);
      if owner.InOutput? {
        owner := InGuard;
      }
      match outcome {
        case More =>
          coordinator := Top;
        case Ended =>
          coordinator := Finished(Broke);
          DropHost();
        case Unwound =>
          coordinator := Finished(Panicked);
          DropHost();
      }
      Record(Coordinate(true), before, budget);
    }

    /** The round's outcome is reported; a coordinator still there hears it. */
    method ReportAndReceive()
      requires Valid() && drain.round.Leaving? && (coordinator.InRound? || coordinator.Aborted?)
      modifies this
      ensures Valid() && (coordinator.Top? || Done(coordinator)) && tally.started == old(tally.started)
      ensures coordinator.Top? ==> old(drain.round) == Leaving(More)
      ensures coordinator.Finished? ==> old(drain.round) != Leaving(More)
    {
      ReportOutcome();
      if coordinator.InRound? {
        OthersBeforeReception();
        if coordinator.InRound? {
          ReceiveOutcome();
        }
      }
    }

    /** Build the host on the first poll: a dedicated thread if the budget and the system allow. */
    method BuildHostOnFirstPoll(spawns: bool)
      requires Valid() && coordinator.Unpolled?
      modifies `coordinator, `host, `owner, `budget, `events
      ensures Valid() && coordinator.Top?
      ensures host == if spawns && old(budget.threads) > 0 then Affine(Spawned) else Pool
      ensures budget.threads == old(budget.threads) - (if host.Affine? then 1 else 0)
    {
      ghost var before, b := State(), budget;
      if budget.threads > 0 && spawns {
        budget := budget.(threads := budget.threads - 1);
        host, owner := Affine(Spawned), Mailbox;
      } else {
        host, owner := Pool, InGuard;
      }
      coordinator := Top;
      Record(Coordinate(spawns), before, b);
    }

    /**
     * The coordinator's loop, with the round it waits for. It leaves the loop only when the reader has
     * ended, panicked, or the stream was dropped; otherwise it is seen at an await or in a pull.
     */
    method RunCoordinator(spawns: bool, horizon: nat)
      requires Valid() && coordinator.Unpolled?
      modifies this
      ensures Valid()
      ensures coordinator.Finished? && !consumer.dropped ==>
                && tally.started > 0 && !Continues(cfg.schema, cfg.reader(tally.started - 1))
                && channel.sent == Read(cfg.reader, cfg.schema, 0, tally.started)
                && (coordinator.exit.Panicked? <==> cfg.reader(tally.started - 1).Panic?)
      ensures coordinator.Top? || coordinator.Parked? || coordinator.Reserving? || Done(coordinator) || drain.round.Pulling?
      ensures coordinator.Top? ==> tally.started >= old(tally.started) + horizon
      ensures coordinator.Parked? ==> demand.permits == 0
      ensures coordinator.Reserving? ==> !consumer.dropped && !SlotFree(channel)
    {
      BuildHostOnFirstPoll(spawns);
      var left := horizon;
      while coordinator.Top? && left > 0
        invariant Valid() && (coordinator.Top? || Done(coordinator))
        invariant coordinator.Top? ==> tally.started + left >= old(tally.started) + horizon
        decreases left
      {
        left := left - 1;
        TakeCredit();
        if !coordinator.Reserving? {
          break;
        }
        AwaitSlot();
        if !coordinator.Dispatching? {
          break;
        }
        BeginOnHost();
        var within: nat := *;
        var drained := DrainBatches(within);
        if drained.StillPulling? {
          break;
        }
        ReportAndReceive();
      }
      LeavesHonestly();
    }

    lemma {:induction false} LeavesHonestly()
      requires Valid()
      ensures coordinator.Finished? && !consumer.dropped ==>
                && tally.started > 0 && !Continues(cfg.schema, cfg.reader(tally.started - 1))
                && channel.sent == Read(cfg.reader, cfg.schema, 0, tally.started)
                && (coordinator.exit.Panicked? <==> cfg.reader(tally.started - 1).Panic?)
    {
      ValidIsReachable();
    }
  }
}
