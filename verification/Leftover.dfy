/**
 * Pulls nobody asked for. The speculation budget is meant to bound the threads they can cost; it does so
 * as long as no stream spends demand that a speculated batch has left over, and not otherwise.
 */
module Leftover {
  import opened Options
  import opened Schema
  import opened Reading
  import opened Bridge
  import opened BridgeInvariants
  import opened BridgeTheorems
  import opened BridgeProgress
  import opened BridgeWitness
  import opened World

  /** Inside a pull for an item the consumer has not polled for. */
  predicate UnaskedPull(s: Stream) {
    s.drain.round.Pulling? && s.tally.started > s.demand.added
  }

  /** The threads a stuck reader costs in pulls nobody asked for. */
  function Unasked(ms: seq<Member>): nat {
    if ms == [] then 0 else Bit(UnaskedPull(ms[0].s)) + Unasked(ms[1..])
  }

  // ----- the step that escapes the budget

  /** The step takes a permit of the demand semaphore. */
  predicate TakesDemand(s: Stream, a: Action) {
    && s.demand.permits > 0
    && ((a.Coordinate? && (s.coordinator.Top? || s.coordinator.Parked?)) || (a.Work? && s.drain.round.Slotted?))
  }

  /** ... and the pull it pays for is ahead of everything the consumer has polled for. */
  predicate TakesLeftover(s: Stream, a: Action) {
    TakesDemand(s, a) && s.tally.started + 1 > s.demand.added
  }

  /** The step gives the producer a credit that holds no permit of the speculation budget. */
  predicate Unpermitted(s: Stream, s': Stream) {
    || (!s.coordinator.Reserving? && s'.coordinator == Reserving(Demanded))
    || (s.drain.round.Slotted? && s'.drain.round.Ready?)
  }

  /**
   * At each of the three points where credit is taken: the next step gets credit without a permit, for a pull
   * ahead of what was polled for, if and only if the semaphore holds demand and no more of it than was
   * ever speculated.
   */
  lemma {:induction false} LeftoverGuard(cfg: Config, a: Action, s: Stream, b: Budget)
    requires Reachable(cfg, s) && !s.consumer.dropped && Next(cfg, a, s, b).Moved?
    requires (a.Coordinate? && (s.coordinator.Top? || s.coordinator.Parked?)) || (a.Work? && s.drain.round.Slotted?)
    ensures Unpermitted(s, Next(cfg, a, s, b).s) && s.tally.started + 1 > s.demand.added
            <==> 0 < s.demand.permits <= s.tally.speculated
    ensures TakesLeftover(s, a) <==> 0 < s.demand.permits <= s.tally.speculated
  {
    ReachableInv(cfg, s);
  }

  // ----- without that step the cap holds

  /** A pull ahead of the polls, or the credit for one, comes with a permit. */
  predicate Paid(s: Stream) {
    (s.drain.round.Pulling? || InHand(s) > 0) && s.tally.started + InHand(s) > s.demand.added ==> SpecHeld(s) > 0
  }

  lemma {:induction false} PaidCoordinator(cfg: Config, a: Action, s: Stream, b: Budget)
    requires Structure(s) && Paid(s) && ByCoordinator(a) && !TakesLeftover(s, a) && Next(cfg, a, s, b).Moved?
    ensures Paid(Next(cfg, a, s, b).s)
  {
  }

  lemma {:induction false} PaidStep(cfg: Config, a: Action, s: Stream, b: Budget)
    requires Structure(s) && Paid(s) && !TakesLeftover(s, a) && Next(cfg, a, s, b).Moved?
    ensures Paid(Next(cfg, a, s, b).s)
  {
    if ByCoordinator(a) {
      PaidCoordinator(cfg, a, s, b);
    }
  }

  ghost predicate AllPaid(p: Process) {
    forall i :: 0 <= i < |p.members| ==> Paid(p.members[i].s)
  }

  /** No stream takes leftover demand in this history. */
  ghost predicate NoLeftovers(p: Process, moves: seq<Move>)
    decreases |moves|
  {
    moves == [] || Advance(p, moves[0]).None? ||
    ((moves[0].Step? && moves[0].index < |p.members| ==> !TakesLeftover(p.members[moves[0].index].s, moves[0].action))
     && NoLeftovers(Advance(p, moves[0]).value, moves[1..]))
  }

  lemma {:induction false} HistoryPaid(p: Process, moves: seq<Move>)
    requires Conserved(p) && AllPaid(p) && History(p, moves).Some? && NoLeftovers(p, moves)
    ensures AllPaid(History(p, moves).value)
    decreases |moves|
  {
    if moves != [] {
      AdvanceConserves(p, moves[0]);
      if moves[0].Step? {
        var m := p.members[moves[0].index];
        ReachableInv(m.cfg, m.s);
        PaidStep(m.cfg, moves[0].action, m.s, p.budget);
      }
      HistoryPaid(Advance(p, moves[0]).value, moves[1..]);
    }
  }

  lemma {:induction false} PaidArePermitted(ms: seq<Member>)
    requires forall i :: 0 <= i < |ms| ==> Paid(ms[i].s)
    requires forall i :: 0 <= i < |ms| ==> Structure(ms[i].s)
    ensures Unasked(ms) <= Permitted(ms)
  {
    if ms != [] {
      PaidArePermitted(ms[1..]);
    }
  }

  /**
   * The documented cap, with the proviso it needs: in every history of any number of streams in which no stream
   * takes leftover demand, at most 64 streams are ever in a pull nobody asked for.
   */
  lemma {:induction false} CapHoldsWithoutLeftovers(p: Process, moves: seq<Move>)
    requires Boot(p) && History(p, moves).Some? && NoLeftovers(p, moves)
    ensures Unasked(History(p, moves).value.members) <= SPECULATION_BUDGET
  {
    BudgetsAreConserved(p, moves);
    HistoryPaid(p, moves);
    var ms := History(p, moves).value.members;
    forall i | 0 <= i < |ms|
      ensures Structure(ms[i].s)
    {
      ReachableInv(ms[i].cfg, ms[i].s);
    }
    PaidArePermitted(ms);
  }

  /** Streams that read on demand never count. */
  lemma {:induction false} OnDemandIsAsked(cfg: Config, s: Stream)
    requires Reachable(cfg, s) && cfg.readAhead.OnDemand?
    ensures !UnaskedPull(s)
  {
    OnDemandIsLazy(cfg, s);
  }

  // ----- with it there is no cap

  /** A stream running by itself on the budgets. */
  function Solo(cfg: Config, m: Stepped, actions: seq<Action>): Stepped
    decreases |actions|
  {
    if m.Blocked? || actions == [] then m else Solo(cfg, Next(cfg, actions[0], m.s, m.b), actions[1..])
  }

  ghost predicate Leads(cfg: Config, from: Stepped, to: Stepped) {
    from.Moved? && to.Moved? && exists actions :: Solo(cfg, from, actions) == to
  }

  lemma {:induction false} SoloAppend(cfg: Config, m: Stepped, actions: seq<Action>, a: Action)
    requires Solo(cfg, m, actions).Moved?
    ensures Solo(cfg, m, actions + [a]) == Next(cfg, a, Solo(cfg, m, actions).s, Solo(cfg, m, actions).b)
    decreases |actions|
  {
    if actions == [] {
      assert actions + [a] == [a];
      assert Solo(cfg, Next(cfg, a, m.s, m.b), [a][1..]) == Next(cfg, a, m.s, m.b);
    } else {
      assert (actions + [a])[1..] == actions[1..] + [a];
      SoloAppend(cfg, Next(cfg, actions[0], m.s, m.b), actions[1..], a);
    }
  }

  lemma {:induction false} Go(cfg: Config, from: Stepped, m: Stepped, a: Action) returns (m': Stepped)
    requires Leads(cfg, from, m) && Next(cfg, a, m.s, m.b).Moved?
    ensures Leads(cfg, from, m') && m' == Next(cfg, a, m.s, m.b)
  {
    m' := Next(cfg, a, m.s, m.b);
    var actions :| Solo(cfg, from, actions) == m;
    SoloAppend(cfg, from, actions, a);
  }

  /** A pool stream between rounds: `queue` batches wait, `permits` of the `added` demand is left. */
  predicate Resting(s: Stream, c: Coordinator, queue: nat, permits: nat, added: nat, speculated: nat, started: nat) {
    && s.coordinator == c && s.host.Pool? && s.owner.InGuard? && s.drain == Drain(NoRound, None, 0)
    && |s.channel.queue| == queue && s.channel.reserved == 0
    && s.demand.permits == permits && s.demand.added == added
    && !s.consumer.requested && s.consumer.view.Open? && !s.consumer.dropped
    && s.tally.speculated == speculated && s.tally.started == started
  }

  /** ... inside a drain that came with the credit `c` and drew `extra` more, just after a batch was sent. */
  predicate Drained(s: Stream, c: Credit, extra: nat, queue: nat, permits: nat, added: nat, speculated: nat, started: nat) {
    && s.coordinator.InRound? && s.host.Pool? && s.owner.InTask? && s.drain == Drain(Sent, Some(c), extra)
    && |s.channel.queue| == queue && s.channel.reserved == 0
    && s.demand.permits == permits && s.demand.added == added
    && !s.consumer.requested && s.consumer.view.Open? && !s.consumer.dropped
    && s.tally.speculated == speculated && s.tally.started == started
  }

  /** The credit is in hand and a slot is free: up to the pull. */
  lemma {:induction false} IntoPull(cfg: Config, from: Stepped, m: Stepped, c: Credit, queue: nat, permits: nat, added: nat,
                                    speculated: nat, started: nat) returns (m': Stepped)
    requires Leads(cfg, from, m) && Resting(m.s, Reserving(c), queue, permits, added, speculated, started) && queue < 8
    ensures Leads(cfg, from, m') && m'.b == m.b
    ensures m'.s == m.s.(coordinator := InRound, owner := InTask, drain := Drain(Pulling, Some(c), 0),
                         channel := ReserveSlot(m.s.channel), tally := m.s.tally.(started := started + 1))
  {
    m' := Go(cfg, from, m, Coordinate(true));
    m' := Go(cfg, from, m', Coordinate(true));
    m' := Go(cfg, from, m', Work);
    m' := Go(cfg, from, m', Work);
  }

  /** ... and its batch into the channel. */
  lemma {:induction false} PullInto(cfg: Config, from: Stepped, m: Stepped, c: Credit, queue: nat, permits: nat, added: nat,
                                    speculated: nat, started: nat) returns (m': Stepped)
    requires Steady(cfg) && Leads(cfg, from, m)
    requires Resting(m.s, Reserving(c), queue, permits, added, speculated, started) && queue < 8
    ensures Leads(cfg, from, m') && m'.b == m.b
    ensures Drained(m'.s, c, 0, queue + 1, permits, added, speculated, started + 1)
  {
    m' := IntoPull(cfg, from, m, c, queue, permits, added, speculated, started);
    assert |ItemsOf(cfg.schema, cfg.reader(started))| == 1;
    m' := Go(cfg, from, m', Work);
  }

  /** A drain that finds room, no demand and a permit pulls on. */
  lemma {:induction false} DrainOn(cfg: Config, from: Stepped, m: Stepped, c: Credit, extra: nat, queue: nat, added: nat,
                                   speculated: nat, started: nat) returns (m': Stepped)
    requires Steady(cfg) && cfg.readAhead.Buffered? && Leads(cfg, from, m) && m.b.spec > 0
    requires Drained(m.s, c, extra, queue, 0, added, speculated, started) && queue < 8
    ensures Leads(cfg, from, m') && m'.b == m.b.(spec := m.b.spec - 1)
    ensures Drained(m'.s, c, extra + 1, queue + 1, 0, added, speculated + 1, started + 1)
  {
    m' := Go(cfg, from, m, Work);
    m' := Go(cfg, from, m', Work);
    m' := Go(cfg, from, m', Work);
    m' := Go(cfg, from, m', Work);
    assert |ItemsOf(cfg.schema, cfg.reader(started))| == 1;
    m' := Go(cfg, from, m', Work);
  }

  /** A drain that finds the channel full returns, and all its permits with it. */
  lemma {:induction false} DrainStops(cfg: Config, from: Stepped, m: Stepped, c: Credit, extra: nat, permits: nat, added: nat,
                                      speculated: nat, started: nat) returns (m': Stepped)
    requires Leads(cfg, from, m) && Drained(m.s, c, extra, 8, permits, added, speculated, started)
    ensures Leads(cfg, from, m') && m'.b == m.b.(spec := m.b.spec + extra + SpecOf(c))
    ensures Resting(m'.s, Top, 8, permits, added, speculated, started)
  {
    m' := Go(cfg, from, m, Work);
    m' := Go(cfg, from, m', Work);
    m' := Go(cfg, from, m', Coordinate(true));
  }

  lemma {:induction false} SpeculateAtTop(cfg: Config, from: Stepped, m: Stepped, queue: nat, added: nat,
                                          speculated: nat, started: nat) returns (m': Stepped)
    requires cfg.readAhead.Buffered? && Leads(cfg, from, m) && m.b.spec > 0
    requires Resting(m.s, Top, queue, 0, added, speculated, started)
    ensures Leads(cfg, from, m') && m'.b == m.b.(spec := m.b.spec - 1)
    ensures Resting(m'.s, Reserving(Speculative), queue, 0, added, speculated + 1, started)
  {
    m' := Go(cfg, from, m, Coordinate(true));
    m' := Go(cfg, from, m', Coordinate(true));
  }

  /** The consumer asks for and takes a batch that was speculated: its demand is left over. */
  lemma {:induction false} PollAndTake(cfg: Config, from: Stepped, m: Stepped, c: Coordinator, queue: nat, permits: nat, added: nat,
                                       speculated: nat, started: nat) returns (m': Stepped)
    requires Leads(cfg, from, m) && Resting(m.s, c, queue, permits, added, speculated, started) && queue > 0
    ensures Leads(cfg, from, m') && m'.b == m.b
    ensures Resting(m'.s, c, queue - 1, permits + 1, added + 1, speculated, started)
  {
    m' := Go(cfg, from, m, Poll);
    m' := Go(cfg, from, m', Take);
  }

  /** From its start a stream fills its channel; afterwards every permit is back. */
  lemma {:induction false} FillChannel(cfg: Config, start: Stream, b: Budget) returns (m: Stepped)
    requires Steady(cfg) && cfg.readAhead.Buffered? && Fresh(start) && b.spec > CHANNEL_CAPACITY
    ensures Leads(cfg, Moved(start, b), m) && m.b == b && Resting(m.s, Top, 8, 0, 0, 8, 8)
  {
    var from := Moved(start, b);
    assert Solo(cfg, from, []) == from;
    m := Go(cfg, from, from, Coordinate(false));
    m := SpeculateAtTop(cfg, from, m, 0, 0, 0, 0);
    m := PullInto(cfg, from, m, Speculative, 0, 0, 0, 1, 0);
    var n := 1;
    while n < 8
      invariant 1 <= n <= 8 && Leads(cfg, from, m) && m.b == b.(spec := b.spec - n)
      invariant Drained(m.s, Speculative, n - 1, n, 0, 0, n, n)
    {
      m := DrainOn(cfg, from, m, Speculative, n - 1, n, 0, n, n);
      n := n + 1;
    }
    m := DrainStops(cfg, from, m, Speculative, 7, 0, 0, 8, 8);
  }

  /**
   * With permits free at every step: a stream fills its channel, its consumer takes two batches, and the
   * demand they left over pays for a pull nobody asked for. No permit is held, and the budget is untouched.
   */
  lemma {:induction false} UnaskedPullWithoutPermit(cfg: Config, start: Stream, b: Budget) returns (m: Stepped)
    requires Steady(cfg) && cfg.readAhead.Buffered? && Fresh(start) && b.spec > CHANNEL_CAPACITY
    ensures Leads(cfg, Moved(start, b), m) && m.b == b
    ensures UnaskedPull(m.s) && SpecHeld(m.s) == 0 && !m.s.consumer.requested
    ensures m.s.tally.started == 10 && m.s.demand.added == 2
  {
    var from := Moved(start, b);
    m := FillChannel(cfg, start, b);
    m := SpeculateAtTop(cfg, from, m, 8, 0, 8, 8);
    m := PollAndTake(cfg, from, m, Reserving(Speculative), 8, 0, 0, 9, 8);
    m := PullInto(cfg, from, m, Speculative, 7, 1, 1, 9, 8);
    m := DrainStops(cfg, from, m, Speculative, 0, 1, 1, 9, 9);
    m := PollAndTake(cfg, from, m, Top, 8, 1, 1, 9, 9);
    m := Go(cfg, from, m, Coordinate(true));
    m := IntoPull(cfg, from, m, Demanded, 7, 1, 2, 9, 9);
  }

  // ----- in a process

  function Steps(i: nat, actions: seq<Action>): seq<Move> {
    seq(|actions|, k requires 0 <= k < |actions| => Step(i, actions[k]))
  }

  /** What a stream does by itself it can do as a member of a process. */
  lemma {:induction false} SoloInProcess(p: Process, i: nat, actions: seq<Action>)
    requires i < |p.members|
    requires Solo(p.members[i].cfg, Moved(p.members[i].s, p.budget), actions).Moved?
    ensures var m := Solo(p.members[i].cfg, Moved(p.members[i].s, p.budget), actions);
            History(p, Steps(i, actions)) == Some(Process(p.members[i := Member(p.members[i].cfg, m.s)], m.b))
    decreases |actions|
  {
    if actions == [] {
      assert p.members[i := p.members[i]] == p.members;
    } else {
      var cfg := p.members[i].cfg;
      var m := Next(cfg, actions[0], p.members[i].s, p.budget);
      assert m.Moved?;
      var p' := Process(p.members[i := Member(cfg, m.s)], m.b);
      SoloInProcess(p', i, actions[1..]);
      var last := Member(cfg, Solo(cfg, m, actions[1..]).s);
      assert p'.members[i := last] == p.members[i := last];
      assert Steps(i, actions)[0] == Step(i, actions[0]) && Steps(i, actions)[1..] == Steps(i, actions[1..]);
      assert Advance(p, Step(i, actions[0])) == Some(p');
    }
  }

  lemma {:induction false} HistoryConcat(p: Process, first: seq<Move>, second: seq<Move>)
    requires History(p, first).Some?
    ensures History(p, first + second) == History(History(p, first).value, second)
    decreases |first|
  {
    if first == [] {
      assert first + second == second;
    } else {
      assert (first + second)[1..] == first[1..] + second;
      HistoryConcat(Advance(p, first[0]).value, first[1..], second);
    }
  }

  lemma {:induction false} UnaskedAppend(ms: seq<Member>, m: Member)
    ensures Unasked(ms + [m]) == Unasked(ms) + Bit(UnaskedPull(m.s))
  {
    if ms == [] {
      assert ms + [m] == [m] && [m][1..] == [];
    } else {
      assert (ms + [m])[1..] == ms[1..] + [m];
      UnaskedAppend(ms[1..], m);
    }
  }

  /** One more stream stuck in a pull nobody asked for. */
  lemma {:induction false} OneMore(p: Process, cfg: Config) returns (moves: seq<Move>)
    requires Steady(cfg) && cfg.readAhead.Buffered? && p.budget.spec > CHANNEL_CAPACITY
    ensures History(p, moves).Some?
    ensures History(p, moves).value.budget == p.budget
    ensures |History(p, moves).value.members| == |p.members| + 1
    ensures Unasked(History(p, moves).value.members) == Unasked(p.members) + 1
  {
    var start := FreshStream();
    var m := UnaskedPullWithoutPermit(cfg, start, p.budget);
    var actions :| Solo(cfg, Moved(start, p.budget), actions) == m;
    var i := |p.members|;
    var spawned := p.(members := p.members + [Member(cfg, start)]);
    moves := [Spawn(Member(cfg, start))] + Steps(i, actions);
    assert moves[1..] == Steps(i, actions);
    SoloInProcess(spawned, i, actions);
    assert spawned.members[i := Member(cfg, m.s)] == p.members + [Member(cfg, m.s)];
    UnaskedAppend(p.members, Member(cfg, m.s));
  }

  /**
   * So the budget caps nothing: for every n there is a history of a process, from its start, after which n
   * streams sit in pulls nobody asked for and all 64 permits are free.
   */
  lemma {:induction false} UnaskedPullsAreUnbounded(p: Process, cfg: Config, n: nat) returns (moves: seq<Move>)
    requires Boot(p) && Steady(cfg) && cfg.readAhead.Buffered?
    ensures History(p, moves).Some?
    ensures Unasked(History(p, moves).value.members) == n == |History(p, moves).value.members|
    ensures History(p, moves).value.budget.spec == SPECULATION_BUDGET == 64
  {
    moves := [];
    var k := 0;
    while k < n
      invariant k <= n && History(p, moves).Some? && History(p, moves).value.budget == p.budget
      invariant Unasked(History(p, moves).value.members) == k == |History(p, moves).value.members|
    {
      var more := OneMore(History(p, moves).value, cfg);
      HistoryConcat(p, moves, more);
      moves := moves + more;
      k := k + 1;
    }
  }
}
