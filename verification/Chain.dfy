/**
 * Re-entrant readers: level i's pull drains the next item of level i+1 and blocks its own pull
 * thread until it has it. Coordinators only ever take atomic steps and never block, so the model has no
 * async workers to run out of; every level has a host thread of its own.
 */
module Chain {
  import opened Options
  import opened Schema
  import opened Reading
  import opened Bridge
  import opened BridgeInvariants
  import opened BridgeTheorems
  import opened BridgeProgress

  /** `answered`: the running pull has got its item (or end, or panic) from the level below. */
  datatype Level = Level(cfg: Config, s: Stream, answered: bool)

  datatype Move =
    | Outer(action: Action)              // the query polls or drops level 0
    | Own(level: nat, action: Action)    // the producer side of a level moves
    | Nested(level: nat, action: Action) // the pull of a level polls the level below
    | Poisoned(level: nat)               // the level below has panicked before: the poll returns at once
    | Release(level: nat)                // a destroyed closure drops the stream it was reading

  predicate IsAnswer(a: Action) {
    a.Take? || a.SeeEnd? || a.SeePanic?
  }

  /** The pull of level `i` is blocked on the level below. */
  predicate BlockedBelow(chain: seq<Level>, i: nat)
    requires i < |chain|
  {
    i + 1 < |chain| && chain[i].s.drain.round.Pulling? && !chain[i].answered
  }

  function StepAt(chain: seq<Level>, i: nat, a: Action, b: Budget): Option<seq<Level>>
    requires i < |chain|
  {
    match Next(chain[i].cfg, a, chain[i].s, b)
    case Blocked => None
    case Moved(s', _) => Some(chain[i := chain[i].(s := s', answered := chain[i].answered && !s'.drain.round.Ready?)])
  }

  function Apply(chain: seq<Level>, m: Move, b: Budget): Option<seq<Level>> {
    match m
    case Outer(a) =>
      if |chain| == 0 || Internal(a) then None else StepAt(chain, 0, a, b)
    case Own(i, a) =>
      if i >= |chain| || !Internal(a) || (a.Work? && BlockedBelow(chain, i)) then None else StepAt(chain, i, a, b)
    case Nested(i, a) =>
      if i >= |chain| || !BlockedBelow(chain, i) || !(a.Poll? || IsAnswer(a)) then None
      else
        var after := StepAt(chain, i + 1, a, b);
        if after.None? then None else Some(after.value[i := after.value[i].(answered := IsAnswer(a))])
    case Poisoned(i) =>
      if i >= |chain| || !BlockedBelow(chain, i) || !chain[i + 1].s.consumer.view.SawPanic? then None
      else Some(chain[i := chain[i].(answered := true)])
    case Release(i) =>
      if i + 1 >= |chain| || !chain[i].s.owner.Destroyed? then None else StepAt(chain, i + 1, DropStream, b)
  }

  /** A chain that runs: reachable streams, each outliving the one that reads it, no answer before a pull. */
  ghost predicate Sound(chain: seq<Level>) {
    && (forall i :: 0 <= i < |chain| ==> Reachable(chain[i].cfg, chain[i].s))
    && (forall i :: 0 <= i < |chain| - 1 && chain[i + 1].s.consumer.dropped ==> chain[i].s.owner.Destroyed?)
    && (forall i :: 0 <= i < |chain| && chain[i].s.drain.round.Ready? ==> !chain[i].answered)
  }

  ghost predicate Start(chain: seq<Level>) {
    forall i :: 0 <= i < |chain| ==> Fresh(chain[i].s)
  }

  lemma {:induction false} StepAtKeeps(chain: seq<Level>, i: nat, a: Action, b: Budget)
    requires Sound(chain) && i < |chain| && StepAt(chain, i, a, b).Some?
    requires a.DropStream? && i > 0 ==> chain[i - 1].s.owner.Destroyed?
    ensures Sound(StepAt(chain, i, a, b).value)
  {
    var s' := ReachableStep(chain[i].cfg, a, chain[i].s, b);
    if chain[i].s.owner.Destroyed? {
      DestroyedForGood(chain[i].cfg, a, chain[i].s, b);
    }
    OnlyDropDrops(chain[i].cfg, a, chain[i].s, b);
  }

  lemma {:induction false} OnlyDropDrops(cfg: Config, a: Action, s: Stream, b: Budget)
    requires Next(cfg, a, s, b).Moved?
    ensures Next(cfg, a, s, b).s.consumer.dropped == (s.consumer.dropped || a.DropStream?)
  {
  }

  lemma {:induction false} ApplyKeeps(chain: seq<Level>, m: Move, b: Budget)
    requires Sound(chain) && Apply(chain, m, b).Some?
    ensures Sound(Apply(chain, m, b).value)
  {
    match m
    case Outer(a) => StepAtKeeps(chain, 0, a, b);
    case Own(i, a) => StepAtKeeps(chain, i, a, b);
    case Nested(i, a) => StepAtKeeps(chain, i + 1, a, b);
    case Poisoned(i) =>
    case Release(i) => StepAtKeeps(chain, i + 1, DropStream, b);
  }

  datatype Event = Event(move: Move, budget: Budget)

  function History(chain: seq<Level>, events: seq<Event>): Option<seq<Level>>
    decreases |events|
  {
    if events == [] then Some(chain)
    else
      match Apply(chain, events[0].move, events[0].budget)
      case None => None
      case Some(next) => History(next, events[1..])
  }

  lemma {:induction false} HistoryKeeps(chain: seq<Level>, events: seq<Event>)
    requires Sound(chain) && History(chain, events).Some?
    ensures Sound(History(chain, events).value)
    decreases |events|
  {
    if events != [] {
      ApplyKeeps(chain, events[0].move, events[0].budget);
      HistoryKeeps(Apply(chain, events[0].move, events[0].budget).value, events[1..]);
    }
  }

  lemma {:induction false} StartIsSound(chain: seq<Level>)
    requires Start(chain)
    ensures Sound(chain)
  {
    forall i | 0 <= i < |chain|
      ensures Reachable(chain[i].cfg, chain[i].s)
    {
      ReachableStart(chain[i].cfg, chain[i].s);
    }
  }

  /** Somebody asked for the next item of level `i` and has not been answered for good. */
  predicate Pending(chain: seq<Level>, i: nat)
    requires i < |chain|
  {
    var c := chain[i].s.consumer;
    c.requested && !c.dropped && c.view.Open?
  }

  /** The wait of the query reaches level `j`: every level above it is waited for and blocked below. */
  predicate OnPath(chain: seq<Level>, j: nat)
    requires j < |chain|
  {
    forall i :: 0 <= i < j ==> Waiting(chain[i].s) && BlockedBelow(chain, i)
  }

  /**
   * The move serves the query's wait: an answer to the query, a producer step of the level everybody
   * waits for, its first poll, or its answer. A re-poll does not count, nor does read-ahead elsewhere.
   */
  predicate Serves(chain: seq<Level>, m: Move) {
    match m
    case Outer(a) => |chain| > 0 && IsAnswer(a)
    case Own(j, a) => j < |chain| && OnPath(chain, j) && Waiting(chain[j].s)
    case Nested(i, a) =>
      i + 1 < |chain| && OnPath(chain, i + 1) && (a.Poll? ==> !chain[i + 1].s.consumer.requested)
    case Poisoned(i) => i + 1 < |chain| && OnPath(chain, i + 1)
    case Release(_) => false
  }

  /** Some enabled move serves the query's wait. */
  ghost predicate CanMove(chain: seq<Level>, b: Budget) {
    exists m :: Apply(chain, m, b).Some? && Serves(chain, m)
  }

  /** An answer for level `i`, given by whoever reads it. */
  lemma {:induction false} AnswerMoves(chain: seq<Level>, i: nat, a: Action, b: Budget)
    requires Sound(chain) && i < |chain| && IsAnswer(a)
    requires Next(chain[i].cfg, a, chain[i].s, b).Moved?
    requires OnPath(chain, i)
    ensures CanMove(chain, b)
  {
    var m := if i == 0 then Outer(a) else Nested(i - 1, a);
    assert Apply(chain, m, b).Some? && Serves(chain, m);
  }

  /** A producer step of level `i` that its pull is not blocking. */
  lemma {:induction false} OwnMoves(chain: seq<Level>, i: nat, a: Action, b: Budget)
    requires Sound(chain) && i < |chain| && Internal(a)
    requires Next(chain[i].cfg, a, chain[i].s, b).Moved?
    requires !(a.Work? && BlockedBelow(chain, i)) && OnPath(chain, i) && Waiting(chain[i].s)
    ensures CanMove(chain, b)
  {
    assert Apply(chain, Own(i, a), b).Some? && Serves(chain, Own(i, a));
  }

  /** A fresh request from the blocked pull of level `i` to the level below. */
  lemma {:induction false} FirstPollMoves(chain: seq<Level>, i: nat, b: Budget)
    requires Sound(chain) && i + 1 < |chain| && OnPath(chain, i + 1)
    requires var c := chain[i + 1].s.consumer; !c.requested && !c.dropped && !c.view.SawPanic?
    ensures CanMove(chain, b)
  {
    assert Apply(chain, Nested(i, Poll), b).Some? && Serves(chain, Nested(i, Poll));
  }

  lemma {:induction false} PoisonedMoves(chain: seq<Level>, i: nat, b: Budget)
    requires Sound(chain) && i + 1 < |chain| && OnPath(chain, i + 1)
    requires chain[i + 1].s.consumer.view.SawPanic?
    ensures CanMove(chain, b)
  {
    assert Apply(chain, Poisoned(i), b).Some? && Serves(chain, Poisoned(i));
  }

  lemma {:induction false} PullingIsOwned(cfg: Config, s: Stream)
    requires Reachable(cfg, s) && s.drain.round.Pulling?
    ensures !s.owner.Destroyed?
  {
    ReachableInv(cfg, s);
  }

  /** A stream that has ended answers every further poll with the end. */
  lemma {:induction false} EndStaysVisible(cfg: Config, s: Stream, b: Budget)
    requires Reachable(cfg, s) && s.consumer.view.SawEnd? && s.consumer.requested && !s.consumer.dropped
    ensures Next(cfg, SeeEnd, s, b) == Moved(s, b)
  {
    ReachableInv(cfg, s);
    assert |s.channel.sent| == |s.consumer.delivered| + |s.channel.queue|;
  }

  /** Deadlock freedom from level `i` down, by induction on the levels below it. */
  lemma {:induction false} NobodyWaitsForever(chain: seq<Level>, i: nat, b: Budget)
    requires Sound(chain) && i < |chain| && Pending(chain, i) && OnPath(chain, i)
    ensures CanMove(chain, b)
    decreases |chain| - i
  {
    var cfg, s := chain[i].cfg, chain[i].s;
    ReachableInv(cfg, s);
    if !Waiting(s) {
      NotWaitingIsServed(cfg, s, b);
      var a := if Next(cfg, Take, s, b).Moved? then Take else if Next(cfg, SeeEnd, s, b).Moved? then SeeEnd else SeePanic;
      AnswerMoves(chain, i, a, b);
    } else {
      WaitingCanStep(cfg, s, b);
      if Next(cfg, Coordinate(true), s, b).Moved? {
        OwnMoves(chain, i, Coordinate(true), b);
      } else if !BlockedBelow(chain, i) {
        OwnMoves(chain, i, Work, b);
      } else {
        assert OnPath(chain, i + 1);
        BelowMoves(chain, i, b);
      }
    }
  }

  lemma {:induction false} BelowMoves(chain: seq<Level>, i: nat, b: Budget)
    requires Sound(chain) && i + 1 < |chain| && OnPath(chain, i + 1)
    ensures CanMove(chain, b)
    decreases |chain| - i, 0
  {
    var s := chain[i + 1].s;
    PullingIsOwned(chain[i].cfg, chain[i].s);
    assert !s.consumer.dropped;
    if s.consumer.view.SawPanic? {
      PoisonedMoves(chain, i, b);
    } else if !s.consumer.requested {
      FirstPollMoves(chain, i, b);
    } else if s.consumer.view.SawEnd? {
      EndStaysVisible(chain[i + 1].cfg, s, b);
      AnswerMoves(chain, i + 1, SeeEnd, b);
    } else {
      NobodyWaitsForever(chain, i + 1, b);
    }
  }

  /**
   * For any number of nested streams, both hosts and both read-ahead modes on every level, and any
   * budgets: while the query waits on the outermost stream, some enabled move serves its wait.
   */
  lemma {:induction false} NestedStreamsDoNotDeadlock(start: seq<Level>, events: seq<Event>, b: Budget)
    requires Start(start) && History(start, events).Some?
    requires var now := History(start, events).value; |now| > 0 && Pending(now, 0)
    ensures CanMove(History(start, events).value, b)
  {
    StartIsSound(start);
    HistoryKeeps(start, events);
    NobodyWaitsForever(History(start, events).value, 0, b);
  }

  // ----- how long the query waits

  const LEVEL_COST: nat := 44

  /** The most serving moves that `n` levels nobody has asked yet can take. */
  function Full(n: nat): nat {
    LEVEL_COST * n
  }

  /** Serving moves left until level `i`, which has been asked, has an answer ready. */
  function Cost(chain: seq<Level>, i: nat): nat
    requires i < |chain|
    decreases |chain| - i, 0
  {
    var s := chain[i].s;
    if !Waiting(s) then 0
    else if BlockedBelow(chain, i) then StepsToItem(s) + 1 + AskCost(chain, i + 1)
    else if CoordinatorRank(s) > 7 then StepsToItem(s) + Full(|chain| - i - 1)
    else StepsToItem(s)
  }

  /** Serving moves left until whoever reads level `i` has its answer. */
  function AskCost(chain: seq<Level>, i: nat): nat
    requires i < |chain|
    decreases |chain| - i, 1
  {
    if chain[i].s.consumer.requested then 1 + Cost(chain, i) else Full(|chain| - i)
  }

  lemma {:induction false} CostBound(chain: seq<Level>, i: nat)
    requires Sound(chain) && i < |chain|
    ensures Cost(chain, i) <= 42 + Full(|chain| - i - 1)
    ensures AskCost(chain, i) <= Full(|chain| - i)
    decreases |chain| - i
  {
    ReachableInv(chain[i].cfg, chain[i].s);
    if i + 1 < |chain| {
      CostBound(chain, i + 1);
    }
  }

  /** A producer step of the level everybody waits for brings its answer closer. */
  lemma {:induction false} OwnCostDrops(chain: seq<Level>, j: nat, a: Action, b: Budget)
    requires Sound(chain) && j < |chain| && OnPath(chain, j) && Waiting(chain[j].s)
    requires Apply(chain, Own(j, a), b).Some?
    ensures Cost(Apply(chain, Own(j, a), b).value, j) < Cost(chain, j)
  {
    var after := Apply(chain, Own(j, a), b).value;
    ReachableInv(chain[j].cfg, chain[j].s);
    ApplyKeeps(chain, Own(j, a), b);
    WaitingAdvances(chain[j].cfg, a, chain[j].s, b);
    WaitingHasCost(chain, j);
    if BlockedBelow(chain, j) {
      BlockedLevelIsStill(chain, j, a, b);
    } else if Waiting(after[j].s) && BlockedBelow(after, j) {
      CostBound(after, j + 1);
      PullBegins(chain[j].cfg, a, chain[j].s, b);
    }
  }

  lemma {:induction false} WaitingHasCost(chain: seq<Level>, j: nat)
    requires Sound(chain) && j < |chain| && Waiting(chain[j].s)
    ensures Cost(chain, j) > 0
  {
    ReachableInv(chain[j].cfg, chain[j].s);
  }

  /** A level whose pull is blocked has no producer step. */
  lemma {:induction false} BlockedLevelIsStill(chain: seq<Level>, j: nat, a: Action, b: Budget)
    requires Sound(chain) && j < |chain| && Waiting(chain[j].s) && BlockedBelow(chain, j)
    ensures Apply(chain, Own(j, a), b).None?
  {
    ReachableInv(chain[j].cfg, chain[j].s);
  }

  /** The only producer step of a waited-for level into a pull is the start of one. */
  lemma {:induction false} PullBegins(cfg: Config, a: Action, s: Stream, b: Budget)
    requires Inv(cfg, s) && Waiting(s) && Internal(a) && Next(cfg, a, s, b).Moved? && !s.drain.round.Pulling?
    requires Next(cfg, a, s, b).s.drain.round.Pulling?
    ensures s.drain.round.Ready? && StepsToItem(Next(cfg, a, s, b).s) + 2 == StepsToItem(s) && CoordinatorRank(s) == 8
  {
  }

  /** The first poll, the answer or an old panic: the level above gets closer. */
  lemma {:induction false} AskCostDrops(chain: seq<Level>, i: nat, m: Move, b: Budget)
    requires Sound(chain) && i + 1 < |chain| && OnPath(chain, i + 1)
    requires m.Nested? || m.Poisoned?
    requires m.level == i && Apply(chain, m, b).Some? && Serves(chain, m)
    ensures Cost(Apply(chain, m, b).value, i) < Cost(chain, i)
  {
    var after := Apply(chain, m, b).value;
    ApplyKeeps(chain, m, b);
    ReachableInv(chain[i].cfg, chain[i].s);
    assert after[i].s == chain[i].s;
    if m.Nested? && m.action.Poll? {
      CostBound(after, i + 1);
      assert after[i + 1].s.consumer.requested;
    }
  }

  /** Less cost at the end of the path is less cost for the query. */
  lemma {:induction false} CostRises(chain: seq<Level>, after: seq<Level>, i: nat, j: nat)
    requires |after| == |chain| && i <= j < |chain| && OnPath(chain, j)
    requires forall k :: i <= k < j ==> after[k] == chain[k]
    requires i < j ==> Waiting(chain[j].s) && after[j].s.consumer.requested
    requires Cost(after, j) < Cost(chain, j)
    ensures Cost(after, i) < Cost(chain, i)
    decreases j - i
  {
    if i < j {
      CostRises(chain, after, i + 1, j);
      assert BlockedBelow(chain, i) && BlockedBelow(after, i);
    }
  }

  /** Every move that serves the query, other than the answer it gets, costs one. */
  lemma {:induction false} ServingMovesCost(chain: seq<Level>, m: Move, b: Budget)
    requires Sound(chain) && |chain| > 0 && Pending(chain, 0) && !m.Outer?
    requires Apply(chain, m, b).Some? && Serves(chain, m)
    ensures Cost(Apply(chain, m, b).value, 0) < Cost(chain, 0)
  {
    var after := Apply(chain, m, b).value;
    match m
    case Own(j, a) =>
      OwnCostDrops(chain, j, a, b);
      InternalKeepsConsumer(chain[j].cfg, a, chain[j].s, b);
      CostRises(chain, after, 0, j);
    case Nested(i, a) =>
      AskCostDrops(chain, i, m, b);
      assert after[i].s == chain[i].s;
      CostRises(chain, after, 0, i);
    case Poisoned(i) =>
      AskCostDrops(chain, i, m, b);
      CostRises(chain, after, 0, i);
    case Release(_) =>
  }

  // ----- moves that do not serve the query do not delay it

  /** A level on the path is touched by serving moves alone. */
  lemma {:induction false} PathLevelKeeps(chain: seq<Level>, m: Move, b: Budget, i: nat)
    requires Sound(chain) && i < |chain| && OnPath(chain, i) && !m.Outer?
    requires Apply(chain, m, b).Some? && !Serves(chain, m)
    ensures var after := Apply(chain, m, b).value;
            && |after| == |chain| && after[i].s.consumer == chain[i].s.consumer
            && (Waiting(chain[i].s) ==> after[i] == chain[i])
  {
    assert Waiting(chain[i].s) && BlockedBelow(chain, i) ==> OnPath(chain, i + 1);
    match m
    case Own(k, a) =>
      if k == i {
        InternalKeepsConsumer(chain[i].cfg, a, chain[i].s, b);
      }
    case Nested(k, a) =>
      if k + 1 == i {
        assert Next(chain[i].cfg, a, chain[i].s, b) == Moved(chain[i].s, b);
      }
    case Poisoned(_) =>
    case Release(k) =>
      if k + 1 == i {
        assert Waiting(chain[k].s) && BlockedBelow(chain, k);
        PullingIsOwned(chain[k].cfg, chain[k].s);
      }
  }

  /** An answer that is ready stays ready. */
  lemma {:induction false} PathLevelStaysReady(chain: seq<Level>, m: Move, b: Budget, i: nat)
    requires Sound(chain) && i < |chain| && OnPath(chain, i) && !m.Outer? && !Waiting(chain[i].s)
    requires Apply(chain, m, b).Some? && !Serves(chain, m)
    ensures |Apply(chain, m, b).value| == |chain| && !Waiting(Apply(chain, m, b).value[i].s)
  {
  }

  lemma {:induction false} OtherMovesKeepCost(chain: seq<Level>, m: Move, b: Budget, i: nat)
    requires Sound(chain) && i < |chain| && OnPath(chain, i) && !m.Outer?
    requires Apply(chain, m, b).Some? && !Serves(chain, m)
    ensures |Apply(chain, m, b).value| == |chain|
    ensures Cost(Apply(chain, m, b).value, i) <= Cost(chain, i)
    decreases |chain| - i
  {
    var after := Apply(chain, m, b).value;
    PathLevelKeeps(chain, m, b, i);
    if !Waiting(chain[i].s) {
      PathLevelStaysReady(chain, m, b, i);
    } else if BlockedBelow(chain, i) {
      assert OnPath(chain, i + 1);
      PathLevelKeeps(chain, m, b, i + 1);
      OtherMovesKeepCost(chain, m, b, i + 1);
    }
  }

  // ----- the whole wait

  /** The query does nothing but wait: it may poll again, and takes nothing. */
  predicate OnlyWaits(events: seq<Event>) {
    forall i :: 0 <= i < |events| ==> (events[i].move.Outer? ==> events[i].move.action.Poll?)
  }

  /** Moves of a history that serve the query's wait. */
  function Serving(chain: seq<Level>, events: seq<Event>): nat
    decreases |events|
  {
    if events == [] || Apply(chain, events[0].move, events[0].budget).None? then 0
    else
      (if Serves(chain, events[0].move) then 1 else 0)
      + Serving(Apply(chain, events[0].move, events[0].budget).value, events[1..])
  }

  lemma {:induction false} QueryStaysPending(chain: seq<Level>, m: Move, b: Budget)
    requires Sound(chain) && |chain| > 0 && Pending(chain, 0) && Apply(chain, m, b).Some?
    requires m.Outer? ==> m.action.Poll?
    ensures |Apply(chain, m, b).value| == |chain| && Pending(Apply(chain, m, b).value, 0)
    ensures m.Outer? ==> Apply(chain, m, b).value == chain
  {
  }

  lemma {:induction false} ServingIsBounded(chain: seq<Level>, events: seq<Event>)
    requires Sound(chain) && |chain| > 0 && Pending(chain, 0)
    requires OnlyWaits(events) && History(chain, events).Some?
    ensures Serving(chain, events) <= Cost(chain, 0)
    decreases |events|
  {
    if events != [] {
      var m, b := events[0].move, events[0].budget;
      var after := Apply(chain, m, b).value;
      ApplyKeeps(chain, m, b);
      QueryStaysPending(chain, m, b);
      ServingIsBounded(after, events[1..]);
      if !m.Outer? {
        if Serves(chain, m) {
          ServingMovesCost(chain, m, b);
        } else {
          OtherMovesKeepCost(chain, m, b, 0);
        }
      }
    }
  }

  /**
   * The wait is bounded by the depth alone: from any point of any history at which the query waits, at
   * most 44 moves per level serve its wait before its answer is ready, however the levels read ahead
   * meanwhile; and until then one is always enabled.
   */
  lemma {:induction false} NestedWaitIsBounded(start: seq<Level>, past: seq<Event>, future: seq<Event>, b: Budget)
    requires Start(start) && History(start, past).Some?
    requires var now := History(start, past).value;
             && |now| > 0 && Pending(now, 0) && OnlyWaits(future) && History(now, future).Some?
    ensures var now := History(start, past).value;
            && Serving(now, future) <= LEVEL_COST * |now|
            && CanMove(History(now, future).value, b)
  {
    StartIsSound(start);
    HistoryKeeps(start, past);
    var now := History(start, past).value;
    ServingIsBounded(now, future);
    CostBound(now, 0);
    WaitingGoesOn(now, future);
    NobodyWaitsForever(History(now, future).value, 0, b);
  }

  lemma {:induction false} WaitingGoesOn(chain: seq<Level>, events: seq<Event>)
    requires Sound(chain) && |chain| > 0 && Pending(chain, 0)
    requires OnlyWaits(events) && History(chain, events).Some?
    ensures var now := History(chain, events).value; Sound(now) && |now| == |chain| && Pending(now, 0)
    decreases |events|
  {
    if events != [] {
      ApplyKeeps(chain, events[0].move, events[0].budget);
      QueryStaysPending(chain, events[0].move, events[0].budget);
      WaitingGoesOn(Apply(chain, events[0].move, events[0].budget).value, events[1..]);
    }
  }

  // ----- when the query is dropped

  /** Any move but the query's own. */
  ghost predicate Moves(chain: seq<Level>, b: Budget) {
    exists m: Move :: !m.Outer? && Apply(chain, m, b).Some?
  }

  lemma {:induction false} MoveIs(chain: seq<Level>, m: Move, b: Budget)
    requires !m.Outer? && Apply(chain, m, b).Some?
    ensures Moves(chain, b)
  {
  }

  /** A pull blocked on the level below is never stuck: something below it moves. */
  lemma {:induction false} BlockedPullMoves(chain: seq<Level>, i: nat, b: Budget)
    requires Sound(chain) && i < |chain| && BlockedBelow(chain, i)
    ensures Moves(chain, b)
    decreases |chain| - i
  {
    var cfg, s := chain[i + 1].cfg, chain[i + 1].s;
    PullingIsOwned(chain[i].cfg, chain[i].s);
    assert !s.consumer.dropped;
    ReachableInv(cfg, s);
    if s.consumer.view.SawPanic? {
      MoveIs(chain, Poisoned(i), b);
    } else if !s.consumer.requested {
      MoveIs(chain, Nested(i, Poll), b);
    } else if s.consumer.view.SawEnd? {
      EndStaysVisible(cfg, s, b);
      MoveIs(chain, Nested(i, SeeEnd), b);
    } else if !Waiting(s) {
      NotWaitingIsServed(cfg, s, b);
      var a := if Next(cfg, Take, s, b).Moved? then Take else if Next(cfg, SeeEnd, s, b).Moved? then SeeEnd else SeePanic;
      MoveIs(chain, Nested(i, a), b);
    } else {
      WaitingCanStep(cfg, s, b);
      if Next(cfg, Coordinate(true), s, b).Moved? {
        MoveIs(chain, Own(i + 1, Coordinate(true)), b);
      } else if BlockedBelow(chain, i + 1) {
        BlockedPullMoves(chain, i + 1, b);
      } else {
        MoveIs(chain, Own(i + 1, Work), b);
      }
    }
  }

  /** In a chain in which nothing moves, a dropped level has given everything back. */
  lemma {:induction false} StuckLevelIsReleased(chain: seq<Level>, i: nat, b: Budget)
    requires Sound(chain) && i < |chain| && chain[i].s.consumer.dropped && !Moves(chain, b)
    ensures Released(chain[i].s)
  {
    var cfg, s := chain[i].cfg, chain[i].s;
    ReachableInv(cfg, s);
    forall a: Action | Internal(a)
      ensures Next(cfg, a, s, b).Blocked?
    {
      if Next(cfg, a, s, b).Moved? {
        if BlockedBelow(chain, i) {
          BlockedPullMoves(chain, i, b);
        } else {
          MoveIs(chain, Own(i, a), b);
        }
      }
    }
    StuckMeansReleased(cfg, s, b);
  }

  lemma {:induction false} ReleaseReaches(chain: seq<Level>, i: nat, b: Budget)
    requires Sound(chain) && i < |chain| && chain[0].s.consumer.dropped && !Moves(chain, b)
    ensures chain[i].s.consumer.dropped && Released(chain[i].s)
    decreases i
  {
    if i > 0 {
      ReleaseReaches(chain, i - 1, b);
      if !chain[i].s.consumer.dropped {
        MoveIs(chain, Release(i - 1), b);
      }
    }
    StuckLevelIsReleased(chain, i, b);
  }

  /**
   * Dropping the query releases the whole chain: in any history, once the query is dropped and nothing moves
   * any more, no level holds a credit, a slot, a pull thread or a closure.
   */
  lemma {:induction false} DroppedChainIsReleased(start: seq<Level>, events: seq<Event>, b: Budget)
    requires Start(start) && History(start, events).Some?
    requires var now := History(start, events).value; |now| > 0 && now[0].s.consumer.dropped && !Moves(now, b)
    ensures var now := History(start, events).value; forall i :: 0 <= i < |now| ==> Released(now[i].s)
  {
    StartIsSound(start);
    HistoryKeeps(start, events);
    var now := History(start, events).value;
    forall i | 0 <= i < |now|
      ensures Released(now[i].s)
    {
      ReleaseReaches(now, i, b);
    }
  }
}
