/** Any number of streams sharing the two process-wide budgets. */
module World {
  import opened Options
  import opened Schema
  import opened Reading
  import opened Bridge
  import opened BridgeInvariants
  import opened BridgeTheorems
  import opened BridgeProgress

  datatype Member = Member(cfg: Config, s: Stream)

  datatype Process = Process(members: seq<Member>, budget: Budget)

  /** Either a new stream is spawned, or one stream takes one of its steps on the shared budgets. */
  datatype Move = Spawn(member: Member) | Step(index: nat, action: Action)

  function Advance(p: Process, m: Move): Option<Process> {
    match m
    case Spawn(member) =>
      if Fresh(member.s) then Some(p.(members := p.members + [member])) else None
    case Step(i, a) =>
      if i >= |p.members| then None
      else match Next(p.members[i].cfg, a, p.members[i].s, p.budget)
        case Blocked => None
        case Moved(s', b') => Some(Process(p.members[i := Member(p.members[i].cfg, s')], b'))
  }

  function History(p: Process, moves: seq<Move>): Option<Process>
    decreases |moves|
  {
    if moves == [] then Some(p)
    else
      match Advance(p, moves[0])
      case None => None
      case Some(p') => History(p', moves[1..])
  }

  predicate Boot(p: Process) {
    p.members == [] && p.budget == Budget(SPECULATION_BUDGET, AFFINE_THREAD_BUDGET)
  }

  function SpecTotal(ms: seq<Member>): nat {
    if ms == [] then 0 else SpecHeld(ms[0].s) + SpecTotal(ms[1..])
  }

  function ThreadTotal(ms: seq<Member>): nat {
    if ms == [] then 0 else ThreadsHeld(ms[0].s) + ThreadTotal(ms[1..])
  }

  /** Streams inside a pull while they hold permits of the speculation budget. */
  function Permitted(ms: seq<Member>): nat {
    if ms == [] then 0
    else Bit(ms[0].s.drain.round.Pulling? && SpecHeld(ms[0].s) > 0) + Permitted(ms[1..])
  }

  /** Every permit is free or held by a live stream, and every stream is one the theorems speak of. */
  ghost predicate Conserved(p: Process) {
    && p.budget.spec + SpecTotal(p.members) == SPECULATION_BUDGET
    && p.budget.threads + ThreadTotal(p.members) == AFFINE_THREAD_BUDGET
    && forall i :: 0 <= i < |p.members| ==> Reachable(p.members[i].cfg, p.members[i].s)
  }

  /** One step moves permits between the budgets and the stream, and loses none. */
  lemma {:induction false} StepConserves(cfg: Config, a: Action, s: Stream, b: Budget)
    requires Structure(s) && Next(cfg, a, s, b).Moved?
    ensures var m := Next(cfg, a, s, b);
            && m.b.spec + SpecHeld(m.s) == b.spec + SpecHeld(s)
            && m.b.threads + ThreadsHeld(m.s) == b.threads + ThreadsHeld(s)
  {
    if ByCoordinator(a) {
      StepConservesCoordinator(cfg, a, s, b);
    }
  }

  lemma {:induction false} StepConservesCoordinator(cfg: Config, a: Action, s: Stream, b: Budget)
    requires Structure(s) && ByCoordinator(a) && Next(cfg, a, s, b).Moved?
    ensures var m := Next(cfg, a, s, b);
            && m.b.spec + SpecHeld(m.s) == b.spec + SpecHeld(s)
            && m.b.threads + ThreadsHeld(m.s) == b.threads + ThreadsHeld(s)
  {
  }

  lemma {:induction false} TotalsUpdate(ms: seq<Member>, i: nat, m: Member)
    requires i < |ms|
    ensures SpecTotal(ms[i := m]) + SpecHeld(ms[i].s) == SpecTotal(ms) + SpecHeld(m.s)
    ensures ThreadTotal(ms[i := m]) + ThreadsHeld(ms[i].s) == ThreadTotal(ms) + ThreadsHeld(m.s)
  {
    if i == 0 {
      assert ms[i := m][1..] == ms[1..];
    } else {
      assert ms[i := m][1..] == ms[1..][i - 1 := m];
      TotalsUpdate(ms[1..], i - 1, m);
    }
  }

  lemma {:induction false} TotalsAppend(ms: seq<Member>, m: Member)
    ensures SpecTotal(ms + [m]) == SpecTotal(ms) + SpecHeld(m.s)
    ensures ThreadTotal(ms + [m]) == ThreadTotal(ms) + ThreadsHeld(m.s)
  {
    if ms == [] {
      assert [m][1..] == [];
      assert ms + [m] == [m];
    } else {
      assert (ms + [m])[1..] == ms[1..] + [m];
      TotalsAppend(ms[1..], m);
    }
  }

  lemma {:induction false} AdvanceConserves(p: Process, m: Move)
    requires Conserved(p) && Advance(p, m).Some?
    ensures Conserved(Advance(p, m).value)
  {
    match m
    case Spawn(member) =>
      TotalsAppend(p.members, member);
      ReachableStart(member.cfg, member.s);
    case Step(i, a) =>
      var was := p.members[i];
      ReachableInv(was.cfg, was.s);
      StepConserves(was.cfg, a, was.s, p.budget);
      var s' := ReachableStep(was.cfg, a, was.s, p.budget);
      TotalsUpdate(p.members, i, Member(was.cfg, s'));
  }

  lemma {:induction false} HistoryConserves(p: Process, moves: seq<Move>)
    requires Conserved(p) && History(p, moves).Some?
    ensures Conserved(History(p, moves).value)
    decreases |moves|
  {
    if moves != [] {
      AdvanceConserves(p, moves[0]);
      HistoryConserves(Advance(p, moves[0]).value, moves[1..]);
    }
  }

  lemma {:induction false} PermittedHold(ms: seq<Member>)
    ensures Permitted(ms) <= SpecTotal(ms)
  {
    if ms != [] {
      PermittedHold(ms[1..]);
    }
  }

  /**
   * Over every history of a process, with any number of streams and through spawn failures, panics
   * and cancellation: free permits plus permits held by streams are the two budgets, so no more than
   * 64 streams ever sit in a pull while holding a speculation permit and no more than 128 pull threads
   * are alive. What this means for pulls nobody asked for is the subject of module Leftover.
   */
  lemma {:induction false} BudgetsAreConserved(p: Process, moves: seq<Move>)
    requires Boot(p) && History(p, moves).Some?
    ensures Conserved(History(p, moves).value)
    ensures Permitted(History(p, moves).value.members) <= SPECULATION_BUDGET
    ensures ThreadTotal(History(p, moves).value.members) <= AFFINE_THREAD_BUDGET
  {
    HistoryConserves(p, moves);
    PermittedHold(History(p, moves).value.members);
  }
}
