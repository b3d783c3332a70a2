/**
 * What travels up a chain of nested streams. A pull that passes on the next item of the stream below answers
 * what that stream really delivered, so the query reads the innermost source through any number of levels.
 */
module ChainReading {
  import opened Options
  import opened Schema
  import opened Reading
  import opened Bridge
  import opened BridgeInvariants
  import opened BridgeTheorems
  import opened BridgeProgress
  import opened Chain

  /** A pull that got this answer from the stream below passes it on. */
  function PassOn(schema: seq<Field>, p: Pulled): Pulled {
    if p.Batch? && !Matches(schema, p.batch.fields) then Fault(SchemaMismatch(schema, p.batch.fields)) else p
  }

  /** The reader of a level that passes on, call by call, the stream below. */
  function Relay(below: Config): Reader {
    (n: nat) => if OpenFor(below.reader, below.schema, n) then PassOn(below.schema, below.reader(n)) else Exhausted
  }

  /** The relayed reading is the reading itself. */
  lemma {:induction false} RelayReads(below: Config, from: nat, n: nat)
    requires OpenFor(below.reader, below.schema, from)
    ensures Read(Relay(below), below.schema, from, n) == Read(below.reader, below.schema, from, n)
    decreases n
  {
    if n > 0 && Continues(below.schema, below.reader(from)) {
      RelayReads(below, from + 1, n - 1);
    }
  }

  // ----- one answer per pull

  /** Pulls of a level that have got their answer from the level below. */
  function AnsweredPulls(l: Level): int {
    l.s.tally.started - Bit(l.s.drain.round.Pulling? && !l.answered)
  }

  /** Each answered pull took one item of the level below, until that one ended. */
  predicate Coupled(l: Level, below: Level) {
    && (below.s.consumer.view.Open? ==> |below.s.consumer.delivered| == AnsweredPulls(l))
    && (below.s.consumer.view.SawEnd? ==> |below.s.consumer.delivered| < AnsweredPulls(l))
  }

  ghost predicate AllCoupled(chain: seq<Level>) {
    forall i :: 0 <= i < |chain| - 1 ==> Coupled(chain[i], chain[i + 1])
  }

  /** The consumer's steps leave pulls alone. */
  lemma {:induction false} ConsumerKeepsPulls(cfg: Config, a: Action, s: Stream, b: Budget)
    requires !Internal(a) && Next(cfg, a, s, b).Moved?
    ensures var s' := Next(cfg, a, s, b).s; s'.tally.started == s.tally.started && s'.drain == s.drain
  {
  }

  /** A producer step neither answers a pull nor forgets an answer; it may start a pull. */
  lemma {:induction false} ProducerKeepsAnswers(l: Level, a: Action, b: Budget)
    requires Structure(l.s) && Internal(a) && Next(l.cfg, a, l.s, b).Moved?
    requires a.Work? && l.s.drain.round.Pulling? ==> l.answered
    requires l.s.drain.round.Ready? ==> !l.answered
    ensures var s' := Next(l.cfg, a, l.s, b).s;
            AnsweredPulls(l.(s := s', answered := l.answered && !s'.drain.round.Ready?)) == AnsweredPulls(l)
  {
  }

  /** What a poll of a level does to its consumer's side. */
  lemma {:induction false} PollingBelow(cfg: Config, a: Action, s: Stream, b: Budget)
    requires (a.Poll? || IsAnswer(a)) && Next(cfg, a, s, b).Moved?
    ensures var c, c' := s.consumer, Next(cfg, a, s, b).s.consumer;
            match a
            case Poll => c'.view == c.view && c'.delivered == c.delivered
            case Take => c.view.Open? && c'.view.Open? && |c'.delivered| == |c.delivered| + 1
            case SeeEnd => !c.view.SawPanic? && c'.view.SawEnd? && c'.delivered == c.delivered
            case _ => c'.view.SawPanic?
  {
  }

  lemma {:induction false} CoupledByOwn(chain: seq<Level>, k: nat, a: Action, b: Budget, i: nat)
    requires Sound(chain) && i + 1 < |chain| && Coupled(chain[i], chain[i + 1]) && Apply(chain, Own(k, a), b).Some?
    ensures var after := Apply(chain, Own(k, a), b).value; |after| == |chain| && Coupled(after[i], after[i + 1])
  {
    InternalKeepsConsumer(chain[k].cfg, a, chain[k].s, b);
    if k == i {
      ReachableInv(chain[i].cfg, chain[i].s);
      ProducerKeepsAnswers(chain[i], a, b);
    }
  }

  lemma {:induction false} CoupledByNested(chain: seq<Level>, k: nat, a: Action, b: Budget, i: nat)
    requires Sound(chain) && i + 1 < |chain| && Coupled(chain[i], chain[i + 1]) && Apply(chain, Nested(k, a), b).Some?
    ensures var after := Apply(chain, Nested(k, a), b).value; |after| == |chain| && Coupled(after[i], after[i + 1])
  {
    ConsumerKeepsPulls(chain[k + 1].cfg, a, chain[k + 1].s, b);
    PollingBelow(chain[k + 1].cfg, a, chain[k + 1].s, b);
  }

  lemma {:induction false} CoupledStep(chain: seq<Level>, m: Move, b: Budget, i: nat)
    requires Sound(chain) && i + 1 < |chain| && Coupled(chain[i], chain[i + 1]) && Apply(chain, m, b).Some?
    ensures var after := Apply(chain, m, b).value; |after| == |chain| && Coupled(after[i], after[i + 1])
  {
    match m
    case Own(k, a) => CoupledByOwn(chain, k, a, b, i);
    case Nested(k, a) => CoupledByNested(chain, k, a, b, i);
    case Outer(a) => ConsumerKeepsPulls(chain[0].cfg, a, chain[0].s, b);
    case Poisoned(_) =>
    case Release(k) => ConsumerKeepsPulls(chain[k + 1].cfg, DropStream, chain[k + 1].s, b);
  }

  lemma {:induction false} ApplyKeepsLength(chain: seq<Level>, m: Move, b: Budget)
    requires Apply(chain, m, b).Some?
    ensures |Apply(chain, m, b).value| == |chain|
  {
  }

  lemma {:induction false} HistoryCoupled(chain: seq<Level>, events: seq<Chain.Event>)
    requires Sound(chain) && AllCoupled(chain) && History(chain, events).Some?
    ensures Sound(History(chain, events).value) && AllCoupled(History(chain, events).value)
    decreases |events|
  {
    if events != [] {
      var m, b := events[0].move, events[0].budget;
      var after := Apply(chain, m, b).value;
      ApplyKeeps(chain, m, b);
      ApplyKeepsLength(chain, m, b);
      forall i | 0 <= i < |after| - 1
        ensures Coupled(after[i], after[i + 1])
      {
        assert Coupled(chain[i], chain[i + 1]);
        CoupledStep(chain, m, b, i);
      }
      HistoryCoupled(after, events[1..]);
    }
  }

  // ----- the answers are the deliveries

  /** What a blocked pull was handed by the stream below: an item, or its end. */
  function Handed(below: Stream): Pulled
    requires below.consumer.view.Open? ==> below.consumer.delivered != []
  {
    if !below.consumer.view.Open? then Exhausted
    else match below.consumer.delivered[|below.consumer.delivered| - 1]
      case Ok(batch) => Batch(batch)
      case Err(e) => Fault(e)
  }

  lemma {:induction false} RelayOfItem(cfg: Config, s: Stream, k: nat)
    requires Reachable(cfg, s) && k < |s.consumer.delivered|
    ensures match s.consumer.delivered[k]
            case Ok(batch) => Relay(cfg)(k) == Batch(batch)
            case Err(e) => Relay(cfg)(k) == Fault(e)
  {
    ItemIsAnswer(cfg, s, k);
    DeliveredWasPulled(cfg, s);
    forall j: nat | j < k
      ensures Continues(cfg.schema, cfg.reader(j))
    {
      TerminalContract(cfg, s, j);
    }
  }

  lemma {:induction false} DeliveredWasPulled(cfg: Config, s: Stream)
    requires Reachable(cfg, s)
    ensures |s.consumer.delivered| <= s.tally.started
  {
    ReachableInv(cfg, s);
  }

  lemma {:induction false} RelayOfEnd(cfg: Config, s: Stream, k: nat)
    requires Reachable(cfg, s) && s.consumer.view.SawEnd? && k >= |s.consumer.delivered|
    ensures Relay(cfg)(k) == Exhausted
  {
    var n := s.tally.started;
    DeliversTheReading(cfg, s, n);
    if OpenFor(cfg.reader, cfg.schema, k) {
      assert k <= n - 1;
      if k < n - 1 {
        TerminalContract(cfg, s, k);
      }
      ReadAfterOpen(cfg, k, n);
    }
  }

  lemma {:induction false} ReadAfterOpen(cfg: Config, k: nat, n: nat)
    requires OpenFor(cfg.reader, cfg.schema, k) && k < n
    ensures |Read(cfg.reader, cfg.schema, 0, n)| >= k + |ItemsOf(cfg.schema, cfg.reader(k))|
  {
    ReadExtends(cfg.reader, cfg.schema, 0, k);
    ReadIsMonotone(cfg.reader, cfg.schema, k + 1, n);
  }

  /**
   * In every history of a chain: the answer with which a pull comes back is what the stream below has just
   * delivered to it, unless that stream's reader panicked.
   */
  lemma {:induction false} AnswersAreDelivered(start: seq<Level>, events: seq<Chain.Event>, i: nat)
    requires Start(start) && History(start, events).Some?
    requires var l := History(start, events).value;
             && i + 1 < |l| && l[i].cfg.reader == Relay(l[i + 1].cfg)
             && l[i].s.drain.round.Pulling? && l[i].answered && !l[i + 1].s.consumer.view.SawPanic?
    ensures var l := History(start, events).value;
            && (l[i + 1].s.consumer.view.Open? ==> l[i + 1].s.consumer.delivered != [])
            && l[i].s.tally.started > 0
            && l[i].cfg.reader(l[i].s.tally.started - 1) == Handed(l[i + 1].s)
  {
    StartIsSound(start);
    StartIsCoupled(start);
    HistoryCoupled(start, events);
    var l := History(start, events).value;
    var below := l[i + 1];
    assert Coupled(l[i], below);
    ReachableInv(l[i].cfg, l[i].s);
    if below.s.consumer.view.Open? {
      RelayOfItem(below.cfg, below.s, |below.s.consumer.delivered| - 1);
    } else {
      RelayOfEnd(below.cfg, below.s, l[i].s.tally.started - 1);
    }
  }

  // ----- end to end

  /** Every level passes on the one below, under the same schema. */
  ghost predicate Linked(chain: seq<Level>) {
    forall i :: 0 <= i < |chain| - 1 ==>
      chain[i].cfg.reader == Relay(chain[i + 1].cfg) && chain[i].cfg.schema == chain[i + 1].cfg.schema
  }

  lemma {:induction false} LinkedReads(chain: seq<Level>, i: nat, n: nat)
    requires Linked(chain) && i < |chain|
    ensures chain[i].cfg.schema == chain[|chain| - 1].cfg.schema
    ensures Read(chain[i].cfg.reader, chain[i].cfg.schema, 0, n)
         == Read(chain[|chain| - 1].cfg.reader, chain[|chain| - 1].cfg.schema, 0, n)
    decreases |chain| - i
  {
    if i + 1 < |chain| {
      RelayReads(chain[i + 1].cfg, 0, n);
      LinkedReads(chain, i + 1, n);
    }
  }

  lemma {:induction false} PanicsComeFromBelow(chain: seq<Level>, i: nat, n: nat)
    requires Linked(chain) && i < |chain| && chain[i].cfg.reader(n).Panic?
    ensures chain[|chain| - 1].cfg.reader(n).Panic?
    decreases |chain| - i
  {
    if i + 1 < |chain| {
      PanicsComeFromBelow(chain, i + 1, n);
    }
  }

  ghost predicate NeverPanics(reader: Reader) {
    forall n: nat :: !reader(n).Panic?
  }

  /**
   * End to end, in every history of any number of nested streams over a source that does not panic: what the
   * query has received is a prefix of the sequential reading of the innermost source, and the end means that
   * it has received all of it. No level panics, so `AnswersAreDelivered` speaks of every pull on the way up.
   */
  lemma {:induction false} ChainDeliversTheReading(start: seq<Level>, events: seq<Chain.Event>, n: nat)
    requires Start(start) && History(start, events).Some?
    requires var now := History(start, events).value;
             && |now| > 0 && Linked(now) && n >= now[0].s.tally.started
             && NeverPanics(now[|now| - 1].cfg.reader)
    ensures var now := History(start, events).value;
            var all := Read(now[|now| - 1].cfg.reader, now[|now| - 1].cfg.schema, 0, n);
            && now[0].s.consumer.delivered <= all
            && (now[0].s.consumer.view.SawEnd? ==> now[0].s.consumer.delivered == all)
    ensures var now := History(start, events).value;
            forall i :: 0 <= i < |now| ==> !now[i].s.consumer.view.SawPanic?
  {
    StartIsSound(start);
    StartIsCoupled(start);
    HistoryCoupled(start, events);
    var now := History(start, events).value;
    LinkedReads(now, 0, n);
    DeliversTheReading(now[0].cfg, now[0].s, n);
    forall i | 0 <= i < |now|
      ensures !now[i].s.consumer.view.SawPanic?
    {
      NobodyPanics(now, i);
    }
  }

  lemma {:induction false} NobodyPanics(chain: seq<Level>, i: nat)
    requires Sound(chain) && Linked(chain) && i < |chain| && NeverPanics(chain[|chain| - 1].cfg.reader)
    ensures !chain[i].s.consumer.view.SawPanic?
  {
    DeliversTheReading(chain[i].cfg, chain[i].s, chain[i].s.tally.started);
    if chain[i].s.consumer.view.SawPanic? {
      PanicsComeFromBelow(chain, i, chain[i].s.tally.started - 1);
    }
  }

  lemma {:induction false} StartIsCoupled(start: seq<Level>)
    requires Start(start)
    ensures AllCoupled(start)
  {
  }
}
