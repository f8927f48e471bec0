// What the logger's threads promise together: the consumer is never left asleep
// on a consumable entry or on a request to stop, stopping takes it a bounded
// number of steps, and what it leaves behind is known exactly.
module LogRuns {
  import Q = TicketQueue
  import E = EventCount
  import opened LogConsumer

  datatype Step = Step(t: Id, a: Action)

  ghost predicate Legal(s: State, run: seq<Step>)
    decreases run
  {
    run == [] || (Enabled(s, run[0].t, run[0].a) && Legal(Next(s, run[0].t, run[0].a), run[1..]))
  }

  ghost function After(s: State, run: seq<Step>): State
    requires Legal(s, run)
    decreases run
  {
    if run == [] then s else After(Next(s, run[0].t, run[0].a), run[1..])
  }

  lemma InitInv(cap: nat, width: nat)
    requires cap >= 2
    ensures Inv(Init(cap, width))
  {
    Q.InitInv(cap, width);
  }

  lemma {:induction false} RunInv(s: State, run: seq<Step>)
    requires Inv(s) && Legal(s, run)
    ensures Inv(After(s, run))
    decreases run
  {
    if run == [] {
    } else {
      NextInv(s, run[0].t, run[0].a);
      RunInv(Next(s, run[0].t, run[0].a), run[1..]);
    }
  }

  // ------------------------------------------------------------ no lost wakeup

  ghost predicate Asleep(s: State) {
    CONSUMER in s.ec.waiters && s.ec.waiters[CONSUMER].Asleep?
  }

  // Somebody is about to notify, or the epoch has moved and somebody is about to
  // call FUTEX_WAKE.
  ghost predicate Rescue(s: State) {
    || (exists t :: t in s.owing && Enabled(s, t, NotifyOne))
    || Enabled(s, STOPPER, NotifyAll)
    || (Told(s.ec) && exists t :: t in s.ec.wakes && Enabled(s, t, CallWake(CONSUMER)))
  }

  // In every reachable state: asleep on a committed head, or on a request to
  // stop, the consumer is going to be woken.
  lemma NoLostWakeup(cap: nat, width: nat, run: seq<Step>)
    requires cap >= 2 && Legal(Init(cap, width), run)
    ensures var s := After(Init(cap, width), run);
            Asleep(s) && (HeadReady(s.q.q) || !s.running) ==> Rescue(s)
  {
    InitInv(cap, width);
    RunInv(Init(cap, width), run);
    var s := After(Init(cap, width), run);
    if Asleep(s) && (HeadReady(s.q.q) || !s.running) { Rescued(s); }
  }

  lemma Rescued(s: State)
    requires Inv(s) && Asleep(s) && (HeadReady(s.q.q) || !s.running)
    ensures Rescue(s)
  {
    hide Q.Inv;
    assert s.phase.Waiting?;
    if Told(s.ec) {
      var t :| t in s.ec.wakes;
      assert E.AnyAsleep(s.ec);
      assert Enabled(s, t, CallWake(CONSUMER));
    } else if s.owing != {} {
      var t :| t in s.owing;
      assert Enabled(s, t, NotifyOne);
    }
  }

  // ------------------------------------------------------------------ shutdown

  // stop_thread_mgr_one has cleared the flag and advanced the epoch.
  ghost predicate StopSent(s: State) {
    s.stop.Notified?
  }

  // Fewer than 2^32 notifications since the consumer registered its wait.
  ghost predicate Timely(ec: E.State) {
    CONSUMER in ec.waiters ==> ec.notifies < ec.waiters[CONSUMER].key + E.EPOCH
  }

  predicate ByConsumer(a: Action) {
    a.Consume? || a.TestRunning? || a.PrepareWait? || a.CancelWait? || a.RecheckRunning? || a.WaitStep?
  }

  // Steps left in an attempt on the queue, given what is left after a failed and
  // after a successful one.
  function AttemptRank(ops: map<Id, Q.Pc>, width: nat, empty: nat, entry: nat): nat {
    if CONSUMER !in ops then empty + 3
    else match ops[CONSUMER]
         case Probing(_, _) => empty + 2
         case Claiming(_, _) => empty + 1
         case Copying(_, buf) => entry + 1 + (if |buf| < width then width - |buf| else 0)
         case _ => 0
  }

  function WaitRank(waiters: map<Id, E.Wait>): nat {
    if CONSUMER !in waiters then 0
    else match waiters[CONSUMER] case Leaving(_) => 5 case Registered(_) => 6 case _ => 7
  }

  function PhaseRank(phase: Phase, ops: map<Id, Q.Pc>, width: nat, waiters: map<Id, E.Wait>): nat {
    match phase
    case Done => 0
    case Draining => AttemptRank(ops, width, 0, 3)
    case Test => 4
    case CancelBreak => 4
    case CancelLoop => 5
    case Recheck => 5
    case Waiting => WaitRank(waiters)
    case Second => AttemptRank(ops, width, 5, 5)
    case Preparing => 9
    case First => AttemptRank(ops, width, 9, 4)
  }

  function StateRank(s: State): nat {
    PhaseRank(s.phase, s.q.ops, s.q.q.width, s.ec.waiters)
  }

  // At most `total` entries are ever reserved; each costs at most one lap.
  function Rank(s: State, total: nat): int {
    (total - s.q.q.deq) * (s.q.q.width + 16) + StateRank(s)
  }

  lemma AttemptStep(s: Q.State, a: Q.Action, empty: nat, entry: nat)
    requires Q.Inv(s) && Q.Enabled(s, CONSUMER, a) && (a.Begin? ==> a.job.Take?)
    requires CONSUMER in s.ops ==> ConsumerOp(s.ops[CONSUMER], s.q.deq)
    ensures var n := Q.Next(s, CONSUMER, a);
            var before := AttemptRank(s.ops, s.q.width, empty, entry);
            var after := AttemptRank(n.ops, n.q.width, empty, entry);
            && n.q.width == s.q.width
            && n.q.deq == s.q.deq + (if a == Q.Cas(false) then 1 else 0)
            && (if a == Q.Cas(false) then after <= entry + 1 + s.q.width
                else if a == Q.Cas(true) then after <= before + 1
                else if a.LoadSeq? && CONSUMER !in n.ops then before == empty + 2
                else if a.Commit? then before == entry + 1 && CONSUMER !in n.ops
                else after < before)
  {
    assert CONSUMER in s.ops ==> Q.OpOk(s.q, CONSUMER, s.ops[CONSUMER]);
    hide Q.Inv, Q.OpOk;
  }

  lemma ConsumePhase(s: State, qa: Q.Action)
    requires Inv(s) && Enabled(s, CONSUMER, Consume(qa))
    ensures var n := Next(s, CONSUMER, Consume(qa));
            && n.q.q.width == s.q.q.width
            && n.q.q.deq == s.q.q.deq + (if qa == Q.Cas(false) then 1 else 0)
            && (if qa == Q.Cas(false) then StateRank(n) < StateRank(s) + s.q.q.width + 16
                else if qa == Q.Cas(true) then StateRank(n) <= StateRank(s) + 1
                else StateRank(n) < StateRank(s))
  {
    hide Q.Inv, Q.Next, Q.Enabled, E.Next, E.Enabled, E.Inv, Waits, Alert, StopHeard;
    match s.phase
    case First => AttemptStep(s.q, qa, 9, 4);
    case Second => AttemptStep(s.q, qa, 5, 5);
    case Draining => AttemptStep(s.q, qa, 0, 3);
  }

  lemma ConsumeRank(s: State, qa: Q.Action, total: nat)
    requires Inv(s) && Enabled(s, CONSUMER, Consume(qa))
    ensures var n := Next(s, CONSUMER, Consume(qa));
            if qa == Q.Cas(true) then Rank(n, total) <= Rank(s, total) + 1 else Rank(n, total) < Rank(s, total)
  {
    hide Inv, Enabled, Next, StateRank;
    ConsumePhase(s, qa);
    OneLess(total - s.q.q.deq, s.q.q.width + 16);
  }

  lemma OneLess(a: int, k: int)
    ensures (a - 1) * k == a * k - k
  {
  }

  lemma LoopRank(s: State, a: Action, total: nat)
    requires Inv(s) && StopSent(s) && Timely(s.ec) && Enabled(s, CONSUMER, a) && ByConsumer(a) && !a.Consume?
    ensures Rank(Next(s, CONSUMER, a), total) < Rank(s, total)
  {
    hide Q.Inv;
    match a
    case WaitStep(ea) => E.SameEpochExact(s.ec.notifies, s.ec.waiters[CONSUMER].key);
    case TestRunning =>
    case RecheckRunning =>
    case PrepareWait =>
    case CancelWait =>
  }

  // Nobody else sets the consumer back.
  lemma OtherRank(s: State, t: Id, a: Action, total: nat)
    requires Inv(s) && Enabled(s, t, a) && !ByConsumer(a)
    ensures Rank(Next(s, t, a), total) <= Rank(s, total)
  {
    if a.Produce? {
      ProduceRank(s, t, a.qa, total);
    } else {
      WakeRank(s.ec, t, a);
      hide Inv, E.Next, E.Enabled, WaitRank;
      NotifyKeepsRank(s, t, a);
    }
  }

  // Notifying and stopping leave the queue and the phase alone.
  lemma NotifyKeepsRank(s: State, t: Id, a: Action)
    requires Enabled(s, t, a) && !ByConsumer(a) && !a.Produce?
    ensures var n := Next(s, t, a);
            && n.q == s.q && n.phase == s.phase
            && (if a.CallWake? then E.Enabled(s.ec, t, E.CallWake(a.who)) && n.ec == E.Next(s.ec, t, E.CallWake(a.who))
                else n.ec.waiters == s.ec.waiters)
  {
  }

  lemma ProduceRank(s: State, t: Id, qa: Q.Action, total: nat)
    requires Inv(s) && Enabled(s, t, Produce(qa))
    ensures Rank(Next(s, t, Produce(qa)), total) == Rank(s, total)
  {
    var n := Next(s, t, Produce(qa));
    ProducerStep(s.q, t, qa);
    hide Q.Inv, Q.Next, Rank;
    SameElsewhere(s.q.ops, n.q.ops, t, CONSUMER);
    SameRank(s, n, total);
  }

  lemma WakeRank(ec: E.State, t: Id, a: Action)
    ensures a.CallWake? && E.Enabled(ec, t, E.CallWake(a.who)) ==>
              WaitRank(E.Next(ec, t, E.CallWake(a.who)).waiters) <= WaitRank(ec.waiters)
  {
  }

  lemma SameRank(s: State, n: State, total: nat)
    requires n.phase == s.phase && n.ec == s.ec && n.q.q.deq == s.q.q.deq && n.q.q.width == s.q.q.width
    requires CONSUMER in n.q.ops <==> CONSUMER in s.q.ops
    requires CONSUMER in n.q.ops ==> n.q.ops[CONSUMER] == s.q.ops[CONSUMER]
    ensures Rank(n, total) == Rank(s, total)
  {
  }

  ghost predicate AllTimely(s: State, run: seq<Step>)
    requires Legal(s, run)
    decreases run
  {
    Timely(s.ec) && (run == [] || AllTimely(Next(s, run[0].t, run[0].a), run[1..]))
  }

  // The consumer's own steps, except exchanges that failed for no reason.
  function ConsumerSteps(run: seq<Step>): nat {
    if run == [] then 0
    else (if ByConsumer(run[0].a) && run[0].a != Consume(Q.Cas(true)) then 1 else 0) + ConsumerSteps(run[1..])
  }

  function SpuriousFailures(run: seq<Step>): nat {
    Times(run, CONSUMER, Consume(Q.Cas(true)))
  }

  // How often t takes the action during the run.
  function Times(run: seq<Step>, t: Id, a: Action): nat {
    multiset(run)[Step(t, a)]
  }

  lemma TimesConcat(run: seq<Step>, more: seq<Step>, t: Id, a: Action)
    ensures Times(run + more, t, a) == Times(run, t, a) + Times(more, t, a)
  {
  }

  lemma TimesSnoc(run: seq<Step>, t: Id, a: Action, b: Action)
    ensures Times(run + [Step(t, a)], t, b) == Times(run, t, b) + if a == b then 1 else 0
  {
  }

  lemma TimesGrow(run: seq<Step>, more: seq<Step>, t: Id, a: Action)
    requires run <= more
    ensures Times(run, t, a) <= Times(more, t, a)
  {
    assert run + more[|run|..] == more;
  }

  // Nobody takes a notification back.
  lemma {:induction false} EpochGrows(s: State, run: seq<Step>)
    requires Legal(s, run)
    ensures s.ec.notifies <= After(s, run).ec.notifies
    decreases run
  {
    if run != [] { EpochGrows(Next(s, run[0].t, run[0].a), run[1..]); }
  }

  lemma NotificationsKept(s: State, run: seq<Step>, more: seq<Step>)
    requires run <= more && Legal(s, more)
    ensures Legal(s, run) && After(s, run).ec.notifies <= After(s, more).ec.notifies
  {
    assert run + more[|run|..] == more;
    LegalPrefix(s, run, more[|run|..]);
    EpochGrows(After(s, run), more[|run|..]);
  }

  lemma {:induction false} LegalPrefix(s: State, run: seq<Step>, more: seq<Step>)
    requires Legal(s, run + more)
    ensures Legal(s, run) && Legal(After(s, run), more)
    ensures After(s, run + more) == After(After(s, run), more)
    decreases run
  {
    hide Next, Enabled;
    if run == [] {
      assert run + more == more;
    } else {
      assert (run + more)[1..] == run[1..] + more;
      LegalPrefix(Next(s, run[0].t, run[0].a), run[1..], more);
    }
  }

  lemma FirstFailure(s: State, run: seq<Step>)
    requires Legal(s, run) && run != []
    ensures SpuriousFailures(run)
            == (if run[0].a == Consume(Q.Cas(true)) then 1 else 0) + SpuriousFailures(run[1..])
  {
    TimesConcat([run[0]], run[1..], CONSUMER, Consume(Q.Cas(true)));
    assert [run[0]] + run[1..] == run;
  }

  lemma {:induction false} RankFalls(s: State, run: seq<Step>, total: nat)
    requires Inv(s) && StopSent(s) && Legal(s, run) && AllTimely(s, run)
    ensures ConsumerSteps(run) + Rank(After(s, run), total) <= Rank(s, total) + SpuriousFailures(run)
    ensures Inv(After(s, run)) && StopSent(After(s, run))
    decreases run
  {
    hide SpuriousFailures;
    if run == [] {
    } else {
      var t, a := run[0].t, run[0].a;
      NextInv(s, t, a);
      StepRank(s, t, a, total);
      RankFalls(Next(s, t, a), run[1..], total);
      FirstFailure(s, run);
    }
  }

  lemma StepRank(s: State, t: Id, a: Action, total: nat)
    requires Inv(s) && StopSent(s) && Timely(s.ec) && Enabled(s, t, a)
    ensures StopSent(Next(s, t, a))
    ensures var less := Rank(s, total) - Rank(Next(s, t, a), total);
            if !ByConsumer(a) then less >= 0
            else if a == Consume(Q.Cas(true)) then less >= -1
            else less >= 1
  {
    if !ByConsumer(a) { OtherRank(s, t, a, total); }
    else if a.Consume? { ConsumeRank(s, a.qa, total); }
    else { LoopRank(s, a, total); }
    hide Inv, Rank;
  }

  // After the stop request the consumer takes a bounded number of steps, if only
  // finitely many entries are ever reserved: one lap per entry not yet dequeued.
  lemma ShutdownBound(s: State, run: seq<Step>)
    requires Inv(s) && StopSent(s) && Legal(s, run) && AllTimely(s, run)
    ensures var total := After(s, run).q.q.enq;
            ConsumerSteps(run) <= (total - s.q.q.deq) * (s.q.q.width + 16) + s.q.q.width + 12 + SpuriousFailures(run)
  {
    hide *;
    var total := After(s, run).q.q.enq;
    RankFalls(s, run, total);
    RankBounds(After(s, run), total);
    RankBounds(s, total);
  }

  lemma StateRankBound(s: State)
    ensures StateRank(s) <= s.q.q.width + 12
  {
  }

  lemma RankBounds(s: State, total: nat)
    requires Inv(s)
    ensures s.q.q.enq <= total ==> Rank(s, total) >= 0
    ensures Rank(s, total) <= (total - s.q.q.deq) * (s.q.q.width + 16) + s.q.q.width + 12
  {
    assert s.q.q.deq <= s.q.q.enq;
    StateRankBound(s);
    hide Inv, StateRank;
    if s.q.q.enq <= total { Nonnegative(total - s.q.q.deq, s.q.q.width + 16); }
  }

  lemma Nonnegative(a: int, k: int)
    requires a >= 0 && k >= 0
    ensures a * k >= 0
  {
  }

  // Until it returns the consumer always has a step of its own, or is asleep
  // with somebody about to wake it.
  lemma NotStuck(s: State)
    requires Inv(s) && StopSent(s) && Timely(s.ec) && !s.phase.Done?
    ensures (exists a :: ByConsumer(a) && Enabled(s, CONSUMER, a)) || (Asleep(s) && Rescue(s))
  {
    if Asleep(s) {
      Rescued(s);
    } else {
      AwakeMoves(s);
    }
  }

  lemma AwakeMoves(s: State)
    requires Inv(s) && Timely(s.ec) && !s.phase.Done? && !Asleep(s)
    ensures exists a :: ByConsumer(a) && Enabled(s, CONSUMER, a)
  {
    if Consuming(s.phase) {
      AttemptEnabled(s);
    } else {
      hide Q.Inv;
      var a := LoopAction(s);
      assert ByConsumer(a) && Enabled(s, CONSUMER, a);
    }
  }

  function LoopAction(s: State): Action {
    if s.phase.Waiting? && CONSUMER in s.ec.waiters then
      (match s.ec.waiters[CONSUMER]
       case Registered(_) => WaitStep(E.TestEpoch)
       case Calling(_) => WaitStep(E.Block)
       case _ => WaitStep(E.Leave))
    else
      (match s.phase
       case Preparing => PrepareWait
       case CancelLoop => CancelWait
       case CancelBreak => CancelWait
       case Recheck => RecheckRunning
       case _ => TestRunning)
  }

  function AttemptAction(pc: Q.Pc, width: nat): Q.Action {
    match pc
    case Probing(_, _) => Q.LoadSeq
    case Claiming(_, _) => Q.Cas(false)
    case Behind(_, _) => Q.Reload
    case Filling(_, _, _) => Q.Commit
    case Copying(_, buf) => if |buf| < width then Q.CopyByte else Q.Commit
  }

  lemma QueueEnabled(s: Q.State, pc: Q.Pc)
    requires Q.Inv(s) && CONSUMER in s.ops && s.ops[CONSUMER] == pc && ConsumerOp(pc, s.q.deq)
    ensures Q.Enabled(s, CONSUMER, AttemptAction(pc, s.q.width))
    ensures !AttemptAction(pc, s.q.width).Begin?
  {
    assert Q.OpOk(s.q, CONSUMER, pc);
    hide Q.Inv;
  }

  lemma AttemptEnabled(s: State)
    requires Inv(s) && Consuming(s.phase)
    ensures exists qa :: Enabled(s, CONSUMER, Consume(qa))
  {
    if CONSUMER !in s.q.ops {
      hide Q.Inv;
      assert Enabled(s, CONSUMER, Consume(Q.Begin(Q.Take)));
    } else {
      var pc := s.q.ops[CONSUMER];
      QueueEnabled(s.q, pc);
      hide Inv, Q.Enabled;
      assert Enabled(s, CONSUMER, Consume(AttemptAction(pc, s.q.q.width)));
    }
  }

  // --------------------------------------------------------------------- drain

  // Everything below the head was handed to the consumer once, with the value
  // reserved under its position; only the last one may still be in its hands.
  lemma ConsumedInOrder(s: State)
    requires Inv(s)
    ensures forall p: nat :: p < s.q.q.deq - (if s.q.q.reading == map[] then 0 else 1) ==>
              p in s.q.q.delivered && s.q.q.delivered[p] == s.q.q.tickets[p]
  {
    ReadByConsumer(s);
  }

  lemma ReadByConsumer(s: State)
    requires Inv(s)
    ensures forall p :: p in s.q.q.reading ==>
              p + 1 == s.q.q.deq && CONSUMER in s.q.ops && s.q.ops[CONSUMER].Copying?
  {
    forall p | p in s.q.q.reading
      ensures p + 1 == s.q.q.deq && CONSUMER in s.q.ops && s.q.ops[CONSUMER].Copying?
    {
      assert s.q.q.reading[p] in s.q.ops;
    }
  }

  // The attempt that ends the drain leaves nothing accepted behind exactly when
  // no reservation is uncommitted at that moment.
  lemma DrainedIff(s: State)
    requires Inv(s) && s.phase.Draining? && Enabled(s, CONSUMER, Consume(Q.LoadSeq))
    requires Next(s, CONSUMER, Consume(Q.LoadSeq)).phase.Done?
    ensures AllDelivered(s.q.q) <==> s.q.q.writing == map[]
  {
    ConsumerStep(s.q, Q.LoadSeq);
    NextInv(s, CONSUMER, Consume(Q.LoadSeq));
    LeftBehind(Next(s, CONSUMER, Consume(Q.LoadSeq)));
  }

  ghost predicate AllDelivered(q: Q.Queue) {
    forall p: nat :: p < q.enq ==> p in q.delivered && p < |q.tickets| && q.delivered[p] == q.tickets[p]
  }

  lemma LeftBehind(s: State)
    requires Inv(s) && CONSUMER !in s.q.ops && !HeadReady(s.q.q)
    ensures AllDelivered(s.q.q) <==> s.q.q.writing == map[]
  {
    ReadByConsumer(s);
    assert s.q.q.reading == map[];
    ConsumedInOrder(s);
    if s.q.q.writing != map[] {
      var p :| p in s.q.q.writing;
      assert p !in s.q.q.delivered;
    }
  }

  lemma {:induction false} Snoc(s: State, run: seq<Step>, t: Id, a: Action)
    requires Legal(s, run) && Enabled(After(s, run), t, a)
    ensures Legal(s, run + [Step(t, a)]) && After(s, run + [Step(t, a)]) == Next(After(s, run), t, a)
    decreases run
  {
    hide Next, Enabled;
    if run == [] {
      assert Legal(Next(s, t, a), []);
    } else {
      assert (run + [Step(t, a)])[1..] == run[1..] + [Step(t, a)];
      Snoc(Next(s, run[0].t, run[0].a), run[1..], t, a);
    }
  }
}
