// The consumer gets to an entry that is ready: in a bounded number of its own
// steps, whether or not it was told to stop, and it is never left asleep on it.
module LogProgress {
  import Q = TicketQueue
  import E = EventCount
  import opened LogConsumer
  import opened LogRuns

  const TAKES_HEAD := Consume(Q.Cas(false))

  // Steps that do not count: an exchange that failed for no reason, and a return
  // from FUTEX_WAIT that nobody asked for.
  predicate Spurious(a: Action) {
    a == Consume(Q.Cas(true)) || a == WaitStep(E.Spurious)
  }

  // Only the consumer's exchange takes a ready head away.
  lemma HeadStays(s: State, t: Id, a: Action)
    requires Inv(s) && Enabled(s, t, a) && HeadReady(s.q.q) && a != TAKES_HEAD
    ensures HeadReady(Next(s, t, a).q.q)
  {
    match a
    case Produce(qa) => QueueKeepsHead(s.q, t, qa);
    case Consume(qa) => QueueKeepsHead(s.q, t, qa);
    case _ =>
  }

  lemma QueueKeepsHead(s: Q.State, t: Id, a: Q.Action)
    requires Q.Inv(s) && Q.Enabled(s, t, a) && HeadReady(s.q)
    requires t in s.ops && s.ops[t].Claiming? && s.ops[t].job.Take? ==> a != Q.Cas(false)
    ensures HeadReady(Q.Next(s, t, a).q)
  {
    assert s.q.deq < s.q.enq;
    hide Q.Inv;
  }

  // --------------------------------------------------------------------- rank

  // Own steps of an attempt that cannot be turned away, up to its exchange; or,
  // with the entry before still in hand, up to the end of the attempt and on.
  function AttemptRank(ops: map<Id, Q.Pc>, width: nat, onwards: nat): nat {
    if CONSUMER !in ops then 3
    else match ops[CONSUMER]
         case Probing(_, _) => 2
         case Claiming(_, _) => 1
         case Copying(_, buf) => onwards + 1 + (if |buf| < width then width - |buf| else 0)
         case _ => 0
  }

  function PhaseRank(phase: Phase, ops: map<Id, Q.Pc>, width: nat, ec: E.State): nat {
    match phase
    case Test => 4
    case First => AttemptRank(ops, width, 4)
    case Second => AttemptRank(ops, width, 5)
    case Draining => AttemptRank(ops, width, 3)
    case Preparing => 4
    case CancelLoop => 5
    case CancelBreak => 4
    case Recheck => 1 + E.EcRank(ec, CONSUMER)
    case Waiting => E.EcRank(ec, CONSUMER)
    case Done => 0
  }

  function Rank(s: State): nat {
    PhaseRank(s.phase, s.q.ops, s.q.q.width, s.ec)
  }

  lemma AttemptStep(s: Q.State, a: Q.Action, onwards: nat)
    requires Q.Inv(s) && Q.Enabled(s, CONSUMER, a) && (a.Begin? ==> a.job.Take?) && HeadReady(s.q)
    requires CONSUMER in s.ops ==> ConsumerOp(s.ops[CONSUMER], s.q.deq)
    ensures var n := Q.Next(s, CONSUMER, a);
            var before := AttemptRank(s.ops, s.q.width, onwards);
            var after := AttemptRank(n.ops, n.q.width, onwards);
            && n.q.width == s.q.width && !(a.LoadSeq? && CONSUMER !in n.ops)
            && (if a == Q.Cas(false) then true
                else if a == Q.Cas(true) then after <= before + 1
                else if a.Commit? then before == onwards + 1
                else after < before)
  {
    ConsumerStep(s, a);
    assert CONSUMER in s.ops ==> Q.OpOk(s.q, CONSUMER, s.ops[CONSUMER]);
    hide Q.Inv, Q.OpOk;
  }

  // What is left after the attempt: the rest of the turn and the next attempt.
  function Onwards(p: Phase): nat {
    match p case First => 4 case Second => 5 case _ => 3
  }

  lemma ConsumeRank(s: State, qa: Q.Action)
    requires Inv(s) && Enabled(s, CONSUMER, Consume(qa)) && HeadReady(s.q.q) && qa != Q.Cas(false)
    ensures var n := Next(s, CONSUMER, Consume(qa));
            if qa == Q.Cas(true) then Rank(n) <= Rank(s) + 1 else Rank(n) < Rank(s)
  {
    AttemptStep(s.q, qa, Onwards(s.phase));
    ConsumerStep(s.q, qa);
    ConsumeShare(s, qa);
    hide Inv, Next, Enabled, Rank, AttemptRank;
    RankOfAttempt(s);
    var n := Next(s, CONSUMER, Consume(qa));
    if qa.Commit? { RankAfterAttempt(n, s.phase); } else { RankOfAttempt(n); }
  }

  lemma ConsumeShare(s: State, qa: Q.Action)
    requires Enabled(s, CONSUMER, Consume(qa))
    ensures Consuming(s.phase)
    ensures var n := Next(s, CONSUMER, Consume(qa));
            && n.q == Q.Next(s.q, CONSUMER, qa)
            && (!(qa.LoadSeq? && CONSUMER !in n.q.ops) ==>
                  n.phase == if qa.Commit? then AfterEntry(s.phase) else s.phase)
  {
  }

  lemma RankOfAttempt(s: State)
    requires Consuming(s.phase)
    ensures Rank(s) == AttemptRank(s.q.ops, s.q.q.width, Onwards(s.phase))
  {
  }

  lemma RankAfterAttempt(s: State, p: Phase)
    requires Consuming(p) && s.phase == AfterEntry(p) && CONSUMER !in s.q.ops
    ensures Rank(s) == Onwards(p)
  {
  }

  lemma LoopRank(s: State, a: Action)
    requires Inv(s) && Enabled(s, CONSUMER, a) && ByConsumer(a) && !a.Consume? && Timely(s.ec)
    ensures var n := Next(s, CONSUMER, a);
            if a == WaitStep(E.Spurious) then Rank(n) <= Rank(s) + 2 else Rank(n) < Rank(s)
  {
    if a.WaitStep? {
      WaitStepRank(s, a.ea);
    } else {
      TurnRank(s, a);
    }
  }

  lemma WaitStepRank(s: State, ea: E.Action)
    requires Inv(s) && Enabled(s, CONSUMER, WaitStep(ea)) && Timely(s.ec)
    ensures var n := Next(s, CONSUMER, WaitStep(ea));
            if ea.Spurious? then Rank(n) <= Rank(s) + 2 else Rank(n) < Rank(s)
  {
    assert E.KeysPast(s.ec);
    hide Inv;
    E.OwnEcRank(s.ec, ea, CONSUMER);
    hide E.EcRank;
  }

  // The steps of a turn outside ec_wait.
  lemma TurnRank(s: State, a: Action)
    requires Inv(s) && Enabled(s, CONSUMER, a)
    requires a.TestRunning? || a.PrepareWait? || a.CancelWait? || a.RecheckRunning?
    ensures Rank(Next(s, CONSUMER, a)) < Rank(s)
  {
    assert !Consuming(s.phase) && CONSUMER !in s.q.ops;
    assert s.phase.Recheck? ==> CONSUMER in s.ec.waiters.Keys;
    hide Inv, E.Next, E.Enabled;
  }

  // All the rank looks at.
  lemma RankKept(s: State, n: State)
    requires n.phase == s.phase && n.q.q.width == s.q.q.width
    requires CONSUMER in n.q.ops <==> CONSUMER in s.q.ops
    requires CONSUMER in s.q.ops ==> n.q.ops[CONSUMER] == s.q.ops[CONSUMER]
    requires E.EcRank(n.ec, CONSUMER) <= E.EcRank(s.ec, CONSUMER)
    ensures Rank(n) <= Rank(s)
  {
    hide E.EcRank;
  }

  lemma OtherRank(s: State, t: Id, a: Action)
    requires Inv(s) && Enabled(s, t, a) && !ByConsumer(a)
    ensures Rank(Next(s, t, a)) <= Rank(s)
  {
    match a
    case Produce(qa) => ProduceRank(s, t, qa);
    case NotifyOne => NotifyRank(s, t, a, E.Notify(E.One));
    case NotifyAll => NotifyRank(s, t, a, E.Notify(E.Every));
    case CallWake(who) => NotifyRank(s, t, a, E.CallWake(who));
    case ClearRunning => RankKept(s, Next(s, t, a));
  }

  lemma NotifyRank(s: State, t: Id, a: Action, ea: E.Action)
    requires Inv(s) && Enabled(s, t, a) && E.Enabled(s.ec, t, ea)
    requires match a case NotifyOne => ea == E.Notify(E.One) case NotifyAll => ea == E.Notify(E.Every)
                     case CallWake(who) => ea == E.CallWake(who) case _ => false
    ensures Rank(Next(s, t, a)) <= Rank(s)
  {
    assert E.KeysPast(s.ec);
    E.OtherEcRank(s.ec, t, ea, CONSUMER);
    hide Inv, Rank, E.EcRank, E.Next, E.Enabled;
    RankKept(s, Next(s, t, a));
  }

  lemma ProduceRank(s: State, t: Id, qa: Q.Action)
    requires Inv(s) && Enabled(s, t, Produce(qa))
    ensures Rank(Next(s, t, Produce(qa))) <= Rank(s)
  {
    var n := Next(s, t, Produce(qa));
    ProducerStep(s.q, t, qa);
    assert n.ec == s.ec && n.phase == s.phase && n.q == Q.Next(s.q, t, qa);
    hide Inv, Next, Enabled, Rank, Q.Next, Q.Enabled, E.EcRank;
    SameElsewhere(s.q.ops, n.q.ops, t, CONSUMER);
    RankKept(s, n);
  }

  lemma StepRank(s: State, t: Id, a: Action)
    requires Inv(s) && Enabled(s, t, a) && HeadReady(s.q.q) && Timely(s.ec) && a != TAKES_HEAD
    ensures var less := Rank(s) - Rank(Next(s, t, a));
            if !ByConsumer(a) then less >= 0 else if Spurious(a) then less >= -2 else less >= 1
  {
    hide Inv, Rank;
    if !ByConsumer(a) { OtherRank(s, t, a); }
    else if a.Consume? { ConsumeRank(s, a.qa); }
    else { LoopRank(s, a); }
  }

  // -------------------------------------------------------------------- runs

  // The head is not taken during the run.
  predicate HeadLeft(run: seq<Step>) {
    forall i :: 0 <= i < |run| ==> run[i].a != TAKES_HEAD
  }

  function OwnSteps(run: seq<Step>): nat {
    if run == [] then 0
    else (if ByConsumer(run[0].a) && !Spurious(run[0].a) then 1 else 0) + OwnSteps(run[1..])
  }

  function SpuriousSteps(run: seq<Step>): nat {
    if run == [] then 0 else (if Spurious(run[0].a) then 1 else 0) + SpuriousSteps(run[1..])
  }

  lemma {:induction false} RankFalls(s: State, run: seq<Step>)
    requires Inv(s) && HeadReady(s.q.q) && Legal(s, run) && AllTimely(s, run) && HeadLeft(run)
    ensures OwnSteps(run) + Rank(After(s, run)) <= Rank(s) + 2 * SpuriousSteps(run)
    decreases run
  {
    hide Inv, HeadReady, Next, Enabled, Rank, Timely;
    if run == [] {
    } else {
      var t, a := run[0].t, run[0].a;
      assert run[0].a != TAKES_HEAD;
      NextInv(s, t, a);
      HeadStays(s, t, a);
      StepRank(s, t, a);
      assert HeadLeft(run[1..]) by { assert forall i :: 0 <= i < |run| - 1 ==> run[1..][i] == run[i + 1]; }
      RankFalls(Next(s, t, a), run[1..]);
    }
  }

  // A committed head waits for at most so many own steps of the consumer: one
  // entry it may still be reading, one turn of its loop, and three for each
  // wake-up call under way; spurious ones aside.
  lemma HeadTakenBound(s: State, run: seq<Step>)
    requires Inv(s) && HeadReady(s.q.q) && Legal(s, run) && AllTimely(s, run) && HeadLeft(run)
    ensures OwnSteps(run) <= s.q.q.width + 11 + 3 * |s.ec.wakes| + 2 * SpuriousSteps(run)
  {
    RankFalls(s, run);
    RankBound(s);
  }

  lemma RankBound(s: State)
    ensures Rank(s) <= s.q.q.width + 11 + 3 * |s.ec.wakes|
  {
  }

  // Until it takes it, the consumer has a step of its own or is asleep with
  // somebody about to wake it, unless it has returned.
  lemma ReadyNotStuck(s: State)
    requires Inv(s) && HeadReady(s.q.q) && Timely(s.ec) && !s.phase.Done?
    ensures (exists a :: ByConsumer(a) && Enabled(s, CONSUMER, a)) || (Asleep(s) && Rescue(s))
  {
    if Asleep(s) {
      Rescued(s);
    } else {
      AwakeMoves(s);
    }
  }

  // And it does not return while there is a committed head.
  lemma DoesNotReturn(s: State, t: Id, a: Action)
    requires Inv(s) && Enabled(s, t, a) && HeadReady(s.q.q) && !s.phase.Done?
    ensures !Next(s, t, a).phase.Done?
  {
    if a.Consume? {
      ConsumerStep(s.q, a.qa);
      ConsumeShare(s, a.qa);
      hide Inv, Next, Enabled, Q.Next, Q.Enabled;
    } else {
      hide Inv, Q.Next, Q.Enabled, E.Next, E.Enabled;
    }
  }
}
