// The daemon logger's consumer thread with its producers and the thread that
// stops it: the queue, the event count and the running flag together.
module LogConsumer {
  import Q = TicketQueue
  import R = QueueRuns
  import E = EventCount

  type Id = nat

  const CONSUMER: Id := 0
  const STOPPER: Id := 1

  // Where daemon_log_consumer_thread is between two attempts on the queue.
  datatype Phase =
    | Test          // head of the loop
    | First         // first attempt to consume
    | Preparing     // before ec_prepare_wait
    | Second        // second attempt, with the wait registered
    | CancelLoop    // consumed after all: cancel the wait and go on
    | Recheck       // before the second look at the running flag
    | CancelBreak   // told to stop: cancel the wait and leave the loop
    | Waiting       // inside ec_wait
    | Draining      // after the loop
    | Done

  datatype Stop = NotAsked | MustNotify | Notified

  // `owing` are the producers between commit and notify.
  datatype State = State(q: Q.State, ec: E.State, owing: set<Id>, running: bool, phase: Phase, stop: Stop)

  datatype Action =
    | Produce(qa: Q.Action)
    | NotifyOne
    | Consume(qa: Q.Action)
    | TestRunning
    | PrepareWait
    | CancelWait
    | RecheckRunning
    | WaitStep(ea: E.Action)
    | ClearRunning
    | NotifyAll
    | CallWake(who: Id)

  function Init(cap: nat, width: nat): State {
    State(Q.Init(cap, width), E.INIT, {}, true, Test, NotAsked)
  }

  predicate Consuming(p: Phase) {
    p.First? || p.Second? || p.Draining?
  }

  predicate WaitRegistered(p: Phase) {
    p.Second? || p.CancelLoop? || p.Recheck? || p.CancelBreak? || p.Waiting?
  }

  ghost predicate Enabled(s: State, t: Id, a: Action) {
    match a
    case Produce(qa) =>
      && t > STOPPER && Q.Enabled(s.q, t, qa)
      && (qa.Begin? ==> qa.job.Put? && t !in s.owing && t !in s.ec.wakes)
    case NotifyOne => t in s.owing && E.Enabled(s.ec, t, E.Notify(E.One))
    case Consume(qa) =>
      && t == CONSUMER && Consuming(s.phase) && Q.Enabled(s.q, t, qa)
      && (qa.Begin? ==> qa.job.Take?)
    case TestRunning => t == CONSUMER && s.phase.Test?
    case PrepareWait => t == CONSUMER && s.phase.Preparing? && E.Enabled(s.ec, t, E.Prepare)
    case CancelWait =>
      t == CONSUMER && (s.phase.CancelLoop? || s.phase.CancelBreak?) && E.Enabled(s.ec, t, E.Cancel)
    case RecheckRunning => t == CONSUMER && s.phase.Recheck?
    case WaitStep(ea) =>
      && t == CONSUMER && s.phase.Waiting? && E.Enabled(s.ec, t, ea)
      && (ea.TestEpoch? || ea.Block? || ea.Spurious? || ea.Leave?)
    case ClearRunning => t == STOPPER && s.stop.NotAsked?
    case NotifyAll => t == STOPPER && s.stop.MustNotify? && E.Enabled(s.ec, t, E.Notify(E.Every))
    case CallWake(who) => E.Enabled(s.ec, t, E.CallWake(who))
  }

  // Where an attempt leads when the queue turned it away, and when it succeeded.
  function AfterEmpty(p: Phase): Phase {
    match p case First => Preparing case Second => Recheck case Draining => Done case _ => p
  }

  function AfterEntry(p: Phase): Phase {
    match p case First => Test case Second => CancelLoop case _ => p
  }

  ghost function Next(s: State, t: Id, a: Action): State
    requires Enabled(s, t, a)
  {
    match a
    case Produce(qa) =>
      s.(q := Q.Next(s.q, t, qa), owing := if qa.Commit? then s.owing + {t} else s.owing)
    case NotifyOne =>
      s.(ec := E.Next(s.ec, t, E.Notify(E.One)), owing := s.owing - {t})
    case Consume(qa) =>
      var q := Q.Next(s.q, t, qa);
      s.(q := q, phase := if qa.LoadSeq? && t !in q.ops then AfterEmpty(s.phase)
                          else if qa.Commit? then AfterEntry(s.phase) else s.phase)
    case TestRunning => s.(phase := if s.running then First else Draining)
    case PrepareWait => s.(ec := E.Next(s.ec, t, E.Prepare), phase := Second)
    case CancelWait =>
      s.(ec := E.Next(s.ec, t, E.Cancel), phase := if s.phase.CancelLoop? then Test else Draining)
    case RecheckRunning => s.(phase := if s.running then Waiting else CancelBreak)
    case WaitStep(ea) =>
      s.(ec := E.Next(s.ec, t, ea), phase := if ea.Leave? then Test else Waiting)
    case ClearRunning => s.(running := false, stop := MustNotify)
    case NotifyAll => s.(ec := E.Next(s.ec, t, E.Notify(E.Every)), stop := Notified)
    case CallWake(who) => s.(ec := E.Next(s.ec, t, E.CallWake(who)))
  }

  // ---------------------------------------------------------------- invariant

  ghost predicate HeadReady(q: Q.Queue) {
    q.deq < q.enq && q.deq !in q.writing
  }

  predicate ConsumerOp(pc: Q.Pc, deq: nat) {
    match pc
    case Probing(job, pos) => job.Take? && pos == deq
    case Claiming(job, pos) => job.Take? && pos == deq
    case Behind(_, _) => false
    case Filling(_, _, _) => false
    case Copying(at, _) => at + 1 == deq
  }

  predicate ProducerOp(pc: Q.Pc) {
    if Q.Trying(pc) then pc.job.Put? else pc.Filling?
  }

  // Only the consumer dequeues, one entry at a time.
  ghost predicate Roles(ops: map<Id, Q.Pc>, deq: nat, phase: Phase, owing: set<Id>, wakes: map<Id, E.Wake>) {
    && (CONSUMER in ops ==> Consuming(phase) && ConsumerOp(ops[CONSUMER], deq))
    && (forall t :: t in ops && t != CONSUMER ==> t > STOPPER && ProducerOp(ops[t]) && t !in owing && t !in wakes)
    && (forall t :: t in owing ==> t > STOPPER && t !in wakes)
  }

  // Only the consumer waits.
  ghost predicate Waits(s: State) {
    && E.Inv(s.ec)
    && s.ec.waiters.Keys == (if WaitRegistered(s.phase) then {CONSUMER} else {})
    && (CONSUMER in s.ec.waiters && !s.phase.Waiting? ==> s.ec.waiters[CONSUMER].Registered?)
  }

  ghost predicate Told(ec: E.State) {
    CONSUMER in ec.waiters && ec.notifies > ec.waiters[CONSUMER].key
  }

  // Once the second attempt failed, an entry that becomes consumable leaves a
  // producer owing a notify or the epoch past the key.
  ghost predicate Alert(s: State) {
    (s.phase.Recheck? || s.phase.Waiting?) && HeadReady(s.q.q) ==> s.owing != {} || Told(s.ec)
  }

  ghost predicate StopHeard(s: State) {
    && (s.running <==> s.stop.NotAsked?)
    && (s.stop.MustNotify? ==> STOPPER !in s.ec.wakes)
    && (s.stop.NotAsked? ==> STOPPER !in s.ec.wakes)
    && (s.phase.Waiting? && !s.running ==> s.stop.MustNotify? || Told(s.ec))
  }

  ghost predicate Inv(s: State) {
    && Q.Inv(s.q)
    && Roles(s.q.ops, s.q.q.deq, s.phase, s.owing, s.ec.wakes)
    && Waits(s) && Alert(s) && StopHeard(s)
  }

  // --------------------------------------------------------------- queue steps

  lemma ProducerStep(s: Q.State, t: Id, a: Q.Action)
    requires Q.Inv(s) && Q.Enabled(s, t, a) && (t in s.ops ==> ProducerOp(s.ops[t])) && (a.Begin? ==> a.job.Put?)
    ensures var n := Q.Next(s, t, a);
            && n.q.deq == s.q.deq && n.q.width == s.q.width
            && n.ops - {t} == s.ops - {t}
            && (t in n.ops ==> ProducerOp(n.ops[t]))
            && (HeadReady(n.q) && !HeadReady(s.q) ==> a.Commit?)
            && (a.Commit? ==> t !in n.ops && s.ops[t].Filling?)
  {
    assert Q.Shape(s.q);
    HeadByCommit(s, t, a);
    hide Q.Inv, HeadReady;
  }

  // Only a commit makes an entry at the head consumable.
  lemma HeadByCommit(s: Q.State, t: Id, a: Q.Action)
    requires Q.Inv(s) && Q.Enabled(s, t, a) && (t in s.ops ==> ProducerOp(s.ops[t]))
    ensures HeadReady(Q.Next(s, t, a).q) && !HeadReady(s.q) ==> a.Commit?
  {
    assert s.q.deq <= s.q.enq;
    hide Q.Inv;
  }

  lemma ConsumerStep(s: Q.State, a: Q.Action)
    requires Q.Inv(s) && Q.Enabled(s, CONSUMER, a) && (a.Begin? ==> a.job.Take?)
    requires CONSUMER in s.ops ==> ConsumerOp(s.ops[CONSUMER], s.q.deq)
    ensures var n := Q.Next(s, CONSUMER, a);
            && n.ops - {CONSUMER} == s.ops - {CONSUMER}
            && (CONSUMER in n.ops ==> ConsumerOp(n.ops[CONSUMER], n.q.deq))
            && (a.LoadSeq? ==> n.q == s.q && (CONSUMER !in n.ops <==> !HeadReady(s.q)))
            && (a.LoadSeq? || a.Commit? || CONSUMER in n.ops)
            && (a.Commit? ==> CONSUMER !in n.ops)
  {
    if a.LoadSeq? { R.RefusedIff(s, CONSUMER); Q.AtHead(s.q); }
  }

  // ------------------------------------------------------------ preservation

  // A queue step changes the entry of one operation only.
  lemma SameElsewhere(ops: map<Id, Q.Pc>, ops': map<Id, Q.Pc>, t: Id, u: Id)
    requires ops' - {t} == ops - {t} && u != t
    ensures u in ops' <==> u in ops
    ensures u in ops ==> ops'[u] == ops[u]
  {
    assert u in ops' <==> u in ops' - {t};
    assert u in ops <==> u in ops - {t};
    if u in ops { assert (ops' - {t})[u] == (ops - {t})[u]; }
  }

  lemma RolesAfter(ops: map<Id, Q.Pc>, deq: nat, phase: Phase, owing: set<Id>, wakes: map<Id, E.Wake>,
                   t: Id, ops': map<Id, Q.Pc>, deq': nat, phase': Phase, owing': set<Id>)
    requires Roles(ops, deq, phase, owing, wakes) && ops' - {t} == ops - {t}
    requires if t == CONSUMER then owing' == owing && (t in ops' ==> Consuming(phase') && ConsumerOp(ops'[t], deq'))
             else && deq' == deq && phase' == phase && t > STOPPER
                  && (t in ops' ==> ProducerOp(ops'[t]) && owing' == owing)
    requires t != CONSUMER && t in ops' ==> t !in owing && t !in wakes
    requires owing' == owing || (owing' == owing + {t} && t !in wakes)
    ensures Roles(ops', deq', phase', owing', wakes)
  {
    forall u | u != t
      ensures u in ops' <==> u in ops
      ensures u in ops ==> ops'[u] == ops[u]
    {
      SameElsewhere(ops, ops', t, u);
    }
  }

  lemma ProduceInv(s: State, t: Id, qa: Q.Action)
    requires Inv(s) && Enabled(s, t, Produce(qa))
    ensures Inv(Next(s, t, Produce(qa)))
  {
    var n := Next(s, t, Produce(qa));
    Q.NextInv(s.q, t, qa);
    ProducerStep(s.q, t, qa);
    assert t in s.q.ops || qa.Begin?;
    hide Q.Inv, Q.Next, Q.Enabled;
    RolesAfter(s.q.ops, s.q.q.deq, s.phase, s.owing, s.ec.wakes, t, n.q.ops, n.q.q.deq, n.phase, n.owing);
    hide Roles;
    if qa.Commit? { assert t in n.owing; }
  }

  lemma ConsumeInv(s: State, qa: Q.Action)
    requires Inv(s) && Enabled(s, CONSUMER, Consume(qa))
    ensures Inv(Next(s, CONSUMER, Consume(qa)))
  {
    hide Q.Inv, Q.Next, E.Next, E.Enabled, E.Inv;
    var n := Next(s, CONSUMER, Consume(qa));
    Q.NextInv(s.q, CONSUMER, qa);
    ConsumerStep(s.q, qa);
    RolesAfter(s.q.ops, s.q.q.deq, s.phase, s.owing, s.ec.wakes, CONSUMER, n.q.ops, n.q.q.deq, n.phase, n.owing);
    hide Roles;
    if qa.LoadSeq? && CONSUMER !in n.q.ops {
      assert !HeadReady(n.q.q);
    } else {
      assert !n.phase.Recheck? && !n.phase.Waiting?;
    }
  }

  // One waiter, so a single FUTEX_WAKE reaches everybody.
  const SINGLE_WAITER := E.Use(1, false)

  lemma EcInv(s: State, t: Id, ea: E.Action)
    requires Waits(s) && E.Enabled(s.ec, t, ea) && (ea.Prepare? ==> s.ec.waiters == map[])
    ensures E.Inv(E.Next(s.ec, t, ea))
  {
    assert |s.ec.waiters| == |s.ec.waiters.Keys|;
    E.NextInv(SINGLE_WAITER, s.ec, t, ea);
  }

  lemma NotifyOneInv(s: State, t: Id)
    requires Inv(s) && Enabled(s, t, NotifyOne)
    ensures Inv(Next(s, t, NotifyOne))
  {
    hide Q.Inv;
    EcInv(s, t, E.Notify(E.One));
  }

  lemma NotifyAllInv(s: State, t: Id)
    requires Inv(s) && Enabled(s, t, NotifyAll)
    ensures Inv(Next(s, t, NotifyAll))
  {
    hide Q.Inv;
    EcInv(s, t, E.Notify(E.Every));
  }

  lemma CallWakeInv(s: State, t: Id, who: Id)
    requires Inv(s) && Enabled(s, t, CallWake(who))
    ensures Inv(Next(s, t, CallWake(who)))
  {
    hide Q.Inv;
    EcInv(s, t, E.CallWake(who));
    assert Next(s, t, CallWake(who)).ec.waiters.Keys == s.ec.waiters.Keys;
    hide E.Inv;
  }

  lemma LoopInv(s: State, t: Id, a: Action)
    requires Inv(s) && Enabled(s, t, a) && !(a.Produce? || a.Consume? || a.NotifyOne? || a.NotifyAll? || a.CallWake?)
    ensures Inv(Next(s, t, a))
  {
    hide Q.Inv;
    match a
    case PrepareWait => assert s.ec.waiters == map[]; EcInv(s, t, E.Prepare);
    case CancelWait => EcInv(s, t, E.Cancel);
    case WaitStep(ea) => EcInv(s, t, ea);
    case TestRunning =>
    case RecheckRunning =>
    case ClearRunning =>
  }

  lemma NextInv(s: State, t: Id, a: Action)
    requires Inv(s) && Enabled(s, t, a)
    ensures Inv(Next(s, t, a))
  {
    match a
    case Produce(qa) => ProduceInv(s, t, qa);
    case Consume(qa) => ConsumeInv(s, qa);
    case NotifyOne => NotifyOneInv(s, t);
    case NotifyAll => NotifyAllInv(s, t);
    case CallWake(who) => CallWakeInv(s, t, who);
    case TestRunning => LoopInv(s, t, a);
    case PrepareWait => LoopInv(s, t, a);
    case CancelWait => LoopInv(s, t, a);
    case RecheckRunning => LoopInv(s, t, a);
    case WaitStep(_) => LoopInv(s, t, a);
    case ClearRunning => LoopInv(s, t, a);
  }
}
