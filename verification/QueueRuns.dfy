// What the queue promises over whole runs: any number of operations, any
// interleaving of their atomic actions.
module QueueRuns {
  import opened Arith
  import opened TicketQueue

  datatype Step = Step(t: Op, a: Action)

  ghost predicate Legal(s: State, run: seq<Step>)
    decreases run
  {
    run == [] || (Enabled(s, run[0].t, run[0].a) && Legal(Next(s, run[0].t, run[0].a), run[1..]))
  }

  ghost function After(s: State, run: seq<Step>): State
    requires Legal(s, run)
    decreases run
  {
    if run == [] then s else After(Next(s, run[0].t, run[0].a), run[1..])
  }

  lemma {:induction false} RunInv(s: State, run: seq<Step>)
    requires Inv(s) && Legal(s, run)
    ensures Inv(After(s, run))
    decreases run
  {
    if run == [] {
    } else {
      NextInv(s, run[0].t, run[0].a);
      RunInv(Next(s, run[0].t, run[0].a), run[1..]);
    }
  }

  // ------------------------------------------------------------------- safety

  predicate Holds(pc: Pc) {
    pc.Filling? || pc.Copying?
  }

  // What a user of the queue relies on, without reference to the invariant: it
  // never holds more than its capacity, no two live reservations share a slot,
  // every finished dequeue handed out the value reserved under its position,
  // and a position the head has passed is delivered or still being copied.
  ghost predicate Safe(s: State) {
    && s.q.cap > 0
    && s.q.deq <= s.q.enq <= s.q.deq + s.q.cap
    && |s.q.tickets| == s.q.enq
    && (forall t, u :: t in s.ops && u in s.ops && t != u && Holds(s.ops[t]) && Holds(s.ops[u]) ==>
          Slot(s.ops[t].at, s.q.cap) != Slot(s.ops[u].at, s.q.cap))
    && (forall p :: p in s.q.delivered ==> p < s.q.deq && s.q.delivered[p] == s.q.tickets[p])
    && (forall p: nat :: p < s.q.deq ==> p in s.q.delivered || Copies(s, p))
  }

  ghost predicate Copies(s: State, p: nat) {
    exists t :: t in s.ops && s.ops[t].Copying? && s.ops[t].at == p
  }

  lemma InvSafe(s: State)
    requires Inv(s)
    ensures Safe(s)
  {
    var q := s.q;
    forall t, u | t in s.ops && u in s.ops && t != u && Holds(s.ops[t]) && Holds(s.ops[u])
      ensures Slot(s.ops[t].at, q.cap) != Slot(s.ops[u].at, q.cap)
    {
      assert OpOk(q, t, s.ops[t]) && OpOk(q, u, s.ops[u]);
      AloneInLap(q.enq - q.cap, q.cap, s.ops[t].at);
    }
    forall p: nat | p < q.deq && p !in q.delivered
      ensures Copies(s, p)
    {
      assert p in q.reading;
    }
  }

  lemma {:induction false} LegalConcat(s: State, run: seq<Step>, more: seq<Step>)
    requires Legal(s, run) && Legal(After(s, run), more)
    ensures Legal(s, run + more) && After(s, run + more) == After(After(s, run), more)
    decreases run
  {
    if run == [] {
      assert run + more == more;
    } else {
      assert (run + more)[1..] == run[1..] + more;
      LegalConcat(Next(s, run[0].t, run[0].a), run[1..], more);
    }
  }

  lemma {:induction false} LegalSnoc(s: State, run: seq<Step>, t: Op, a: Action)
    requires Legal(s, run) && Enabled(After(s, run), t, a)
    ensures Legal(s, run + [Step(t, a)])
    ensures After(s, run + [Step(t, a)]) == Next(After(s, run), t, a)
    decreases run
  {
    if run == [] {
      assert Legal(Next(s, t, a), []);
    } else {
      assert (run + [Step(t, a)])[1..] == run[1..] + [Step(t, a)];
      LegalSnoc(Next(s, run[0].t, run[0].a), run[1..], t, a);
    }
  }

  // ------------------------------------------------------------ slot ownership

  datatype SlotState =
    | FreeFor(p: nat)
    | HeldByProducer(p: nat, owner: Op)
    | ReadyAt(p: nat)
    | HeldByConsumer(p: nat, owner: Op)

  ghost predicate InState(q: Queue, i: nat, st: SlotState)
    requires Counters(q) && i < q.cap
  {
    && Slot(st.p, q.cap) == i
    && match st
       case FreeFor(p) => q.enq <= p < q.deq + q.cap && p - q.cap !in q.reading && q.seqno[i] == p
       case HeldByProducer(p, owner) => p in q.writing && q.writing[p] == owner && q.seqno[i] == p
       case ReadyAt(p) => q.deq <= p < q.enq && p !in q.writing && q.seqno[i] == p + 1
       case HeldByConsumer(p, owner) => p in q.reading && q.reading[p] == owner && q.seqno[i] == p + 1
  }

  // The position below the tail that decides the state of the slot.
  function Lap(q: Queue, st: SlotState): int {
    if st.FreeFor? then st.p - q.cap else st.p
  }

  // Every slot is in exactly one of the four states.
  lemma OneStatePerSlot(s: State, i: nat)
    requires Inv(s) && i < s.q.cap
    ensures exists st :: InState(s.q, i, st)
    ensures forall st, su :: InState(s.q, i, st) && InState(s.q, i, su) ==> st == su
  {
    var q := s.q;
    var w := InLap(i, q.enq - q.cap, q.cap);
    SmallMod(i, q.cap);
    var st := StateAt(q, w);
    LapState(q, i, w);
    hide InState, StateAt, Inv;
    forall su | InState(q, i, su)
      ensures su == st
    {
      StateFromLap(q, i, su, w);
    }
  }

  lemma LapState(q: Queue, i: nat, w: int)
    requires Counters(q) && Slots(q) && i < q.cap && q.enq - q.cap <= w < q.enq && Slot(w, q.cap) == i
    ensures InState(q, i, StateAt(q, w))
  {
    NextLap(w, q.cap);
    assert q.seqno[i] == Expected(q, w);
  }

  function StateAt(q: Queue, w: int): SlotState
    requires w + q.cap >= 0
  {
    if w >= q.deq then (if w in q.writing then HeldByProducer(w, q.writing[w]) else ReadyAt(w))
    else if w in q.reading then HeldByConsumer(w, q.reading[w])
    else FreeFor(w + q.cap)
  }

  lemma StateFromLap(q: Queue, i: nat, st: SlotState, w: int)
    requires Counters(q) && i < q.cap && InState(q, i, st)
    requires q.enq - q.cap <= w < q.enq && Slot(w, q.cap) == i
    ensures st == StateAt(q, w)
  {
    NextLap(st.p - q.cap, q.cap);
    AloneInLap(q.enq - q.cap, q.cap, w);
    assert Lap(q, st) == w;
  }

  // ------------------------------------------------------------------ refusals

  // Why an operation is turned away: for an enqueue the slot one lap back was
  // not given back, for a dequeue no value is committed at the head.
  ghost predicate Blocked(q: Queue, put: bool) {
    if put then q.enq == q.deq + q.cap || q.enq - q.cap in q.reading
    else q.deq == q.enq || q.deq in q.writing
  }

  // Loading the sequence word makes an operation give up exactly when its
  // position is still the shared one and the queue is blocked for it.
  lemma RefusedIff(s: State, t: Op)
    requires Inv(s) && t in s.ops && s.ops[t].Probing?
    ensures t !in AfterLoad(s, t).ops <==>
            s.ops[t].pos == Counter(s.q, s.ops[t].job) && Blocked(s.q, s.ops[t].job.Put?)
  {
    AtTail(s.q);
    AtHead(s.q);
    assert OpOk(s.q, t, s.ops[t]);
    Passed(s.q, s.ops[t].pos);
  }

  // ------------------------------------------------------------------- history

  lemma {:induction false} Below(n: nat) returns (all: set<nat>)
    ensures forall p: nat :: p in all <==> p < n
    ensures |all| == n
  {
    if n == 0 { all := {}; } else {
      var less := Below(n - 1);
      all := less + {n - 1};
    }
  }

  // Nothing is lost and nothing is handed out twice: every reserved value is
  // still in the ring, being copied out, or delivered.
  lemma Conservation(s: State)
    requires Inv(s)
    ensures |s.q.tickets| == |s.q.delivered| + |s.q.reading| + (s.q.enq - s.q.deq)
  {
    var all := Below(s.q.deq);
    assert all == s.q.delivered.Keys + s.q.reading.Keys;
  }

  lemma DeliveredOnce(s: State, t: Op)
    requires Inv(s) && Enabled(s, t, Commit) && s.ops[t].Copying?
    ensures s.ops[t].at !in s.q.delivered
    ensures Next(s, t, Commit).q.delivered == s.q.delivered[s.ops[t].at := s.q.tickets[s.ops[t].at]]
  {
    assert OpOk(s.q, t, s.ops[t]);
    assert s.ops[t].buf == s.q.tickets[s.ops[t].at];
  }

  // ------------------------------------------------------------------ progress

  // Operation t neither gives up nor gets its position during the run.
  ghost predicate KeepsTrying(s: State, run: seq<Step>, t: Op)
    requires Legal(s, run)
    decreases run
  {
    && t in s.ops && Trying(s.ops[t])
    && (run == [] || KeepsTrying(Next(s, run[0].t, run[0].a), run[1..], t))
  }

  // How often t has to start over: a failed exchange that was not spurious, or a
  // sequence number ahead of its position.
  ghost function Retries(s: State, run: seq<Step>, t: Op): nat
    requires Legal(s, run) && KeepsTrying(s, run, t)
    decreases run
  {
    if run == [] then 0
    else
      (if run[0].t == t && (run[0].a.Reload? || (run[0].a.Cas? && s.ops[t].pos != Counter(s.q, s.ops[t].job)))
       then 1 else 0)
      + Retries(Next(s, run[0].t, run[0].a), run[1..], t)
  }

  // How many reservations of the given kind succeed during the run.
  ghost function Reservations(s: State, run: seq<Step>, job: Job): nat
    requires Legal(s, run)
    decreases run
  {
    if run == [] then 0
    else
      (if && run[0].a == Cas(false) && s.ops[run[0].t].job.Put? == job.Put?
          && s.ops[run[0].t].pos == Counter(s.q, job) then 1 else 0)
      + Reservations(Next(s, run[0].t, run[0].a), run[1..], job)
  }

  lemma {:induction false} CounterCountsReservations(s: State, run: seq<Step>, job: Job)
    requires Legal(s, run)
    ensures Counter(After(s, run).q, job) == Counter(s.q, job) + Reservations(s, run, job)
    decreases run
  {
    if run == [] {
    } else {
      CounterCountsReservations(Next(s, run[0].t, run[0].a), run[1..], job);
    }
  }

  // A thread starts over at most once per reservation that succeeds meanwhile,
  // plus once per reservation its position was already behind.
  lemma {:induction false} RetryBound(s: State, run: seq<Step>, t: Op)
    requires Inv(s) && Legal(s, run) && KeepsTrying(s, run, t)
    ensures Retries(s, run, t)
            <= Counter(s.q, s.ops[t].job) - s.ops[t].pos + Reservations(s, run, s.ops[t].job)
  {
    CounterCountsReservations(s, run, s.ops[t].job);
    RetriesAdvance(s, run, t);
    RunInv(s, run);
    assert OpOk(After(s, run).q, t, After(s, run).ops[t]);
  }

  lemma {:induction false} RetriesAdvance(s: State, run: seq<Step>, t: Op)
    requires Inv(s) && Legal(s, run) && KeepsTrying(s, run, t)
    ensures t in After(s, run).ops && Trying(After(s, run).ops[t])
    ensures After(s, run).ops[t].job == s.ops[t].job
    ensures Retries(s, run, t) + s.ops[t].pos <= After(s, run).ops[t].pos
    decreases run
  {
    if run == [] {
    } else {
      var n := Next(s, run[0].t, run[0].a);
      NextInv(s, run[0].t, run[0].a);
      TryingStep(s, run[0].t, run[0].a, t);
      assert KeepsTrying(n, run[1..], t);
      RetriesAdvance(n, run[1..], t);
    }
  }

  // Starting over means a later position.
  lemma TryingStep(s: State, u: Op, a: Action, t: Op)
    requires Inv(s) && Enabled(s, u, a) && t in s.ops && Trying(s.ops[t])
    requires t in Next(s, u, a).ops && Trying(Next(s, u, a).ops[t])
    ensures Next(s, u, a).ops[t].job == s.ops[t].job
    ensures s.ops[t].pos <= Next(s, u, a).ops[t].pos
    ensures u == t && (a.Reload? || (a.Cas? && s.ops[t].pos != Counter(s.q, s.ops[t].job))) ==>
              s.ops[t].pos < Next(s, u, a).ops[t].pos
  {
    assert OpOk(s.q, t, s.ops[t]);
  }
}
