// A state the logger really reaches in which its consumer has left an entry behind.
module LogCases {
  import Q = TicketQueue
  import C = QueueCases
  import opened LogConsumer
  import opened LogRuns

  ghost predicate Leads(s: State, n: State) {
    exists run :: Legal(s, run) && After(s, run) == n
  }

  lemma LeadsOn(s: State, m: State, t: Id, a: Action)
    requires Leads(s, m) && Enabled(m, t, a)
    ensures Leads(s, Next(m, t, a))
  {
    hide Next, Enabled;
    var run :| Legal(s, run) && After(s, run) == m;
    Snoc(s, run, t, a);
    assert Legal(s, run + [Step(t, a)]);
  }

  lemma LeadsInv(cap: nat, width: nat, m: State)
    requires cap >= 2 && Leads(Init(cap, width), m)
    ensures Inv(m)
  {
    var run :| Legal(Init(cap, width), run) && After(Init(cap, width), run) == m;
    InitInv(cap, width);
    RunInv(Init(cap, width), run);
  }

  lemma LeadsToClaim(s: State, m: State, t: Id, v: Q.Value) returns (n: State)
    requires Leads(s, m) && t > STOPPER && t !in m.owing && t !in m.ec.wakes
    requires Q.Shape(m.q.q) && t !in m.q.ops && C.Free(m.q.q, Q.Put(v))
    ensures n == m.(q := C.Claimed(m.q, t, Q.Put(v))) && Leads(s, n)
  {
    var a, b := C.ClaimSteps(m.q, t, Q.Put(v));
    hide Q.Next, Q.Enabled, C.Claimed;
    LeadsOn(s, m, t, Produce(Q.Begin(Q.Put(v))));
    LeadsOn(s, m.(q := a), t, Produce(Q.LoadSeq));
    LeadsOn(s, m.(q := b), t, Produce(Q.Cas(false)));
    n := m.(q := C.Claimed(m.q, t, Q.Put(v)));
  }

  lemma {:induction false} LeadsToFilled(s: State, m: State, t: Id, v: Q.Value, at: nat, k: nat) returns (n: State)
    requires Leads(s, m) && t > STOPPER && Q.Shape(m.q.q)
    requires t in m.q.ops && m.q.ops[t] == Q.Filling(v, at, k) && k <= m.q.q.width == |v|
    ensures Leads(s, n) && Q.Shape(n.q.q) && n == m.(q := n.q) && n.q.q == m.q.q.(data := n.q.q.data)
    ensures n.q.ops == m.q.ops[t := Q.Filling(v, at, |v|)]
    decreases |v| - k
  {
    n := m;
    if k < |v| {
      C.FillStep(m.q, t, v, at, k);
      hide Q.Next, Q.Enabled;
      LeadsOn(s, m, t, Produce(Q.CopyByte));
      n := LeadsToFilled(s, Next(m, t, Produce(Q.CopyByte)), t, v, at, k + 1);
    }
  }

  // Operation 2 has reserved position 0 and is slow; 3 has committed position 1.
  lemma CommittedBehind(cap: nat, width: nat) returns (s: State)
    requires cap >= 2
    ensures Leads(Init(cap, width), s) && s.phase.Test? && s.running && s.stop.NotAsked? && CONSUMER !in s.q.ops
    ensures s.q.q.deq == 0 && s.q.q.enq == 2 && s.q.q.writing == map[0 := 2] && s.q.q.delivered == map[]
  {
    var init, v := Init(cap, width), C.Zeros(width);
    assert Legal(init, []) && After(init, []) == init;
    var a := LeadsToClaim(init, init, 2, v);
    LeadsInv(cap, width, a);
    Q.AtTail(a.q.q);
    var b := LeadsToClaim(init, a, 3, v);
    var f := LeadsToFilled(init, b, 3, v, 1, 0);
    assert Q.Enabled(f.q, 3, Q.Commit);
    LeadsOn(init, f, 3, Produce(Q.Commit));
    s := Next(f, 3, Produce(Q.Commit));
    assert map[0 := 2, 1 := 3] - {1} == map[0 := 2];
  }

  // For every capacity and width: one producer reserves and is slow, another
  // commits behind it, and the stop comes.  The consumer returns with a committed
  // entry never consumed.
  lemma EntryLeftBehind(cap: nat, width: nat)
    requires cap >= 2
    ensures exists s ::
              && Leads(Init(cap, width), s) && s.phase.Done?
              && 1 < s.q.q.enq && 1 !in s.q.q.writing && 1 !in s.q.q.delivered
  {
    var init := Init(cap, width);
    var c := CommittedBehind(cap, width);
    LeadsOn(init, c, STOPPER, ClearRunning);
    var d := Next(c, STOPPER, ClearRunning);
    LeadsOn(init, d, CONSUMER, TestRunning);
    var e := Next(d, CONSUMER, TestRunning);
    LeadsInv(cap, width, e);
    assert Q.Shape(e.q.q);
    LeadsOn(init, e, CONSUMER, Consume(Q.Begin(Q.Take)));
    var f := Next(e, CONSUMER, Consume(Q.Begin(Q.Take)));
    LeadsInv(cap, width, f);
    ConsumerStep(f.q, Q.LoadSeq);
    LeadsOn(init, f, CONSUMER, Consume(Q.LoadSeq));
    assert Next(f, CONSUMER, Consume(Q.LoadSeq)).phase.Done?;
  }
}
