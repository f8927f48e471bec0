// States the queue really reaches, for every capacity and every width: the ones
// in which it does less than it is said to do.
module QueueCases {
  import opened TicketQueue
  import opened QueueRuns

  // Some run leads from one state to the other.
  ghost predicate Leads(s: State, n: State) {
    exists run :: Legal(s, run) && After(s, run) == n
  }

  lemma LeadsNowhere(s: State)
    ensures Leads(s, s)
  {
    assert Legal(s, []) && After(s, []) == s;
  }

  lemma LeadsOn(s: State, m: State, t: Op, a: Action)
    requires Leads(s, m) && Enabled(m, t, a)
    ensures Leads(s, Next(m, t, a))
  {
    hide Next, Enabled;
    var run :| Legal(s, run) && After(s, run) == m;
    LegalSnoc(s, run, t, a);
    assert Legal(s, run + [Step(t, a)]);
  }

  lemma LeadsInv(cap: nat, width: nat, m: State)
    requires cap >= 2 && Leads(Init(cap, width), m)
    ensures Inv(m) && m.q.cap == cap && m.q.width == width
  {
    var run :| Legal(Init(cap, width), run) && After(Init(cap, width), run) == m;
    InitInv(cap, width);
    RunInv(Init(cap, width), run);
    SameSizes(Init(cap, width), run);
  }

  lemma {:induction false} SameSizes(s: State, run: seq<Step>)
    requires Legal(s, run)
    ensures After(s, run).q.cap == s.q.cap && After(s, run).q.width == s.q.width
    decreases run
  {
    if run == [] {
    } else {
      SameSizes(Next(s, run[0].t, run[0].a), run[1..]);
    }
  }

  // ------------------------------------------------- whole operations, uncontended

  function Claimed(s: State, t: Op, job: Job): State {
    match job
    case Put(v) => State(PutClaimed(s.q, v, t), s.ops[t := Filling(v, s.q.enq, 0)])
    case Take => State(TakeClaimed(s.q, t), s.ops[t := Copying(s.q.deq, [])])
  }

  // The word of the slot at the counter makes the position available.
  predicate Free(q: Queue, job: Job)
    requires Shape(q)
  {
    q.seqno[Slot(Counter(q, job), q.cap)] == Want(job, Counter(q, job)) && (job.Put? ==> |job.v| == q.width)
  }

  lemma ClaimSteps(s: State, t: Op, job: Job) returns (a: State, b: State)
    requires Shape(s.q) && t !in s.ops && Free(s.q, job)
    ensures Enabled(s, t, Begin(job)) && a == Next(s, t, Begin(job))
    ensures Enabled(a, t, LoadSeq) && b == Next(a, t, LoadSeq)
    ensures Enabled(b, t, Cas(false)) && Claimed(s, t, job) == Next(b, t, Cas(false))
  {
    var c := Counter(s.q, job);
    a := Next(s, t, Begin(job));
    assert a == s.(ops := s.ops[t := Probing(job, c)]);
    b := Next(a, t, LoadSeq);
    assert a.ops[t := Claiming(job, c)] == s.ops[t := Claiming(job, c)];
    assert b == s.(ops := s.ops[t := Claiming(job, c)]);
    var pc := if job.Put? then Filling(job.v, c, 0) else Copying(c, []);
    assert b.ops[t := pc] == s.ops[t := pc];
  }

  lemma LeadsToClaim(s: State, m: State, t: Op, job: Job)
    requires Leads(s, m) && Shape(m.q) && t !in m.ops && Free(m.q, job)
    ensures Leads(s, Claimed(m, t, job))
  {
    var a, b := ClaimSteps(m, t, job);
    LeadsOn(s, m, t, Begin(job));
    LeadsOn(s, a, t, LoadSeq);
    LeadsOn(s, b, t, Cas(false));
  }

  // One byte more, and nothing but data and the operation's own count changes.
  lemma FillStep(s: State, t: Op, v: Value, at: nat, k: nat)
    requires Shape(s.q) && t in s.ops && s.ops[t] == Filling(v, at, k) && k < s.q.width == |v|
    ensures Enabled(s, t, CopyByte)
    ensures var n := Next(s, t, CopyByte);
            && Shape(n.q) && n.q == s.q.(data := n.q.data) && n.ops == s.ops[t := Filling(v, at, k + 1)]
  {
  }

  lemma {:induction false} LeadsToFilled(s: State, m: State, t: Op, v: Value, at: nat, k: nat) returns (n: State)
    requires Leads(s, m) && Shape(m.q) && t in m.ops && m.ops[t] == Filling(v, at, k) && k <= m.q.width == |v|
    ensures Leads(s, n) && Shape(n.q) && n.q == m.q.(data := n.q.data)
    ensures n.ops == m.ops[t := Filling(v, at, |v|)]
    decreases |v| - k
  {
    n := m;
    if k < |v| {
      FillStep(m, t, v, at, k);
      LeadsOn(s, m, t, CopyByte);
      n := LeadsToFilled(s, Next(m, t, CopyByte), t, v, at, k + 1);
    }
  }

  lemma {:induction false} LeadsToRead(s: State, m: State, t: Op, at: nat, buf: Value) returns (n: State, all: Value)
    requires Leads(s, m) && Shape(m.q) && t in m.ops && m.ops[t] == Copying(at, buf) && |buf| <= m.q.width
    ensures Leads(s, n) && n.q == m.q && |all| == m.q.width
    ensures n.ops == m.ops[t := Copying(at, all)]
    decreases m.q.width - |buf|
  {
    n, all := m, buf;
    if |buf| < m.q.width {
      LeadsOn(s, m, t, CopyByte);
      var more := buf + [m.q.data[Slot(at, m.q.cap)][|buf|]];
      assert Next(m, t, CopyByte) == m.(ops := m.ops[t := Copying(at, more)]);
      n, all := LeadsToRead(s, Next(m, t, CopyByte), t, at, more);
    }
  }

  // A whole enqueue, and a whole dequeue, that nobody came between.
  predicate PutDone(m: State, n: State)
    requires Shape(m.q)
  {
    && Shape(n.q) && n.q.cap == m.q.cap && n.q.width == m.q.width && n.ops == m.ops
    && n.q.enq == m.q.enq + 1 && n.q.deq == m.q.deq
    && n.q.seqno == m.q.seqno[Slot(m.q.enq, m.q.cap) := m.q.enq + 1]
    && n.q.writing == m.q.writing && n.q.reading == m.q.reading && n.q.delivered == m.q.delivered
  }

  predicate TakeDone(m: State, n: State)
    requires Shape(m.q)
  {
    && Shape(n.q) && n.q.cap == m.q.cap && n.q.width == m.q.width && n.ops == m.ops
    && n.q.enq == m.q.enq && n.q.deq == m.q.deq + 1
    && n.q.writing == m.q.writing && n.q.reading == m.q.reading
  }

  lemma LeadsToPut(s: State, m: State, t: Op, v: Value) returns (n: State)
    requires Leads(s, m) && Shape(m.q) && t !in m.ops && Free(m.q, Put(v)) && m.q.enq !in m.q.writing
    ensures Leads(s, n) && PutDone(m, n)
  {
    LeadsToClaim(s, m, t, Put(v));
    var f := LeadsToFilled(s, Claimed(m, t, Put(v)), t, v, m.q.enq, 0);
    LeadsOn(s, f, t, Commit);
    n := Next(f, t, Commit);
    assert n.ops == m.ops;
  }

  lemma LeadsToTake(s: State, m: State, t: Op) returns (n: State)
    requires Leads(s, m) && Shape(m.q) && t !in m.ops && Free(m.q, Take) && m.q.deq !in m.q.reading
    ensures Leads(s, n) && TakeDone(m, n)
  {
    LeadsToClaim(s, m, t, Take);
    var f, all := LeadsToRead(s, Claimed(m, t, Take), t, m.q.deq, []);
    LeadsOn(s, f, t, Commit);
    n := Next(f, t, Commit);
    assert n.ops == m.ops;
  }

  // Some value of the width.
  function Zeros(width: nat): (v: Value)
    ensures |v| == width
  {
    seq(width, _ => 0)
  }

  // ------------------------------------------------------------------ one slot

  ghost predicate AlwaysSafe(cap: nat, width: nat) {
    forall run: seq<Step> :: Legal(Init(cap, width), run) ==> Safe(After(Init(cap, width), run))
  }

  // Whatever the width, the queue is correct for exactly the capacities from two on.
  lemma SafeIffTwoSlots(cap: nat, width: nat)
    requires cap >= 1
    ensures AlwaysSafe(cap, width) <==> cap >= 2
  {
    if cap >= 2 {
      forall run: seq<Step> | Legal(Init(cap, width), run)
        ensures Safe(After(Init(cap, width), run))
      {
        InitInv(cap, width);
        RunInv(Init(cap, width), run);
        InvSafe(After(Init(cap, width), run));
      }
    } else {
      OneSlotOverruns(width);
      var s :| Leads(Init(1, width), s) && !Safe(s);
      var run :| Legal(Init(1, width), run) && After(Init(1, width), run) == s;
    }
  }

  // With one slot the number that marks position 0 ready is the number that
  // marks the slot free for position 1: a second enqueue overruns the first.
  lemma OneSlotOverruns(width: nat)
    ensures exists s :: Leads(Init(1, width), s) && s.q.enq == 2 && s.q.deq == 0 && !Safe(s)
  {
    var init := Init(1, width);
    LeadsNowhere(init);
    var one := LeadsToPut(init, init, 0, Zeros(width));
    LeadsToClaim(init, one, 1, Put(Zeros(width)));
    assert !Safe(Claimed(one, 1, Put(Zeros(width))));
  }

  // ------------------------------------------------------- refused though empty

  lemma {:induction false} FilledUp(cap: nat, width: nat, k: nat) returns (s: State)
    requires cap >= 2 && k <= cap
    ensures Leads(Init(cap, width), s) && s.ops == map[] && s.q.enq == k && s.q.deq == 0
    ensures s.q.writing == map[] && s.q.reading == map[] && s.q.delivered == map[]
  {
    if k == 0 {
      s := Init(cap, width);
      LeadsNowhere(s);
    } else {
      var m := FilledUp(cap, width, k - 1);
      LeadsInv(cap, width, m);
      AtTail(m.q);
      s := LeadsToPut(Init(cap, width), m, 0, Zeros(width));
    }
  }

  // The first entry is being read by operation 2, and k more were taken out.
  lemma {:induction false} FirstHeld(cap: nat, width: nat, k: nat) returns (s: State)
    requires cap >= 2 && k < cap
    ensures Leads(Init(cap, width), s) && s.ops == map[2 := Copying(0, [])] && s.q.enq == cap && s.q.deq == k + 1
    ensures s.q.writing == map[] && s.q.reading == map[0 := 2]
  {
    if k == 0 {
      var m := FilledUp(cap, width, cap);
      LeadsInv(cap, width, m);
      AtHead(m.q);
      LeadsToClaim(Init(cap, width), m, 2, Take);
      s := Claimed(m, 2, Take);
    } else {
      var m := FirstHeld(cap, width, k - 1);
      LeadsInv(cap, width, m);
      AtHead(m.q);
      s := LeadsToTake(Init(cap, width), m, 3);
    }
  }

  // For every capacity and width: everything reserved has been dequeued and all
  // but one entry delivered, and an enqueue is refused, because that one entry is
  // still being read.
  lemma RefusedThoughEmpty(cap: nat, width: nat)
    requires cap >= 2
    ensures exists s ::
              && Leads(Init(cap, width), s) && s.q.enq == s.q.deq == cap && |s.q.tickets| == |s.q.delivered| + 1
              && Enabled(s, 4, LoadSeq) && s.ops[4].job.Put? && 4 !in Next(s, 4, LoadSeq).ops
  {
    var init := Init(cap, width);
    var m := FirstHeld(cap, width, cap - 1);
    LeadsInv(cap, width, m);
    Conservation(m);
    LeadsOn(init, m, 4, Begin(Put(Zeros(width))));
    var s := Next(m, 4, Begin(Put(Zeros(width))));
    LeadsInv(cap, width, s);
    RefusedIff(s, 4);
    assert |s.q.reading| == 1;
  }
}
