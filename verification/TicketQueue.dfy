// The bounded multi-producer multi-consumer ring queue, as a state machine over
// the atomic actions of every operation in progress.  Positions and sequence
// numbers are unbounded here; MpmcQueue.dfy relates them to 64-bit words.
module TicketQueue {
  import opened Arith

  newtype Byte = x: int | 0 <= x < 256

  type Value = seq<Byte>

  // Identifies one operation in progress.  A thread that keeps several
  // reservations open counts as several operations.
  type Op = nat

  datatype Job = Put(v: Value) | Take

  // Where an operation is.  The decision a thread takes on a loaded word is
  // local, so it is part of the step that loads the word.
  datatype Pc =
    | Probing(job: Job, pos: nat)
    | Claiming(job: Job, pos: nat)
    | Behind(job: Job, pos: nat)
    | Filling(v: Value, at: nat, done: nat)
    | Copying(at: nat, buf: Value)

  datatype Action =
    | Begin(job: Job)
    | LoadSeq
    | Cas(spurious: bool)
    | Reload
    | CopyByte
    | Commit

  // The shared words, and four records of history: the value of every position
  // reserved so far, who holds which position, and what each finished dequeue
  // handed out.
  datatype Queue = Queue(
    cap: nat, width: nat,
    seqno: seq<nat>, data: seq<Value>, enq: nat, deq: nat,
    tickets: seq<Value>, writing: map<nat, Op>, reading: map<nat, Op>, delivered: map<nat, Value>)

  datatype State = State(q: Queue, ops: map<Op, Pc>)

  function Slot(p: int, cap: nat): (i: nat)
    requires cap > 0
    ensures i < cap
  {
    p % cap
  }

  function Counter(q: Queue, job: Job): nat {
    if job.Put? then q.enq else q.deq
  }

  // The sequence number that makes position `pos` available to the job.
  function Want(job: Job, pos: nat): nat {
    if job.Put? then pos else pos + 1
  }

  function Init(cap: nat, width: nat): State {
    State(Queue(cap, width, seq(cap, i => i), seq(cap, _ => seq(width, _ => 0)), 0, 0, [], map[], map[], map[]), map[])
  }

  predicate Shape(q: Queue) {
    && q.cap > 0
    && |q.seqno| == |q.data| == q.cap
    && (forall i :: 0 <= i < q.cap ==> |q.data[i]| == q.width)
  }

  predicate Trying(pc: Pc) {
    pc.Probing? || pc.Claiming? || pc.Behind?
  }

  ghost predicate Enabled(s: State, t: Op, a: Action) {
    && Shape(s.q)
    && match a
       case Begin(job) => t !in s.ops && (job.Put? ==> |job.v| == s.q.width)
       case LoadSeq => t in s.ops && s.ops[t].Probing?
       case Cas(_) => t in s.ops && s.ops[t].Claiming?
       case Reload => t in s.ops && s.ops[t].Behind?
       case CopyByte =>
         && t in s.ops
         && (|| (s.ops[t].Filling? && s.ops[t].done < s.q.width && |s.ops[t].v| == s.q.width)
             || (s.ops[t].Copying? && |s.ops[t].buf| < s.q.width))
       case Commit =>
         && t in s.ops
         && (|| (s.ops[t].Filling? && s.ops[t].done == s.q.width)
             || (s.ops[t].Copying? && |s.ops[t].buf| == s.q.width))
  }

  ghost function Next(s: State, t: Op, a: Action): State
    requires Enabled(s, t, a)
  {
    match a
    case Begin(job) =>
      var c := Counter(s.q, job);
      s.(ops := s.ops[t := Probing(job, c)])
    case LoadSeq => AfterLoad(s, t)
    case Cas(spurious) => AfterCas(s, t, spurious)
    case Reload =>
      var pc := s.ops[t];
      s.(ops := s.ops[t := Probing(pc.job, Counter(s.q, pc.job))])
    case CopyByte => AfterCopy(s, t)
    case Commit => AfterCommit(s, t)
  }

  function AfterLoad(s: State, t: Op): State
    requires Shape(s.q) && t in s.ops && s.ops[t].Probing?
  {
    var pc := s.ops[t];
    var seen, want := s.q.seqno[Slot(pc.pos, s.q.cap)], Want(pc.job, pc.pos);
    if seen == want then s.(ops := s.ops[t := Claiming(pc.job, pc.pos)])
    else if seen < want then s.(ops := s.ops - {t})
    else s.(ops := s.ops[t := Behind(pc.job, pc.pos)])
  }

  function PutClaimed(q: Queue, v: Value, t: Op): Queue {
    q.(enq := q.enq + 1, tickets := q.tickets + [v], writing := q.writing[q.enq := t])
  }

  function TakeClaimed(q: Queue, t: Op): Queue {
    q.(deq := q.deq + 1, reading := q.reading[q.deq := t])
  }

  function PutCommitted(q: Queue, at: nat): Queue
    requires Shape(q)
  {
    q.(seqno := q.seqno[Slot(at, q.cap) := at + 1], writing := q.writing - {at})
  }

  function TakeCommitted(q: Queue, at: nat, buf: Value): Queue
    requires Shape(q)
  {
    q.(seqno := q.seqno[Slot(at, q.cap) := at + q.cap],
       reading := q.reading - {at}, delivered := q.delivered[at := buf])
  }

  function AfterCas(s: State, t: Op, spurious: bool): State
    requires t in s.ops && s.ops[t].Claiming?
  {
    var pc := s.ops[t];
    var c := Counter(s.q, pc.job);
    if c == pc.pos && !spurious then
      match pc.job
      case Put(v) => State(PutClaimed(s.q, v, t), s.ops[t := Filling(v, pc.pos, 0)])
      case Take => State(TakeClaimed(s.q, t), s.ops[t := Copying(pc.pos, [])])
    else
      s.(ops := s.ops[t := Probing(pc.job, c)])
  }

  ghost function AfterCopy(s: State, t: Op): State
    requires Enabled(s, t, CopyByte)
  {
    var q := s.q;
    var i := Slot(s.ops[t].at, q.cap);
    match s.ops[t]
    case Filling(v, at, done) =>
      State(q.(data := q.data[i := q.data[i][done := v[done]]]), s.ops[t := Filling(v, at, done + 1)])
    case Copying(at, buf) =>
      s.(ops := s.ops[t := Copying(at, buf + [q.data[i][|buf|]])])
  }

  ghost function AfterCommit(s: State, t: Op): State
    requires Enabled(s, t, Commit)
  {
    match s.ops[t]
    case Filling(_, at, _) => State(PutCommitted(s.q, at), s.ops - {t})
    case Copying(at, buf) => State(TakeCommitted(s.q, at, buf), s.ops - {t})
  }

  // ---------------------------------------------------------------- invariant

  ghost predicate Counters(q: Queue) {
    && q.cap >= 2
    && Shape(q)
    && q.deq <= q.enq <= q.deq + q.cap
    && |q.tickets| == q.enq
    && (forall p :: 0 <= p < q.enq ==> |q.tickets[p]| == q.width)
    && (forall p :: p in q.writing ==> q.deq <= p < q.enq)
    && (forall p :: p in q.reading ==> q.enq - q.cap <= p < q.deq)
  }

  // The sequence number the slot of position p must show, for the `cap`
  // positions below the tail.  Positions below zero stand for slots that no
  // operation has used yet.
  function Expected(q: Queue, p: int): int {
    if p >= q.deq then (if p in q.writing then p else p + 1)
    else if p in q.reading then p + 1
    else p + q.cap
  }

  ghost predicate Slots(q: Queue)
    requires Counters(q)
  {
    forall p: int :: q.enq - q.cap <= p < q.enq ==> q.seqno[Slot(p, q.cap)] == Expected(q, p)
  }

  ghost predicate Contents(q: Queue)
    requires Counters(q)
  {
    && (forall p: nat :: q.deq <= p < q.enq && p !in q.writing ==> q.data[Slot(p, q.cap)] == q.tickets[p])
    && (forall p: nat :: p in q.reading ==> q.data[Slot(p, q.cap)] == q.tickets[p])
  }

  // A position below the head is either still being read or was delivered, and
  // what was delivered is what was reserved under that position.
  ghost predicate Fifo(q: Queue)
    requires Counters(q)
  {
    && (forall p: nat :: p < q.deq <==> p in q.delivered || p in q.reading)
    && (forall p :: p in q.delivered ==> p < q.deq && p !in q.reading && q.delivered[p] == q.tickets[p])
  }

  ghost predicate Holders(s: State) {
    && (forall p :: p in s.q.writing ==>
          && s.q.writing[p] in s.ops
          && s.ops[s.q.writing[p]].Filling? && s.ops[s.q.writing[p]].at == p)
    && (forall p :: p in s.q.reading ==>
          && s.q.reading[p] in s.ops
          && s.ops[s.q.reading[p]].Copying? && s.ops[s.q.reading[p]].at == p)
  }

  ghost predicate OpOk(q: Queue, t: Op, pc: Pc)
    requires Counters(q)
  {
    match pc
    case Probing(job, pos) =>
      pos <= Counter(q, job) && (job.Put? ==> |job.v| == q.width)
    case Claiming(job, pos) =>
      && pos <= Counter(q, job) && (job.Put? ==> |job.v| == q.width)
      && q.seqno[Slot(pos, q.cap)] >= Want(job, pos)
    case Behind(job, pos) =>
      pos < Counter(q, job) && (job.Put? ==> |job.v| == q.width)
    case Filling(v, at, done) =>
      && at in q.writing && q.writing[at] == t
      && v == q.tickets[at]
      && done <= q.width
      && q.data[Slot(at, q.cap)][..done] == v[..done]
    case Copying(at, buf) =>
      && at in q.reading && q.reading[at] == t
      && |buf| <= q.width
      && buf == q.tickets[at][..|buf|]
  }

  ghost predicate QueueInv(q: Queue) {
    Counters(q) && Slots(q) && Contents(q) && Fifo(q)
  }

  ghost predicate Inv(s: State) {
    && QueueInv(s.q)
    && Holders(s)
    && forall t :: t in s.ops ==> OpOk(s.q, t, s.ops[t])
  }

  // ------------------------------------------------------------ slots on the ring

  // Within one lap no other position uses the slot of p.
  lemma AloneInLap(lo: int, cap: nat, p: int)
    requires cap > 0 && lo <= p < lo + cap
    ensures forall q: int :: lo <= q < lo + cap && q != p ==> Slot(q, cap) != Slot(p, cap)
  {
    forall q: int | lo <= q < lo + cap && q != p
      ensures Slot(q, cap) != Slot(p, cap)
    {
      if Slot(q, cap) == Slot(p, cap) {
        SameMod(if p <= q then p else q, if p <= q then q else p, cap);
      }
    }
  }

  lemma NextLap(p: int, cap: nat)
    requires cap > 0
    ensures Slot(p + cap, cap) == Slot(p, cap)
  {
    ModShift(p, 1, cap);
  }

  // Some position of the lap uses the slot of p.
  lemma InLap(p: int, lo: int, cap: nat) returns (w: int)
    requires cap > 0
    ensures lo <= w < lo + cap && Slot(w, cap) == Slot(p, cap)
  {
    DivMod(p - lo, cap);
    w := lo + (p - lo) % cap;
    ModShift(w, (p - lo) / cap, cap);
  }

  // ------------------------------------------------------- what a loaded word says

  // The word under the tail: free exactly when the position one lap back has
  // been consumed and given back.
  lemma AtTail(q: Queue)
    requires Counters(q) && Slots(q)
    ensures q.seqno[Slot(q.enq, q.cap)] <= q.enq
    ensures q.seqno[Slot(q.enq, q.cap)] == q.enq <==> q.enq - q.cap < q.deq && q.enq - q.cap !in q.reading
  {
    NextLap(q.enq - q.cap, q.cap);
    assert q.seqno[Slot(q.enq - q.cap, q.cap)] == Expected(q, q.enq - q.cap);
  }

  // The word under the head: ready exactly when the head is reserved and committed.
  lemma AtHead(q: Queue)
    requires Counters(q) && Slots(q)
    ensures q.seqno[Slot(q.deq, q.cap)] <= q.deq + 1
    ensures q.seqno[Slot(q.deq, q.cap)] == q.deq + 1 <==> q.deq < q.enq && q.deq !in q.writing
  {
    if q.deq == q.enq {
      AtTail(q);
    } else {
      assert q.seqno[Slot(q.deq, q.cap)] == Expected(q, q.deq);
    }
  }

  // Once a counter has passed a position, the word under it never looks unused.
  lemma Passed(q: Queue, p: nat)
    requires Counters(q) && Slots(q)
    ensures p < q.enq ==> q.seqno[Slot(p, q.cap)] >= p
    ensures p < q.deq ==> q.seqno[Slot(p, q.cap)] >= p + 1
  {
    if p < q.enq {
      var w := InLap(p, q.enq - q.cap, q.cap);
      if w < p { SameMod(w, p, q.cap); }
      assert q.seqno[Slot(w, q.cap)] == Expected(q, w);
    }
  }

  // ------------------------------------------------------------ preservation

  lemma InitInv(cap: nat, width: nat)
    requires cap >= 2
    ensures Inv(Init(cap, width))
  {
    var q := Init(cap, width).q;
    forall p: int | q.enq - q.cap <= p < q.enq
      ensures q.seqno[Slot(p, q.cap)] == Expected(q, p)
    {
      NextLap(p, cap);
      SmallMod(p + cap, cap);
    }
  }

  // Steps that move one operation that holds no position.
  lemma MoveInv(s: State, t: Op, pc: Pc)
    requires Inv(s) && (t in s.ops ==> Trying(s.ops[t]))
    requires Trying(pc) && OpOk(s.q, t, pc)
    ensures Inv(s.(ops := s.ops[t := pc]))
  {
  }

  lemma LeaveInv(s: State, t: Op)
    requires Inv(s) && t in s.ops && Trying(s.ops[t])
    ensures Inv(s.(ops := s.ops - {t}))
  {
  }

  lemma LoadOk(q: Queue, t: Op, job: Job, pos: nat)
    requires Counters(q) && Slots(q) && OpOk(q, t, Probing(job, pos))
    ensures var seen, want := q.seqno[Slot(pos, q.cap)], Want(job, pos);
            && (seen == want ==> OpOk(q, t, Claiming(job, pos)))
            && (seen > want ==> OpOk(q, t, Behind(job, pos)))
  {
    AtTail(q);
    AtHead(q);
  }

  lemma LoadInv(s: State, t: Op)
    requires Inv(s) && Enabled(s, t, LoadSeq)
    ensures Inv(AfterLoad(s, t))
  {
    var job, pos := s.ops[t].job, s.ops[t].pos;
    assert OpOk(s.q, t, Probing(job, pos));
    LoadOk(s.q, t, job, pos);
    hide Inv, OpOk;
    if s.q.seqno[Slot(pos, s.q.cap)] < Want(job, pos) {
      LeaveInv(s, t);
    } else {
      MoveInv(s, t, AfterLoad(s, t).ops[t]);
    }
  }

  // What a step of operation t leaves alone: the positions other operations
  // hold, and the data under them.  Words only ever grow.
  ghost predicate Keeps(q: Queue, n: Queue, t: Op)
    requires Counters(q) && Counters(n)
  {
    && n.cap == q.cap && n.width == q.width
    && q.enq <= n.enq && q.deq <= n.deq
    && q.tickets <= n.tickets
    && (forall i :: 0 <= i < q.cap ==> q.seqno[i] <= n.seqno[i])
    && (forall p :: p in q.writing && q.writing[p] != t ==>
          p in n.writing && n.writing[p] == q.writing[p] && n.data[Slot(p, q.cap)] == q.data[Slot(p, q.cap)])
    && (forall p :: p in q.reading && q.reading[p] != t ==> p in n.reading && n.reading[p] == q.reading[p])
  }

  lemma OtherOpOk(q: Queue, n: Queue, t: Op, u: Op, pc: Pc)
    requires Counters(q) && Counters(n) && Keeps(q, n, t) && u != t && OpOk(q, u, pc)
    ensures OpOk(n, u, pc)
  {
  }

  ghost predicate HoldersAfter(s: State, n: State, t: Op) {
    && (forall p :: p in n.q.writing ==>
          if n.q.writing[p] == t then t in n.ops && n.ops[t].Filling? && n.ops[t].at == p
          else p in s.q.writing && s.q.writing[p] == n.q.writing[p])
    && (forall p :: p in n.q.reading ==>
          if n.q.reading[p] == t then t in n.ops && n.ops[t].Copying? && n.ops[t].at == p
          else p in s.q.reading && s.q.reading[p] == n.q.reading[p])
  }

  lemma StepInv(s: State, n: State, t: Op)
    requires Inv(s) && QueueInv(n.q) && Keeps(s.q, n.q, t)
    requires n.ops - {t} == s.ops - {t}
    requires HoldersAfter(s, n, t)
    requires t in n.ops ==> OpOk(n.q, t, n.ops[t])
    ensures Inv(n)
  {
    forall u | u in s.ops && u != t
      ensures u in n.ops && n.ops[u] == s.ops[u]
    {
      assert u in s.ops - {t};
      assert (n.ops - {t})[u] == (s.ops - {t})[u];
    }
    forall u | u in n.ops
      ensures OpOk(n.q, u, n.ops[u])
    {
      if u != t {
        assert u in n.ops - {t};
        OtherOpOk(s.q, n.q, t, u, s.ops[u]);
      }
    }
  }

  lemma PutClaimedQueue(q: Queue, v: Value, t: Op)
    requires QueueInv(q) && |v| == q.width
    requires q.seqno[Slot(q.enq, q.cap)] == q.enq
    ensures QueueInv(PutClaimed(q, v, t)) && Keeps(q, PutClaimed(q, v, t), t)
  {
    AtTail(q);
    var n := PutClaimed(q, v, t);
    PutClaimedSlots(q, v, t);
    hide Slots;
    assert Contents(n);
    assert Fifo(n);
  }

  lemma PutClaimedSlots(q: Queue, v: Value, t: Op)
    requires QueueInv(q) && |v| == q.width && q.seqno[Slot(q.enq, q.cap)] == q.enq
    ensures Counters(PutClaimed(q, v, t)) && Slots(PutClaimed(q, v, t))
  {
    AtTail(q);
    NextLap(q.enq - q.cap, q.cap);
    var n := PutClaimed(q, v, t);
    forall p: int | n.enq - n.cap <= p < n.enq
      ensures n.seqno[Slot(p, n.cap)] == Expected(n, p)
    {
      if p < q.enq { assert q.seqno[Slot(p, q.cap)] == Expected(q, p); }
    }
  }

  lemma TakeClaimedQueue(q: Queue, t: Op)
    requires QueueInv(q)
    requires q.seqno[Slot(q.deq, q.cap)] == q.deq + 1
    ensures QueueInv(TakeClaimed(q, t)) && Keeps(q, TakeClaimed(q, t), t)
  {
    AtHead(q);
    var n := TakeClaimed(q, t);
    TakeClaimedSlots(q, t);
    assert Contents(n);
    assert Fifo(n);
  }

  lemma TakeClaimedSlots(q: Queue, t: Op)
    requires Counters(q) && Slots(q) && q.deq < q.enq && q.deq !in q.writing
    ensures Counters(TakeClaimed(q, t)) && Slots(TakeClaimed(q, t))
  {
    var n := TakeClaimed(q, t);
    forall p: int | n.enq - n.cap <= p < n.enq
      ensures n.seqno[Slot(p, n.cap)] == Expected(n, p)
    {
      assert q.seqno[Slot(p, q.cap)] == Expected(q, p);
    }
  }

  lemma CasInv(s: State, t: Op, spurious: bool)
    requires Inv(s) && Enabled(s, t, Cas(spurious))
    ensures Inv(AfterCas(s, t, spurious))
  {
    var pc := s.ops[t];
    assert OpOk(s.q, t, pc);
    if Counter(s.q, pc.job) != pc.pos || spurious {
      MoveInv(s, t, AfterCas(s, t, spurious).ops[t]);
    } else if pc.job.Put? {
      CasPutInv(s, t);
    } else {
      CasTakeInv(s, t);
    }
  }

  lemma CasPutInv(s: State, t: Op)
    requires Inv(s) && t in s.ops && s.ops[t].Claiming? && s.ops[t].job.Put? && s.ops[t].pos == s.q.enq
    ensures Inv(AfterCas(s, t, false))
  {
    assert OpOk(s.q, t, s.ops[t]);
    AtTail(s.q);
    HoldsNothing(s, t);
    PutClaimedQueue(s.q, s.ops[t].job.v, t);
    StepInv(s, AfterCas(s, t, false), t);
  }

  lemma CasTakeInv(s: State, t: Op)
    requires Inv(s) && t in s.ops && s.ops[t].Claiming? && s.ops[t].job.Take? && s.ops[t].pos == s.q.deq
    ensures Inv(AfterCas(s, t, false))
  {
    assert OpOk(s.q, t, s.ops[t]);
    AtHead(s.q);
    HoldsNothing(s, t);
    TakeClaimedQueue(s.q, t);
    StepInv(s, AfterCas(s, t, false), t);
  }

  lemma HoldsNothing(s: State, t: Op)
    requires Inv(s) && t in s.ops && Trying(s.ops[t])
    ensures forall p :: p in s.q.writing ==> s.q.writing[p] != t
    ensures forall p :: p in s.q.reading ==> s.q.reading[p] != t
  {
  }

  // Writing into the slot of a held position touches nothing another operation
  // or the queue relies on.
  lemma FillQueue(q: Queue, at: nat, d: Value)
    requires QueueInv(q) && at in q.writing && |d| == q.width
    ensures QueueInv(q.(data := q.data[Slot(at, q.cap) := d]))
    ensures Keeps(q, q.(data := q.data[Slot(at, q.cap) := d]), q.writing[at])
  {
    AloneInLap(q.enq - q.cap, q.cap, at);
    var n := q.(data := q.data[Slot(at, q.cap) := d]);
    forall p: int | n.enq - n.cap <= p < n.enq
      ensures n.seqno[Slot(p, n.cap)] == Expected(n, p)
    {
      assert q.seqno[Slot(p, q.cap)] == Expected(q, p);
    }
  }

  lemma CopyInv(s: State, t: Op)
    requires Inv(s) && Enabled(s, t, CopyByte)
    ensures Inv(AfterCopy(s, t))
  {
    if s.ops[t].Filling? { FillInv(s, t); } else { ReadInv(s, t); }
  }

  lemma FillInv(s: State, t: Op)
    requires Inv(s) && Enabled(s, t, CopyByte) && s.ops[t].Filling?
    ensures Inv(AfterCopy(s, t))
  {
    var pc := s.ops[t];
    assert OpOk(s.q, t, pc);
    var d := s.q.data[Slot(pc.at, s.q.cap)];
    FillQueue(s.q, pc.at, d[pc.done := pc.v[pc.done]]);
    FillOk(d, pc.v, pc.done);
    StepInv(s, AfterCopy(s, t), t);
  }

  lemma ReadInv(s: State, t: Op)
    requires Inv(s) && Enabled(s, t, CopyByte) && s.ops[t].Copying?
    ensures Inv(AfterCopy(s, t))
  {
    var pc := s.ops[t];
    assert OpOk(s.q, t, pc);
    BufOk(s.q.tickets[pc.at], pc.buf);
    StepInv(s, AfterCopy(s, t), t);
  }

  lemma FillOk(d: Value, v: Value, k: nat)
    requires k < |d| == |v| && d[..k] == v[..k]
    ensures d[k := v[k]][..k + 1] == v[..k + 1]
  {
    assert d[k := v[k]][..k + 1] == d[..k] + [v[k]];
    assert v[..k + 1] == v[..k] + [v[k]];
  }

  lemma BufOk(v: Value, buf: Value)
    requires |buf| < |v| && buf == v[..|buf|]
    ensures buf + [v[|buf|]] == v[..|buf| + 1]
  {
  }

  lemma PutCommittedQueue(q: Queue, at: nat)
    requires QueueInv(q) && at in q.writing && q.data[Slot(at, q.cap)] == q.tickets[at]
    ensures QueueInv(PutCommitted(q, at)) && Keeps(q, PutCommitted(q, at), q.writing[at])
  {
    AloneInLap(q.enq - q.cap, q.cap, at);
    assert q.seqno[Slot(at, q.cap)] == Expected(q, at);
    var n := PutCommitted(q, at);
    forall p: int | n.enq - n.cap <= p < n.enq
      ensures n.seqno[Slot(p, n.cap)] == Expected(n, p)
    {
      assert q.seqno[Slot(p, q.cap)] == Expected(q, p);
    }
  }

  lemma TakeCommittedSlots(q: Queue, at: nat, buf: Value)
    requires Counters(q) && Slots(q) && at in q.reading
    ensures Counters(TakeCommitted(q, at, buf)) && Slots(TakeCommitted(q, at, buf))
    ensures q.seqno[Slot(at, q.cap)] == at + 1
  {
    AloneInLap(q.enq - q.cap, q.cap, at);
    assert q.seqno[Slot(at, q.cap)] == Expected(q, at);
    var n := TakeCommitted(q, at, buf);
    forall p: int | n.enq - n.cap <= p < n.enq
      ensures n.seqno[Slot(p, n.cap)] == Expected(n, p)
    {
      assert q.seqno[Slot(p, q.cap)] == Expected(q, p);
    }
  }

  lemma TakeCommittedQueue(q: Queue, at: nat)
    requires QueueInv(q) && at in q.reading
    ensures QueueInv(TakeCommitted(q, at, q.tickets[at]))
    ensures Keeps(q, TakeCommitted(q, at, q.tickets[at]), q.reading[at])
  {
    TakeCommittedSlots(q, at, q.tickets[at]);
  }

  lemma CommitInv(s: State, t: Op)
    requires Inv(s) && Enabled(s, t, Commit)
    ensures Inv(AfterCommit(s, t))
  {
    if s.ops[t].Filling? { CommitPutInv(s, t); } else { CommitTakeInv(s, t); }
  }

  lemma CommitPutInv(s: State, t: Op)
    requires Inv(s) && Enabled(s, t, Commit) && s.ops[t].Filling?
    ensures Inv(AfterCommit(s, t))
  {
    var pc := s.ops[t];
    assert OpOk(s.q, t, pc);
    var i := Slot(pc.at, s.q.cap);
    assert s.q.data[i][..s.q.width] == s.q.data[i] && pc.v[..s.q.width] == pc.v;
    PutCommittedQueue(s.q, pc.at);
    StepInv(s, AfterCommit(s, t), t);
  }

  lemma CommitTakeInv(s: State, t: Op)
    requires Inv(s) && Enabled(s, t, Commit) && s.ops[t].Copying?
    ensures Inv(AfterCommit(s, t))
  {
    var pc := s.ops[t];
    assert OpOk(s.q, t, pc);
    assert pc.buf == s.q.tickets[pc.at];
    TakeCommittedQueue(s.q, pc.at);
    StepInv(s, AfterCommit(s, t), t);
  }

  lemma NextInv(s: State, t: Op, a: Action)
    requires Inv(s) && Enabled(s, t, a)
    ensures Inv(Next(s, t, a))
  {
    match a
    case Begin(job) => MoveInv(s, t, Probing(job, Counter(s.q, job)));
    case LoadSeq => LoadInv(s, t);
    case Cas(spurious) => CasInv(s, t, spurious);
    case Reload =>
      assert OpOk(s.q, t, s.ops[t]);
      MoveInv(s, t, Next(s, t, a).ops[t]);
    case CopyByte => CopyInv(s, t);
    case Commit => CommitInv(s, t);
  }
}
