// The queue as the program holds it: 64-bit positions and sequence words, a
// bit mask, a signed comparison.  Every method that touches shared words is one
// atomic action and performs exactly one step of the state machine.
module MpmcQueue {
  import opened Arith
  import opened Words
  import opened TicketQueue
  import opened QueueRuns
  import opened SlotLayout

  // What a thread concludes from the sequence word it loaded.
  datatype Decision = Claimable | Refuse | Stale

  function Decide(seen: Word, want: Word): Decision {
    var diff := SignedDiff(seen, want);
    if diff == 0 then Claimable else if diff < 0 then Refuse else Stale
  }

  // ------------------------------------------- the words decide as the counters

  lemma SeenRange(q: Queue, job: Job, pos: nat)
    requires Counters(q) && Slots(q) && pos <= Counter(q, job)
    ensures -(q.cap as int) <= q.seqno[Slot(pos, q.cap)] - Want(job, pos) <= Counter(q, job) - pos + q.cap
  {
    Passed(q, pos);
    var w := InLap(pos, q.enq - q.cap, q.cap);
    assert q.seqno[Slot(w, q.cap)] == Expected(q, w);
  }

  // Fewer reservations than half the word range, less one lap, separate the
  // position from its counter.
  ghost predicate Recent(q: Queue, job: Job, pos: nat) {
    pos <= Counter(q, job) && Counter(q, job) - pos + q.cap < HALF
  }

  lemma SameDecision(q: Queue, job: Job, pos: nat)
    requires Counters(q) && Slots(q) && Recent(q, job, pos)
    ensures var seen, want := q.seqno[Slot(pos, q.cap)], Want(job, pos);
            Decide(Wrap(seen), Wrap(want)) ==
            if seen == want then Claimable else if seen < want then Refuse else Stale
  {
    SeenRange(q, job, pos);
    SignedDiffExact(q.seqno[Slot(pos, q.cap)], Want(job, pos));
  }

  // The branch taken on the words is the step of the machine.
  lemma BranchTaken(s: State, t: Op)
    requires Inv(s) && t in s.ops && s.ops[t].Probing? && Recent(s.q, s.ops[t].job, s.ops[t].pos)
    ensures var pc, n := s.ops[t], AfterLoad(s, t);
            var d := Decide(Wrap(s.q.seqno[Slot(pc.pos, s.q.cap)]), Wrap(Want(pc.job, pc.pos)));
            && n.q == s.q
            && (d.Claimable? <==> t in n.ops && n.ops[t].Claiming?)
            && (d.Refuse? <==> t !in n.ops)
            && (d.Stale? <==> t in n.ops && n.ops[t].Behind?)
  {
    SameDecision(s.q, s.ops[t].job, s.ops[t].pos);
    hide Decide;
  }

  ghost predicate Mirrors(words: seq<Word>, counters: seq<nat>) {
    |words| == |counters| && forall i :: 0 <= i < |words| ==> words[i] == Wrap(counters[i])
  }

  // Others took these steps, none of them by t.
  ghost predicate OthersOnly(run: seq<Step>, t: Op) {
    forall i :: 0 <= i < |run| ==> run[i].t != t
  }

  lemma {:induction false} OthersKeep(s: State, run: seq<Step>, t: Op)
    requires Inv(s) && Legal(s, run) && OthersOnly(run, t)
    ensures t in After(s, run).ops <==> t in s.ops
    ensures t in s.ops ==> After(s, run).ops[t] == s.ops[t]
    ensures s.q.enq <= After(s, run).q.enq && s.q.deq <= After(s, run).q.deq
    decreases run
  {
    if run == [] {
    } else {
      NextInv(s, run[0].t, run[0].a);
      assert OthersOnly(run[1..], t) by { assert forall i :: 0 <= i < |run| - 1 ==> run[1..][i] == run[i + 1]; }
      OthersKeep(Next(s, run[0].t, run[0].a), run[1..], t);
      OtherStep(s, run[0].t, run[0].a, t);
    }
  }

  lemma OtherStep(s: State, u: Op, a: Action, t: Op)
    requires Enabled(s, u, a) && u != t
    ensures t in Next(s, u, a).ops <==> t in s.ops
    ensures t in s.ops ==> Next(s, u, a).ops[t] == s.ops[t]
    ensures s.q.enq <= Next(s, u, a).q.enq && s.q.deq <= Next(s, u, a).q.deq
  {
  }

  lemma Interleaved(start: State, run: seq<Step>, more: seq<Step>, t: Op)
    requires Legal(start, run) && Inv(After(start, run))
    requires Legal(After(start, run), more) && OthersOnly(more, t)
    ensures Legal(start, run + more) && After(start, run + more) == After(After(start, run), more)
    ensures Shape(After(start, run + more).q)
    ensures After(start, run + more).q.cap == After(start, run).q.cap
    ensures After(start, run + more).q.width == After(start, run).q.width
    ensures t in After(start, run + more).ops <==> t in After(start, run).ops
    ensures t in After(start, run).ops ==> After(start, run + more).ops[t] == After(start, run).ops[t]
    ensures forall job :: Counter(After(start, run).q, job) <= Counter(After(start, run + more).q, job)
  {
    LegalConcat(start, run, more);
    RunInv(After(start, run), more);
    OthersKeep(After(start, run), more, t);
    ShapeAfter(After(start, run), more);
  }

  // How far a counter may move while one thread is between two of its own
  // actions: 2^62 - 2^57.  Two such gaps lie between a thread's load and its
  // exchange, and with the longest lap they stay below half the word range.
  const GAP: nat := 0x3E00_0000_0000_0000

  datatype Outcome = Reserved(slot: nat, pos: Word) | Refused | Unfinished

  // The value was reserved under position p and is committed.
  ghost predicate Committed(q: Queue, p: nat, v: Value) {
    p < |q.tickets| && q.tickets[p] == v && p !in q.writing
  }

  // Position p was handed out, with the value reserved under it.
  ghost predicate Delivered(q: Queue, p: nat, v: Value) {
    && p < |q.tickets| && q.tickets[p] == v
    && p in q.delivered && q.delivered[p] == v && p !in q.reading
  }

  // How often t takes the action during the run.
  function Times(run: seq<Step>, t: Op, a: Action): nat {
    multiset(run)[Step(t, a)]
  }

  function Commits(run: seq<Step>, t: Op): nat {
    Times(run, t, Commit)
  }

  // Exchanges of t that failed for no reason.
  function SpuriousBy(run: seq<Step>, t: Op): nat {
    Times(run, t, Cas(true))
  }

  lemma CountsConcat(run: seq<Step>, more: seq<Step>, t: Op)
    ensures Commits(run + more, t) == Commits(run, t) + Commits(more, t)
    ensures SpuriousBy(run + more, t) == SpuriousBy(run, t) + SpuriousBy(more, t)
  {
  }

  // Others ran, and then t took one action.
  lemma OneAction(run: seq<Step>, t: Op, a: Action)
    requires OthersOnly(run, t)
    ensures Commits(run + [Step(t, a)], t) == if a.Commit? then 1 else 0
    ensures SpuriousBy(run + [Step(t, a)], t) == if a == Cas(true) then 1 else 0
  {
    assert Step(t, Commit) !in run && Step(t, Cas(true)) !in run;
  }

  // During the run t commits the reservation it holds as pc.
  ghost predicate Finishes(start: State, run: seq<Step>, t: Op, pc: Pc) {
    exists i :: 0 <= i < |run| && FinishesAt(start, run, i, t, pc)
  }

  ghost predicate FinishesAt(start: State, run: seq<Step>, i: nat, t: Op, pc: Pc)
    requires i < |run|
  {
    && run[i] == Step(t, Commit) && Legal(start, run[..i])
    && t in After(start, run[..i]).ops && After(start, run[..i]).ops[t] == pc
  }

  lemma FinishesNow(start: State, run: seq<Step>, t: Op, pc: Pc)
    requires Legal(start, run) && t in After(start, run).ops && After(start, run).ops[t] == pc
    ensures Finishes(start, run + [Step(t, Commit)], t, pc)
  {
    assert (run + [Step(t, Commit)])[..|run|] == run;
    assert FinishesAt(start, run + [Step(t, Commit)], |run|, t, pc);
  }

  lemma FinishesLater(start: State, run: seq<Step>, more: seq<Step>, t: Op, pc: Pc)
    requires Legal(start, run) && Finishes(After(start, run), more, t, pc)
    ensures Finishes(start, run + more, t, pc)
  {
    hide Legal, After;
    var i :| 0 <= i < |more| && FinishesAt(After(start, run), more, i, t, pc);
    LegalConcat(start, run, more[..i]);
    assert (run + more)[..|run| + i] == run + more[..i];
    assert FinishesAt(start, run + more, |run| + i, t, pc);
  }

  lemma StaleMeans(s: State, t: Op)
    requires Inv(s)
    ensures t in s.ops && s.ops[t].Behind? ==> s.ops[t].pos < Counter(s.q, s.ops[t].job)
  {
    if t in s.ops { assert OpOk(s.q, t, s.ops[t]); }
  }

  lemma NotYetDelivered(q: Queue)
    requires QueueInv(q)
    ensures forall p :: p in q.delivered ==> p < q.deq
  {
  }

  lemma InvShape(s: State)
    requires Inv(s)
    ensures Shape(s.q)
  {
  }

  lemma {:induction false} ShapeAfter(s: State, run: seq<Step>)
    requires Legal(s, run) && Shape(s.q)
    ensures var n := After(s, run); n.q.cap == s.q.cap && n.q.width == s.q.width && Shape(n.q)
    decreases run
  {
    if run != [] {
      ShapeAfter(Next(s, run[0].t, run[0].a), run[1..]);
    }
  }

  lemma CommitEffect(s: State, t: Op)
    requires Inv(s) && Enabled(s, t, Commit)
    ensures s.ops[t].Filling? ==> Committed(AfterCommit(s, t).q, s.ops[t].at, s.ops[t].v)
    ensures s.ops[t].Copying? ==> Delivered(AfterCommit(s, t).q, s.ops[t].at, s.ops[t].buf)
  {
    assert OpOk(s.q, t, s.ops[t]);
  }

  // The slot and the wanted number, as the words give them.
  lemma WordsUsed(s: State, t: Op, pos: Word, mask: Word)
    requires Inv(s) && t in s.ops && s.ops[t].Probing? && pos == Wrap(s.ops[t].pos)
    requires s.q.cap == mask + 1 < WORD && IsPow2(s.q.cap)
    ensures And(pos, mask) == Slot(s.ops[t].pos, s.q.cap) < |s.q.seqno|
    ensures (if s.ops[t].job.Put? then pos else Wrap(pos + 1)) == Wrap(Want(s.ops[t].job, s.ops[t].pos))
  {
    assert Shape(s.q);
    hide Inv;
    MaskedSlot(s.ops[t].pos, s.q.cap);
    WrapAdd(s.ops[t].pos, 1);
  }

  class RingQueue {
    const slotMask: Word
    const width: nat
    const slotSeq: array<Word>
    const slotData: array<Value>
    var enqueuePos: Word
    var dequeuePos: Word
    ghost var spec: State

    ghost predicate WordsMatch()
      reads this, slotSeq, slotData
    {
      && spec.q.cap == slotMask + 1 && spec.q.width == width
      && IsPow2(spec.q.cap) && spec.q.cap * CACHE_LINE_SIZE < WORD
      && Mirrors(slotSeq[..], spec.q.seqno)
      && slotData[..] == spec.q.data
      && enqueuePos == Wrap(spec.q.enq)
      && dequeuePos == Wrap(spec.q.deq)
    }

    ghost predicate Valid()
      reads this, slotSeq, slotData
    {
      WordsMatch() && Inv(spec)
    }

    constructor (cap: Word, width: nat)
      requires cap > 0 && IsPow2(cap) && cap * CACHE_LINE_SIZE < WORD
      ensures WordsMatch() && spec == Init(cap, width)
      ensures fresh(slotSeq) && fresh(slotData)
    {
      slotMask := cap - 1;
      this.width := width;
      slotSeq := new Word[cap](i => Wrap(i));
      slotData := new Value[cap](_ => seq(width, _ => 0));
      enqueuePos, dequeuePos := 0, 0;
      spec := Init(cap, width);
      new;
      assert slotData[..] == spec.q.data;
    }

    // atomic_load of the position counter: the first one of an operation.
    method LoadPosition(t: Op, put: bool, ghost job: Job) returns (pos: Word)
      requires Valid() && Enabled(spec, t, Begin(job)) && put == job.Put?
      modifies this`spec
      ensures Valid() && spec == Next(old(spec), t, Begin(job))
      ensures pos == Wrap(spec.ops[t].pos)
    {
      NextInv(spec, t, Begin(job));
      pos := if put then enqueuePos else dequeuePos;
      spec := Next(spec, t, Begin(job));
    }

    method ReloadPosition(t: Op, put: bool) returns (pos: Word)
      requires Valid() && Enabled(spec, t, Reload) && put == spec.ops[t].job.Put?
      modifies this`spec
      ensures Valid() && spec == Next(old(spec), t, Reload)
      ensures pos == Wrap(spec.ops[t].pos)
    {
      NextInv(spec, t, Reload);
      pos := if put then enqueuePos else dequeuePos;
      spec := Next(spec, t, Reload);
    }

    // atomic_load of the slot's sequence word, and the branch taken on it.
    method LoadSequence(t: Op, put: bool, pos: Word) returns (slot: nat, d: Decision)
      requires Valid() && Enabled(spec, t, LoadSeq) && put == spec.ops[t].job.Put?
      requires pos == Wrap(spec.ops[t].pos) && Recent(spec.q, spec.ops[t].job, spec.ops[t].pos)
      modifies this`spec
      ensures Valid() && spec == Next(old(spec), t, LoadSeq)
      ensures slot == Slot(old(spec).ops[t].pos, spec.q.cap)
      ensures d.Claimable? <==> t in spec.ops && spec.ops[t].Claiming?
      ensures d.Refuse? <==> t !in spec.ops
      ensures d.Stale? <==> t in spec.ops && spec.ops[t].Behind?
    {
      NextInv(spec, t, LoadSeq);
      WordsUsed(spec, t, pos, slotMask);
      BranchTaken(spec, t);
      hide Inv, Recent, AfterLoad, Decide, Slot, And, IsPow2, Wrap, Want;
      slot := And(pos, slotMask);
      var seen := slotSeq[slot];
      assert slotSeq[..][slot] == Wrap(spec.q.seqno[slot]);
      d := Decide(seen, if put then pos else Wrap(pos + 1));
      spec := Next(spec, t, LoadSeq);
    }

    // The weak compare-exchange.  On failure `now` is the value found.
    method CompareExchange(t: Op, put: bool, expected: Word, spurious: bool) returns (ok: bool, now: Word)
      requires Valid() && Enabled(spec, t, Cas(spurious)) && put == spec.ops[t].job.Put?
      requires expected == Wrap(spec.ops[t].pos) && Recent(spec.q, spec.ops[t].job, spec.ops[t].pos)
      modifies this
      ensures Valid() && spec == Next(old(spec), t, Cas(spurious))
      ensures ok <==> Holds(spec.ops[t])
      ensures !ok ==> spec.ops[t].Probing? && now == Wrap(spec.ops[t].pos)
    {
      hide Inv;
      ghost var pc, c := spec.ops[t], Counter(spec.q, spec.ops[t].job);
      NextInv(spec, t, Cas(spurious));
      WrapEqual(c, pc.pos);
      WrapAdd(c, 1);
      now := if put then enqueuePos else dequeuePos;
      ok := now == expected && !spurious;
      if ok && put { enqueuePos := Wrap(expected + 1); }
      if ok && !put { dequeuePos := Wrap(expected + 1); }
      spec := Next(spec, t, Cas(spurious));
    }

    // One byte of the copy into or out of a held slot.
    method WriteByte(t: Op, slot: nat, k: nat, b: Byte)
      requires Valid() && Enabled(spec, t, CopyByte) && spec.ops[t].Filling?
      requires slot == Slot(spec.ops[t].at, spec.q.cap) && k == spec.ops[t].done && b == spec.ops[t].v[k]
      modifies this`spec, slotData
      ensures Valid() && spec == Next(old(spec), t, CopyByte)
    {
      NextInv(spec, t, CopyByte);
      slotData[slot] := slotData[slot][k := b];
      spec := Next(spec, t, CopyByte);
    }

    method ReadByte(t: Op, slot: nat, k: nat) returns (b: Byte)
      requires Valid() && Enabled(spec, t, CopyByte) && spec.ops[t].Copying?
      requires slot == Slot(spec.ops[t].at, spec.q.cap) && k == |spec.ops[t].buf|
      modifies this`spec
      ensures Valid() && spec == Next(old(spec), t, CopyByte)
      ensures spec.ops[t].buf == old(spec).ops[t].buf + [b]
    {
      NextInv(spec, t, CopyByte);
      b := slotData[slot][k];
      spec := Next(spec, t, CopyByte);
    }

    // commit_enqueue_mpmc and commit_dequeue_mpmc: one release store.
    method StoreSequence(t: Op, put: bool, slot: nat, pos: Word)
      requires Valid() && Enabled(spec, t, Commit) && put == spec.ops[t].Filling?
      requires slot == Slot(spec.ops[t].at, spec.q.cap) && pos == Wrap(spec.ops[t].at)
      modifies this`spec, slotSeq
      ensures Valid() && spec == Next(old(spec), t, Commit)
    {
      hide Inv;
      NextInv(spec, t, Commit);
      WrapAdd(spec.ops[t].at, 1);
      WrapAdd(spec.ops[t].at, spec.q.cap);
      slotSeq[slot] := if put then Wrap(pos + 1) else Wrap(pos + slotMask + 1);
      spec := Next(spec, t, Commit);
    }

    // Everything the other threads do between two actions of t.
    method Others(ghost t: Op) returns (ghost run: seq<Step>)
      requires Valid()
      modifies this, slotSeq, slotData
      ensures Valid() && Legal(old(spec), run) && spec == After(old(spec), run)
      ensures OthersOnly(run, t)
      ensures spec.q.enq <= old(spec).q.enq + GAP && spec.q.deq <= old(spec).q.deq + GAP
    {
      run := [];
    }

    // Each of a thread's actions may find that others have run since its last.

    method Probe(t: Op, put: bool, pos: Word) returns (slot: nat, d: Decision, ghost run: seq<Step>)
      requires Valid() && t in spec.ops && spec.ops[t].Probing? && put == spec.ops[t].job.Put?
      requires pos == Wrap(spec.ops[t].pos) && spec.ops[t].pos == Counter(spec.q, spec.ops[t].job)
      modifies this, slotSeq, slotData
      ensures Valid() && Legal(old(spec), run) && spec == After(old(spec), run) && Commits(run, t) == 0
      ensures SpuriousBy(run, t) == 0
      ensures d.Refuse? <==> t !in spec.ops
      ensures d.Refuse? ==> Blocked(spec.q, put)
      ensures !d.Refuse? ==>
                && var was, pc := old(spec).ops[t], spec.ops[t];
                && pc == (if d.Claimable? then Claiming(was.job, was.pos) else Behind(was.job, was.pos))
                && was.pos <= Counter(spec.q, was.job) <= was.pos + GAP
                && (d.Stale? ==> was.pos < Counter(spec.q, was.job))
                && slot == Slot(was.pos, spec.q.cap)
    {
      hide Inv, Commits, SpuriousBy;
      ghost var start := spec;
      ghost var more := Others(t);
      Interleaved(start, [], more, t);
      ghost var probed := spec;
      LegalSnoc(start, more, t, LoadSeq);
      RefusedIff(probed, t);
      slot, d := LoadSequence(t, put, pos);
      StaleMeans(spec, t);
      OneAction(more, t, LoadSeq);
      run := more + [Step(t, LoadSeq)];
    }

    method Claim(t: Op, put: bool, pos: Word, spurious: bool) returns (ok: bool, now: Word, ghost run: seq<Step>)
      requires Valid() && t in spec.ops && spec.ops[t].Claiming? && put == spec.ops[t].job.Put?
      requires pos == Wrap(spec.ops[t].pos)
      requires spec.ops[t].pos <= Counter(spec.q, spec.ops[t].job) <= spec.ops[t].pos + GAP
      modifies this, slotSeq, slotData
      ensures Valid() && Legal(old(spec), run) && spec == After(old(spec), run) && Commits(run, t) == 0
      ensures SpuriousBy(run, t) == if spurious then 1 else 0
      ensures t in spec.ops
      ensures var was := old(spec).ops[t];
              if ok then spec.ops[t] == (if put then Filling(was.job.v, was.pos, 0) else Copying(was.pos, []))
              else
                && spec.ops[t] == Probing(was.job, Counter(spec.q, was.job)) && now == Wrap(spec.ops[t].pos)
                && was.pos <= spec.ops[t].pos && (!spurious ==> was.pos < spec.ops[t].pos)
    {
      hide Inv, Commits, SpuriousBy;
      ghost var start := spec;
      ghost var more := Others(t);
      Interleaved(start, [], more, t);
      LegalSnoc(start, more, t, Cas(spurious));
      ok, now := CompareExchange(t, put, pos, spurious);
      OneAction(more, t, Cas(spurious));
      run := more + [Step(t, Cas(spurious))];
    }

    method Refresh(t: Op, put: bool) returns (pos: Word, ghost run: seq<Step>)
      requires Valid() && t in spec.ops && spec.ops[t].Behind? && put == spec.ops[t].job.Put?
      requires spec.ops[t].pos < Counter(spec.q, spec.ops[t].job)
      modifies this, slotSeq, slotData
      ensures Valid() && Legal(old(spec), run) && spec == After(old(spec), run) && Commits(run, t) == 0
      ensures SpuriousBy(run, t) == 0
      ensures t in spec.ops && spec.ops[t] == Probing(old(spec).ops[t].job, Counter(spec.q, old(spec).ops[t].job))
      ensures pos == Wrap(spec.ops[t].pos) && old(spec).ops[t].pos < spec.ops[t].pos
    {
      hide Inv, Commits, SpuriousBy;
      ghost var start := spec;
      ghost var more := Others(t);
      Interleaved(start, [], more, t);
      LegalSnoc(start, more, t, Reload);
      pos := ReloadPosition(t, put);
      OneAction(more, t, Reload);
      run := more + [Step(t, Reload)];
    }

    // The retry loop of reserve_enqueue_slot_internal (put) and
    // reserve_dequeue_slot_internal, cut off after `rounds` rounds: each of them then
    // was a spurious failure or lost to another reservation.
    method Reserve(t: Op, put: bool, ghost job: Job, rounds: nat) returns (r: Outcome, ghost run: seq<Step>)
      requires Valid() && Enabled(spec, t, Begin(job)) && put == job.Put?
      modifies this, slotSeq, slotData
      ensures Valid() && Legal(old(spec), run) && spec == After(old(spec), run) && Commits(run, t) == 0
      ensures r.Reserved? ==>
                && t in spec.ops && Holds(spec.ops[t])
                && spec.ops[t] == (if put then Filling(job.v, spec.ops[t].at, 0) else Copying(spec.ops[t].at, []))
                && r.slot == Slot(spec.ops[t].at, spec.q.cap) && r.pos == Wrap(spec.ops[t].at)
                && Counter(old(spec).q, job) <= spec.ops[t].at
      ensures r.Refused? ==> t !in spec.ops && Blocked(spec.q, put)
      ensures r.Unfinished? ==>
                && t in spec.ops && Trying(spec.ops[t])
                && rounds <= SpuriousBy(run, t) + (Counter(spec.q, job) - Counter(old(spec).q, job))
    {
      hide Inv, Commits, SpuriousBy;
      ghost var start := spec;
      ghost var more: seq<Step>;
      var pos := LoadPosition(t, put, job);
      run := [Step(t, Begin(job))];
      LegalSnoc(start, [], t, Begin(job));
      OneAction([], t, Begin(job));
      assert [] + [Step(t, Begin(job))] == run;
      var left := rounds;
      while left > 0
        invariant Valid() && Legal(start, run) && spec == After(start, run) && Commits(run, t) == 0
        invariant t in spec.ops && spec.ops[t] == Probing(job, Counter(spec.q, job))
        invariant pos == Wrap(spec.ops[t].pos) && Counter(start.q, job) <= spec.ops[t].pos
        invariant rounds - left <= SpuriousBy(run, t) + (spec.ops[t].pos - Counter(start.q, job))
      {
        left := left - 1;
        var slot, d;
        slot, d, more := Probe(t, put, pos);
        LegalConcat(start, run, more);
        CountsConcat(run, more, t);
        run := run + more;
        if d.Claimable? {
          var spurious: bool := *;
          var ok, now;
          ok, now, more := Claim(t, put, pos, spurious);
          LegalConcat(start, run, more);
          CountsConcat(run, more, t);
          run := run + more;
          if ok { return Reserved(slot, pos), run; }
          pos := now;
        } else if d.Refuse? {
          return Refused, run;
        } else {
          pos, more := Refresh(t, put);
          LegalConcat(start, run, more);
          CountsConcat(run, more, t);
          run := run + more;
        }
      }
      r := Unfinished;
    }

    method FillByte(t: Op, slot: nat, k: nat, b: Byte) returns (ghost run: seq<Step>)
      requires Valid() && t in spec.ops && spec.ops[t].Filling? && spec.ops[t].done == k < spec.q.width
      requires |spec.ops[t].v| == spec.q.width && b == spec.ops[t].v[k]
      requires slot == Slot(spec.ops[t].at, spec.q.cap)
      modifies this, slotSeq, slotData
      ensures Valid() && Legal(old(spec), run) && spec == After(old(spec), run) && Commits(run, t) == 0
      ensures spec.q.cap == old(spec).q.cap && spec.q.width == old(spec).q.width
      ensures t in spec.ops && spec.ops[t] == Filling(old(spec).ops[t].v, old(spec).ops[t].at, k + 1)
    {
      hide Inv, Commits, SpuriousBy;
      ghost var start := spec;
      run := Others(t);
      Interleaved(start, [], run, t);
      LegalSnoc(start, run, t, CopyByte);
      WriteByte(t, slot, k, b);
      OneAction(run, t, CopyByte);
      run := run + [Step(t, CopyByte)];
    }

    method CopyOutByte(t: Op, slot: nat, k: nat) returns (b: Byte, ghost run: seq<Step>)
      requires Valid() && t in spec.ops && spec.ops[t].Copying? && |spec.ops[t].buf| == k < spec.q.width
      requires slot == Slot(spec.ops[t].at, spec.q.cap)
      modifies this, slotSeq, slotData
      ensures Valid() && Legal(old(spec), run) && spec == After(old(spec), run) && Commits(run, t) == 0
      ensures spec.q.cap == old(spec).q.cap && spec.q.width == old(spec).q.width
      ensures t in spec.ops && spec.ops[t] == Copying(old(spec).ops[t].at, old(spec).ops[t].buf + [b])
    {
      hide Inv, Commits, SpuriousBy;
      ghost var start := spec;
      run := Others(t);
      Interleaved(start, [], run, t);
      LegalSnoc(start, run, t, CopyByte);
      b := ReadByte(t, slot, k);
      OneAction(run, t, CopyByte);
      run := run + [Step(t, CopyByte)];
    }

    method Release(t: Op, put: bool, slot: nat, pos: Word) returns (ghost run: seq<Step>)
      requires Valid() && Enabled(spec, t, Commit) && put == spec.ops[t].Filling?
      requires slot == Slot(spec.ops[t].at, spec.q.cap) && pos == Wrap(spec.ops[t].at)
      modifies this, slotSeq, slotData
      ensures Valid() && Legal(old(spec), run) && spec == After(old(spec), run) && Commits(run, t) == 1
      ensures t !in spec.ops
      ensures put ==> Committed(spec.q, old(spec).ops[t].at, old(spec).ops[t].v)
      ensures !put ==> Delivered(spec.q, old(spec).ops[t].at, old(spec).ops[t].buf)
      ensures Finishes(old(spec), run, t, old(spec).ops[t])
    {
      hide Inv, Commits, SpuriousBy;
      ghost var start := spec;
      run := Others(t);
      Interleaved(start, [], run, t);
      CommitEffect(spec, t);
      LegalSnoc(start, run, t, Commit);
      FinishesNow(start, run, t, spec.ops[t]);
      StoreSequence(t, put, slot, pos);
      OneAction(run, t, Commit);
      run := run + [Step(t, Commit)];
    }

    // The memcpy of enqueue_mpmc.
    method FillSlot(t: Op, slot: nat, value: Value) returns (ghost run: seq<Step>)
      requires Valid() && |value| == spec.q.width
      requires t in spec.ops && spec.ops[t].Filling? && spec.ops[t].v == value && spec.ops[t].done == 0
      requires slot == Slot(spec.ops[t].at, spec.q.cap)
      modifies this, slotSeq, slotData
      ensures Valid() && Legal(old(spec), run) && spec == After(old(spec), run) && Commits(run, t) == 0
      ensures spec.q.cap == old(spec).q.cap && spec.q.width == old(spec).q.width
      ensures t in spec.ops && spec.ops[t] == Filling(value, old(spec).ops[t].at, |value|)
    {
      hide Inv;
      ghost var start, at := spec, spec.ops[t].at;
      run := [];
      for k := 0 to |value|
        invariant Valid() && Legal(start, run) && spec == After(start, run) && Commits(run, t) == 0
        invariant spec.q.cap == start.q.cap && spec.q.width == start.q.width
        invariant t in spec.ops && spec.ops[t] == Filling(value, at, k)
      {
        ghost var more := FillByte(t, slot, k, value[k]);
        LegalConcat(start, run, more);
        CountsConcat(run, more, t);
        run := run + more;
      }
    }

    // The memcpy of dequeue_mpmc.
    method CopySlot(t: Op, slot: nat, width: nat) returns (value: Value, ghost run: seq<Step>)
      requires Valid() && width == spec.q.width
      requires t in spec.ops && spec.ops[t].Copying? && spec.ops[t].buf == []
      requires slot == Slot(spec.ops[t].at, spec.q.cap)
      modifies this, slotSeq, slotData
      ensures Valid() && Legal(old(spec), run) && spec == After(old(spec), run) && Commits(run, t) == 0
      ensures spec.q.cap == old(spec).q.cap && spec.q.width == old(spec).q.width
      ensures t in spec.ops && spec.ops[t] == Copying(old(spec).ops[t].at, value) && |value| == width
    {
      hide Inv;
      ghost var start, at := spec, spec.ops[t].at;
      run, value := [], [];
      for k := 0 to width
        invariant Valid() && Legal(start, run) && spec == After(start, run) && Commits(run, t) == 0
        invariant spec.q.cap == start.q.cap && spec.q.width == start.q.width
        invariant |value| == k && t in spec.ops && spec.ops[t] == Copying(at, value)
      {
        var b, more := CopyOutByte(t, slot, k);
        LegalConcat(start, run, more);
        CountsConcat(run, more, t);
        run := run + more;
        value := value + [b];
      }
    }

    method Deposit(t: Op, slot: nat, pos: Word, value: Value) returns (ghost run: seq<Step>)
      requires Valid() && |value| == width
      requires t in spec.ops && spec.ops[t].Filling? && spec.ops[t].v == value && spec.ops[t].done == 0
      requires slot == Slot(spec.ops[t].at, spec.q.cap) && pos == Wrap(spec.ops[t].at)
      modifies this, slotSeq, slotData
      ensures Valid() && Legal(old(spec), run) && spec == After(old(spec), run) && Commits(run, t) == 1
      ensures t !in spec.ops && Committed(spec.q, old(spec).ops[t].at, value)
      ensures Finishes(old(spec), run, t, Filling(value, old(spec).ops[t].at, |value|))
    {
      hide Inv, Legal, After, Committed, Delivered, Blocked, Finishes, Commits, SpuriousBy;
      ghost var start := spec;
      run := FillSlot(t, slot, value);
      InvShape(spec);
      ghost var pc := spec.ops[t];
      ghost var more := Release(t, true, slot, pos);
      LegalConcat(start, run, more);
      CountsConcat(run, more, t);
      FinishesLater(start, run, more, t, pc);
      run := run + more;
    }

    method Withdraw(t: Op, slot: nat, pos: Word) returns (value: Value, ghost run: seq<Step>)
      requires Valid() && t in spec.ops && spec.ops[t].Copying? && spec.ops[t].buf == []
      requires slot == Slot(spec.ops[t].at, spec.q.cap) && pos == Wrap(spec.ops[t].at)
      modifies this, slotSeq, slotData
      ensures Valid() && Legal(old(spec), run) && spec == After(old(spec), run) && Commits(run, t) == 1
      ensures t !in spec.ops && Delivered(spec.q, old(spec).ops[t].at, value)
      ensures Finishes(old(spec), run, t, Copying(old(spec).ops[t].at, value))
    {
      hide Inv, Legal, After, Committed, Delivered, Blocked, Finishes, Commits, SpuriousBy;
      ghost var start := spec;
      value, run := CopySlot(t, slot, width);
      InvShape(spec);
      ghost var pc := spec.ops[t];
      ghost var more := Release(t, false, slot, pos);
      LegalConcat(start, run, more);
      CountsConcat(run, more, t);
      FinishesLater(start, run, more, t, pc);
      run := run + more;
    }

    // enqueue_mpmc: reserve, copy the value in, commit.  The position is new, and it
    // is t's own commit that commits it.
    method Enqueue(t: Op, value: Value, rounds: nat) returns (r: Outcome, ghost p: nat, ghost run: seq<Step>)
      requires Valid() && t !in spec.ops && |value| == width
      modifies this, slotSeq, slotData
      ensures Valid() && Legal(old(spec), run) && spec == After(old(spec), run)
      ensures Commits(run, t) == (if r.Reserved? then 1 else 0)
      ensures r.Reserved? ==>
                && t !in spec.ops && Committed(spec.q, p, value)
                && old(spec).q.enq <= p && Finishes(old(spec), run, t, Filling(value, p, |value|))
      ensures r.Refused? ==> t !in spec.ops && Blocked(spec.q, true)
      ensures r.Unfinished? ==>
                && t in spec.ops && Trying(spec.ops[t])
                && rounds <= SpuriousBy(run, t) + (spec.q.enq - old(spec).q.enq)
    {
      InvShape(spec);
      hide Inv, Legal, After, Committed, Delivered, Blocked, Finishes, Commits, SpuriousBy;
      ghost var start := spec;
      r, run := Reserve(t, true, Put(value), rounds);
      p := 0;
      if r.Reserved? {
        p := spec.ops[t].at;
        ghost var more := Deposit(t, r.slot, r.pos, value);
        LegalConcat(start, run, more);
        CountsConcat(run, more, t);
        FinishesLater(start, run, more, t, Filling(value, p, |value|));
        run := run + more;
      }
    }

    // dequeue_mpmc: reserve, copy the value out, give the slot back.  The position
    // was not delivered before, and it is t's own commit that delivers it.
    method Dequeue(t: Op, rounds: nat) returns (r: Outcome, value: Value, ghost p: nat, ghost run: seq<Step>)
      requires Valid() && t !in spec.ops
      modifies this, slotSeq, slotData
      ensures Valid() && Legal(old(spec), run) && spec == After(old(spec), run)
      ensures Commits(run, t) == (if r.Reserved? then 1 else 0)
      ensures r.Reserved? ==>
                && t !in spec.ops && Delivered(spec.q, p, value)
                && old(spec).q.deq <= p && p !in old(spec).q.delivered
                && Finishes(old(spec), run, t, Copying(p, value))
      ensures r.Refused? ==> t !in spec.ops && Blocked(spec.q, false)
      ensures r.Unfinished? ==>
                && t in spec.ops && Trying(spec.ops[t])
                && rounds <= SpuriousBy(run, t) + (spec.q.deq - old(spec).q.deq)
    {
      InvShape(spec);
      NotYetDelivered(spec.q);
      hide Inv, Legal, After, Committed, Delivered, Blocked, Finishes, Commits, SpuriousBy;
      ghost var start := spec;
      r, run := Reserve(t, false, Take, rounds);
      p, value := 0, [];
      if r.Reserved? {
        p := spec.ops[t].at;
        ghost var more: seq<Step>;
        value, more := Withdraw(t, r.slot, r.pos);
        LegalConcat(start, run, more);
        CountsConcat(run, more, t);
        FinishesLater(start, run, more, t, Copying(p, value));
        run := run + more;
      }
    }
  }

  // create_mpmc_queue, given whether its allocations succeed.  It accepts one slot
  // too, for which the queue's invariant never holds.
  method Create(cap: Word, dataSize: Word, memory: bool) returns (q: RingQueue?)
    requires Fits(cap, dataSize)
    ensures q != null <==> IsPow2(cap) && memory
    ensures q != null ==> fresh(q) && q.WordsMatch() && q.spec == Init(cap, if dataSize == 0 then 8 else dataSize)
    ensures q != null ==> q.width == if dataSize == 0 then 8 else dataSize
    ensures q != null ==> (q.Valid() <==> cap >= 2)
  {
    if cap == 0 || And(cap, cap - 1) != 0 {
      if cap != 0 { PowerOfTwoTest(cap); }
      return null;
    }
    PowerOfTwoTest(cap);
    if !memory { return null; }
    CapacityBound(cap, dataSize);
    q := new RingQueue(cap, CellSize(dataSize));
    if cap >= 2 { InitInv(cap, CellSize(dataSize)); }
  }
}
