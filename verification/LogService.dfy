// The consumer thread of the daemon logger as a loop over its queue, its event
// count and its running flag.  Every method marked with an action performs one
// step of the machine in LogConsumer.dfy.
module LogService {
  import opened Words
  import Q = TicketQueue
  import M = MpmcQueue
  import E = EventCount
  import D = DaemonLogger
  import L = LogRotation
  import opened LogConsumer
  import opened LogRuns

  ghost predicate OthersOnly(run: seq<Step>, t: Id) {
    forall i :: 0 <= i < |run| ==> run[i].t != t
  }

  // --------------------------------------------------------- other threads' steps

  ghost predicate SameHead(q: Q.Queue, n: Q.Queue) {
    n.deq == q.deq && n.width == q.width && q.tickets <= n.tickets
  }

  // What nobody else does to the consumer: move its operation, the head of the
  // queue or its phase.  Its wait can only be ended.
  ghost predicate Undisturbed(s: State, n: State) {
    && (CONSUMER in n.q.ops <==> CONSUMER in s.q.ops)
    && (CONSUMER in s.q.ops ==> n.q.ops[CONSUMER] == s.q.ops[CONSUMER])
    && SameHead(s.q.q, n.q.q) && n.phase == s.phase
    && SameWait(s.ec.waiters, n.ec.waiters)
  }

  ghost predicate SameWait(w: map<Id, E.Wait>, n: map<Id, E.Wait>) {
    && (CONSUMER in n <==> CONSUMER in w)
    && (CONSUMER in w ==> n[CONSUMER] == w[CONSUMER] || n[CONSUMER] == E.Woken(w[CONSUMER]))
  }

  lemma TicketsGrow(s: Q.State, t: Id, a: Q.Action)
    requires Q.Enabled(s, t, a)
    ensures s.q.tickets <= Q.Next(s, t, a).q.tickets
  {
  }

  lemma OtherStep(s: State, t: Id, a: Action)
    requires Inv(s) && Enabled(s, t, a) && t != CONSUMER
    ensures Undisturbed(s, Next(s, t, a))
  {
    if a.Produce? {
      ProducerStep(s.q, t, a.qa);
      TicketsGrow(s.q, t, a.qa);
      hide Inv, Q.Inv, Q.Next, Q.Enabled;
      SameElsewhere(s.q.ops, Next(s, t, a).q.ops, t, CONSUMER);
    } else {
      hide Inv, Q.Inv;
    }
  }

  lemma {:induction false} OthersKeep(s: State, run: seq<Step>)
    requires Inv(s) && Legal(s, run) && OthersOnly(run, CONSUMER)
    ensures Undisturbed(s, After(s, run))
    decreases run
  {
    hide Inv, Next, Enabled;
    if run == [] {
    } else {
      assert run[0].t != CONSUMER;
      NextInv(s, run[0].t, run[0].a);
      OtherStep(s, run[0].t, run[0].a);
      assert OthersOnly(run[1..], CONSUMER) by { assert forall i :: 0 <= i < |run| - 1 ==> run[1..][i] == run[i + 1]; }
      OthersKeep(Next(s, run[0].t, run[0].a), run[1..]);
    }
  }

  // Only the stopping thread asks to stop, or makes its own wake-up calls.
  ghost predicate SameStop(s: State, n: State) {
    n.stop == s.stop && (STOPPER in n.ec.wakes <==> STOPPER in s.ec.wakes)
  }

  lemma {:induction false} StopKept(s: State, run: seq<Step>)
    requires Legal(s, run) && OthersOnly(run, STOPPER)
    ensures SameStop(s, After(s, run))
    decreases run
  {
    if run == [] {
    } else {
      assert run[0].t != STOPPER;
      NotTheStopper(s, run[0].t, run[0].a);
      hide Next, Enabled;
      assert OthersOnly(run[1..], STOPPER) by { assert forall i :: 0 <= i < |run| - 1 ==> run[1..][i] == run[i + 1]; }
      StopKept(Next(s, run[0].t, run[0].a), run[1..]);
    }
  }

  lemma NotTheStopper(s: State, t: Id, a: Action)
    requires Enabled(s, t, a) && t != STOPPER
    ensures SameStop(s, Next(s, t, a))
  {
    hide Q.Enabled, Q.Next;
  }

  // -------------------------------------------------------- the consumer's steps

  ghost predicate Idle(s: State) {
    CONSUMER !in s.q.ops
  }

  ghost predicate At(s: State, pc: Q.Pc) {
    CONSUMER in s.q.ops && s.q.ops[CONSUMER] == pc && Consuming(s.phase)
  }

  // The queue's share of a step; the other words stay.
  lemma QueueShare(s: State, qa: Q.Action)
    requires Enabled(s, CONSUMER, Consume(qa))
    ensures Q.Enabled(s.q, CONSUMER, qa)
    ensures var n := Next(s, CONSUMER, Consume(qa));
            n.q == Q.Next(s.q, CONSUMER, qa) && n.ec == s.ec && n.running == s.running && n.owing == s.owing
  {
  }

  lemma BeginEffect(s: State)
    requires Inv(s) && Idle(s) && Consuming(s.phase)
    ensures Enabled(s, CONSUMER, Consume(Q.Begin(Q.Take)))
    ensures var n := Next(s, CONSUMER, Consume(Q.Begin(Q.Take)));
            At(n, Q.Probing(Q.Take, s.q.q.deq)) && SameHead(s.q.q, n.q.q) && n.phase == s.phase
  {
  }

  // The only consumer is never behind, and is turned away exactly when no entry
  // is committed at the head.
  lemma LoadEffect(s: State, p: nat)
    requires Inv(s) && At(s, Q.Probing(Q.Take, p))
    ensures p == s.q.q.deq && Enabled(s, CONSUMER, Consume(Q.LoadSeq))
    ensures var n := Next(s, CONSUMER, Consume(Q.LoadSeq));
            && n.q.q == s.q.q
            && (if Idle(n) then n.phase == AfterEmpty(s.phase) && !HeadReady(n.q.q)
                else n.phase == s.phase && At(n, Q.Claiming(Q.Take, p)))
  {
    ConsumerStep(s.q, Q.LoadSeq);
    NextInv(s, CONSUMER, Consume(Q.LoadSeq));
    hide Q.Inv;
  }

  lemma CasEffect(s: State, p: nat, spurious: bool)
    requires Inv(s) && At(s, Q.Claiming(Q.Take, p))
    ensures p == s.q.q.deq && Enabled(s, CONSUMER, Consume(Q.Cas(spurious)))
    ensures var n := Next(s, CONSUMER, Consume(Q.Cas(spurious)));
            && n.phase == s.phase && n.q.q.width == s.q.q.width && n.q.q.tickets == s.q.q.tickets
            && (if spurious then n.q.q.deq == p && At(n, Q.Probing(Q.Take, p))
                else n.q.q.deq == p + 1 && At(n, Q.Copying(p, [])))
  {
    assert Q.Shape(s.q.q);
    hide Q.Inv;
  }

  lemma ReadEffect(s: State, p: nat, buf: Q.Value)
    requires Inv(s) && At(s, Q.Copying(p, buf)) && |buf| < s.q.q.width
    ensures Enabled(s, CONSUMER, Consume(Q.CopyByte))
    ensures var n := Next(s, CONSUMER, Consume(Q.CopyByte));
            && SameHead(s.q.q, n.q.q) && n.phase == s.phase
            && exists b :: At(n, Q.Copying(p, buf + [b]))
  {
    var n := Next(s, CONSUMER, Consume(Q.CopyByte));
    assert At(n, Q.Copying(p, buf + [s.q.q.data[Q.Slot(p, s.q.q.cap)][|buf|]]));
    hide Q.Inv;
  }

  lemma CommitEffect(s: State, p: nat, buf: Q.Value)
    requires Inv(s) && At(s, Q.Copying(p, buf)) && |buf| == s.q.q.width
    ensures Enabled(s, CONSUMER, Consume(Q.Commit))
    ensures var n := Next(s, CONSUMER, Consume(Q.Commit));
            && SameHead(s.q.q, n.q.q) && n.phase == AfterEntry(s.phase) && Idle(n)
            && p + 1 == n.q.q.deq <= |n.q.q.tickets| && buf == n.q.q.tickets[p]
  {
    assert Q.OpOk(s.q.q, CONSUMER, s.q.ops[CONSUMER]);
    ConsumerStep(s.q, Q.Commit);
  }

  // ------------------------------------------------- what a cut-off loop has done

  // The consumer's exchanges that failed for no reason, and its FUTEX_WAIT calls.
  function Failures(log: seq<Step>): nat {
    Times(log, CONSUMER, Consume(Q.Cas(true)))
  }

  function WaitRounds(log: seq<Step>): nat {
    Times(log, CONSUMER, WaitStep(E.Block))
  }

  lemma RoundsSnoc(log: seq<Step>, a: Action)
    ensures Failures(log + [Step(CONSUMER, a)]) == Failures(log) + if a == Consume(Q.Cas(true)) then 1 else 0
    ensures WaitRounds(log + [Step(CONSUMER, a)]) == WaitRounds(log) + if a == WaitStep(E.Block) then 1 else 0
  {
    TimesSnoc(log, CONSUMER, a, Consume(Q.Cas(true)));
    TimesSnoc(log, CONSUMER, a, WaitStep(E.Block));
  }

  lemma RoundsGrow(log: seq<Step>, more: seq<Step>)
    requires log <= more
    ensures Failures(log) <= Failures(more) && WaitRounds(log) <= WaitRounds(more)
  {
    TimesGrow(log, more, CONSUMER, Consume(Q.Cas(true)));
    TimesGrow(log, more, CONSUMER, WaitStep(E.Block));
  }

  // Cut off inside an attempt or inside a wait, with all rounds of that loop used up.
  ghost predicate CutShort(s: State, log: seq<Step>, more: seq<Step>, rounds: nat) {
    if Idle(s) then s.phase.Waiting? && rounds <= WaitRounds(more) - WaitRounds(log)
    else Consuming(s.phase) && rounds <= Failures(more) - Failures(log)
  }

  lemma CutShortSince(s: State, first: seq<Step>, log: seq<Step>, more: seq<Step>, rounds: nat)
    requires CutShort(s, log, more, rounds) && first <= log
    ensures CutShort(s, first, more, rounds)
  {
    RoundsGrow(first, log);
  }

  datatype Attempt = Got(entry: Q.Value) | Empty | Unfinished

  datatype Outcome = Again | Stopped | CutOff

  // How an entry is read as a slot and written as a line.
  datatype Format = Format(decode: Q.Value -> D.Slot, render: D.Slot -> string)

  // An entry handed to write_daemon_log, and what the system calls of that write did.
  datatype Handed = Handed(entry: Q.Value, io: L.Io)

  function Output(l: L.Log, h: Handed, f: Format): L.Log {
    var slot := f.decode(h.entry);
    if D.Skipped(slot) then l else L.Write(l, f.render(slot), h.io)
  }

  function Outputs(l: L.Log, handed: seq<Handed>, f: Format): L.Log {
    if handed == [] then l else Output(Outputs(l, handed[..|handed| - 1], f), handed[|handed| - 1], f)
  }

  // Where an account starts: the head of the queue and the log.
  datatype Record = Record(first: nat, log: L.Log)

  // The entries handed over are what was reserved at the positions from the first
  // up to the head, in order, and the log is what writing them makes of it.
  ghost predicate Accounted(r: Record, q: Q.Queue, l: L.Log, handed: seq<Handed>, f: Format) {
    && r.first + |handed| == q.deq
    && (forall i :: 0 <= i < |handed| ==>
          r.first + i < |q.tickets| && handed[i].entry == q.tickets[r.first + i])
    && l == Outputs(r.log, handed, f)
  }

  lemma StillAccounted(r: Record, q: Q.Queue, n: Q.Queue, l: L.Log, handed: seq<Handed>, f: Format)
    requires Accounted(r, q, l, handed, f) && n.deq == q.deq && q.tickets <= n.tickets
    ensures Accounted(r, n, l, handed, f)
  {
    forall i | 0 <= i < |handed|
      ensures r.first + i < |n.tickets| && handed[i].entry == n.tickets[r.first + i]
    {
      assert handed[i].entry == q.tickets[r.first + i];
    }
    assert l == Outputs(r.log, handed, f);
    assert r.first + |handed| == n.deq;
  }

  lemma AccountedOne(r: Record, q: Q.Queue, n: Q.Queue, l: L.Log, handed: seq<Handed>, f: Format, h: Handed)
    requires Accounted(r, q, l, handed, f) && q.tickets <= n.tickets
    requires q.deq + 1 == n.deq <= |n.tickets| && h.entry == n.tickets[q.deq]
    ensures Accounted(r, n, Output(l, h, f), handed + [h], f)
  {
    hide Output;
    var more := handed + [h];
    assert more[..|more| - 1] == handed;
    assert Outputs(r.log, more, f) == Output(l, h, f);
  }

  // A log that is open is on disk.
  ghost predicate LoggerOk(d: D.Logger)
    reads d
  {
    d.Valid() && (d.open ==> d.path in d.disk)
  }

  ghost predicate InAccount(r: Record, q: Q.Queue, d: D.Logger, handed: seq<Handed>, f: Format)
    reads d, d.files
  {
    LoggerOk(d) && Accounted(r, q, d.View(), handed, f)
  }

  lemma AccountStarts(q: Q.Queue, d: D.Logger, f: Format)
    requires LoggerOk(d)
    ensures InAccount(Record(q.deq, d.View()), q, d, [], f)
  {
  }

  // write_daemon_log of one entry; the environment decides what the system calls do.
  method WriteEntry(d: D.Logger, f: Format, entry: Q.Value) returns (ghost io: L.Io)
    requires LoggerOk(d)
    modifies d, d.files
    ensures LoggerOk(d) && (d.files == old(d.files) || fresh(d.files))
    ensures d.View() == Output(old(d.View()), Handed(entry, io), f)
  {
    var outcome: L.Io := *;
    io := outcome;
    var slot := f.decode(entry);
    StillOnDisk(d.View(), f.render(slot), outcome);
    hide L.Write;
    d.WriteDaemonLog(slot, f.render(slot), outcome);
  }

  lemma StillOnDisk(l: L.Log, line: string, io: L.Io)
    requires l.open ==> l.path in l.disk
    ensures var w := L.Write(l, line, io); w.path == l.path && (w.open ==> w.path in w.disk)
  {
  }

  lemma WakeMade(s: State, t: Id, who: Id)
    requires t in s.ec.wakes && who == E.Sleeper(s.ec)
    ensures Enabled(s, t, CallWake(who))
    ensures var n := Next(s, t, CallWake(who));
            n == s.(ec := E.Next(s.ec, t, E.CallWake(who))) && t !in n.ec.wakes
  {
  }

  lemma NoWakePending(s: State)
    requires Inv(s) && s.stop.MustNotify?
    ensures STOPPER !in s.ec.wakes
  {
  }

  // A registered wait stays as it is.
  ghost predicate SameWaitAs(s: State, n: State) {
    CONSUMER in s.ec.waiters && s.ec.waiters[CONSUMER].Registered? && Timely(s.ec) ==>
      CONSUMER in n.ec.waiters && n.ec.waiters[CONSUMER] == s.ec.waiters[CONSUMER] && Timely(n.ec)
  }

  // The consumer is registered with this key, in good time.
  ghost predicate InWait(s: State, key: Word) {
    CONSUMER in s.ec.waiters && key == s.ec.waiters[CONSUMER].key % E.EPOCH && Timely(s.ec)
  }

  lemma NobodyWaits(s: State)
    requires Inv(s) && s.phase.Preparing?
    ensures s.ec.waiters == map[]
  {
    assert s.ec.waiters.Keys == {};
  }

  lemma StillRegistered(s: State)
    requires Inv(s) && (s.phase.CancelLoop? || s.phase.CancelBreak?)
    ensures CONSUMER in s.ec.waiters && s.ec.waiters[CONSUMER].Registered?
  {
    assert CONSUMER in s.ec.waiters.Keys;
  }

  class LogService {
    const queue: M.RingQueue
    const ec: E.EventCounter
    var running: bool
    ghost var spec: State
    ghost var log: seq<Step>
    ghost const start: State

    ghost predicate SpecOk()
      reads this`spec, this`log
    {
      Legal(start, log) && spec == After(start, log) && Inv(spec)
    }

    ghost predicate Parts()
      reads this, queue, queue.slotSeq, queue.slotData, ec
    {
      && queue.Valid() && ec.Valid()
      && queue.spec == spec.q && ec.spec == spec.ec && running == spec.running
    }

    ghost predicate Valid()
      reads this, queue, queue.slotSeq, queue.slotData, ec
    {
      SpecOk() && Parts()
    }

    constructor (queue: M.RingQueue)
      requires queue.Valid() && queue.spec == Q.Init(queue.slotMask + 1, queue.width)
      ensures Valid() && spec == Init(queue.slotMask + 1, queue.width) && this.queue == queue && fresh(ec)
    {
      this.queue := queue;
      ec := new E.EventCounter();
      running := true;
      spec, log, start := Init(queue.slotMask + 1, queue.width), [], Init(queue.slotMask + 1, queue.width);
      new;
      InitInv(queue.slotMask + 1, queue.width);
    }

    ghost method Advance(t: Id, a: Action)
      requires SpecOk() && Enabled(spec, t, a)
      modifies this`spec, this`log
      ensures SpecOk() && spec == Next(old(spec), t, a) && log == old(log) + [Step(t, a)]
    {
      hide Inv, Next, Enabled;
      NextInv(spec, t, a);
      Snoc(start, log, t, a);
      spec, log := Next(spec, t, a), log + [Step(t, a)];
    }

    // The step that the queue, the event count and the flag have taken already.
    ghost method Follow(t: Id, a: Action)
      requires SpecOk() && Enabled(spec, t, a) && queue.Valid() && ec.Valid()
      requires var n := Next(spec, t, a); queue.spec == n.q && ec.spec == n.ec && running == n.running
      modifies this`spec, this`log
      ensures Valid() && spec == Next(old(spec), t, a) && log == old(log) + [Step(t, a)]
    {
      hide Inv, Legal, After, SpecOk, Next, Enabled;
      Advance(t, a);
    }

    // ------------------------------------------------- reserve_dequeue_mpmc

    method LoadHead() returns (pos: Word)
      requires Valid() && Idle(spec) && Consuming(spec.phase)
      modifies this`spec, this`log, queue`spec
      ensures Valid() && log == old(log) + [Step(CONSUMER, Consume(Q.Begin(Q.Take)))]
      ensures spec.ec == old(spec).ec
      ensures At(spec, Q.Probing(Q.Take, spec.q.q.deq)) && SameHead(old(spec).q.q, spec.q.q)
      ensures spec.phase == old(spec).phase && pos == Wrap(spec.q.q.deq)
    {
      BeginEffect(spec);
      QueueShare(spec, Q.Begin(Q.Take));
      hide Inv, Legal, After, SpecOk, Next, Enabled, Q.Next, Q.Enabled, Q.Slot, Wrap, SameHead;
      pos := queue.LoadPosition(CONSUMER, false, Q.Take);
      Follow(CONSUMER, Consume(Q.Begin(Q.Take)));
    }

    method LoadSequence(pos: Word) returns (slot: nat, ready: bool)
      requires Valid() && At(spec, Q.Probing(Q.Take, spec.q.q.deq)) && pos == Wrap(spec.q.q.deq)
      modifies this`spec, this`log, queue`spec
      ensures Valid() && log == old(log) + [Step(CONSUMER, Consume(Q.LoadSeq))]
      ensures spec.ec == old(spec).ec && spec.q.q == old(spec).q.q
      ensures slot == Q.Slot(spec.q.q.deq, queue.slotMask + 1)
      ensures if ready then spec.phase == old(spec).phase && At(spec, Q.Claiming(Q.Take, spec.q.q.deq))
              else spec.phase == AfterEmpty(old(spec).phase) && Idle(spec) && !HeadReady(spec.q.q)
    {
      LoadEffect(spec, spec.q.q.deq);
      QueueShare(spec, Q.LoadSeq);
      hide Inv, Legal, After, SpecOk, Next, Enabled, Q.Next, Q.Enabled, Q.Slot, Wrap, SameHead;
      var d;
      slot, d := queue.LoadSequence(CONSUMER, false, pos);
      ready := d.Claimable?;
      Follow(CONSUMER, Consume(Q.LoadSeq));
    }

    method ExchangeHead(pos: Word, spurious: bool) returns (ok: bool, now: Word)
      requires Valid() && At(spec, Q.Claiming(Q.Take, spec.q.q.deq)) && pos == Wrap(spec.q.q.deq)
      modifies this`spec, this`log, queue
      ensures Valid() && log == old(log) + [Step(CONSUMER, Consume(Q.Cas(spurious)))]
      ensures spec.ec == old(spec).ec
      ensures spec.phase == old(spec).phase && spec.q.q.width == old(spec).q.q.width
      ensures spec.q.q.tickets == old(spec).q.q.tickets
      ensures Failures(log) == Failures(old(log)) + (if spurious then 1 else 0) && (ok <==> !spurious)
      ensures if ok then spec.q.q.deq == old(spec).q.q.deq + 1 && At(spec, Q.Copying(old(spec).q.q.deq, []))
              else spec.q.q.deq == old(spec).q.q.deq && At(spec, Q.Probing(Q.Take, spec.q.q.deq)) && now == pos
    {
      CasEffect(spec, spec.q.q.deq, spurious);
      QueueShare(spec, Q.Cas(spurious));
      RoundsSnoc(log, Consume(Q.Cas(spurious)));
      hide Failures, WaitRounds;
      hide Inv, Legal, After, SpecOk, Next, Enabled, Q.Next, Q.Enabled, Q.Slot, Wrap, SameHead;
      ok, now := queue.CompareExchange(CONSUMER, false, pos, spurious);
      Follow(CONSUMER, Consume(Q.Cas(spurious)));
    }

    method ReadByte(slot: nat, ghost p: nat, buf: Q.Value) returns (b: Q.Byte)
      requires Valid() && At(spec, Q.Copying(p, buf)) && |buf| < spec.q.q.width
      requires slot == Q.Slot(p, queue.slotMask + 1)
      modifies this`spec, this`log, queue`spec
      ensures Valid() && log == old(log) + [Step(CONSUMER, Consume(Q.CopyByte))]
      ensures spec.ec == old(spec).ec
      ensures SameHead(old(spec).q.q, spec.q.q) && spec.phase == old(spec).phase && At(spec, Q.Copying(p, buf + [b]))
    {
      ReadEffect(spec, p, buf);
      QueueShare(spec, Q.CopyByte);
      hide Inv, Legal, After, SpecOk, Next, Enabled, Q.Next, Q.Enabled, Q.Slot, Wrap, SameHead;
      b := queue.ReadByte(CONSUMER, slot, |buf|);
      Follow(CONSUMER, Consume(Q.CopyByte));
    }

    // commit_dequeue_mpmc
    method CommitHead(slot: nat, pos: Word, ghost p: nat, ghost buf: Q.Value)
      requires Valid() && At(spec, Q.Copying(p, buf)) && |buf| == spec.q.q.width
      requires slot == Q.Slot(p, queue.slotMask + 1) && pos == Wrap(p)
      modifies this`spec, this`log, queue`spec, queue.slotSeq
      ensures Valid() && log == old(log) + [Step(CONSUMER, Consume(Q.Commit))]
      ensures spec.ec == old(spec).ec
      ensures SameHead(old(spec).q.q, spec.q.q) && spec.phase == AfterEntry(old(spec).phase) && Idle(spec)
      ensures p + 1 == spec.q.q.deq <= |spec.q.q.tickets| && buf == spec.q.q.tickets[p]
    {
      CommitEffect(spec, p, buf);
      QueueShare(spec, Q.Commit);
      hide Inv, Legal, After, SpecOk, Next, Enabled, Q.Next, Q.Enabled, Q.Slot, Wrap, SameHead;
      queue.StoreSequence(CONSUMER, false, slot, pos);
      Follow(CONSUMER, Consume(Q.Commit));
    }

    // ------------------------------------------------ running flag, event count

    method LoadRunning() returns (r: bool)
      requires Valid() && Idle(spec) && spec.phase.Test?
      modifies this`spec, this`log
      ensures Valid() && log == old(log) + [Step(CONSUMER, TestRunning)]
      ensures spec == old(spec).(phase := if r then First else Draining)
    {
      hide Inv, Legal, After, SpecOk;
      r := running;
      Advance(CONSUMER, TestRunning);
    }

    method LoadRunningAgain() returns (r: bool)
      requires Valid() && Idle(spec) && spec.phase.Recheck?
      modifies this`spec, this`log
      ensures Valid() && log == old(log) + [Step(CONSUMER, RecheckRunning)]
      ensures spec == old(spec).(phase := if r then Waiting else CancelBreak)
    {
      hide Inv, Legal, After, SpecOk;
      r := running;
      Advance(CONSUMER, RecheckRunning);
    }

    method PrepareToWait() returns (key: Word)
      requires Valid() && Idle(spec) && spec.phase.Preparing?
      modifies this`spec, this`log, ec
      ensures Valid() && log == old(log) + [Step(CONSUMER, PrepareWait)]
      ensures spec.q == old(spec).q && spec.phase.Second?
      ensures InWait(spec, key) && spec.ec.waiters[CONSUMER].Registered?
      ensures spec.ec.waiters[CONSUMER].key == old(spec).ec.notifies
    {
      NobodyWaits(spec);
      hide Inv, Legal, After, SpecOk;
      key := ec.PrepareWait(CONSUMER);
      Advance(CONSUMER, PrepareWait);
    }

    method CancelWaiting()
      requires Valid() && Idle(spec) && (spec.phase.CancelLoop? || spec.phase.CancelBreak?)
      modifies this`spec, this`log, ec
      ensures Valid() && log == old(log) + [Step(CONSUMER, CancelWait)]
      ensures spec.q == old(spec).q && spec.phase == (if old(spec).phase.CancelLoop? then Test else Draining)
    {
      StillRegistered(spec);
      hide Inv, Legal, After, SpecOk;
      ec.SubWaiter(CONSUMER);
      Advance(CONSUMER, CancelWait);
    }

    method EpochIsSame(key: Word) returns (same: bool)
      requires Valid() && Idle(spec) && spec.phase.Waiting?
      requires InWait(spec, key) && spec.ec.waiters[CONSUMER].Registered?
      modifies this`spec, this`log, ec
      ensures Valid() && log == old(log) + [Step(CONSUMER, WaitStep(E.TestEpoch))]
      ensures spec.q == old(spec).q && spec.phase.Waiting? && InWait(spec, key)
      ensures spec.ec.waiters[CONSUMER].key == old(spec).ec.waiters[CONSUMER].key
      ensures if same then spec.ec.waiters[CONSUMER].Calling? else spec.ec.waiters[CONSUMER].Leaving?
    {
      hide Inv, Legal, After, SpecOk;
      same := ec.EpochUnchanged(CONSUMER, key);
      Advance(CONSUMER, WaitStep(E.TestEpoch));
    }

    method CallFutexWait(key: Word) returns (slept: bool)
      requires Valid() && Idle(spec) && spec.phase.Waiting? && InWait(spec, key) && spec.ec.waiters[CONSUMER].Calling?
      modifies this`spec, this`log, ec
      ensures Valid() && log == old(log) + [Step(CONSUMER, WaitStep(E.Block))]
      ensures spec.q == old(spec).q && spec.phase.Waiting? && InWait(spec, key)
      ensures spec.ec.waiters[CONSUMER].key == old(spec).ec.waiters[CONSUMER].key
      ensures WaitRounds(log) == WaitRounds(old(log)) + 1
      ensures if slept then spec.ec.waiters[CONSUMER].Asleep? else spec.ec.waiters[CONSUMER].Registered?
    {
      RoundsSnoc(log, WaitStep(E.Block));
      hide Failures, WaitRounds;
      hide Inv, Legal, After, SpecOk;
      slept := ec.FutexWait(CONSUMER, key);
      Advance(CONSUMER, WaitStep(E.Block));
    }

    // FUTEX_WAIT returns: somebody woke the thread, or nobody did.
    method FutexReturns(ghost key: Word)
      requires Valid() && Idle(spec) && spec.phase.Waiting? && InWait(spec, key)
      requires spec.ec.waiters[CONSUMER].Asleep? || spec.ec.waiters[CONSUMER].Registered?
      modifies this`spec, this`log, ec
      ensures Valid() && old(log) <= log && spec.q == old(spec).q && spec.phase.Waiting?
      ensures InWait(spec, key) && spec.ec.waiters[CONSUMER].Registered?
      ensures spec.ec.waiters[CONSUMER].key == old(spec).ec.waiters[CONSUMER].key
    {
      hide Inv, Legal, After, SpecOk;
      ghost var unasked := spec.ec.waiters[CONSUMER].Asleep?;
      if unasked {
        ec.ReturnUnasked(CONSUMER);
        Advance(CONSUMER, WaitStep(E.Spurious));
      }
    }

    method LeaveWait(ghost key: Word)
      requires Valid() && Idle(spec) && spec.phase.Waiting? && InWait(spec, key) && spec.ec.waiters[CONSUMER].Leaving?
      modifies this`spec, this`log, ec
      ensures Valid() && log == old(log) + [Step(CONSUMER, WaitStep(E.Leave))]
      ensures spec.q == old(spec).q && spec.phase.Test?
      ensures old(spec).ec.waiters[CONSUMER].key < spec.ec.notifies
    {
      hide Inv, Legal, After, SpecOk;
      ec.SubWaiter(CONSUMER);
      Advance(CONSUMER, WaitStep(E.Leave));
    }

    // ----------------------------------------------------------- interference

    // Everything the other threads do between two actions of t: at most GAP
    // reservations, and fewer than 2^32 notifications during one wait.
    method Others(ghost t: Id) returns (ghost run: seq<Step>)
      requires Valid()
      modifies this, queue, queue.slotSeq, queue.slotData, ec
      ensures Valid() && Legal(old(spec), run) && OthersOnly(run, t)
      ensures spec == After(old(spec), run) && log == old(log) + run
      ensures spec.q.q.enq <= old(spec).q.q.enq + M.GAP
      ensures Timely(old(spec).ec) ==> Timely(spec.ec)
    {
      run := [];
    }

    method Yield()
      requires Valid()
      modifies this, queue, queue.slotSeq, queue.slotData, ec
      ensures Valid() && old(log) <= log && Undisturbed(old(spec), spec)
      ensures SameWaitAs(old(spec), spec) && (Timely(old(spec).ec) ==> Timely(spec.ec))
    {
      ghost var s := spec;
      hide LogService.Parts, Inv, Timely;
      ghost var run := Others(CONSUMER);
      OthersKeep(s, run);
    }

    // The loop of ec_wait, cut off after `rounds` rounds.  It ends only with the
    // epoch past the key, and every round used up is a FUTEX_WAIT call.
    method EcWait(key: Word, rounds: nat) returns (done: bool)
      requires Valid() && Idle(spec) && spec.phase.Waiting?
      requires InWait(spec, key) && spec.ec.waiters[CONSUMER].Registered?
      modifies this, queue, queue.slotSeq, queue.slotData, ec
      ensures Valid() && old(log) <= log && SameHead(old(spec).q.q, spec.q.q) && Idle(spec)
      ensures done ==> spec.phase.Test? && old(spec).ec.waiters[CONSUMER].key < spec.ec.notifies
      ensures !done ==> CutShort(spec, old(log), log, rounds)
    {
      hide LogService.Valid, LogService.SpecOk, LogService.Parts, Q.Slot, Wrap, Timely;
      hide Failures, WaitRounds;
      var left := rounds;
      while left > 0
        invariant Valid() && old(log) <= log && SameHead(old(spec).q.q, spec.q.q)
        invariant Idle(spec) && spec.phase.Waiting? && InWait(spec, key) && spec.ec.waiters[CONSUMER].Registered?
        invariant spec.ec.waiters[CONSUMER].key == old(spec).ec.waiters[CONSUMER].key
        invariant rounds - left <= WaitRounds(log) - WaitRounds(old(log))
      {
        ghost var before := log;
        left := left - 1;
        Yield();
        var same := EpochIsSame(key);
        Yield();
        if !same {
          LeaveWait(key);
          return true;
        }
        RoundsGrow(before, log);
        var slept := CallFutexWait(key);
        before := log;
        if slept {
          Yield();
          FutexReturns(key);
        }
        RoundsGrow(before, log);
      }
      done := false;
    }

    // The retry loop of reserve_dequeue_mpmc, cut off after `rounds` rounds.  With
    // a single consumer the exchange can only fail spuriously, so every round used up is such a failure.
    method ReserveHead(rounds: nat) returns (r: M.Outcome)
      requires Valid() && Idle(spec) && Consuming(spec.phase)
      modifies this, queue, queue.slotSeq, queue.slotData, ec
      ensures Valid() && old(log) <= log && spec.q.q.width == old(spec).q.q.width && SameWaitAs(old(spec), spec)
      ensures old(spec).q.q.tickets <= spec.q.q.tickets
      ensures r.Reserved? ==>
                && spec.phase == old(spec).phase && spec.q.q.deq == old(spec).q.q.deq + 1
                && At(spec, Q.Copying(old(spec).q.q.deq, []))
                && r.slot == Q.Slot(old(spec).q.q.deq, queue.slotMask + 1) && r.pos == Wrap(old(spec).q.q.deq)
      ensures r.Refused? ==>
                && spec.phase == AfterEmpty(old(spec).phase) && spec.q.q.deq == old(spec).q.q.deq
                && Idle(spec) && !HeadReady(spec.q.q)
      ensures r.Unfinished? ==>
                && spec.q.q.deq == old(spec).q.q.deq && !Idle(spec) && Consuming(spec.phase)
                && rounds <= Failures(log) - Failures(old(log))
    {
      hide LogService.Valid, LogService.SpecOk, LogService.Parts, Q.Slot, Wrap, HeadReady, Timely;
      hide Failures, WaitRounds;
      Yield();
      var pos := LoadHead();
      RoundsGrow(old(log), log);
      var left := rounds;
      while left > 0
        invariant Valid() && old(log) <= log && SameHead(old(spec).q.q, spec.q.q)
        invariant spec.phase == old(spec).phase
        invariant At(spec, Q.Probing(Q.Take, spec.q.q.deq)) && pos == Wrap(spec.q.q.deq)
        invariant SameWaitAs(old(spec), spec)
        invariant rounds - left <= Failures(log) - Failures(old(log))
      {
        left := left - 1;
        ghost var before := log;
        Yield();
        var slot, ready := LoadSequence(pos);
        if !ready { return M.Refused; }
        Yield();
        RoundsGrow(before, log);
        var spurious: bool := *;
        var ok, now := ExchangeHead(pos, spurious);
        if ok { return M.Reserved(slot, pos); }
        pos := now;
      }
      r := M.Unfinished;
    }

    // consume_one_daemon_log_entry: the entry at the head is written to the log
    // before its slot is given back; or there is none.
    method ConsumeOne(rounds: nat, d: D.Logger, f: Format) returns (a: Attempt, ghost io: L.Io)
      requires Valid() && Idle(spec) && Consuming(spec.phase) && LoggerOk(d)
      modifies this, queue, queue.slotSeq, queue.slotData, ec, d, d.files
      ensures LoggerOk(d) && (d.files == old(d.files) || fresh(d.files))
      ensures d.View() == if a.Got? then Output(old(d.View()), Handed(a.entry, io), f) else old(d.View())
      ensures Valid() && old(log) <= log && old(spec).q.q.tickets <= spec.q.q.tickets && SameWaitAs(old(spec), spec)
      ensures a.Got? ==>
                && spec.phase == AfterEntry(old(spec).phase) && Idle(spec)
                && old(spec).q.q.deq + 1 == spec.q.q.deq <= |spec.q.q.tickets|
                && a.entry == spec.q.q.tickets[old(spec).q.q.deq]
      ensures a.Unfinished? ==> CutShort(spec, old(log), log, rounds)
      ensures !a.Got? ==> spec.q.q.deq == old(spec).q.q.deq
      ensures a.Empty? ==> spec.phase == AfterEmpty(old(spec).phase) && Idle(spec) && !HeadReady(spec.q.q)
    {
      hide LogService.Valid, LogService.SpecOk, LogService.Parts, Q.Slot, Wrap, HeadReady, Timely;
      hide D.Logger.Valid, D.Logger.View, Output;
      hide Failures, WaitRounds;
      ghost var p := spec.q.q.deq;
      var r := ReserveHead(rounds);
      io := L.Io("", false, false, 0);
      if r.Refused? { return Empty, io; }
      if r.Unfinished? { return Unfinished, io; }
      var entry := ReadEntry(r.slot, p);
      io := WriteEntry(d, f, entry);
      Yield();
      CommitHead(r.slot, r.pos, p, entry);
      a := Got(entry);
    }

    method NextByte(slot: nat, ghost p: nat, buf: Q.Value) returns (b: Q.Byte)
      requires Valid() && At(spec, Q.Copying(p, buf)) && |buf| < spec.q.q.width
      requires slot == Q.Slot(p, queue.slotMask + 1)
      modifies this, queue, queue.slotSeq, queue.slotData, ec
      ensures Valid() && old(log) <= log && SameHead(old(spec).q.q, spec.q.q) && spec.phase == old(spec).phase
      ensures At(spec, Q.Copying(p, buf + [b])) && SameWaitAs(old(spec), spec)
    {
      hide LogService.Valid, LogService.SpecOk, LogService.Parts, Q.Slot, Wrap, HeadReady, Timely;
      Yield();
      b := ReadByte(slot, p, buf);
    }

    // Reading the entry in its slot.
    method ReadEntry(slot: nat, ghost p: nat) returns (entry: Q.Value)
      requires Valid() && At(spec, Q.Copying(p, [])) && slot == Q.Slot(p, queue.slotMask + 1)
      modifies this, queue, queue.slotSeq, queue.slotData, ec
      ensures Valid() && old(log) <= log && SameHead(old(spec).q.q, spec.q.q) && spec.phase == old(spec).phase
      ensures At(spec, Q.Copying(p, entry)) && |entry| == spec.q.q.width && SameWaitAs(old(spec), spec)
    {
      assert queue.width == spec.q.q.width;
      hide LogService.Valid, LogService.SpecOk, LogService.Parts, Q.Slot, Wrap, HeadReady, Timely;
      entry := [];
      for k := 0 to queue.width
        invariant Valid() && old(log) <= log && SameHead(old(spec).q.q, spec.q.q) && spec.phase == old(spec).phase
        invariant At(spec, Q.Copying(p, entry)) && |entry| == k && SameWaitAs(old(spec), spec)
      {
        var b := NextByte(slot, p, entry);
        entry := entry + [b];
      }
    }

    // The loop after the stop request: consume until nothing is left, or, cut off,
    // one entry in every round.
    method DrainQueue(rounds: nat, d: D.Logger, f: Format, ghost r: Record, ghost before: seq<Handed>)
      returns (done: bool, ghost handed: seq<Handed>)
      requires Valid() && Idle(spec) && spec.phase.Draining? && InAccount(r, spec.q.q, d, before, f)
      modifies this, queue, queue.slotSeq, queue.slotData, ec, d, d.files
      ensures Valid() && old(log) <= log && InAccount(r, spec.q.q, d, handed, f)
      ensures d.files == old(d.files) || fresh(d.files)
      ensures |before| <= |handed|
      ensures done ==> spec.phase.Done? && Idle(spec) && !HeadReady(spec.q.q)
      ensures !done ==>
                || CutShort(spec, old(log), log, rounds)
                || (Idle(spec) && spec.phase.Draining? && rounds <= |handed|)
    {
      hide LogService.Valid, LogService.SpecOk, LogService.Parts, HeadReady, Timely, InAccount, CutShort;
      handed := before;
      var left := rounds;
      while left > 0
        invariant Valid() && old(log) <= log && InAccount(r, spec.q.q, d, handed, f)
        invariant d.files == old(d.files) || fresh(d.files)
        invariant Idle(spec) && spec.phase.Draining? && rounds - left + |before| <= |handed|
      {
        left := left - 1;
        ghost var since := log;
        var a;
        a, handed := HandOver(rounds, d, f, r, handed);
        if a.Empty? { return true, handed; }
        if a.Unfinished? {
          CutShortSince(spec, old(log), since, log, rounds);
          return false, handed;
        }
      }
      done := false;
    }

    // One attempt to consume, with the account kept.
    method HandOver(rounds: nat, d: D.Logger, f: Format, ghost r: Record, ghost before: seq<Handed>)
      returns (a: Attempt, ghost handed: seq<Handed>)
      requires Valid() && Idle(spec) && Consuming(spec.phase) && InAccount(r, spec.q.q, d, before, f)
      modifies this, queue, queue.slotSeq, queue.slotData, ec, d, d.files
      ensures Valid() && old(log) <= log && InAccount(r, spec.q.q, d, handed, f) && SameWaitAs(old(spec), spec)
      ensures d.files == old(d.files) || fresh(d.files)
      ensures a.Got? ==> spec.phase == AfterEntry(old(spec).phase) && Idle(spec)
      ensures |handed| == |before| + if a.Got? then 1 else 0
      ensures a.Unfinished? ==> CutShort(spec, old(log), log, rounds)
      ensures a.Empty? ==> spec.phase == AfterEmpty(old(spec).phase) && Idle(spec) && !HeadReady(spec.q.q)
    {
      hide LogService.Valid, LogService.SpecOk, LogService.Parts, HeadReady, Timely, Accounted, Output, CutShort;
      hide D.Logger.Valid, D.Logger.View;
      ghost var q, l := spec.q.q, d.View();
      ghost var io;
      a, io := ConsumeOne(rounds, d, f);
      handed := before;
      if a.Got? {
        AccountedOne(r, q, spec.q.q, l, before, f, Handed(a.entry, io));
        handed := before + [Handed(a.entry, io)];
      } else {
        StillAccounted(r, q, spec.q.q, l, before, f);
      }
    }

    // One turn of the loop in daemon_log_consumer_thread.  A turn
    // that ends where it began has written an entry or slept through a notification.
    method Turn(rounds: nat, d: D.Logger, f: Format, ghost r: Record, ghost before: seq<Handed>)
      returns (o: Outcome, ghost handed: seq<Handed>)
      requires Valid() && Idle(spec) && spec.phase.Test? && InAccount(r, spec.q.q, d, before, f)
      modifies this, queue, queue.slotSeq, queue.slotData, ec, d, d.files
      ensures Valid() && old(log) <= log && InAccount(r, spec.q.q, d, handed, f)
      ensures d.files == old(d.files) || fresh(d.files)
      ensures old(spec).ec.notifies <= spec.ec.notifies && |before| <= |handed|
      ensures o.Again? ==> Idle(spec) && spec.phase.Test?
      ensures o.Again? ==> |before| + old(spec).ec.notifies < |handed| + spec.ec.notifies
      ensures o.Stopped? ==> Idle(spec) && spec.phase.Draining?
      ensures o.CutOff? ==> CutShort(spec, old(log), log, rounds)
    {
      hide LogService.Valid, LogService.SpecOk, LogService.Parts, HeadReady, Timely, InAccount, CutShort;
      handed := before;
      ghost var first := log;
      var running := TestFlag(d, f, r, before);
      EpochGrew();
      if !running { return Stopped, before; }
      ghost var tested := log;
      var a;
      a, handed := HandOver(rounds, d, f, r, before);
      EpochGrew();
      if a.Got? { return Again, handed; }
      if a.Unfinished? {
        CutShortSince(spec, first, tested, log, rounds);
        return CutOff, handed;
      }
      ghost var empty := log;
      o, handed := LookAgain(rounds, d, f, r, handed);
      if o.CutOff? { CutShortSince(spec, first, empty, log, rounds); }
    }

    // The head of the loop.
    method TestFlag(d: D.Logger, ghost f: Format, ghost r: Record, ghost handed: seq<Handed>) returns (running: bool)
      requires Valid() && Idle(spec) && spec.phase.Test? && InAccount(r, spec.q.q, d, handed, f)
      modifies this, queue, queue.slotSeq, queue.slotData, ec
      ensures Valid() && old(log) <= log && InAccount(r, spec.q.q, d, handed, f)
      ensures Idle(spec) && spec.phase == (if running then First else Draining)
    {
      hide LogService.Valid, LogService.SpecOk, LogService.Parts, HeadReady, Timely, Accounted;
      ghost var q := spec.q.q;
      Yield();
      running := LoadRunning();
      StillAccounted(r, q, spec.q.q, d.View(), handed, f);
    }

    // The rest of the turn, with the first attempt failed: register, try again,
    // look at the flag again, and only then wait.
    method LookAgain(rounds: nat, d: D.Logger, f: Format, ghost r: Record, ghost before: seq<Handed>)
      returns (o: Outcome, ghost handed: seq<Handed>)
      requires Valid() && Idle(spec) && spec.phase.Preparing? && InAccount(r, spec.q.q, d, before, f)
      modifies this, queue, queue.slotSeq, queue.slotData, ec, d, d.files
      ensures Valid() && old(log) <= log && InAccount(r, spec.q.q, d, handed, f)
      ensures d.files == old(d.files) || fresh(d.files)
      ensures old(spec).ec.notifies <= spec.ec.notifies && |before| <= |handed|
      ensures o.Again? ==> Idle(spec) && spec.phase.Test?
      ensures o.Again? ==> |before| + old(spec).ec.notifies < |handed| + spec.ec.notifies
      ensures o.Stopped? ==> Idle(spec) && spec.phase.Draining?
      ensures o.CutOff? ==> CutShort(spec, old(log), log, rounds)
    {
      hide LogService.Valid, LogService.SpecOk, LogService.Parts, HeadReady, Timely, InAccount, CutShort;
      ghost var first := log;
      var key := Register(d, f, r, before);
      ghost var registered := log;
      var a;
      a, handed := HandOver(rounds, d, f, r, before);
      ghost var looked := log;
      if a.Unfinished? {
        CutShortSince(spec, first, registered, log, rounds);
        EpochGrew();
        return CutOff, handed;
      }
      if a.Got? {
        BackOut(d, f, r, handed);
        EpochGrew();
        return Again, handed;
      }
      o := WaitOrStop(key, rounds, d, f, r, handed);
      EpochGrew();
      if o.CutOff? { CutShortSince(spec, first, looked, log, rounds); }
    }

    method Register(d: D.Logger, ghost f: Format, ghost r: Record, ghost handed: seq<Handed>) returns (key: Word)
      requires Valid() && Idle(spec) && spec.phase.Preparing? && InAccount(r, spec.q.q, d, handed, f)
      modifies this, queue, queue.slotSeq, queue.slotData, ec
      ensures Valid() && old(log) <= log && InAccount(r, spec.q.q, d, handed, f)
      ensures Idle(spec) && spec.phase.Second? && InWait(spec, key) && spec.ec.waiters[CONSUMER].Registered?
      ensures old(spec).ec.notifies <= spec.ec.waiters[CONSUMER].key
    {
      hide LogService.Valid, LogService.SpecOk, LogService.Parts, HeadReady, Timely, Accounted;
      ghost var q := spec.q.q;
      Yield();
      EpochGrew();
      key := PrepareToWait();
      StillAccounted(r, q, spec.q.q, d.View(), handed, f);
    }

    // ec_cancel_wait, after the second attempt found an entry or after the flag
    // turned out cleared.
    method BackOut(d: D.Logger, ghost f: Format, ghost r: Record, ghost handed: seq<Handed>)
      requires Valid() && Idle(spec) && (spec.phase.CancelLoop? || spec.phase.CancelBreak?)
      requires InAccount(r, spec.q.q, d, handed, f)
      modifies this, queue, queue.slotSeq, queue.slotData, ec
      ensures Valid() && old(log) <= log && InAccount(r, spec.q.q, d, handed, f)
      ensures Idle(spec) && spec.phase == (if old(spec).phase.CancelLoop? then Test else Draining)
    {
      hide LogService.Valid, LogService.SpecOk, LogService.Parts, HeadReady, Timely, Accounted;
      ghost var q := spec.q.q;
      Yield();
      CancelWaiting();
      StillAccounted(r, q, spec.q.q, d.View(), handed, f);
    }

    method WaitOrStop(key: Word, rounds: nat, d: D.Logger, ghost f: Format, ghost r: Record, ghost handed: seq<Handed>)
      returns (o: Outcome)
      requires Valid() && Idle(spec) && spec.phase.Recheck? && InAccount(r, spec.q.q, d, handed, f)
      requires InWait(spec, key) && spec.ec.waiters[CONSUMER].Registered?
      modifies this, queue, queue.slotSeq, queue.slotData, ec
      ensures Valid() && old(log) <= log && InAccount(r, spec.q.q, d, handed, f)
      ensures o.Again? ==> Idle(spec) && spec.phase.Test?
      ensures o.Again? ==> old(spec).ec.waiters[CONSUMER].key < spec.ec.notifies
      ensures o.CutOff? ==> CutShort(spec, old(log), log, rounds)
      ensures o.Stopped? ==> Idle(spec) && spec.phase.Draining?
    {
      hide LogService.Valid, LogService.SpecOk, LogService.Parts, HeadReady, Timely, Accounted, CutShort;
      ghost var q := spec.q.q;
      Yield();
      var running := LoadRunningAgain();
      StillAccounted(r, q, spec.q.q, d.View(), handed, f);
      if !running {
        BackOut(d, f, r, handed);
        return Stopped;
      }
      ghost var q', since := spec.q.q, log;
      var done := EcWait(key, rounds);
      StillAccounted(r, q', spec.q.q, d.View(), handed, f);
      if !done { CutShortSince(spec, old(log), since, log, rounds); }
      o := if done then Again else CutOff;
    }

    // Nobody takes a notification back.
    twostate lemma EpochGrew()
      requires old(Valid()) && Valid() && old(log) <= log
      ensures old(spec).ec.notifies <= spec.ec.notifies
    {
      NotificationsKept(start, old(log), log);
    }

    lemma Leftover()
      requires Valid() && Idle(spec) && !HeadReady(spec.q.q)
      ensures AllDelivered(spec.q.q) <==> spec.q.q.writing == map[]
      ensures spec.q.q.writing == map[] ==> spec.q.q.deq == |spec.q.q.tickets|
    {
      LeftBehind(spec);
    }

    // Where the thread stands when its loops were cut off: inside an attempt, all
    // rounds failed for no reason; inside a wait, each was a FUTEX_WAIT call; after
    // the stop request, each wrote an entry; and at the head of the loop, each wrote
    // one or slept until a notification came.
    ghost predicate UsedUp(rounds: nat, was: seq<Step>, notifies: nat, handed: seq<Handed>)
      reads this`spec, this`log
    {
      if !Idle(spec) then Consuming(spec.phase) && rounds <= Failures(log) - Failures(was)
      else match spec.phase
           case Waiting => rounds <= WaitRounds(log) - WaitRounds(was)
           case Draining => rounds <= |handed|
           case Test => rounds <= |handed| + spec.ec.notifies - notifies
           case _ => false
    }

    lemma CutOffMeans(rounds: nat, was: seq<Step>, notifies: nat, handed: seq<Handed>, since: seq<Step>)
      requires was <= since
      requires
        || CutShort(spec, since, log, rounds)
        || (Idle(spec) && spec.phase.Draining? && rounds <= |handed|)
        || (Idle(spec) && spec.phase.Test? && rounds <= |handed| + spec.ec.notifies - notifies)
      ensures UsedUp(rounds, was, notifies, handed) && !spec.phase.Done?
    {
      if CutShort(spec, since, log, rounds) { CutShortSince(spec, was, since, log, rounds); }
    }

    // The loop on the running flag.
    method TakeTurns(rounds: nat, d: D.Logger, f: Format, ghost r: Record, ghost before: seq<Handed>)
      returns (o: Outcome, ghost handed: seq<Handed>)
      requires Valid() && Idle(spec) && spec.phase.Test? && InAccount(r, spec.q.q, d, before, f)
      modifies this, queue, queue.slotSeq, queue.slotData, ec, d, d.files
      ensures Valid() && old(log) <= log && InAccount(r, spec.q.q, d, handed, f)
      ensures d.files == old(d.files) || fresh(d.files)
      ensures o.Again? ==> Idle(spec) && spec.phase.Test?
      ensures o.Again? ==> rounds + |before| + old(spec).ec.notifies <= |handed| + spec.ec.notifies
      ensures o.CutOff? ==> CutShort(spec, old(log), log, rounds)
      ensures o.Stopped? ==> Idle(spec) && spec.phase.Draining?
    {
      hide LogService.Valid, LogService.SpecOk, LogService.Parts, HeadReady, Timely, InAccount;
      hide Failures, WaitRounds, CutShort;
      o, handed := Again, before;
      var left := rounds;
      while left > 0 && o.Again?
        invariant Valid() && old(log) <= log && InAccount(r, spec.q.q, d, handed, f)
        invariant d.files == old(d.files) || fresh(d.files)
        invariant o.Again? ==> Idle(spec) && spec.phase.Test?
        invariant o.Again? ==> rounds - left + |before| + old(spec).ec.notifies <= |handed| + spec.ec.notifies
        invariant o.CutOff? ==> CutShort(spec, old(log), log, rounds)
        invariant o.Stopped? ==> Idle(spec) && spec.phase.Draining?
        decreases left
      {
        left := left - 1;
        ghost var since := log;
        o, handed := Turn(rounds, d, f, r, handed);
        if o.CutOff? { CutShortSince(spec, old(log), since, log, rounds); }
      }
    }

    // daemon_log_consumer_thread, its loops cut off after `rounds` rounds: what it
    // consumed is what was reserved, in order and without a gap; the log is what
    // writing just that makes of it; and when it returns nothing accepted is left
    // behind exactly if no reservation is uncommitted.
    method ConsumerThread(rounds: nat, d: D.Logger, f: Format) returns (done: bool, ghost handed: seq<Handed>)
      requires Valid() && Idle(spec) && spec.phase.Test? && LoggerOk(d)
      modifies this, queue, queue.slotSeq, queue.slotData, ec, d, d.files
      ensures Valid() && old(log) <= log
      ensures InAccount(Record(old(spec).q.q.deq, old(d.View())), spec.q.q, d, handed, f)
      ensures done <==> spec.phase.Done?
      ensures done ==> (AllDelivered(spec.q.q) <==> spec.q.q.writing == map[])
      ensures done && spec.q.q.writing == map[] ==> spec.q.q.deq == |spec.q.q.tickets|
      ensures !done ==> UsedUp(rounds, old(log), old(spec).ec.notifies, handed)
    {
      ghost var r := Record(spec.q.q.deq, d.View());
      hide LogService.Valid, LogService.SpecOk, LogService.Parts, HeadReady, Timely, InAccount;
      hide LoggerOk, D.Logger.View, AllDelivered, Failures, WaitRounds, CutShort, Idle, UsedUp;
      AccountStarts(spec.q.q, d, f);
      ghost var notifies := spec.ec.notifies;
      var o;
      o, handed := TakeTurns(rounds, d, f, r, []);
      done := false;
      ghost var since := old(log);
      if o.Stopped? {
        since := log;
        done, handed := DrainQueue(rounds, d, f, r, handed);
      }
      if done { Leftover(); } else { CutOffMeans(rounds, old(log), notifies, handed, since); }
    }

    // --------------------------------------------------- the stopping thread

    method StoreRunning()
      requires Valid() && spec.stop.NotAsked?
      modifies this`spec, this`log, this`running
      ensures Valid() && log == old(log) + [Step(STOPPER, ClearRunning)]
      ensures spec == old(spec).(running := false, stop := MustNotify)
    {
      hide Inv, Legal, After, SpecOk;
      running := false;
      Advance(STOPPER, ClearRunning);
    }

    // The fetch-add of ec_notify_all: whether FUTEX_WAKE must be called.
    method NotifyEverybody() returns (mustWake: bool)
      requires Valid() && spec.stop.MustNotify?
      modifies this`spec, this`log, ec
      ensures Valid() && log == old(log) + [Step(STOPPER, NotifyAll)]
      ensures StopSent(spec) && (mustWake <==> STOPPER in spec.ec.wakes)
    {
      NoWakePending(spec);
      hide Inv, Legal, After, SpecOk;
      mustWake := ec.FetchAddEpoch(STOPPER, E.Every);
      Advance(STOPPER, NotifyAll);
    }

    method WakeEverybody()
      requires Valid() && STOPPER in spec.ec.wakes
      modifies this`spec, this`log, ec
      ensures Valid() && old(log) <= log && spec.stop == old(spec).stop && STOPPER !in spec.ec.wakes
    {
      ghost var who := E.Sleeper(spec.ec);
      WakeMade(spec, STOPPER, who);
      hide Inv, Legal, After, SpecOk, E.Next, Next, E.Sleeper;
      ec.FutexWake(STOPPER, who);
      Advance(STOPPER, CallWake(who));
    }

    method YieldStopper()
      requires Valid()
      modifies this, queue, queue.slotSeq, queue.slotData, ec
      ensures Valid() && old(log) <= log && SameStop(old(spec), spec)
    {
      ghost var s := spec;
      hide LogService.Parts, Inv, Timely;
      ghost var run := Others(STOPPER);
      StopKept(s, run);
    }

    // stop_thread_mgr_one up to its pthread_join: the request is made and the
    // consumer's wake-up call, if one was due, is out.
    method StopThread()
      requires Valid() && (spec.stop.NotAsked? || StopSent(spec))
      modifies this, queue, queue.slotSeq, queue.slotData, ec
      ensures Valid() && old(log) <= log && StopSent(spec)
      ensures old(spec).stop.NotAsked? ==> STOPPER !in spec.ec.wakes
    {
      assert running <==> spec.stop.NotAsked?;
      hide LogService.Valid, LogService.SpecOk, LogService.Parts;
      if !running { return; }
      YieldStopper();
      StoreRunning();
      WakeConsumer();
    }

    // wake_daemon_log_consumer_thread
    method WakeConsumer()
      requires Valid() && spec.stop.MustNotify?
      modifies this, queue, queue.slotSeq, queue.slotData, ec
      ensures Valid() && old(log) <= log && StopSent(spec) && STOPPER !in spec.ec.wakes
    {
      hide LogService.Valid, LogService.SpecOk, LogService.Parts;
      YieldStopper();
      var mustWake := NotifyEverybody();
      if mustWake {
        YieldStopper();
        WakeEverybody();
      }
    }
  }
}
