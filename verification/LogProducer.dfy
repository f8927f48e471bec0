// enqueue_daemon_log: any number of threads put entries into the logger's queue
// and wake its consumer.
module LogProducer {
  import opened Words
  import Q = TicketQueue
  import M = MpmcQueue
  import R = QueueRuns
  import E = EventCount
  import opened LogConsumer
  import opened LogRuns
  import S = LogService

  ghost predicate At(s: State, t: Id, pc: Q.Pc) {
    t > STOPPER && t in s.q.ops && s.q.ops[t] == pc
  }

  // Not inside the queue, and owing nobody anything.
  ghost predicate Quiet(s: State, t: Id) {
    t > STOPPER && t !in s.q.ops && t !in s.owing && t !in s.ec.wakes
  }

  // Entries only get added, and a committed one stays committed.
  ghost predicate Grown(q: Q.Queue, n: Q.Queue) {
    && n.width == q.width && q.enq <= n.enq && q.tickets <= n.tickets
    && forall p: nat :: p < q.enq && p !in q.writing ==> p !in n.writing
  }

  // What nobody else does to thread t.
  ghost predicate Undisturbed(s: State, n: State, t: Id) {
    && (t in n.q.ops <==> t in s.q.ops) && (t in s.q.ops ==> n.q.ops[t] == s.q.ops[t])
    && (t in n.owing <==> t in s.owing)
    && (t in n.ec.wakes <==> t in s.ec.wakes)
  }

  ghost predicate SameDebts(s: State, n: State) {
    n.owing == s.owing && n.ec == s.ec
  }

  lemma QueueGrows(s: Q.State, t: Id, a: Q.Action)
    requires Q.Enabled(s, t, a)
    ensures Grown(s.q, Q.Next(s, t, a).q)
  {
  }

  lemma Grows(s: State, t: Id, a: Action)
    requires Enabled(s, t, a)
    ensures Grown(s.q.q, Next(s, t, a).q.q)
  {
    if a.Produce? { QueueGrows(s.q, t, a.qa); }
    if a.Consume? { QueueGrows(s.q, t, a.qa); }
    hide Q.Enabled, Q.Next;
  }

  // The queue's share of a producer's step; the other words stay.
  lemma QueueShare(s: State, t: Id, qa: Q.Action)
    requires Enabled(s, t, Produce(qa))
    ensures t > STOPPER && Q.Enabled(s.q, t, qa)
    ensures var n := Next(s, t, Produce(qa));
            && n.q == Q.Next(s.q, t, qa) && n.ec == s.ec && n.running == s.running
            && n.owing == (if qa.Commit? then s.owing + {t} else s.owing)
  {
  }

  lemma OtherProduces(s: State, u: Id, qa: Q.Action, t: Id)
    requires Inv(s) && Enabled(s, u, Produce(qa)) && u != t
    ensures Undisturbed(s, Next(s, u, Produce(qa)), t)
  {
    QueueShare(s, u, qa);
    OthersPut(s, u, qa, t);
    hide Inv, Q.Inv, Q.Next, Q.Enabled, Next, Enabled;
  }

  lemma OthersPut(s: State, u: Id, qa: Q.Action, t: Id)
    requires Inv(s) && Enabled(s, u, Produce(qa)) && Q.Enabled(s.q, u, qa) && u != t
    ensures var ops := Q.Next(s.q, u, qa).ops; (t in ops <==> t in s.q.ops) && (t in s.q.ops ==> ops[t] == s.q.ops[t])
  {
    ProducerStep(s.q, u, qa);
    hide Q.Inv, Q.Next, Q.Enabled;
    SameElsewhere(s.q.ops, Q.Next(s.q, u, qa).ops, u, t);
  }

  lemma OtherConsumes(s: State, qa: Q.Action, t: Id)
    requires Inv(s) && Enabled(s, CONSUMER, Consume(qa)) && CONSUMER != t
    ensures Undisturbed(s, Next(s, CONSUMER, Consume(qa)), t)
  {
    S.QueueShare(s, qa);
    ConsumerStep(s.q, qa);
    hide Inv, Q.Inv, Q.Next, Q.Enabled, Next, Enabled;
    SameElsewhere(s.q.ops, Q.Next(s.q, CONSUMER, qa).ops, CONSUMER, t);
  }

  lemma WakesKept(ec: E.State, u: Id, ea: E.Action, t: Id)
    requires E.Enabled(ec, u, ea) && u != t
    ensures t in E.Next(ec, u, ea).wakes <==> t in ec.wakes
  {
  }

  lemma OtherStep(s: State, u: Id, a: Action, t: Id)
    requires Inv(s) && Enabled(s, u, a) && u != t
    ensures Undisturbed(s, Next(s, u, a), t)
  {
    hide Inv, E.Next, E.Enabled;
    match a
    case Produce(qa) => OtherProduces(s, u, qa, t);
    case Consume(qa) => OtherConsumes(s, qa, t);
    case NotifyOne => WakesKept(s.ec, u, E.Notify(E.One), t);
    case NotifyAll => WakesKept(s.ec, u, E.Notify(E.Every), t);
    case PrepareWait => WakesKept(s.ec, u, E.Prepare, t);
    case CancelWait => WakesKept(s.ec, u, E.Cancel, t);
    case WaitStep(ea) => WakesKept(s.ec, u, ea, t);
    case CallWake(who) => WakesKept(s.ec, u, E.CallWake(who), t);
    case TestRunning =>
    case RecheckRunning =>
    case ClearRunning =>
  }

  lemma {:induction false} OthersKeep(s: State, run: seq<Step>, t: Id)
    requires Inv(s) && Legal(s, run) && S.OthersOnly(run, t)
    ensures Undisturbed(s, After(s, run), t) && Grown(s.q.q, After(s, run).q.q)
    decreases run
  {
    hide Inv, Next, Enabled;
    if run == [] {
    } else {
      assert run[0].t != t;
      NextInv(s, run[0].t, run[0].a);
      OtherStep(s, run[0].t, run[0].a, t);
      Grows(s, run[0].t, run[0].a);
      assert S.OthersOnly(run[1..], t) by { assert forall i :: 0 <= i < |run| - 1 ==> run[1..][i] == run[i + 1]; }
      OthersKeep(Next(s, run[0].t, run[0].a), run[1..], t);
    }
  }

  // -------------------------------------------------------- a producer's steps

  lemma BeginEffect(s: State, t: Id, v: Q.Value)
    requires Inv(s) && Quiet(s, t) && |v| == s.q.q.width
    ensures Enabled(s, t, Produce(Q.Begin(Q.Put(v))))
    ensures var n := Next(s, t, Produce(Q.Begin(Q.Put(v))));
            At(n, t, Q.Probing(Q.Put(v), n.q.q.enq)) && n.q.q == s.q.q
  {
  }

  // A slot already used in a later lap means that the position is gone.
  lemma OvertakenBy(s: Q.State, t: Id, p: nat)
    requires Q.Inv(s) && t in s.ops && s.ops[t].Probing? && s.ops[t].job.Put? && s.ops[t].pos == p
    ensures var n := Q.Next(s, t, Q.LoadSeq); t in n.ops && n.ops[t].Behind? ==> p < s.q.enq
  {
    Q.NextInv(s, t, Q.LoadSeq);
    M.StaleMeans(Q.Next(s, t, Q.LoadSeq), t);
    hide Q.Inv;
  }

  lemma LoadEffect(s: State, t: Id, v: Q.Value, p: nat)
    requires Inv(s) && At(s, t, Q.Probing(Q.Put(v), p))
    ensures Enabled(s, t, Produce(Q.LoadSeq))
    ensures var n := Next(s, t, Produce(Q.LoadSeq));
            && n.q.q == s.q.q
            && (t in n.q.ops ==>
                  At(n, t, Q.Claiming(Q.Put(v), p)) || (At(n, t, Q.Behind(Q.Put(v), p)) && p < n.q.q.enq))
  {
    OvertakenBy(s.q, t, p);
    assert Q.Shape(s.q.q);
    hide Inv, Q.Inv;
  }

  lemma CasEffect(s: State, t: Id, v: Q.Value, p: nat, spurious: bool)
    requires Inv(s) && At(s, t, Q.Claiming(Q.Put(v), p))
    ensures Enabled(s, t, Produce(Q.Cas(spurious)))
    ensures var n := Next(s, t, Produce(Q.Cas(spurious)));
            if R.Holds(n.q.ops[t]) then At(n, t, Q.Filling(v, p, 0)) && p < |n.q.q.tickets| && n.q.q.tickets[p] == v
            else At(n, t, Q.Probing(Q.Put(v), n.q.q.enq)) && (!spurious ==> n.q.q.enq != p)
  {
    assert Q.Shape(s.q.q) && |s.q.q.tickets| == s.q.q.enq;
    hide Inv, Q.Inv;
  }

  lemma ReloadEffect(s: State, t: Id, v: Q.Value, p: nat)
    requires Inv(s) && At(s, t, Q.Behind(Q.Put(v), p))
    ensures Enabled(s, t, Produce(Q.Reload))
    ensures var n := Next(s, t, Produce(Q.Reload));
            n.q.q == s.q.q && At(n, t, Q.Probing(Q.Put(v), n.q.q.enq))
  {
    assert Q.Shape(s.q.q);
    hide Inv, Q.Inv;
  }

  lemma FillEffect(s: State, t: Id, v: Q.Value, p: nat, k: nat)
    requires Inv(s) && At(s, t, Q.Filling(v, p, k)) && k < s.q.q.width
    ensures |v| == s.q.q.width && Enabled(s, t, Produce(Q.CopyByte))
    ensures At(Next(s, t, Produce(Q.CopyByte)), t, Q.Filling(v, p, k + 1))
  {
    assert Q.Shape(s.q.q) && Q.OpOk(s.q.q, t, s.q.ops[t]);
    assert |s.q.q.tickets[p]| == s.q.q.width;
    hide Inv, Q.Inv, Q.OpOk;
  }

  lemma CommitEffect(s: State, t: Id, v: Q.Value, p: nat)
    requires Inv(s) && At(s, t, Q.Filling(v, p, s.q.q.width))
    ensures Enabled(s, t, Produce(Q.Commit))
    ensures var n := Next(s, t, Produce(Q.Commit));
            t !in n.q.ops && t in n.owing && M.Committed(n.q.q, p, v) && p < n.q.q.enq
  {
    M.CommitEffect(s.q, t);
    assert Q.OpOk(s.q.q, t, s.q.ops[t]);
    assert s.q.q.tickets[p] == v && p < s.q.q.enq;
    hide Inv, Q.Inv, Q.OpOk;
  }

  // Still committed after anything.
  lemma StaysCommitted(q: Q.Queue, n: Q.Queue, p: nat, v: Q.Value)
    requires M.Committed(q, p, v) && p < q.enq && Grown(q, n)
    ensures M.Committed(n, p, v) && p < n.enq
  {
  }

  lemma MayNotify(s: State, t: Id)
    requires Inv(s) && t in s.owing
    ensures t > STOPPER && t !in s.ec.wakes && t !in s.q.ops && Enabled(s, t, NotifyOne)
  {
    hide Q.Inv;
  }

  // ----------------------------------------------------- whose commit it was

  // How many entries t has committed.
  function Commits(log: seq<Step>, t: Id): nat {
    Times(log, t, Produce(Q.Commit))
  }

  // How many of its exchanges failed for no reason.
  function SpuriousBy(log: seq<Step>, t: Id): nat {
    Times(log, t, Produce(Q.Cas(true)))
  }

  ghost predicate SameCounts(log: seq<Step>, more: seq<Step>, t: Id) {
    Commits(more, t) == Commits(log, t) && SpuriousBy(more, t) == SpuriousBy(log, t)
  }

  lemma CountsSnoc(log: seq<Step>, t: Id, a: Action)
    ensures Commits(log + [Step(t, a)], t) == Commits(log, t) + if a == Produce(Q.Commit) then 1 else 0
    ensures SpuriousBy(log + [Step(t, a)], t) == SpuriousBy(log, t) + if a == Produce(Q.Cas(true)) then 1 else 0
  {
    TimesSnoc(log, t, a, Produce(Q.Commit));
    TimesSnoc(log, t, a, Produce(Q.Cas(true)));
  }

  lemma CountsOfOthers(log: seq<Step>, run: seq<Step>, t: Id)
    requires S.OthersOnly(run, t)
    ensures SameCounts(log, log + run, t)
  {
    TimesConcat(log, run, t, Produce(Q.Commit));
    TimesConcat(log, run, t, Produce(Q.Cas(true)));
    assert forall a :: Step(t, a) !in run;
  }

  // From step `first` of the log on, t committed this entry under this position.
  ghost predicate Committer(start: State, log: seq<Step>, first: nat, t: Id, v: Q.Value, p: nat) {
    exists i :: first <= i < |log| && CommitsAt(start, log, i, t, v, p)
  }

  ghost predicate CommitsAt(start: State, log: seq<Step>, i: nat, t: Id, v: Q.Value, p: nat)
    requires i < |log|
  {
    && log[i] == Step(t, Produce(Q.Commit)) && Legal(start, log[..i])
    && At(After(start, log[..i]), t, Q.Filling(v, p, |v|))
  }

  lemma CommitterNow(start: State, log: seq<Step>, first: nat, t: Id, v: Q.Value, p: nat)
    requires Legal(start, log) && first <= |log| && At(After(start, log), t, Q.Filling(v, p, |v|))
    ensures Committer(start, log + [Step(t, Produce(Q.Commit))], first, t, v, p)
  {
    assert (log + [Step(t, Produce(Q.Commit))])[..|log|] == log;
    assert CommitsAt(start, log + [Step(t, Produce(Q.Commit))], |log|, t, v, p);
  }

  lemma CommitterLater(start: State, log: seq<Step>, more: seq<Step>, from: nat, first: nat, t: Id, v: Q.Value, p: nat)
    requires Committer(start, log, from, t, v, p) && log <= more && first <= from
    ensures Committer(start, more, first, t, v, p)
  {
    hide Legal, After;
    var i :| from <= i < |log| && CommitsAt(start, log, i, t, v, p);
    assert more[..i] == log[..i];
    assert CommitsAt(start, more, i, t, v, p);
  }

  // ------------------------------------------------------------ enqueue_daemon_log

  method Yield(g: S.LogService, ghost t: Id)
    requires g.Valid()
    modifies g, g.queue, g.queue.slotSeq, g.queue.slotData, g.ec
    ensures g.Valid() && old(g.log) <= g.log
    ensures Undisturbed(old(g.spec), g.spec, t) && Grown(old(g.spec).q.q, g.spec.q.q)
    ensures g.spec.q.q.enq <= old(g.spec).q.q.enq + M.GAP
    ensures SameCounts(old(g.log), g.log, t)
  {
    ghost var s, log := g.spec, g.log;
    hide S.LogService.Parts, Inv, Commits, SpuriousBy;
    ghost var run := g.Others(t);
    OthersKeep(s, run, t);
    CountsOfOthers(log, run, t);
  }

  method LoadTail(g: S.LogService, t: Id, ghost v: Q.Value) returns (pos: Word)
    requires g.Valid() && Quiet(g.spec, t) && |v| == g.spec.q.q.width
    modifies g`spec, g`log, g.queue`spec
    ensures g.Valid() && g.log == old(g.log) + [Step(t, Produce(Q.Begin(Q.Put(v))))]
    ensures SameCounts(old(g.log), g.log, t)
    ensures At(g.spec, t, Q.Probing(Q.Put(v), g.spec.q.q.enq)) && pos == Wrap(g.spec.q.q.enq)
    ensures Grown(old(g.spec).q.q, g.spec.q.q) && SameDebts(old(g.spec), g.spec)
  {
    BeginEffect(g.spec, t, v);
    QueueShare(g.spec, t, Q.Begin(Q.Put(v)));
    CountsSnoc(g.log, t, Produce(Q.Begin(Q.Put(v))));
    hide Inv, Legal, After, S.LogService.SpecOk, Next, Enabled, Q.Next, Q.Enabled, Wrap, Commits, SpuriousBy;
    pos := g.queue.LoadPosition(t, true, Q.Put(v));
    g.Follow(t, Produce(Q.Begin(Q.Put(v))));
  }

  // The load of the sequence word, and the branch taken on it.
  method LoadSequence(g: S.LogService, t: Id, pos: Word, ghost v: Q.Value, ghost p: nat)
    returns (slot: nat, d: M.Decision)
    requires g.Valid() && At(g.spec, t, Q.Probing(Q.Put(v), p)) && pos == Wrap(p)
    requires p <= g.spec.q.q.enq <= p + 2 * M.GAP
    modifies g`spec, g`log, g.queue`spec
    ensures g.Valid() && g.log == old(g.log) + [Step(t, Produce(Q.LoadSeq))]
    ensures SameCounts(old(g.log), g.log, t)
    ensures g.spec.q.q == old(g.spec).q.q && SameDebts(old(g.spec), g.spec)
    ensures slot == Q.Slot(p, g.queue.slotMask + 1)
    ensures d.Claimable? ==> At(g.spec, t, Q.Claiming(Q.Put(v), p))
    ensures d.Stale? ==> At(g.spec, t, Q.Behind(Q.Put(v), p)) && p < g.spec.q.q.enq
    ensures d.Refuse? ==> t !in g.spec.q.ops && R.Blocked(g.spec.q.q, true)
  {
    LoadEffect(g.spec, t, v, p);
    R.RefusedIff(g.spec.q, t);
    QueueShare(g.spec, t, Q.LoadSeq);
    CountsSnoc(g.log, t, Produce(Q.LoadSeq));
    hide Inv, Legal, After, S.LogService.SpecOk, Next, Enabled, Q.Next, Q.Enabled, Wrap, Q.Slot, R.Blocked;
    hide Commits, SpuriousBy;
    slot, d := g.queue.LoadSequence(t, true, pos);
    g.Follow(t, Produce(Q.LoadSeq));
  }

  method ExchangeTail(g: S.LogService, t: Id, pos: Word, spurious: bool, ghost v: Q.Value, ghost p: nat)
    returns (ok: bool, now: Word)
    requires g.Valid() && At(g.spec, t, Q.Claiming(Q.Put(v), p)) && pos == Wrap(p)
    requires p <= g.spec.q.q.enq <= p + 2 * M.GAP
    modifies g`spec, g`log, g.queue
    ensures g.Valid() && g.log == old(g.log) + [Step(t, Produce(Q.Cas(spurious)))]
    ensures Commits(g.log, t) == Commits(old(g.log), t)
    ensures SpuriousBy(g.log, t) == SpuriousBy(old(g.log), t) + if spurious then 1 else 0
    ensures Grown(old(g.spec).q.q, g.spec.q.q) && SameDebts(old(g.spec), g.spec)
    ensures if ok then At(g.spec, t, Q.Filling(v, p, 0))
            else
              && At(g.spec, t, Q.Probing(Q.Put(v), g.spec.q.q.enq)) && now == Wrap(g.spec.q.q.enq)
              && (!spurious ==> p < g.spec.q.q.enq)
  {
    CasEffect(g.spec, t, v, p, spurious);
    Grows(g.spec, t, Produce(Q.Cas(spurious)));
    QueueShare(g.spec, t, Q.Cas(spurious));
    CountsSnoc(g.log, t, Produce(Q.Cas(spurious)));
    hide Inv, Legal, After, S.LogService.SpecOk, Next, Enabled, Q.Next, Q.Enabled, Wrap, Grown, Commits, SpuriousBy;
    ok, now := g.queue.CompareExchange(t, true, pos, spurious);
    g.Follow(t, Produce(Q.Cas(spurious)));
  }

  method ReloadTail(g: S.LogService, t: Id, ghost v: Q.Value, ghost p: nat) returns (pos: Word)
    requires g.Valid() && At(g.spec, t, Q.Behind(Q.Put(v), p))
    modifies g`spec, g`log, g.queue`spec
    ensures g.Valid() && g.log == old(g.log) + [Step(t, Produce(Q.Reload))]
    ensures SameCounts(old(g.log), g.log, t)
    ensures g.spec.q.q == old(g.spec).q.q && SameDebts(old(g.spec), g.spec)
    ensures At(g.spec, t, Q.Probing(Q.Put(v), g.spec.q.q.enq)) && pos == Wrap(g.spec.q.q.enq)
  {
    ReloadEffect(g.spec, t, v, p);
    QueueShare(g.spec, t, Q.Reload);
    CountsSnoc(g.log, t, Produce(Q.Reload));
    hide Inv, Legal, After, S.LogService.SpecOk, Next, Enabled, Q.Next, Q.Enabled, Wrap, Commits, SpuriousBy;
    pos := g.queue.ReloadPosition(t, true);
    g.Follow(t, Produce(Q.Reload));
  }

  method WriteByte(g: S.LogService, t: Id, slot: nat, k: nat, v: Q.Value, ghost p: nat)
    requires g.Valid() && At(g.spec, t, Q.Filling(v, p, k)) && k < g.spec.q.q.width && |v| == g.spec.q.q.width
    requires slot == Q.Slot(p, g.queue.slotMask + 1)
    modifies g`spec, g`log, g.queue`spec, g.queue.slotData
    ensures g.Valid() && g.log == old(g.log) + [Step(t, Produce(Q.CopyByte))]
    ensures SameCounts(old(g.log), g.log, t)
    ensures Grown(old(g.spec).q.q, g.spec.q.q) && SameDebts(old(g.spec), g.spec)
    ensures At(g.spec, t, Q.Filling(v, p, k + 1))
  {
    FillEffect(g.spec, t, v, p, k);
    Grows(g.spec, t, Produce(Q.CopyByte));
    QueueShare(g.spec, t, Q.CopyByte);
    CountsSnoc(g.log, t, Produce(Q.CopyByte));
    hide Inv, Legal, After, S.LogService.SpecOk, Next, Enabled, Q.Next, Q.Enabled, Wrap, Q.Slot, Grown;
    hide Commits, SpuriousBy;
    g.queue.WriteByte(t, slot, k, v[k]);
    g.Follow(t, Produce(Q.CopyByte));
  }

  // commit_enqueue_mpmc
  method CommitTail(g: S.LogService, t: Id, slot: nat, pos: Word, ghost v: Q.Value, ghost p: nat)
    requires g.Valid() && At(g.spec, t, Q.Filling(v, p, g.spec.q.q.width)) && pos == Wrap(p)
    requires |v| == g.spec.q.q.width
    requires slot == Q.Slot(p, g.queue.slotMask + 1)
    modifies g`spec, g`log, g.queue`spec, g.queue.slotSeq
    ensures g.Valid() && g.log == old(g.log) + [Step(t, Produce(Q.Commit))]
    ensures Commits(g.log, t) == Commits(old(g.log), t) + 1
    ensures Committer(g.start, g.log, |old(g.log)|, t, v, p)
    ensures t in g.spec.owing && M.Committed(g.spec.q.q, p, v) && p < g.spec.q.q.enq
  {
    CommitterNow(g.start, g.log, |g.log|, t, v, p);
    CommitEffect(g.spec, t, v, p);
    QueueShare(g.spec, t, Q.Commit);
    CountsSnoc(g.log, t, Produce(Q.Commit));
    hide Inv, Legal, After, S.LogService.SpecOk, Next, Enabled, Q.Next, Q.Enabled, Wrap, Q.Slot;
    hide M.Committed, Commits, SpuriousBy, Committer;
    g.queue.StoreSequence(t, true, slot, pos);
    g.Follow(t, Produce(Q.Commit));
  }

  // The fetch-add of ec_notify: whether FUTEX_WAKE must be called.
  method NotifyConsumer(g: S.LogService, t: Id) returns (mustWake: bool)
    requires g.Valid() && t in g.spec.owing
    modifies g`spec, g`log, g.ec
    ensures g.Valid() && g.log == old(g.log) + [Step(t, NotifyOne)] && g.spec.q == old(g.spec).q
    ensures SameCounts(old(g.log), g.log, t)
    ensures t > STOPPER && t !in g.spec.q.ops && t !in g.spec.owing && (mustWake <==> t in g.spec.ec.wakes)
  {
    MayNotify(g.spec, t);
    CountsSnoc(g.log, t, NotifyOne);
    hide Inv, Legal, After, S.LogService.SpecOk, Commits, SpuriousBy;
    mustWake := g.ec.FetchAddEpoch(t, E.One);
    g.Follow(t, NotifyOne);
  }

  method WakeConsumer(g: S.LogService, t: Id)
    requires g.Valid() && t in g.spec.ec.wakes
    modifies g`spec, g`log, g.ec
    ensures g.Valid() && old(g.log) <= g.log && g.spec.q == old(g.spec).q
    ensures SameCounts(old(g.log), g.log, t)
    ensures g.spec.owing == old(g.spec).owing && t !in g.spec.ec.wakes
  {
    ghost var who := E.Sleeper(g.spec.ec);
    S.WakeMade(g.spec, t, who);
    CountsSnoc(g.log, t, CallWake(who));
    hide Commits, SpuriousBy, Inv, Legal, After, S.LogService.SpecOk, E.Next, Next, E.Sleeper;
    g.ec.FutexWake(t, who);
    g.Follow(t, CallWake(who));
  }

  // --------------------------------------------------------------------- loops

  // reserve_enqueue_mpmc, cut off after `rounds` rounds: each of them then was a
  // spurious failure or lost to another reservation.
  method ReserveTail(g: S.LogService, t: Id, ghost v: Q.Value, rounds: nat) returns (r: M.Outcome, ghost p: nat)
    requires g.Valid() && Quiet(g.spec, t) && |v| == g.spec.q.q.width
    modifies g, g.queue, g.queue.slotSeq, g.queue.slotData, g.ec
    ensures g.Valid() && old(g.log) <= g.log && Grown(old(g.spec).q.q, g.spec.q.q)
    ensures t !in g.spec.owing && t !in g.spec.ec.wakes && Commits(g.log, t) == Commits(old(g.log), t)
    ensures r.Reserved? ==>
              At(g.spec, t, Q.Filling(v, p, 0)) && r.slot == Q.Slot(p, g.queue.slotMask + 1) && r.pos == Wrap(p)
    ensures r.Reserved? ==> old(g.spec).q.q.enq <= p
    ensures r.Refused? ==> t !in g.spec.q.ops && R.Blocked(g.spec.q.q, true)
    ensures r.Unfinished? ==>
              && At(g.spec, t, Q.Probing(Q.Put(v), p))
              && rounds <= SpuriousBy(g.log, t) - SpuriousBy(old(g.log), t) + g.spec.q.q.enq - old(g.spec).q.q.enq
  {
    hide S.LogService.Valid, S.LogService.SpecOk, S.LogService.Parts, Q.Slot, Wrap, R.Blocked, Commits, SpuriousBy;
    Yield(g, t);
    var pos := LoadTail(g, t, v);
    p := g.spec.q.q.enq;
    var left := rounds;
    while left > 0
      invariant g.Valid() && old(g.log) <= g.log && Grown(old(g.spec).q.q, g.spec.q.q)
      invariant t !in g.spec.owing && t !in g.spec.ec.wakes && Commits(g.log, t) == Commits(old(g.log), t)
      invariant At(g.spec, t, Q.Probing(Q.Put(v), p)) && p == g.spec.q.q.enq && pos == Wrap(p)
      invariant old(g.spec).q.q.enq <= p
      invariant rounds - left <= SpuriousBy(g.log, t) - SpuriousBy(old(g.log), t) + p - old(g.spec).q.q.enq
    {
      left := left - 1;
      var done, refused, slot;
      done, refused, slot, pos, p := TryTail(g, t, pos, v, p);
      if done { return M.Reserved(slot, pos), p; }
      if refused { return M.Refused, p; }
    }
    r := M.Unfinished;
  }

  // One round of that loop.
  method TryTail(g: S.LogService, t: Id, pos: Word, ghost v: Q.Value, ghost p: nat)
    returns (done: bool, refused: bool, slot: nat, now: Word, ghost p': nat)
    requires g.Valid() && At(g.spec, t, Q.Probing(Q.Put(v), p)) && p == g.spec.q.q.enq && pos == Wrap(p)
    requires t !in g.spec.owing && t !in g.spec.ec.wakes
    modifies g, g.queue, g.queue.slotSeq, g.queue.slotData, g.ec
    ensures g.Valid() && old(g.log) <= g.log && Grown(old(g.spec).q.q, g.spec.q.q)
    ensures t !in g.spec.owing && t !in g.spec.ec.wakes && Commits(g.log, t) == Commits(old(g.log), t)
    ensures p <= p'
    ensures done ==>
              At(g.spec, t, Q.Filling(v, p', 0)) && slot == Q.Slot(p', g.queue.slotMask + 1) && now == Wrap(p')
    ensures !done && refused ==> t !in g.spec.q.ops && R.Blocked(g.spec.q.q, true)
    ensures !done && !refused ==>
              && At(g.spec, t, Q.Probing(Q.Put(v), p')) && p' == g.spec.q.q.enq && now == Wrap(p')
              && 1 <= SpuriousBy(g.log, t) - SpuriousBy(old(g.log), t) + p' - p
  {
    hide S.LogService.Valid, S.LogService.SpecOk, S.LogService.Parts, Q.Slot, Wrap, R.Blocked, Commits, SpuriousBy;
    done, refused, now, p' := false, false, pos, p;
    Yield(g, t);
    var d;
    slot, d := LoadSequence(g, t, pos, v, p);
    if d.Refuse? {
      refused := true;
    } else if d.Claimable? {
      Yield(g, t);
      var spurious: bool := *;
      var found;
      done, found := ExchangeTail(g, t, pos, spurious, v, p);
      if !done { now, p' := found, g.spec.q.q.enq; }
    } else {
      Yield(g, t);
      now := ReloadTail(g, t, v, p);
      p' := g.spec.q.q.enq;
    }
  }

  // Filling in the entry.
  method FillEntry(g: S.LogService, t: Id, slot: nat, v: Q.Value, ghost p: nat)
    requires g.Valid() && At(g.spec, t, Q.Filling(v, p, 0)) && slot == Q.Slot(p, g.queue.slotMask + 1)
    requires |v| == g.spec.q.q.width
    modifies g, g.queue, g.queue.slotSeq, g.queue.slotData, g.ec
    ensures g.Valid() && old(g.log) <= g.log && Grown(old(g.spec).q.q, g.spec.q.q)
    ensures At(g.spec, t, Q.Filling(v, p, |v|)) && Commits(g.log, t) == Commits(old(g.log), t)
  {
    hide S.LogService.Valid, S.LogService.SpecOk, S.LogService.Parts, Q.Slot, Wrap, Commits, SpuriousBy;
    for k := 0 to |v|
      invariant g.Valid() && old(g.log) <= g.log && Grown(old(g.spec).q.q, g.spec.q.q)
      invariant At(g.spec, t, Q.Filling(v, p, k)) && Commits(g.log, t) == Commits(old(g.log), t)
    {
      Yield(g, t);
      WriteByte(g, t, slot, k, v, p);
    }
  }

  // Committing the entry and waking the consumer.
  method Announce(g: S.LogService, t: Id, slot: nat, pos: Word, ghost v: Q.Value, ghost p: nat)
    requires g.Valid() && At(g.spec, t, Q.Filling(v, p, g.spec.q.q.width)) && pos == Wrap(p)
    requires |v| == g.spec.q.q.width
    requires slot == Q.Slot(p, g.queue.slotMask + 1)
    modifies g, g.queue, g.queue.slotSeq, g.queue.slotData, g.ec
    ensures g.Valid() && old(g.log) <= g.log && Quiet(g.spec, t) && M.Committed(g.spec.q.q, p, v)
    ensures Commits(g.log, t) == Commits(old(g.log), t) + 1 && Committer(g.start, g.log, |old(g.log)|, t, v, p)
  {
    hide S.LogService.Valid, S.LogService.SpecOk, S.LogService.Parts, Q.Slot, Wrap, M.Committed;
    hide Commits, SpuriousBy, Committer;
    Yield(g, t);
    ghost var from := |g.log|;
    CommitTail(g, t, slot, pos, v, p);
    ghost var log := g.log;
    ghost var q := g.spec.q.q;
    Yield(g, t);
    StaysCommitted(q, g.spec.q.q, p, v);
    var mustWake := NotifyConsumer(g, t);
    if mustWake {
      q := g.spec.q.q;
      Yield(g, t);
      StaysCommitted(q, g.spec.q.q, p, v);
      WakeConsumer(g, t);
    }
    CommitterLater(g.start, log, g.log, from, |old(g.log)|, t, v, p);
  }

  // enqueue_daemon_log: `wanted` is the test on level, format and mode, `v` the
  // entry as written into the slot.  The position is new, and the one commit t
  // makes is the one that commits the entry there.
  method EnqueueLog(g: S.LogService, t: Id, wanted: bool, v: Q.Value, rounds: nat) returns (r: M.Outcome, ghost p: nat)
    requires g.Valid() && Quiet(g.spec, t) && |v| == g.spec.q.q.width
    modifies g, g.queue, g.queue.slotSeq, g.queue.slotData, g.ec
    ensures g.Valid() && old(g.log) <= g.log
    ensures !wanted ==> r.Refused? && g.log == old(g.log)
    ensures !r.Unfinished? ==> Quiet(g.spec, t)
    ensures r.Reserved? ==>
              && M.Committed(g.spec.q.q, p, v) && old(g.spec).q.q.enq <= p
              && Committer(g.start, g.log, |old(g.log)|, t, v, p)
    ensures Commits(g.log, t) == Commits(old(g.log), t) + if r.Reserved? then 1 else 0
    ensures wanted && r.Refused? ==> R.Blocked(g.spec.q.q, true)
    ensures r.Unfinished? ==>
              rounds <= SpuriousBy(g.log, t) - SpuriousBy(old(g.log), t) + g.spec.q.q.enq - old(g.spec).q.q.enq
  {
    hide S.LogService.Valid, S.LogService.SpecOk, S.LogService.Parts, Q.Slot, Wrap;
    hide M.Committed, R.Blocked, Commits, SpuriousBy, Committer;
    p := 0;
    if !wanted { return M.Refused, p; }
    r, p := ReserveTail(g, t, v, rounds);
    if r.Reserved? {
      FillEntry(g, t, r.slot, v, p);
      ghost var from := |g.log|;
      Announce(g, t, r.slot, r.pos, v, p);
      CommitterLater(g.start, g.log, g.log, from, |old(g.log)|, t, v, p);
    }
  }
}
