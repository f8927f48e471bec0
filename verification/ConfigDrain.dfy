// The end of config_update: how the writer gets out of its drain loop.
module ConfigDrain {
  import E = EventCount
  import opened ConfigProtocol
  import opened ConfigRuns

  // Swapped and not yet unlocked.
  predicate Finishing(w: Writer) {
    Draining(w) || w.Cancelling? || w.Unlocking?
  }

  // The steps of the thread that holds the lock, from the swap on.
  predicate ByWriter(a: Action) {
    a.PrepareWait? || a.LoadCount? || a.CancelWait? || a.WaitStep? || a.Unlock?
  }

  predicate SpuriousReturn(a: Action) {
    a == WaitStep(E.Spurious)
  }

  // No reader is near the old buffer any more.
  ghost predicate Clear(s: State) {
    Draining(s.writer) ==> Measure(s.readers, s.writer.was) == 0
  }

  // ---------------------------------------------------------------- not stuck

  function WriterAction(s: State): Action {
    if s.writer.Waiting? && s.owner in s.ec.waiters then
      (match s.ec.waiters[s.owner]
       case Registered(_) => WaitStep(E.TestEpoch)
       case Calling(_) => WaitStep(E.Block)
       case _ => WaitStep(E.Leave))
    else
      (match s.writer
       case Preparing(_) => PrepareWait
       case Checking(_) => LoadCount
       case Cancelling(_) => CancelWait
       case _ => Unlock)
  }

  // Once the readers of the old buffer are through, the writer always has a step
  // of its own, or is asleep with somebody about to wake it.
  lemma WriterNotStuck(s: State)
    requires Inv(s) && Finishing(s.writer) && Clear(s) && Timely(s, s.owner)
    ensures (exists a :: ByWriter(a) && Enabled(s, s.owner, a)) || (Asleep(s) && Rescue(s))
  {
    if Draining(s.writer) { DrainEnds(s); }
    if s.writer.Waiting? && Asleep(s) {
      Rescued(s);
    } else {
      WriterMoves(s);
    }
  }

  lemma WriterMoves(s: State)
    requires Inv(s) && Finishing(s.writer) && Timely(s, s.owner)
    requires !(s.writer.Waiting? && Asleep(s))
    ensures ByWriter(WriterAction(s)) && Enabled(s, s.owner, WriterAction(s))
  {
    assert |s.conf| == |s.refcnt| == 2;
    hide CountsOk, HoldersOk, SeenOk, Alert, E.Inv;
    assert WaitRegistered(s.writer) ==> s.owner in s.ec.waiters.Keys;
    assert s.writer.Preparing? ==> s.owner !in s.ec.waiters.Keys;
  }

  // --------------------------------------------------------------------- rank

  function Rank(s: State): nat {
    match s.writer
    case Unlocking(_) => 1
    case Cancelling(_) => 2
    case Checking(_) => 3
    case Preparing(_) => 4
    case Waiting(_) => E.EcRank(s.ec, s.owner)
    case _ => 0
  }

  lemma StepRank(s: State, t: Id, a: Action)
    requires Inv(s) && Enabled(s, t, a) && Finishing(s.writer) && Clear(s) && Timely(s, s.owner)
    ensures var less := Rank(s) - Rank(Next(s, t, a));
            if !ByWriter(a) then less >= 0
            else if SpuriousReturn(a) then less >= -2
            else less >= 1
  {
    if Draining(s.writer) { DrainEnds(s); }
    assert E.KeysPast(s.ec);
    hide Inv, Clear, Rank, Next, E.Enabled, E.KeysPast;
    match a
    case Notify => OtherRank(s, t, a, E.Notify(E.One));
    case CallWake(who) => OtherRank(s, t, a, E.CallWake(who));
    case WaitStep(ea) => OwnRank(s, t, ea);
    case _ => if ByWriter(a) { TurnRank(s, t, a); } else { ReaderRank(s, t, a); }
  }

  // The writer's steps outside ec_wait, the last of which unlocks.
  lemma TurnRank(s: State, t: Id, a: Action)
    requires Enabled(s, t, a) && (a.PrepareWait? || a.LoadCount? || a.CancelWait? || a.Unlock?)
    requires Draining(s.writer) ==> s.refcnt[s.writer.was] == 0
    ensures Rank(Next(s, t, a)) < Rank(s)
  {
    hide E.Enabled, E.Next;
  }

  // A reader's steps, but for its notification, leave the wait alone.
  lemma ReaderRank(s: State, t: Id, a: Action)
    requires Enabled(s, t, a) && Finishing(s.writer)
    requires !ByWriter(a) && !a.Notify? && !a.CallWake?
    ensures Rank(Next(s, t, a)) == Rank(s)
  {
    hide E.Enabled, E.Next, E.EcRank;
  }

  lemma OtherRank(s: State, t: Id, a: Action, ea: E.Action)
    requires Enabled(s, t, a) && E.Enabled(s.ec, t, ea) && E.KeysPast(s.ec)
    requires (a.Notify? && ea == E.Notify(E.One)) || (a.CallWake? && ea == E.CallWake(a.who))
    ensures Rank(Next(s, t, a)) <= Rank(s)
  {
    E.OtherEcRank(s.ec, t, ea, s.owner);
    hide E.EcRank, E.Enabled, E.Next, E.KeysPast;
    WriterApart(s, t, a, ea);
    hide Next, Enabled;
  }

  lemma WriterApart(s: State, t: Id, a: Action, ea: E.Action)
    requires Enabled(s, t, a) && E.Enabled(s.ec, t, ea)
    requires (a.Notify? && ea == E.Notify(E.One)) || (a.CallWake? && ea == E.CallWake(a.who))
    ensures var n := Next(s, t, a); n.ec == E.Next(s.ec, t, ea) && n.writer == s.writer && n.owner == s.owner
  {
  }

  lemma OwnRank(s: State, t: Id, ea: E.Action)
    requires Enabled(s, t, WaitStep(ea)) && E.KeysPast(s.ec) && Timely(s, s.owner)
    ensures var n := Next(s, t, WaitStep(ea));
            if ea.Spurious? then Rank(n) <= Rank(s) + 2 else Rank(n) < Rank(s)
  {
    E.OwnEcRank(s.ec, ea, t);
    hide E.EcRank;
  }

  // -------------------------------------------------------------------- runs

  ghost predicate KeepsFinishing(s: State, run: seq<Step>)
    requires Legal(s, run)
    decreases run
  {
    run == [] ||
    (&& Finishing(s.writer) && Timely(s, s.owner)
     && KeepsFinishing(Next(s, run[0].t, run[0].a), run[1..]))
  }

  function WriterSteps(run: seq<Step>): nat {
    if run == [] then 0
    else (if ByWriter(run[0].a) && !SpuriousReturn(run[0].a) then 1 else 0) + WriterSteps(run[1..])
  }

  function SpuriousReturns(run: seq<Step>): nat {
    if run == [] then 0
    else (if SpuriousReturn(run[0].a) then 1 else 0) + SpuriousReturns(run[1..])
  }

  lemma StaysClear(s: State, t: Id, a: Action)
    requires Inv(s) && Enabled(s, t, a) && Finishing(s.writer) && Clear(s)
    ensures Clear(Next(s, t, a))
  {
    if Draining(s.writer) {
      DrainStep(s, t, a);
      if Draining(Next(s, t, a).writer) { SameDrain(s, t, a); }
    }
    hide Inv, Measure;
  }

  lemma {:induction false} RankFalls(s: State, run: seq<Step>)
    requires Inv(s) && Clear(s) && Legal(s, run) && KeepsFinishing(s, run)
    ensures WriterSteps(run) + Rank(After(s, run)) <= Rank(s) + 2 * SpuriousReturns(run)
    decreases run
  {
    hide Inv, Clear, Next, Enabled, Rank, Finishing, Timely;
    if run == [] {
    } else {
      var t, a := run[0].t, run[0].a;
      NextInv(s, t, a);
      StaysClear(s, t, a);
      StepRank(s, t, a);
      RankFalls(Next(s, t, a), run[1..]);
    }
  }

  // Once the readers of the old buffer are through, the writer is out of the loop
  // and has unlocked within ten steps of its own, and three more for each wake-up
  // call that was still under way; returns nobody asked for aside.
  lemma DrainStepsBound(s: State, run: seq<Step>)
    requires Inv(s) && Clear(s) && Legal(s, run) && KeepsFinishing(s, run)
    ensures WriterSteps(run) <= 10 + 3 * |s.ec.wakes| + 2 * SpuriousReturns(run)
  {
    RankFalls(s, run);
    assert Rank(s) <= 10 + 3 * |s.ec.wakes|;
  }

  // ------------------------------------------------------------------- rounds

  // Turns of the drain loop that went all the way through ec_wait.
  function Rounds(run: seq<Step>): nat {
    if run == [] then 0
    else (if run[0].a == WaitStep(E.Leave) then 1 else 0) + Rounds(run[1..])
  }

  function Notifications(run: seq<Step>): nat {
    if run == [] then 0
    else (if run[0].a.Notify? then 1 else 0) + Notifications(run[1..])
  }

  // Whether a wait that is under way has been notified.
  ghost function Owed(s: State): nat {
    if Told(s) then 1 else 0
  }

  lemma OwedStep(s: State, t: Id, a: Action)
    requires Inv(s) && Enabled(s, t, a)
    ensures (if a == WaitStep(E.Leave) then 1 else 0) + Owed(Next(s, t, a))
            <= Owed(s) + (if a.Notify? then 1 else 0)
  {
    hide CountsOk, BuffersOk, HoldersOk, SeenOk, Alert;
    assert a.Lock? ==> s.ec.waiters.Keys == {};
  }

  // However many readers come and go, and of whichever buffer: the loop goes
  // round at most once per notification, and once for one sent before.
  lemma {:induction false} RoundsBound(s: State, run: seq<Step>)
    requires Inv(s) && Legal(s, run)
    ensures Rounds(run) + Owed(After(s, run)) <= Notifications(run) + Owed(s)
    ensures Rounds(run) <= Notifications(run) + 1
    decreases run
  {
    hide Inv, Next, Enabled;
    if run == [] {
    } else {
      NextInv(s, run[0].t, run[0].a);
      OwedStep(s, run[0].t, run[0].a);
      RoundsBound(Next(s, run[0].t, run[0].a), run[1..]);
    }
  }
}
