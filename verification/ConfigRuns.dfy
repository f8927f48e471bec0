// What config_acquire, config_release and config_update promise together, over
// every interleaving of any number of readers and writers.
module ConfigRuns {
  import E = EventCount
  import opened ConfigProtocol

  datatype Step = Step(t: Id, a: Action)

  ghost predicate Legal(s: State, run: seq<Step>)
    decreases run
  {
    run == [] || (Enabled(s, run[0].t, run[0].a) && Legal(Next(s, run[0].t, run[0].a), run[1..]))
  }

  ghost function After(s: State, run: seq<Step>): State
    requires Legal(s, run)
    decreases run
  {
    if run == [] then s else After(Next(s, run[0].t, run[0].a), run[1..])
  }

  lemma InitInv()
    ensures Inv(INIT)
  {
    assert Users(map[], 0) == {} && Users(map[], 1) == {};
  }

  lemma {:induction false} RunInv(s: State, run: seq<Step>)
    requires Inv(s) && Legal(s, run)
    ensures Inv(After(s, run))
    ensures s.published <= After(s, run).published
    decreases run
  {
    if run == [] {
    } else {
      NextInv(s, run[0].t, run[0].a);
      RunInv(Next(s, run[0].t, run[0].a), run[1..]);
    }
  }

  ghost predicate Reachable(s: State) {
    exists run :: Legal(INIT, run) && s == After(INIT, run)
  }

  lemma ReachableInv(s: State)
    requires Reachable(s)
    ensures Inv(s)
  {
    var run :| Legal(INIT, run) && s == After(INIT, run);
    InitInv();
    RunInv(INIT, run);
  }

  // ------------------------------------------------- exclusion and snapshots

  // A buffer being loaded is held by no reader, and what a reader holds is one
  // whole published configuration; with no update under way it is the latest.
  lemma Exclusion(s: State, t: Id)
    requires Reachable(s) && t in s.readers && s.readers[t].Holding?
    ensures s.writer.Loading? ==> s.readers[t].idx != Other(s.writer.was)
    ensures s.readers[t].version < |s.published|
    ensures |s.conf| == 2 && s.conf[s.readers[t].idx] == s.published[s.readers[t].version]
    ensures s.writer.Free? || s.writer.Loading? || s.writer.Unlocking? ==>
              s.readers[t].idx == s.active && s.readers[t].version == Current(s)
  {
    ReachableInv(s);
    assert VersionOk(s, s.readers[t].idx, s.readers[t].version);
  }

  // As long as a reader holds the same version it reads the same values,
  // whatever updates begin, fail or complete meanwhile.
  lemma SnapshotStable(s: State, run: seq<Step>, t: Id)
    requires Reachable(s) && Legal(s, run)
    requires t in s.readers && s.readers[t].Holding?
    requires t in After(s, run).readers && After(s, run).readers[t].Holding?
    requires After(s, run).readers[t].version == s.readers[t].version
    ensures |s.conf| == |After(s, run).conf| == 2
    ensures After(s, run).conf[After(s, run).readers[t].idx] == s.conf[s.readers[t].idx]
  {
    ReachableInv(s);
    RunInv(s, run);
    ExtendReachable(s, run);
    Exclusion(s, t);
    Exclusion(After(s, run), t);
  }

  lemma ExtendReachable(s: State, run: seq<Step>)
    requires Reachable(s) && Legal(s, run)
    ensures Reachable(After(s, run))
  {
    var first :| Legal(INIT, first) && s == After(INIT, first);
    Concat(INIT, first, run);
    assert Legal(INIT, first + run);
  }

  lemma {:induction false} Concat(s: State, run: seq<Step>, more: seq<Step>)
    requires Legal(s, run) && Legal(After(s, run), more)
    ensures Legal(s, run + more) && After(s, run + more) == After(After(s, run), more)
    decreases run
  {
    if run == [] {
      assert run + more == more;
    } else {
      assert (run + more)[1..] == run[1..] + more;
      Concat(Next(s, run[0].t, run[0].a), run[1..], more);
    }
  }

  // ------------------------------------------------------------- grace period

  // Every reader holds at least this version.
  ghost predicate AtLeast(s: State, version: int) {
    && version <= Current(s)
    && forall t :: t in s.readers && s.readers[t].Holding? ==> version <= s.readers[t].version
  }

  lemma {:induction false} NoWayBack(s: State, run: seq<Step>, version: int)
    requires Inv(s) && Legal(s, run) && AtLeast(s, version)
    ensures AtLeast(After(s, run), version)
    decreases run
  {
    if run == [] {
    } else {
      NextInv(s, run[0].t, run[0].a);
      StepAtLeast(s, run[0].t, run[0].a, version);
      NoWayBack(Next(s, run[0].t, run[0].a), run[1..], version);
    }
  }

  lemma StepAtLeast(s: State, t: Id, a: Action, version: int)
    requires Inv(s) && Enabled(s, t, a) && AtLeast(s, version)
    ensures AtLeast(Next(s, t, a), version)
  {
    hide Inv;
  }

  // When the writer loads a zero count, no reader holds the previous version and
  // none ever will again.
  lemma GracePeriod(s: State, run: seq<Step>)
    requires Reachable(s) && Enabled(s, s.owner, LoadCount) && s.refcnt[s.writer.was] == 0
    requires Legal(Next(s, s.owner, LoadCount), run)
    ensures AtLeast(After(Next(s, s.owner, LoadCount), run), Current(s))
  {
    ReachableInv(s);
    ZeroCount(s.refcnt, s.readers, s.writer.was);
    var n := Next(s, s.owner, LoadCount);
    assert forall t :: t in s.readers && s.readers[t].Holding? ==> VersionOk(s, s.readers[t].idx, s.readers[t].version);
    NextInv(s, s.owner, LoadCount);
    NoWayBack(n, run, Current(s));
  }

  // Each thread's successive acquires see non-decreasing versions.
  lemma {:induction false} MonotoneVersions(s: State, run: seq<Step>, t: Id)
    requires Inv(s) && Legal(s, run) && t in s.seen
    ensures t in After(s, run).seen && s.seen[t] <= After(s, run).seen[t]
    decreases run
  {
    if run == [] {
    } else {
      NextInv(s, run[0].t, run[0].a);
      StepSeen(s, run[0].t, run[0].a, t);
      MonotoneVersions(Next(s, run[0].t, run[0].a), run[1..], t);
    }
  }

  lemma StepSeen(s: State, u: Id, a: Action, t: Id)
    requires SeenOk(s) && Enabled(s, u, a) && t in s.seen
    ensures t in Next(s, u, a).seen && s.seen[t] <= Next(s, u, a).seen[t]
  {
  }

  // ------------------------------------------------------------ writer wakeup

  ghost predicate Asleep(s: State) {
    s.owner in s.ec.waiters && s.ec.waiters[s.owner].Asleep?
  }

  // Some reader is about to notify, or the epoch has moved and somebody is about
  // to call FUTEX_WAKE.
  ghost predicate Rescue(s: State) {
    || (exists t :: t in s.readers && Enabled(s, t, Notify))
    || (Told(s) && exists t :: t in s.ec.wakes && Enabled(s, t, CallWake(s.owner)))
  }

  // The writer never sleeps on a drained buffer without being woken.
  lemma NoLostWakeup(s: State)
    requires Reachable(s) && Asleep(s) && s.writer.Waiting? && |s.refcnt| == 2 && s.refcnt[s.writer.was] == 0
    ensures Rescue(s)
  {
    ReachableInv(s);
    Rescued(s);
  }

  lemma Rescued(s: State)
    requires Inv(s) && Asleep(s) && s.writer.Waiting? && |s.refcnt| == 2 && s.refcnt[s.writer.was] == 0
    ensures Rescue(s)
  {
    if Told(s) {
      var t :| t in s.ec.wakes;
      assert E.AnyAsleep(s.ec);
      assert Enabled(s, t, CallWake(s.owner));
    } else {
      var t :| t in s.readers && s.readers[t].MustNotify?;
      assert Enabled(s, t, Notify);
    }
  }

  // Fewer than 2^32 notifications since t registered its wait.
  ghost predicate Timely(s: State, t: Id) {
    t in s.ec.waiters ==> s.ec.notifies < s.ec.waiters[t].key + E.EPOCH
  }

  // ------------------------------------------------------------ drain measure

  // Steps the readers near buffer i can still take on its count.
  function Measure(readers: map<Id, Reader>, i: Index): nat {
    |Those(readers, i, 1, 3)| + |Those(readers, i, 2, 3)| + |Those(readers, i, 3, 3)|
  }

  // A reader's step on the count of buffer i, or on its way there.
  predicate Touches(readers: map<Id, Reader>, t: Id, a: Action, i: Index) {
    (a.Increment? || a.Revalidate? || a.Undo? || a.Release?) && t in readers && Stage(readers[t], i) > 0
  }

  function StageOf(readers: map<Id, Reader>, t: Id, i: Index): nat {
    if t in readers then Stage(readers[t], i) else 0
  }

  // A step changes the entry of one reader.
  ghost predicate OneReader(readers: map<Id, Reader>, readers': map<Id, Reader>, t: Id) {
    || readers' == readers
    || (t in readers' && readers' == readers[t := readers'[t]])
    || (t in readers && readers' == readers - {t})
  }

  lemma MeasureChange(readers: map<Id, Reader>, readers': map<Id, Reader>, t: Id, i: Index)
    requires OneReader(readers, readers', t)
    ensures Measure(readers', i) == Measure(readers, i) + StageOf(readers', t, i) - StageOf(readers, t, i)
  {
    if readers' == readers {
    } else if t in readers' {
      ThoseUpdate(readers, t, readers'[t], i, 1, 3);
      ThoseUpdate(readers, t, readers'[t], i, 2, 3);
      ThoseUpdate(readers, t, readers'[t], i, 3, 3);
    } else {
      ThoseRemove(readers, t, i, 1, 3);
      ThoseRemove(readers, t, i, 2, 3);
      ThoseRemove(readers, t, i, 3, 3);
    }
  }

  lemma ReaderStep(s: State, t: Id, a: Action, i: Index)
    requires Enabled(s, t, a) && s.active == Other(i)
    ensures OneReader(s.readers, Next(s, t, a).readers, t)
    ensures if Touches(s.readers, t, a, i) then StageOf(Next(s, t, a).readers, t, i) < StageOf(s.readers, t, i)
            else StageOf(Next(s, t, a).readers, t, i) == StageOf(s.readers, t, i)
  {
  }

  // While the writer drains buffer i, every step that touches its count brings
  // the measure down and no other step changes it.
  lemma DrainStep(s: State, t: Id, a: Action)
    requires Inv(s) && Enabled(s, t, a) && Draining(s.writer)
    ensures var i, n := s.writer.was, Next(s, t, a);
            if Touches(s.readers, t, a, i) then Measure(n.readers, i) < Measure(s.readers, i)
            else Measure(n.readers, i) == Measure(s.readers, i)
  {
    assert s.active == Other(s.writer.was);
    hide Inv, Measure, Next, StageOf;
    ReaderStep(s, t, a, s.writer.was);
    MeasureChange(s.readers, Next(s, t, a).readers, t, s.writer.was);
  }

  ghost predicate KeepsDraining(s: State, run: seq<Step>)
    requires Legal(s, run)
    decreases run
  {
    Draining(s.writer) && (run == [] || KeepsDraining(Next(s, run[0].t, run[0].a), run[1..]))
  }

  ghost function Touching(s: State, run: seq<Step>): nat
    requires Legal(s, run) && KeepsDraining(s, run)
    decreases run
  {
    if run == [] then 0
    else (if Touches(s.readers, run[0].t, run[0].a, s.writer.was) then 1 else 0)
         + Touching(Next(s, run[0].t, run[0].a), run[1..])
  }

  // During one drain the old count is touched a bounded number of times: only
  // readers that had already loaded the old index get there.
  lemma {:induction false} DrainBound(s: State, run: seq<Step>)
    requires Inv(s) && Legal(s, run) && KeepsDraining(s, run)
    ensures Draining(After(s, run).writer) && After(s, run).writer.was == s.writer.was
    ensures Touching(s, run) + Measure(After(s, run).readers, s.writer.was) <= Measure(s.readers, s.writer.was)
    decreases run
  {
    if run == [] {
    } else {
      var n := Next(s, run[0].t, run[0].a);
      NextInv(s, run[0].t, run[0].a);
      DrainStep(s, run[0].t, run[0].a);
      SameDrain(s, run[0].t, run[0].a);
      DrainBound(n, run[1..]);
    }
  }

  lemma SameDrain(s: State, t: Id, a: Action)
    requires Enabled(s, t, a) && Draining(s.writer) && Draining(Next(s, t, a).writer)
    ensures Next(s, t, a).writer.was == s.writer.was
  {
  }

  // Once those readers are through, the writer's next look ends the drain.
  lemma DrainEnds(s: State)
    requires Inv(s) && Draining(s.writer) && Measure(s.readers, s.writer.was) == 0
    ensures s.refcnt[s.writer.was] == 0
    ensures Enabled(s, s.owner, LoadCount) ==> Next(s, s.owner, LoadCount).writer.Cancelling?
  {
    assert Users(s.readers, s.writer.was) <= Those(s.readers, s.writer.was, 1, 3);
    assert Those(s.readers, s.writer.was, 1, 3) == {};
  }
}
