// The event count: a futex-backed condition for lock-free algorithms.
module EventCount {
  import opened Arith
  import opened Words

  type Id = nat

  // The epoch half of the word has 32 bits; notifications are counted without
  // bound and compared through it.
  const EPOCH: int := 0x1_0000_0000

  // A thread between ec_prepare_wait and the decrement that ends its wait.
  datatype Wait =
    | Registered(key: nat)   // before the next test of the epoch
    | Calling(key: nat)      // about to call FUTEX_WAIT
    | Asleep(key: nat)
    | Leaving(key: nat)      // about to take its registration back

  // A notifier that found waiters and has not called FUTEX_WAKE yet.
  datatype Wake = One | Every

  datatype State = State(notifies: nat, waiters: map<Id, Wait>, wakes: map<Id, Wake>)

  datatype Action =
    | Prepare
    | Cancel
    | TestEpoch
    | Block
    | Spurious
    | Leave
    | Notify(wake: Wake)
    | CallWake(who: Id)

  const INIT := State(0, map[], map[])

  // What the 32-bit comparison of two epochs finds.
  predicate SameEpoch(a: nat, b: nat) {
    a % EPOCH == b % EPOCH
  }

  ghost predicate AnyAsleep(s: State) {
    exists w :: w in s.waiters && s.waiters[w].Asleep?
  }

  // FUTEX_WAIT compares and blocks in one step.  It is assumed to be reached
  // within one epoch range of the registration.
  ghost predicate Enabled(s: State, t: Id, a: Action) {
    match a
    case Prepare => t !in s.waiters
    case Cancel => t in s.waiters && s.waiters[t].Registered?
    case TestEpoch => t in s.waiters && s.waiters[t].Registered?
    case Block => t in s.waiters && s.waiters[t].Calling? && s.notifies < s.waiters[t].key + EPOCH
    case Spurious => t in s.waiters && s.waiters[t].Asleep?
    case Leave => t in s.waiters && s.waiters[t].Leaving?
    case Notify(_) => t !in s.wakes
    case CallWake(who) =>
      t in s.wakes && (s.wakes[t].One? && AnyAsleep(s) ==> who in s.waiters && s.waiters[who].Asleep?)
  }

  // Which sleeper a single wake-up call reaches is the kernel's choice.
  ghost function Sleeper(s: State): Id {
    if w :| w in s.waiters && s.waiters[w].Asleep? then w else 0
  }

  function Woken(w: Wait): Wait {
    if w.Asleep? then Registered(w.key) else w
  }

  ghost function Next(s: State, t: Id, a: Action): State
    requires Enabled(s, t, a)
  {
    match a
    case Prepare => s.(waiters := s.waiters[t := Registered(s.notifies)])
    case Cancel => s.(waiters := s.waiters - {t})
    case TestEpoch =>
      var key := s.waiters[t].key;
      s.(waiters := s.waiters[t := if SameEpoch(s.notifies, key) then Calling(key) else Leaving(key)])
    case Block =>
      var key := s.waiters[t].key;
      s.(waiters := s.waiters[t := if SameEpoch(s.notifies, key) then Asleep(key) else Registered(key)])
    case Spurious => s.(waiters := s.waiters[t := Registered(s.waiters[t].key)])
    case Leave => s.(waiters := s.waiters - {t})
    case Notify(wake) =>
      s.(notifies := s.notifies + 1, wakes := if s.waiters == map[] then s.wakes else s.wakes[t := wake])
    case CallWake(who) => AfterWake(s, t, who)
  }

  ghost function AfterWake(s: State, t: Id, who: Id): State
    requires Enabled(s, t, CallWake(who))
  {
    var rest := s.wakes - {t};
    if s.wakes[t].Every? then
      s.(wakes := rest, waiters := map w | w in s.waiters :: Woken(s.waiters[w]))
    else if AnyAsleep(s) then
      s.(wakes := rest, waiters := s.waiters[who := Woken(s.waiters[who])])
    else
      s.(wakes := rest)
  }

  // Inside one epoch range the comparison is exact.
  lemma SameEpochExact(a: nat, b: nat)
    requires b <= a < b + EPOCH
    ensures SameEpoch(a, b) <==> a == b
  {
    if SameEpoch(a, b) { SameMod(b, a, EPOCH); }
  }

  // ------------------------------------------------------------ lost wakeups

  // A key is never ahead, and a wait that is about to end was notified.
  ghost predicate KeysPast(s: State) {
    forall w :: w in s.waiters ==>
      s.waiters[w].key <= s.notifies && (s.waiters[w].Leaving? ==> s.waiters[w].key < s.notifies)
  }

  ghost predicate Inv(s: State) {
    && KeysPast(s)
    && (forall w :: w in s.waiters && s.waiters[w].Asleep? && s.waiters[w].key < s.notifies ==> s.wakes != map[])
  }

  // Asleep although notified, and nobody is about to wake it.
  ghost predicate Stranded(s: State, w: Id) {
    w in s.waiters && s.waiters[w].Asleep? && s.waiters[w].key < s.notifies && s.wakes == map[]
  }

  // How the event count is used: by at most so many waiters at a time, and with
  // ec_notify or only with ec_notify_all.
  datatype Use = Use(maxWaiters: nat, onlyNotifyAll: bool)

  ghost predicate Follows(u: Use, s: State, t: Id, a: Action) {
    && (a.Prepare? ==> |s.waiters| < u.maxWaiters)
    && (a.Notify? && u.onlyNotifyAll ==> a.wake.Every?)
  }

  ghost predicate Used(u: Use, s: State) {
    && |s.waiters| <= u.maxWaiters
    && (u.onlyNotifyAll ==> forall t :: t in s.wakes ==> s.wakes[t].Every?)
  }

  lemma NextInv(u: Use, s: State, t: Id, a: Action)
    requires u.maxWaiters <= 1 || u.onlyNotifyAll
    requires Inv(s) && Used(u, s) && Enabled(s, t, a) && Follows(u, s, t, a)
    ensures Inv(Next(s, t, a)) && Used(u, Next(s, t, a))
  {
    var n := Next(s, t, a);
    match a
    case Block => SameEpochExact(s.notifies, s.waiters[t].key);
    case Notify(wake) =>
      if s.waiters != map[] { assert t in n.wakes; }
    case Cancel => SmallerMap(s.waiters, t);
    case Leave => SmallerMap(s.waiters, t);
    case CallWake(who) => WakeInv(u, s, t, who);
    case Prepare =>
    case TestEpoch =>
    case Spurious =>
  }

  lemma SmallerMap<K, V>(m: map<K, V>, k: K)
    requires k in m
    ensures |m - {k}| == |m| - 1
  {
    assert (m - {k}).Keys == m.Keys - {k};
  }

  lemma SameSize<K, V>(m: map<K, V>, n: map<K, V>)
    requires m.Keys == n.Keys
    ensures |m| == |n|
  {
    assert |m| == |m.Keys| && |n| == |n.Keys|;
  }

  lemma WakeInv(u: Use, s: State, t: Id, who: Id)
    requires u.maxWaiters <= 1 || u.onlyNotifyAll
    requires Inv(s) && Used(u, s) && Enabled(s, t, CallWake(who))
    ensures Inv(AfterWake(s, t, who)) && Used(u, AfterWake(s, t, who))
    ensures !AnyAsleep(AfterWake(s, t, who))
  {
    var n := AfterWake(s, t, who);
    assert n.waiters.Keys == s.waiters.Keys;
    SameSize(n.waiters, s.waiters);
    if s.wakes[t].One? && AnyAsleep(s) {
      forall w | w in n.waiters
        ensures w == who
      {
        OneKey(s.waiters.Keys, w, who);
      }
    }
  }

  lemma OneKey(keys: set<Id>, a: Id, b: Id)
    requires |keys| <= 1 && a in keys && b in keys
    ensures a == b
  {
    assert |keys - {a}| == |keys| - 1;
    assert b in keys - {a} || a == b;
  }

  // ---------------------------------------------------------------------- runs

  datatype Step = Step(t: Id, a: Action)

  ghost predicate Legal(u: Use, s: State, run: seq<Step>)
    decreases run
  {
    run == [] ||
    (&& Enabled(s, run[0].t, run[0].a) && Follows(u, s, run[0].t, run[0].a)
     && Legal(u, Next(s, run[0].t, run[0].a), run[1..]))
  }

  ghost function After(u: Use, s: State, run: seq<Step>): State
    requires Legal(u, s, run)
    decreases run
  {
    if run == [] then s else After(u, Next(s, run[0].t, run[0].a), run[1..])
  }

  lemma {:induction false} RunInv(u: Use, s: State, run: seq<Step>)
    requires u.maxWaiters <= 1 || u.onlyNotifyAll
    requires Inv(s) && Used(u, s) && Legal(u, s, run)
    ensures Inv(After(u, s, run)) && Used(u, After(u, s, run))
    decreases run
  {
    if run == [] {
    } else {
      NextInv(u, s, run[0].t, run[0].a);
      RunInv(u, Next(s, run[0].t, run[0].a), run[1..]);
    }
  }

  ghost predicate NeverStrands(u: Use) {
    forall run: seq<Step>, w: Id :: Legal(u, INIT, run) ==> !Stranded(After(u, INIT, run), w)
  }

  // No wakeup is lost exactly when a single thread waits at a time or every
  // notification goes to all.
  lemma NeverStrandsIff(u: Use)
    ensures NeverStrands(u) <==> u.maxWaiters <= 1 || u.onlyNotifyAll
  {
    if u.maxWaiters <= 1 || u.onlyNotifyAll {
      forall run: seq<Step>, w: Id | Legal(u, INIT, run)
        ensures !Stranded(After(u, INIT, run), w)
      {
        RunInv(u, INIT, run);
      }
    } else {
      TwoSleepersOneWake(u);
    }
  }

  function FallAsleep(w: Id): seq<Step> {
    [Step(w, Prepare), Step(w, TestEpoch), Step(w, Block)]
  }

  lemma FallAsleepRun(u: Use, s: State, w: Id)
    requires w !in s.waiters && |s.waiters| < u.maxWaiters
    ensures Legal(u, s, FallAsleep(w))
    ensures After(u, s, FallAsleep(w)) == s.(waiters := s.waiters[w := Asleep(s.notifies)])
  {
    var a := Next(s, w, Prepare);
    var b := Next(a, w, TestEpoch);
    var c := Next(b, w, Block);
    var run := FallAsleep(w);
    assert run[1..][1..] == [Step(w, Block)] && run[1..][1..][1..] == [];
    assert Legal(u, c, []) && After(u, c, []) == c;
    assert Legal(u, b, [Step(w, Block)]) && After(u, b, [Step(w, Block)]) == c;
    assert Legal(u, a, run[1..]) && After(u, a, run[1..]) == c;
    assert c.waiters == s.waiters[w := Asleep(s.notifies)];
  }

  lemma {:induction false} LegalConcat(u: Use, s: State, run: seq<Step>, more: seq<Step>)
    requires Legal(u, s, run) && Legal(u, After(u, s, run), more)
    ensures Legal(u, s, run + more) && After(u, s, run + more) == After(u, After(u, s, run), more)
    decreases run
  {
    if run == [] {
      assert run + more == more;
    } else {
      assert (run + more)[1..] == run[1..] + more;
      LegalConcat(u, Next(s, run[0].t, run[0].a), run[1..], more);
    }
  }

  // ec_notify with two sleepers: the one wake-up call reaches only one of them.
  lemma TwoSleepersOneWake(u: Use)
    requires u.maxWaiters >= 2 && !u.onlyNotifyAll
    ensures exists run: seq<Step> :: Legal(u, INIT, run) && Stranded(After(u, INIT, run), 2)
  {
    FallAsleepRun(u, INIT, 1);
    var s1 := After(u, INIT, FallAsleep(1));
    FallAsleepRun(u, s1, 2);
    LegalConcat(u, INIT, FallAsleep(1), FallAsleep(2));
    var asleep := FallAsleep(1) + FallAsleep(2);
    var s2 := After(u, INIT, asleep);
    assert s2.waiters[1] == Asleep(0) && s2.waiters[2] == Asleep(0);
    var s3 := Next(s2, 3, Notify(One));
    assert s3.waiters[1].Asleep?;
    var s4 := Next(s3, 3, CallWake(1));
    var wake := [Step(3, Notify(One)), Step(3, CallWake(1))];
    assert wake[1..][1..] == [];
    assert Legal(u, s4, []);
    assert Legal(u, s3, wake[1..]);
    LegalConcat(u, INIT, asleep, wake);
    assert s4.wakes == map[];
    assert Stranded(After(u, INIT, asleep + wake), 2);
  }

  // --------------------------------------------------------------------- rank

  // A waiter's own steps up to the end of its wait: few once it was told, and
  // until then a round for each wake-up call still under way.
  function WaitRank(w: Wait, told: bool, wakes: nat): nat {
    match w
    case Leaving(_) => 5
    case Registered(_) => if told then 6 else 10 + 3 * wakes
    case Calling(_) => if told then 7 else 9 + 3 * wakes
    case Asleep(_) => if told then 7 else 8 + 3 * wakes
  }

  function EcRank(ec: State, t: Id): nat {
    if t in ec.waiters then WaitRank(ec.waiters[t], ec.notifies > ec.waiters[t].key, |ec.wakes|) else 0
  }

  // Notifications and wake-up calls of others never set a waiter back.
  lemma OtherEcRank(ec: State, u: Id, ea: Action, t: Id)
    requires Enabled(ec, u, ea) && (ea.Notify? || ea.CallWake?) && KeysPast(ec)
    ensures EcRank(Next(ec, u, ea), t) <= EcRank(ec, t)
  {
    if ea.CallWake? { SmallerMap(ec.wakes, u); }
  }

  // A waiter's own step brings it forward, unless FUTEX_WAIT returned unasked.
  lemma OwnEcRank(ec: State, ea: Action, t: Id)
    requires Enabled(ec, t, ea) && KeysPast(ec)
    requires t in ec.waiters && ec.notifies < ec.waiters[t].key + EPOCH
    requires ea.TestEpoch? || ea.Block? || ea.Spurious? || ea.Leave?
    ensures ea.Leave? ==> EcRank(ec, t) == 5
    ensures ea.TestEpoch? || ea.Block? ==> EcRank(Next(ec, t, ea), t) < EcRank(ec, t)
    ensures ea.Spurious? ==> EcRank(Next(ec, t, ea), t) <= EcRank(ec, t) + 2
  {
    SameEpochExact(ec.notifies, ec.waiters[t].key);
  }

  // ----------------------------------------------------------------- the word

  function Pack(notifies: nat, waiters: nat): Word
    requires waiters < EPOCH
  {
    notifies % EPOCH * EPOCH + waiters
  }

  // Adding 2^32 advances the epoch alone, also when it wraps.
  lemma AddEpoch(n: nat, w: nat)
    requires w < EPOCH
    ensures Wrap(Pack(n, w) + EPOCH) == Pack(n + 1, w)
  {
    if n % EPOCH == EPOCH - 1 {
      DivMod(n, EPOCH);
      DivUnique(n + 1, n / EPOCH + 1, 0, EPOCH);
      ModShift(w, 1, WORD);
      SmallMod(w, WORD);
    } else {
      DivMod(n, EPOCH);
      DivUnique(n + 1, n / EPOCH, n % EPOCH + 1, EPOCH);
      SmallMod(Pack(n, w) + EPOCH, WORD);
    }
  }

  // Adding 2^64 - 1 takes one waiter off and leaves the epoch alone exactly when
  // a waiter is registered.
  lemma SubWaiterExact(n: nat, w: nat)
    requires w < EPOCH
    ensures Wrap(Pack(n, w) + (WORD - 1)) / EPOCH == n % EPOCH <==> w >= 1
    ensures w >= 1 ==> Wrap(Pack(n, w) + (WORD - 1)) == Pack(n, w - 1)
  {
    if w >= 1 {
      ModShift(Pack(n, w) - 1, 1, WORD);
      SmallMod(Pack(n, w) - 1, WORD);
      DivUnique(Pack(n, w - 1), n % EPOCH, w - 1, EPOCH);
    } else if n % EPOCH == 0 {
      SmallMod(WORD - 1, WORD);
    } else {
      ModShift(Pack(n, 0) - 1, 1, WORD);
      SmallMod(Pack(n, 0) - 1, WORD);
      DivUnique(Pack(n, 0) - 1, n % EPOCH - 1, EPOCH - 1, EPOCH);
    }
  }

  lemma EpochHalf(n: nat, w: nat)
    requires w < EPOCH
    ensures Pack(n, w) / EPOCH == n % EPOCH && Pack(n, w) % EPOCH == w
  {
    DivUnique(Pack(n, w), n % EPOCH, w, EPOCH);
  }

  class EventCounter {
    var val: Word
    ghost var spec: State

    ghost predicate Valid()
      reads this
    {
      KeysPast(spec) && |spec.waiters| < EPOCH - 1 && val == Pack(spec.notifies, |spec.waiters|)
    }

    constructor ()
      ensures Valid() && spec == INIT
    {
      val := 0;
      spec := INIT;
    }

    // The fetch-add of ec_notify and ec_notify_all: whether to call FUTEX_WAKE.
    method FetchAddEpoch(t: Id, wake: Wake) returns (mustWake: bool)
      requires Valid() && Enabled(spec, t, Notify(wake))
      modifies this
      ensures Valid() && spec == Next(old(spec), t, Notify(wake))
      ensures mustWake <==> old(spec).waiters != map[]
    {
      AddEpoch(spec.notifies, |spec.waiters|);
      EpochHalf(spec.notifies, |spec.waiters|);
      var prev := val;
      val := Wrap(val + EPOCH);
      mustWake := prev % EPOCH != 0;
      spec := Next(spec, t, Notify(wake));
    }

    // ec_prepare_wait: the key is the epoch half of the word before.
    method PrepareWait(t: Id) returns (key: Word)
      requires Valid() && Enabled(spec, t, Prepare) && |spec.waiters| + 1 < EPOCH - 1
      modifies this
      ensures Valid() && spec == Next(old(spec), t, Prepare)
      ensures key == spec.waiters[t].key % EPOCH
    {
      EpochHalf(spec.notifies, |spec.waiters|);
      key := val / EPOCH;
      val := Wrap(val + 1);
      spec := Next(spec, t, Prepare);
    }

    // The wrapping decrement of ec_cancel_wait and of the end of ec_wait.
    method SubWaiter(t: Id)
      requires Valid() && (Enabled(spec, t, Cancel) || Enabled(spec, t, Leave))
      modifies this
      ensures Valid() && spec == old(spec).(waiters := old(spec).waiters - {t})
    {
      SmallerMap(spec.waiters, t);
      SubWaiterExact(spec.notifies, |spec.waiters|);
      val := Wrap(val + (WORD - 1));
      spec := spec.(waiters := spec.waiters - {t});
    }

    // The loop test of ec_wait.
    method EpochUnchanged(t: Id, key: Word) returns (same: bool)
      requires Valid() && Enabled(spec, t, TestEpoch) && key == spec.waiters[t].key % EPOCH
      modifies this`spec
      ensures Valid() && spec == Next(old(spec), t, TestEpoch)
      ensures same <==> spec.waiters[t].Calling?
    {
      EpochHalf(spec.notifies, |spec.waiters|);
      same := val / EPOCH == key;
      spec := Next(spec, t, TestEpoch);
    }

    // FUTEX_WAIT on the epoch half.
    method FutexWait(t: Id, key: Word) returns (slept: bool)
      requires Valid() && Enabled(spec, t, Block) && key == spec.waiters[t].key % EPOCH
      modifies this`spec
      ensures Valid() && spec == Next(old(spec), t, Block)
      ensures slept <==> spec.waiters[t].Asleep?
      ensures slept <==> spec.notifies == spec.waiters[t].key
    {
      EpochHalf(spec.notifies, |spec.waiters|);
      SameEpochExact(spec.notifies, spec.waiters[t].key);
      slept := val / EPOCH == key;
      spec := Next(spec, t, Block);
    }

    // FUTEX_WAKE leaves the word alone; `who` is the kernel's choice.
    method FutexWake(t: Id, ghost who: Id)
      requires Valid() && Enabled(spec, t, CallWake(who))
      modifies this`spec
      ensures Valid() && spec == Next(old(spec), t, CallWake(who))
    {
      assert AfterWake(spec, t, who).waiters.Keys == spec.waiters.Keys;
      SameSize(AfterWake(spec, t, who).waiters, spec.waiters);
      spec := Next(spec, t, CallWake(who));
    }

    // FUTEX_WAIT returns to a thread that nobody woke.
    ghost method ReturnUnasked(t: Id)
      requires Valid() && Enabled(spec, t, Spurious)
      modifies this`spec
      ensures Valid() && spec == Next(old(spec), t, Spurious)
    {
      spec := Next(spec, t, Spurious);
    }
  }
}
