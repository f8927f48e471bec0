// The configuration buffer as the program holds it: two structures, an active
// index, two 32-bit reference counts and an event count.  Every method marked
// with an action performs exactly one step of the protocol.
module ConfigBuffer {
  import opened Words
  import opened ConfigProtocol
  import opened ConfigRuns
  import E = EventCount

  type Count = x: int | 0 <= x < E.EPOCH

  function Wrap32(x: int): Count {
    x % E.EPOCH
  }

  lemma {:induction false} SubsetSize(a: set<Id>, b: set<Id>)
    requires a <= b
    ensures |a| <= |b|
  {
    assert b == a + (b - a);
  }

  // Steps of other threads.
  ghost predicate OthersOnly(run: seq<Step>, t: Id) {
    forall i :: 0 <= i < |run| ==> run[i].t != t
  }

  // How often t has called FUTEX_WAIT.
  function WaitRounds(log: seq<Step>, t: Id): nat {
    multiset(log)[Step(t, WaitStep(E.Block))]
  }

  lemma WaitRoundsGrow(log: seq<Step>, more: seq<Step>, t: Id)
    requires log <= more
    ensures WaitRounds(log, t) <= WaitRounds(more, t)
  {
    assert log + more[|log|..] == more;
  }

  lemma OneWaitRound(log: seq<Step>, t: Id)
    ensures WaitRounds(log + [Step(t, WaitStep(E.Block))], t) == WaitRounds(log, t) + 1
  {
  }

  // What nobody else does to thread t: move it as a reader, or move the update it
  // holds the lock for.  Its wait can only be ended.
  ghost predicate Undisturbed(s: State, n: State, t: Id) {
    SameReader(s, n, t) && SameUpdate(s, n, t)
  }

  ghost predicate SameReader(s: State, n: State, t: Id) {
    && (t in n.readers <==> t in s.readers)
    && (t in s.readers ==> n.readers[t] == s.readers[t])
    && (t in n.ec.wakes <==> t in s.ec.wakes)
    && (t in s.ec.wakes ==> n.ec.wakes[t] == s.ec.wakes[t])
  }

  ghost predicate SameUpdate(s: State, n: State, t: Id) {
    s.owner == t && !s.writer.Free? ==>
      && n.owner == t && n.writer == s.writer && SameConfig(s, n)
      && (t in n.ec.waiters <==> t in s.ec.waiters)
      && (t in s.ec.waiters ==> n.ec.waiters[t] == s.ec.waiters[t] || n.ec.waiters[t] == E.Woken(s.ec.waiters[t]))
  }

  predicate SameConfig(s: State, n: State) {
    n.conf == s.conf && n.active == s.active && n.published == s.published
  }

  lemma OtherStep(s: State, u: Id, a: Action, t: Id)
    requires Inv(s) && Enabled(s, u, a) && u != t
    ensures Undisturbed(s, Next(s, u, a), t)
  {
    hide CountsOk, BuffersOk, HoldersOk, SeenOk, Alert, E.Inv;
  }

  lemma {:induction false} OthersKeep(s: State, run: seq<Step>, t: Id)
    requires Inv(s) && Legal(s, run) && OthersOnly(run, t)
    ensures Undisturbed(s, After(s, run), t)
    decreases run
  {
    hide Inv, Next, Enabled;
    if run == [] {
    } else {
      assert run[0].t != t;
      var n := Next(s, run[0].t, run[0].a);
      NextInv(s, run[0].t, run[0].a);
      OtherStep(s, run[0].t, run[0].a, t);
      assert OthersOnly(run[1..], t) by { assert forall i :: 0 <= i < |run| - 1 ==> run[1..][i] == run[i + 1]; }
      OthersKeep(n, run[1..], t);
    }
  }

  // The counts fit 32 bits, also with t among the readers.
  ghost predicate FewReaders(s: State, t: Id) {
    |s.readers.Keys - {t}| < E.EPOCH - 1
  }

  // What is assumed of the other threads.
  ghost predicate Modest(s: State, n: State, t: Id) {
    (FewReaders(s, t) ==> FewReaders(n, t)) && (Timely(s, t) ==> Timely(n, t))
  }

  // The active index only moves with a new version.
  ghost predicate Onward(s: State, n: State) {
    && Current(s) <= Current(n) && (Current(s) == Current(n) ==> n.active == s.active)
    && s.ec.notifies <= n.ec.notifies
  }

  ghost predicate Later(s: State, n: State, t: Id) {
    Onward(s, n) && (FewReaders(s, t) ==> FewReaders(n, t))
  }

  lemma {:induction false} RunOnward(s: State, run: seq<Step>)
    requires Legal(s, run)
    ensures Onward(s, After(s, run))
    decreases run
  {
    hide Next, Enabled;
    if run == [] {
    } else {
      OneReaderMoves(s, run[0].t, run[0].a);
      RunOnward(Next(s, run[0].t, run[0].a), run[1..]);
    }
  }

  ghost predicate Took(s: State, n: State, t: Id, a: Action) {
    Enabled(s, t, a) && n == Next(s, t, a)
  }

  lemma OwnStep(s: State, t: Id, a: Action)
    requires Enabled(s, t, a)
    ensures Later(s, Next(s, t, a), t)
  {
    OneReaderMoves(s, t, a);
    OthersStay(s.readers, Next(s, t, a).readers, t);
  }

  lemma OneReaderMoves(s: State, t: Id, a: Action)
    requires Enabled(s, t, a)
    ensures OneReader(s.readers, Next(s, t, a).readers, t) && Onward(s, Next(s, t, a))
  {
  }

  lemma OthersStay(readers: map<Id, Reader>, readers': map<Id, Reader>, t: Id)
    requires OneReader(readers, readers', t)
    ensures readers'.Keys - {t} == readers.Keys - {t}
  {
  }

  // The words of the structure.
  datatype Image = Image(conf0: Config, conf1: Config, ref0: Count, ref1: Count, active: int, ec: E.State)

  // The words stand for the state.
  ghost predicate Mirrors(m: Image, s: State) {
    && |s.conf| == |s.refcnt| == 2
    && m.conf0 == s.conf[0] && m.conf1 == s.conf[1] && m.ref0 == s.refcnt[0] && m.ref1 == s.refcnt[1]
    && m.active == s.active && m.ec == s.ec
  }

  // Only the reference counts differ.
  ghost predicate Recounted(s: State, n: State, idx: Index, count: int) {
    && |s.refcnt| == |n.refcnt| == 2
    && n.conf == s.conf && n.active == s.active && n.ec == s.ec
    && n.refcnt[idx] == count && n.refcnt[Other(idx)] == s.refcnt[Other(idx)]
  }

  predicate SameWords(s: State, n: State) {
    n.conf == s.conf && n.active == s.active && n.refcnt == s.refcnt
  }

  function WithCount(m: Image, idx: Index, count: Count): Image {
    if idx == 0 then m.(ref0 := count) else m.(ref1 := count)
  }

  function WithConfig(m: Image, idx: Index, c: Config): Image {
    if idx == 0 then m.(conf0 := c) else m.(conf1 := c)
  }

  lemma RecountMirrored(m: Image, s: State, n: State, idx: Index, count: Count)
    requires Mirrors(m, s) && Recounted(s, n, idx, count)
    ensures Mirrors(WithCount(m, idx, count), n)
  {
  }

  lemma CountsMirrored(m: Image, ec: E.State, s: State, n: State)
    requires Mirrors(m, s) && SameWords(s, n) && n.ec == ec
    ensures Mirrors(m.(ec := ec), n)
  {
  }

  // The inactive structure with one field assigned.
  function Stored(s: State, was: Index, e: Entry): State
    requires |s.conf| == 2
  {
    var i := Other(was);
    s.(conf := s.conf[i := SetField(s.conf[i], e.size, e.value)])
  }

  lemma FieldMirrored(m: Image, s: State, was: Index, e: Entry)
    requires Mirrors(m, s)
    ensures var i := Other(was);
            var c := SetField(if i == 0 then m.conf0 else m.conf1, e.size, e.value);
            |s.conf| == 2 && Mirrors(WithConfig(m, i, c), Stored(s, was, e))
  {
  }

  lemma WordsMirrored(m: Image, s: State, idx: Index)
    requires Mirrors(m, s)
    ensures m.active == s.active && |s.conf| == |s.refcnt| == 2
    ensures s.conf[idx] == (if idx == 0 then m.conf0 else m.conf1)
    ensures s.refcnt[idx] == (if idx == 0 then m.ref0 else m.ref1)
  {
  }

  datatype Outcome = Updated | LoadFailed | StillDraining

  // No update under way: every holder has the latest version.
  lemma NobodyBehind(s: State)
    requires Inv(s) && s.writer.Free?
    ensures AtLeast(s, Current(s))
  {
    assert forall t :: t in s.readers && s.readers[t].Holding? ==> VersionOk(s, s.readers[t].idx, s.readers[t].version);
  }

  // One field of the configuration that the parser assigns.
  datatype Entry = Entry(size: bool, value: int)

  function Filled(c: Config, entries: seq<Entry>): Config {
    if entries == [] then c
    else
      var e := entries[|entries| - 1];
      SetField(Filled(c, entries[..|entries| - 1]), e.size, e.value)
  }

  ghost predicate HasLock(s: State, t: Id, w: Writer) {
    s.owner == t && s.writer == w
  }

  // The same registration, some time later.
  ghost predicate SameKey(s: State, n: State, t: Id) {
    && t in s.ec.waiters && t in n.ec.waiters && n.ec.waiters[t].key == s.ec.waiters[t].key
    && s.ec.notifies <= n.ec.notifies
  }

  // t is registered with this key, in good time.
  ghost predicate InWait(s: State, t: Id, key: Word) {
    t in s.ec.waiters && key == s.ec.waiters[t].key % E.EPOCH && Timely(s, t)
  }

  lemma StoreEffect(s: State, t: Id, was: Index, e: Entry)
    requires |s.conf| == |s.refcnt| == 2 && HasLock(s, t, Loading(was))
    ensures Enabled(s, t, WriteField(e.size, e.value))
    ensures Next(s, t, WriteField(e.size, e.value)) == Stored(s, was, e)
  {
  }

  lemma TestEffect(s: State, t: Id, was: Index)
    requires |s.conf| == |s.refcnt| == 2 && HasLock(s, t, Waiting(was))
    requires t in s.ec.waiters && s.ec.waiters[t].Registered?
    ensures Enabled(s, t, WaitStep(E.TestEpoch)) && E.Enabled(s.ec, t, E.TestEpoch)
    ensures var ec := E.Next(s.ec, t, E.TestEpoch);
            && Next(s, t, WaitStep(E.TestEpoch)) == s.(ec := ec)
            && ec.notifies == s.ec.notifies && t in ec.waiters && ec.waiters[t].key == s.ec.waiters[t].key
            && (ec.waiters[t].Calling? || ec.waiters[t].Leaving?)
  {
  }

  lemma Sizes(s: State)
    requires Inv(s)
    ensures |s.conf| == |s.refcnt| == 2
    ensures s.writer.Loading? ==> s.active == s.writer.was
  {
  }

  lemma Registered(s: State, t: Id)
    requires Inv(s) && s.owner == t
    ensures s.writer.Preparing? ==> s.ec.waiters == map[]
    ensures s.writer.Cancelling? ==> t in s.ec.waiters && s.ec.waiters[t].Registered?
  {
    hide CountsOk, BuffersOk, HoldersOk, SeenOk, Alert, E.Inv;
    if s.writer.Preparing? { assert s.ec.waiters.Keys == {}; }
    if s.writer.Cancelling? { assert t in s.ec.waiters.Keys; }
  }

  // What t reads is the configuration published under the version it holds.
  ghost predicate Snapshot(c: Config, s: State, t: Id) {
    && t in s.readers && s.readers[t].Holding? && s.readers[t].version < |s.published|
    && c == s.published[s.readers[t].version]
  }

  // t holds buffer idx with a version no older than `version`.
  ghost predicate Pinned(s: State, t: Id, idx: Index, version: int) {
    t in s.readers && s.readers[t].Holding? && s.readers[t].idx == idx && version <= s.readers[t].version
  }

  lemma AddEffect(s: State, t: Id, idx: Index)
    requires Inv(s) && FewReaders(s, t) && t in s.readers && s.readers[t] == Loaded(idx)
    ensures Enabled(s, t, Increment) && |s.refcnt| == 2
    ensures var n := Next(s, t, Increment);
            && n.readers == s.readers[t := Counted(idx)] && n.ec == s.ec
            && Recounted(s, n, idx, Wrap32(s.refcnt[idx] + 1))
  {
    hide *;
    CountedBelow(s, t, idx);
    Wrap32Small(s.refcnt[idx] + 1);
    IncrementIs(s, t, idx);
  }

  lemma RecheckEffect(s: State, t: Id, idx: Index)
    requires Inv(s) && t in s.readers && s.readers[t] == Counted(idx)
    ensures Enabled(s, t, Revalidate) && |s.conf| == 2
    ensures var n := Next(s, t, Revalidate);
            && SameWords(s, n) && n.ec == s.ec && t in n.readers && Current(n) >= 0
            && (if s.active == idx then n.readers[t] == Holding(idx, Current(n)) && Snapshot(s.conf[idx], n, t)
                else n.readers[t] == Undoing(idx))
  {
    Sizes(s);
    hide CountsOk, HoldersOk, SeenOk, WaitsOk, Alert;
  }

  lemma IncrementIs(s: State, t: Id, idx: Index)
    requires |s.refcnt| == |s.conf| == 2 && t in s.readers && s.readers[t] == Loaded(idx)
    ensures Enabled(s, t, Increment)
    ensures var n := Next(s, t, Increment);
            n.readers == s.readers[t := Counted(idx)] && n.ec == s.ec && Recounted(s, n, idx, s.refcnt[idx] + 1)
  {
  }

  lemma Wrap32Small(x: int)
    requires 0 <= x < E.EPOCH
    ensures Wrap32(x) == x
  {
  }

  lemma CountedBelow(s: State, t: Id, idx: Index)
    requires Inv(s) && FewReaders(s, t) && t in s.readers && s.readers[t] == Loaded(idx)
    ensures |s.refcnt| == |s.conf| == 2 && s.refcnt[idx] + 1 < E.EPOCH
  {
    CountBound(s.refcnt, s.readers, idx, t);
    hide CountsOk, HoldersOk, SeenOk, WaitsOk, Alert;
  }

  // A reader that is not counted in yet: the others bound the count.
  lemma CountBound(refcnt: seq<nat>, readers: map<Id, Reader>, i: Index, t: Id)
    requires CountsOk(refcnt, readers) && t in readers && readers[t] == Loaded(i)
    ensures refcnt[i] <= |readers.Keys - {t}|
  {
    SubsetSize(Users(readers, i), readers.Keys - {t});
  }

  predicate CountedIn(r: Reader, idx: Index, again: bool) {
    if again then r == Undoing(idx) else r.Holding? && r.idx == idx
  }

  // One reference to buffer idx fewer; the last one out must notify.
  ghost predicate OneLess(s: State, n: State, t: Id, idx: Index, again: bool, last: bool) {
    && |s.refcnt| == 2 && s.refcnt[idx] > 0
    && n == s.(refcnt := s.refcnt[idx := s.refcnt[idx] - 1], readers := n.readers)
    && (last <==> s.refcnt[idx] == 1)
    && n.readers == (if last then s.readers[t := MustNotify(again)]
                     else if again then s.readers[t := Restart] else s.readers - {t})
  }

  lemma NoWakePending(s: State, t: Id)
    requires Inv(s) && t in s.readers && !s.readers[t].Restart?
    ensures |s.conf| == |s.refcnt| == 2 && t !in s.ec.wakes
  {
  }

  lemma SubEffect(s: State, t: Id, idx: Index, again: bool)
    requires Inv(s) && t in s.readers && CountedIn(s.readers[t], idx, again)
    requires |s.refcnt| == 2 && s.refcnt[idx] < E.EPOCH
    ensures var a := if again then Undo else Release;
            && Enabled(s, t, a)
            && OneLess(s, Next(s, t, a), t, idx, again, s.refcnt[idx] == 1)
            && Recounted(s, Next(s, t, a), idx, Wrap32(s.refcnt[idx] - 1))
            && t !in s.ec.wakes && Next(s, t, a).ec == s.ec
  {
    NoWakePending(s, t);
    ZeroCount(s.refcnt, s.readers, idx);
    hide CountsOk, HoldersOk, SeenOk, WaitsOk, Alert, Wrap32;
    Wrap32Small(s.refcnt[idx] - 1);
  }

  lemma {:induction false} Snoc(s: State, run: seq<Step>, t: Id, a: Action)
    requires Legal(s, run) && Enabled(After(s, run), t, a)
    ensures Legal(s, run + [Step(t, a)]) && After(s, run + [Step(t, a)]) == Next(After(s, run), t, a)
  {
    var last := [Step(t, a)];
    assert last[1..] == [] && Legal(Next(After(s, run), t, a), last[1..]);
    assert After(After(s, run), last) == Next(After(s, run), t, a);
    Concat(s, run, last);
  }

  class DoubleBuffer {
    const conf: array<Config>
    const refcnt: array<Count>
    const ec: E.EventCounter
    var activeIdx: int
    ghost var spec: State
    ghost var log: seq<Step>

    ghost predicate SpecOk()
      reads this`spec, this`log
    {
      Legal(INIT, log) && spec == After(INIT, log) && Inv(spec)
    }

    ghost function Shown(): Image
      requires conf.Length == refcnt.Length == 2
      reads this`activeIdx, conf, refcnt, ec
    {
      Image(conf[0], conf[1], refcnt[0], refcnt[1], activeIdx, ec.spec)
    }

    ghost predicate Parts()
      reads this, conf, refcnt, ec
    {
      && conf.Length == refcnt.Length == 2 && ec.Valid()
      && Mirrors(Shown(), spec)
    }

    ghost predicate Valid()
      reads this, conf, refcnt, ec
    {
      SpecOk() && Parts()
    }

    constructor ()
      ensures Valid() && spec == INIT && fresh(conf) && fresh(refcnt) && fresh(ec)
    {
      conf := new Config[2](_ => ZERO);
      refcnt := new Count[2](_ => 0);
      ec := new E.EventCounter();
      activeIdx := 0;
      spec, log := INIT, [];
      new;
      InitInv();
    }

    ghost method Advance(t: Id, a: Action)
      requires SpecOk() && Enabled(spec, t, a)
      modifies this`spec, this`log
      ensures SpecOk() && Took(old(spec), spec, t, a) && log == old(log) + [Step(t, a)]
      ensures Later(old(spec), spec, t)
    {
      OwnStep(spec, t, a);
      hide Inv, Next, Enabled;
      NextInv(spec, t, a);
      Snoc(INIT, log, t, a);
      spec, log := Next(spec, t, a), log + [Step(t, a)];
    }

    // The step that the words have taken already.
    ghost method Follow(t: Id, a: Action)
      requires SpecOk() && Enabled(spec, t, a) && conf.Length == refcnt.Length == 2 && ec.Valid()
      requires Mirrors(Shown(), Next(spec, t, a))
      modifies this`spec, this`log
      ensures Valid() && Took(old(spec), spec, t, a) && spec == Next(old(spec), t, a) && log == old(log) + [Step(t, a)]
      ensures Later(old(spec), spec, t)
    {
      hide Inv, Next, Enabled, Mirrors, Later, Legal, After, SpecOk;
      Advance(t, a);
    }

    // ---------------------------------------------------------------- readers

    method LoadIndexWord(t: Id) returns (idx: Index)
      requires Valid() && (t in spec.readers ==> spec.readers[t].Restart?) && t !in spec.ec.wakes
      modifies this`spec, this`log
      ensures Valid() && Took(old(spec), spec, t, LoadIndex) && log == old(log) + [Step(t, LoadIndex)]
      ensures Later(old(spec), spec, t) && spec.ec == old(spec).ec && idx == spec.active
      ensures t in spec.readers && spec.readers[t] == Loaded(idx)
    {
      hide Inv, Legal, After;
      idx := activeIdx;
      Follow(t, LoadIndex);
    }

    method FetchAddRef(t: Id, idx: Index)
      requires Valid() && t in spec.readers && spec.readers[t] == Loaded(idx) && FewReaders(spec, t)
      modifies this`spec, this`log, refcnt
      ensures Valid() && Took(old(spec), spec, t, Increment) && log == old(log) + [Step(t, Increment)]
      ensures Later(old(spec), spec, t) && spec.ec == old(spec).ec
      ensures t in spec.readers && spec.readers[t] == Counted(idx)
    {
      hide Inv, Legal, After, Took, Wrap32, Next, Enabled, FewReaders, Later, Mirrors, Recounted;
      ghost var s := spec;
      var prev := refcnt[idx];
      WordsMirrored(Shown(), s, idx);
      AddEffect(s, t, idx);
      hide SpecOk;
      ghost var n := Next(s, t, Increment);
      var count := Wrap32(prev as int + 1);
      RecountMirrored(Shown(), s, n, idx, count);
      refcnt[idx] := count;
      Follow(t, Increment);
    }

    method RecheckIndex(t: Id, idx: Index) returns (same: bool)
      requires Valid() && t in spec.readers && spec.readers[t] == Counted(idx)
      modifies this`spec, this`log
      ensures Valid() && Took(old(spec), spec, t, Revalidate) && log == old(log) + [Step(t, Revalidate)]
      ensures Later(old(spec), spec, t) && spec.ec == old(spec).ec && t in spec.readers
      ensures same <==> spec.active == idx
      ensures if same then
                Current(spec) >= 0 && spec.readers[t] == Holding(idx, Current(spec)) && Snapshot(conf[idx], spec, t)
              else spec.readers[t] == Undoing(idx)
    {
      RecheckEffect(spec, t, idx);
      hide Inv, Legal, After, Mirrors, Next, Enabled, Later;
      ghost var s := spec;
      WordsMirrored(Shown(), s, idx);
      CountsMirrored(Shown(), ec.spec, s, Next(s, t, Revalidate));
      same := activeIdx == idx;
      Follow(t, Revalidate);
    }

    // The fetch-sub of config_release and of a failed attempt: whether it was the
    // last reference.
    method FetchSubRef(t: Id, idx: Index, again: bool) returns (last: bool)
      requires Valid() && t in spec.readers && CountedIn(spec.readers[t], idx, again)
      modifies this`spec, this`log, refcnt
      ensures var a := if again then Undo else Release;
              Valid() && Took(old(spec), spec, t, a) && log == old(log) + [Step(t, a)]
      ensures Later(old(spec), spec, t) && t !in spec.ec.wakes
      ensures OneLess(old(spec), spec, t, idx, again, last)
    {
      ghost var a := if again then Undo else Release;
      hide Inv, Legal, After, Took, Wrap32, Next, Enabled, FewReaders, Later, Mirrors, Recounted, CountedIn, OneLess;
      ghost var s := spec;
      var prev := refcnt[idx];
      WordsMirrored(Shown(), s, idx);
      SubEffect(s, t, idx, again);
      hide SpecOk;
      ghost var n := Next(s, t, a);
      var count := Wrap32(prev as int - 1);
      RecountMirrored(Shown(), s, n, idx, count);
      refcnt[idx] := count;
      Follow(t, a);
      last := prev == 1;
    }

    // The fetch-add of ec_notify: whether FUTEX_WAKE must be called.
    method NotifyWriter(t: Id) returns (mustWake: bool)
      requires Valid() && t in spec.readers && spec.readers[t].MustNotify?
      modifies this`spec, this`log, ec
      ensures Valid() && Took(old(spec), spec, t, Notify) && log == old(log) + [Step(t, Notify)]
      ensures Later(old(spec), spec, t) && (mustWake <==> t in spec.ec.wakes)
      ensures if old(spec).readers[t].again then t in spec.readers && spec.readers[t].Restart? else t !in spec.readers
    {
      hide Inv, Legal, After, Later;
      NoWakePending(spec, t);
      hide SpecOk;
      mustWake := ec.FetchAddEpoch(t, E.One);
      Follow(t, Notify);
    }

    // FUTEX_WAKE; which sleeper it reaches is the kernel's choice.
    method CallFutexWake(t: Id)
      requires Valid() && t in spec.ec.wakes
      modifies this`spec, this`log, ec
      ensures Valid() && log == old(log) + [Step(t, CallWake(E.Sleeper(old(spec).ec)))]
      ensures Later(old(spec), spec, t) && t !in spec.ec.wakes && spec.readers == old(spec).readers
    {
      hide Inv, Legal, After, SpecOk, Later;
      ghost var who := E.Sleeper(spec.ec);
      ec.FutexWake(t, who);
      Follow(t, CallWake(who));
    }

    // Everything the other threads do between two actions of t.
    method Others(ghost t: Id) returns (ghost run: seq<Step>)
      requires Valid()
      modifies this, conf, refcnt, ec
      ensures Valid() && Legal(old(spec), run) && OthersOnly(run, t)
      ensures spec == After(old(spec), run) && log == old(log) + run
      ensures Modest(old(spec), spec, t)
    {
      run := [];
    }

    method Yield(ghost t: Id)
      requires Valid()
      modifies this, conf, refcnt, ec
      ensures Valid() && old(log) <= log && Modest(old(spec), spec, t)
      ensures Undisturbed(old(spec), spec, t) && Later(old(spec), spec, t)
    {
      ghost var s := spec;
      hide Parts, Inv;
      ghost var run := Others(t);
      OthersKeep(s, run, t);
      RunOnward(s, run);
    }

    // Counting out: the end of config_release, and of a failed attempt.
    method CountOutOf(t: Id, idx: Index, again: bool)
      requires Valid() && t in spec.readers && CountedIn(spec.readers[t], idx, again)
      modifies this, conf, refcnt, ec
      ensures Valid() && old(log) <= log && Later(old(spec), spec, t) && t !in spec.ec.wakes
      ensures if again then t in spec.readers && spec.readers[t].Restart? else t !in spec.readers
    {
      hide DoubleBuffer.Valid, DoubleBuffer.SpecOk, DoubleBuffer.Parts, SameUpdate, Took, Current, FewReaders;
      Yield(t);
      var last := FetchSubRef(t, idx, again);
      if last {
        Yield(t);
        var mustWake := NotifyWriter(t);
        if mustWake {
          Yield(t);
          CallFutexWake(t);
        }
      }
    }

    // The retry loop of config_acquire, cut off after `rounds` rounds.  The version
    // pinned is at least the one that was active at the call, and every round that
    // fails has seen another version published.
    method Acquire(t: Id, rounds: nat) returns (ok: bool, idx: Index)
      requires Valid() && t !in spec.readers && t !in spec.ec.wakes && FewReaders(spec, t)
      modifies this, conf, refcnt, ec
      ensures Valid() && old(log) <= log && Later(old(spec), spec, t) && t !in spec.ec.wakes
      ensures ok ==> Pinned(spec, t, idx, Current(old(spec))) && Snapshot(conf[idx], spec, t)
      ensures !ok ==> Current(old(spec)) + rounds <= Current(spec) && (t in spec.readers ==> spec.readers[t].Restart?)
    {
      hide DoubleBuffer.Valid, DoubleBuffer.SpecOk, DoubleBuffer.Parts, SameUpdate, Took, Current, FewReaders;
      ok, idx := false, 0;
      var left := rounds;
      while left > 0
        invariant Valid() && old(log) <= log && Later(old(spec), spec, t) && t !in spec.ec.wakes
        invariant t in spec.readers ==> spec.readers[t].Restart?
        invariant FewReaders(spec, t) && Current(old(spec)) + (rounds - left) <= Current(spec)
      {
        left := left - 1;
        Yield(t);
        idx := LoadIndexWord(t);
        Yield(t);
        FetchAddRef(t, idx);
        Yield(t);
        ok := RecheckIndex(t, idx);
        if ok { return; }
        CountOutOf(t, idx, true);
      }
    }

    method ReleaseRef(t: Id, idx: Index)
      requires Valid() && t in spec.readers && CountedIn(spec.readers[t], idx, false)
      modifies this, conf, refcnt, ec
      ensures Valid() && old(log) <= log && t !in spec.readers && t !in spec.ec.wakes
    {
      hide DoubleBuffer.Valid, DoubleBuffer.SpecOk, DoubleBuffer.Parts, SameUpdate, Took, Current, FewReaders;
      CountOutOf(t, idx, false);
    }

    // ----------------------------------------------------------------- writer

    // pthread_mutex_lock granted, and the load of the active index.
    method LockWriter(t: Id) returns (was: Index)
      requires Valid() && spec.writer.Free?
      modifies this`spec, this`log
      ensures Valid() && log == old(log) + [Step(t, Lock)]
      ensures was == old(spec).active && spec == old(spec).(owner := t, writer := Loading(was))
    {
      Sizes(spec);
      hide Inv, Legal, After, Later, Mirrors;
      ghost var s := spec;
      CountsMirrored(Shown(), ec.spec, s, Next(s, t, Lock));
      was := activeIdx;
      Follow(t, Lock);
    }

    // One assignment of the parser to the inactive structure.
    method StoreField(t: Id, was: Index, e: Entry)
      requires Valid() && HasLock(spec, t, Loading(was))
      modifies this`spec, this`log, conf
      ensures Valid() && log == old(log) + [Step(t, WriteField(e.size, e.value))]
      ensures |old(spec).conf| == 2 && spec == Stored(old(spec), was, e)
    {
      Sizes(spec);
      StoreEffect(spec, t, was, e);
      hide Inv, Legal, After, Later, SetField, Mirrors, Next, Enabled, Stored;
      ghost var s := spec;
      var c := SetField(conf[1 - was], e.size, e.value);
      FieldMirrored(Shown(), s, was, e);
      conf[1 - was] := c;
      Follow(t, WriteField(e.size, e.value));
    }

    method UnlockFailed(t: Id, was: Index)
      requires Valid() && HasLock(spec, t, Loading(was))
      modifies this`spec, this`log
      ensures Valid() && log == old(log) + [Step(t, FailLoad)] && spec == old(spec).(writer := Free)
    {
      Sizes(spec);
      hide Inv, Legal, After, Later, Mirrors;
      ghost var s := spec;
      CountsMirrored(Shown(), ec.spec, s, Next(s, t, FailLoad));
      Follow(t, FailLoad);
    }

    method Swap(t: Id, was: Index)
      requires Valid() && HasLock(spec, t, Loading(was))
      modifies this`spec, this`log, this`activeIdx
      ensures Valid() && log == old(log) + [Step(t, Publish)] && |old(spec).conf| == 2
      ensures spec == old(spec).(active := Other(was), writer := Preparing(was),
                                 published := old(spec).published + [old(spec).conf[Other(was)]])
    {
      Sizes(spec);
      hide Inv, Legal, After, Later;
      activeIdx := 1 - was;
      Follow(t, Publish);
    }

    method PrepareToWait(t: Id, was: Index) returns (key: Word)
      requires Valid() && HasLock(spec, t, Preparing(was))
      modifies this`spec, this`log, ec
      ensures Valid() && log == old(log) + [Step(t, PrepareWait)] && SameConfig(old(spec), spec)
      ensures HasLock(spec, t, Checking(was)) && InWait(spec, t, key) && spec.ec.waiters[t].Registered?
      ensures spec.ec.waiters[t].key == spec.ec.notifies == old(spec).ec.notifies
    {
      Sizes(spec);
      Registered(spec, t);
      hide Inv, Legal, After, Later, Mirrors;
      ghost var s := spec;
      CountsMirrored(Shown(), E.Next(ec.spec, t, E.Prepare), s, Next(s, t, PrepareWait));
      key := ec.PrepareWait(t);
      Follow(t, PrepareWait);
    }

    method CountIsZero(t: Id, was: Index) returns (zero: bool)
      requires Valid() && HasLock(spec, t, Checking(was))
      modifies this`spec, this`log
      ensures Valid() && log == old(log) + [Step(t, LoadCount)] && SameConfig(old(spec), spec)
      ensures spec.ec == old(spec).ec && HasLock(spec, t, if zero then Cancelling(was) else Waiting(was))
    {
      Sizes(spec);
      hide Inv, Legal, After, Later, Mirrors;
      ghost var s := spec;
      WordsMirrored(Shown(), s, was);
      zero := refcnt[was] == 0;
      CountsMirrored(Shown(), ec.spec, s, Next(s, t, LoadCount));
      Follow(t, LoadCount);
    }

    method CancelWaiting(t: Id, was: Index)
      requires Valid() && HasLock(spec, t, Cancelling(was))
      modifies this`spec, this`log, ec
      ensures Valid() && log == old(log) + [Step(t, CancelWait)] && SameConfig(old(spec), spec)
      ensures HasLock(spec, t, Unlocking(was)) && spec.ec.notifies == old(spec).ec.notifies
    {
      Sizes(spec);
      Registered(spec, t);
      hide Inv, Legal, After, Later, Mirrors;
      ghost var s := spec;
      CountsMirrored(Shown(), E.Next(ec.spec, t, E.Cancel), s, Next(s, t, CancelWait));
      ec.SubWaiter(t);
      Follow(t, CancelWait);
    }

    method UnlockWriter(t: Id, was: Index)
      requires Valid() && HasLock(spec, t, Unlocking(was))
      modifies this`spec, this`log
      ensures Valid() && log == old(log) + [Step(t, Unlock)] && spec == old(spec).(writer := Free)
      ensures AtLeast(spec, Current(spec))
    {
      Sizes(spec);
      hide Inv, Legal, After, Later, Mirrors, AtLeast;
      ghost var s := spec;
      CountsMirrored(Shown(), ec.spec, s, Next(s, t, Unlock));
      Follow(t, Unlock);
      NobodyBehind(spec);
    }

    method EpochIsSame(t: Id, was: Index, key: Word) returns (same: bool)
      requires Valid() && HasLock(spec, t, Waiting(was)) && InWait(spec, t, key) && spec.ec.waiters[t].Registered?
      modifies this`spec, this`log, ec
      ensures Valid() && log == old(log) + [Step(t, WaitStep(E.TestEpoch))] && SameConfig(old(spec), spec)
      ensures HasLock(spec, t, Waiting(was)) && InWait(spec, t, key)
      ensures SameKey(old(spec), spec, t)
      ensures if same then spec.ec.waiters[t].Calling? else spec.ec.waiters[t].Leaving?
    {
      Sizes(spec);
      TestEffect(spec, t, was);
      hide Inv, Legal, After, Later, Mirrors, Next, Enabled, E.Next;
      ghost var s := spec;
      CountsMirrored(Shown(), E.Next(ec.spec, t, E.TestEpoch), s, Next(s, t, WaitStep(E.TestEpoch)));
      same := ec.EpochUnchanged(t, key);
      Follow(t, WaitStep(E.TestEpoch));
    }

    method CallFutexWait(t: Id, was: Index, key: Word) returns (slept: bool)
      requires Valid() && HasLock(spec, t, Waiting(was)) && InWait(spec, t, key) && spec.ec.waiters[t].Calling?
      modifies this`spec, this`log, ec
      ensures Valid() && log == old(log) + [Step(t, WaitStep(E.Block))] && SameConfig(old(spec), spec)
      ensures HasLock(spec, t, Waiting(was)) && InWait(spec, t, key)
      ensures SameKey(old(spec), spec, t)
      ensures if slept then spec.ec.waiters[t].Asleep? else spec.ec.waiters[t].Registered?
    {
      Sizes(spec);
      hide Inv, Legal, After, Later, Mirrors;
      ghost var s := spec;
      CountsMirrored(Shown(), E.Next(ec.spec, t, E.Block), s, Next(s, t, WaitStep(E.Block)));
      slept := ec.FutexWait(t, key);
      Follow(t, WaitStep(E.Block));
    }

    // FUTEX_WAIT returns: somebody woke the thread, or nobody did.
    method FutexReturns(t: Id, was: Index, ghost key: Word)
      requires Valid() && HasLock(spec, t, Waiting(was)) && InWait(spec, t, key)
      requires spec.ec.waiters[t].Asleep? || spec.ec.waiters[t].Registered?
      modifies this`spec, this`log, ec
      ensures Valid() && old(log) <= log && SameConfig(old(spec), spec)
      ensures HasLock(spec, t, Waiting(was)) && InWait(spec, t, key) && spec.ec.waiters[t].Registered?
      ensures SameKey(old(spec), spec, t)
    {
      Sizes(spec);
      hide Inv, Legal, After, Later;
      ghost var unasked := spec.ec.waiters[t].Asleep?;
      if unasked {
        ec.ReturnUnasked(t);
        Follow(t, WaitStep(E.Spurious));
      }
    }

    method LeaveWait(t: Id, was: Index, ghost key: Word)
      requires Valid() && HasLock(spec, t, Waiting(was)) && InWait(spec, t, key) && spec.ec.waiters[t].Leaving?
      modifies this`spec, this`log, ec
      ensures Valid() && log == old(log) + [Step(t, WaitStep(E.Leave))] && SameConfig(old(spec), spec)
      ensures HasLock(spec, t, Preparing(was))
      ensures old(spec).ec.waiters[t].key < spec.ec.notifies == old(spec).ec.notifies
    {
      Sizes(spec);
      hide Inv, Legal, After, Later, Mirrors;
      ghost var s := spec;
      CountsMirrored(Shown(), E.Next(ec.spec, t, E.Leave), s, Next(s, t, WaitStep(E.Leave)));
      ec.SubWaiter(t);
      Follow(t, WaitStep(E.Leave));
    }

    // The loop of ec_wait, cut off after `rounds` rounds.  It ends only with the
    // epoch past the key, and every round used up is a FUTEX_WAIT call.
    method EcWait(t: Id, was: Index, key: Word, rounds: nat) returns (done: bool)
      requires Valid() && HasLock(spec, t, Waiting(was)) && InWait(spec, t, key) && spec.ec.waiters[t].Registered?
      modifies this, conf, refcnt, ec
      ensures Valid() && old(log) <= log && SameConfig(old(spec), spec)
      ensures HasLock(spec, t, if done then Preparing(was) else Waiting(was))
      ensures old(spec).ec.notifies <= spec.ec.notifies
      ensures done ==> old(spec).ec.waiters[t].key < spec.ec.notifies
      ensures !done ==> rounds <= WaitRounds(log, t) - WaitRounds(old(log), t)
    {
      hide DoubleBuffer.Valid, DoubleBuffer.SpecOk, DoubleBuffer.Parts, SameReader, Took, FewReaders, Current;
      hide WaitRounds;
      var left := rounds;
      while left > 0
        invariant Valid() && old(log) <= log && SameConfig(old(spec), spec)
        invariant HasLock(spec, t, Waiting(was)) && InWait(spec, t, key) && spec.ec.waiters[t].Registered?
        invariant SameKey(old(spec), spec, t)
        invariant rounds - left <= WaitRounds(log, t) - WaitRounds(old(log), t)
      {
        ghost var before := log;
        left := left - 1;
        Yield(t);
        var same := EpochIsSame(t, was, key);
        Yield(t);
        if !same {
          LeaveWait(t, was, key);
          return true;
        }
        WaitRoundsGrow(before, log, t);
        OneWaitRound(log, t);
        var slept := CallFutexWait(t, was, key);
        before := log;
        if slept {
          Yield(t);
          FutexReturns(t, was, key);
        }
        WaitRoundsGrow(before, log, t);
      }
      done := false;
    }

    // The drain loop of config_update, cut off after `rounds` rounds.  Every round
    // that went through has seen another notification.
    method Drain(t: Id, was: Index, rounds: nat) returns (done: bool)
      requires Valid() && HasLock(spec, t, Preparing(was))
      modifies this, conf, refcnt, ec
      ensures Valid() && old(log) <= log && SameConfig(old(spec), spec) && spec.owner == t
      ensures if done then spec.writer == Unlocking(was)
              else spec.writer == Preparing(was) || spec.writer == Waiting(was)
      ensures old(spec).ec.notifies <= spec.ec.notifies
      ensures spec.writer.Waiting? ==> rounds <= WaitRounds(log, t) - WaitRounds(old(log), t)
      ensures spec.writer.Preparing? ==> old(spec).ec.notifies + rounds <= spec.ec.notifies
    {
      hide DoubleBuffer.Valid, DoubleBuffer.SpecOk, DoubleBuffer.Parts, SameReader, Took, FewReaders, Current;
      hide WaitRounds;
      var left := rounds;
      while left > 0
        invariant Valid() && old(log) <= log && SameConfig(old(spec), spec)
        invariant HasLock(spec, t, Preparing(was)) && old(spec).ec.notifies + (rounds - left) <= spec.ec.notifies
      {
        left := left - 1;
        Yield(t);
        var key := PrepareToWait(t, was);
        Yield(t);
        var zero := CountIsZero(t, was);
        if zero {
          Yield(t);
          CancelWaiting(t, was);
          return true;
        }
        WaitRoundsGrow(old(log), log, t);
        var woken := EcWait(t, was, key, rounds);
        if !woken { return false; }
      }
      done := false;
    }

    // load_config into the inactive structure: the assignments its parser makes.
    method LoadFields(t: Id, was: Index, entries: seq<Entry>)
      requires Valid() && HasLock(spec, t, Loading(was)) && |spec.conf| == 2
      modifies this, conf, refcnt, ec
      ensures Valid() && old(log) <= log && HasLock(spec, t, Loading(was))
      ensures spec.active == old(spec).active && spec.published == old(spec).published
      ensures old(spec).ec.notifies <= spec.ec.notifies
      ensures |spec.conf| == 2 && spec.conf[Other(was)] == Filled(old(spec).conf[Other(was)], entries)
    {
      hide DoubleBuffer.Valid, DoubleBuffer.SpecOk, DoubleBuffer.Parts, SameReader, Took, FewReaders, Current;
      hide SetField;
      ghost var c := spec.conf[Other(was)];
      for k := 0 to |entries|
        invariant Valid() && old(log) <= log && HasLock(spec, t, Loading(was))
        invariant spec.active == old(spec).active && spec.published == old(spec).published
        invariant old(spec).ec.notifies <= spec.ec.notifies
        invariant |spec.conf| == 2 && spec.conf[Other(was)] == Filled(c, entries[..k])
      {
        Yield(t);
        StoreField(t, was, entries[k]);
        assert entries[..k + 1][..k] == entries[..k];
      }
      assert entries[..|entries|] == entries;
    }

    // config_update, once it holds writer_lock.  `entries` are the assignments the
    // parser makes before it returns or fails.
    method Update(t: Id, entries: seq<Entry>, loads: bool, rounds: nat) returns (r: Outcome)
      requires Valid() && spec.writer.Free? && |spec.conf| == 2
      modifies this, conf, refcnt, ec
      ensures Valid() && old(log) <= log
      ensures r.LoadFailed? <==> !loads
      ensures r.LoadFailed? ==>
                spec.writer.Free? && spec.active == old(spec).active && spec.published == old(spec).published
      ensures loads ==>
                && spec.active == Other(old(spec).active)
                && spec.published == old(spec).published + [Filled(old(spec).conf[Other(old(spec).active)], entries)]
      ensures r.Updated? ==> spec.writer.Free? && AtLeast(spec, Current(spec))
      ensures r.StillDraining? ==> spec.owner == t && Draining(spec.writer)
      ensures r.StillDraining? && spec.writer.Waiting? ==> rounds <= WaitRounds(log, t) - WaitRounds(old(log), t)
      ensures r.StillDraining? && spec.writer.Preparing? ==> old(spec).ec.notifies + rounds <= spec.ec.notifies
    {
      hide DoubleBuffer.Valid, DoubleBuffer.SpecOk, DoubleBuffer.Parts, SameReader, Took, FewReaders, Current;
      hide Filled, AtLeast, WaitRounds;
      var was := LockWriter(t);
      LoadFields(t, was, entries);
      Yield(t);
      if !loads {
        UnlockFailed(t, was);
        return LoadFailed;
      }
      Swap(t, was);
      WaitRoundsGrow(old(log), log, t);
      var done := Drain(t, was, rounds);
      if !done { return StillDraining; }
      Yield(t);
      UnlockWriter(t, was);
      r := Updated;
    }
  }
}
