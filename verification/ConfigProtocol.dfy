// The double-buffered configuration: readers pin a buffer by reference count and
// re-validate, a writer loads the other buffer, swaps, and waits for the readers
// of the old one to leave.
module ConfigProtocol {
  import E = EventCount

  type Id = nat
  type Index = i: int | 0 <= i < 2

  datatype Config = Config(maxLogSize: int, maxBackup: int)

  // A thread inside config_acquire, between acquire and release, or inside
  // config_release.  A thread that holds several references counts as several.
  datatype Reader =
    | Loaded(idx: Index)                  // loaded the active index
    | Counted(idx: Index)                 // counted itself in, before the second load
    | Holding(idx: Index, version: nat)
    | Undoing(idx: Index)                 // the index moved: before counting itself out
    | MustNotify(again: bool)             // was the last one out; then acquires again, or is done
    | Restart                             // before the first load of another attempt

  // The holder of writer_lock inside config_update.  `was` is the index that was
  // active when it took the lock.
  datatype Writer =
    | Free
    | Loading(was: Index)
    | Preparing(was: Index)     // swapped, before ec_prepare_wait
    | Checking(was: Index)      // before the load of refcnt[old]
    | Cancelling(was: Index)    // found no reader left
    | Waiting(was: Index)       // inside ec_wait
    | Unlocking(was: Index)

  // `published` and `seen` record history: the configurations made active so
  // far, and the version each thread acquired last.
  datatype State = State(
    conf: seq<Config>, active: Index, refcnt: seq<nat>, ec: E.State,
    readers: map<Id, Reader>, owner: Id, writer: Writer,
    published: seq<Config>, seen: map<Id, nat>)

  datatype Action =
    | LoadIndex
    | Increment
    | Revalidate
    | Undo
    | Release
    | Notify
    | Lock
    | WriteField(size: bool, value: int)
    | FailLoad
    | Publish
    | PrepareWait
    | LoadCount
    | CancelWait
    | WaitStep(ea: E.Action)
    | Unlock
    | CallWake(who: Id)

  const ZERO := Config(0, 0)

  const INIT := State([ZERO, ZERO], 0, [0, 0], E.INIT, map[], 0, Free, [ZERO], map[])

  function Other(i: Index): Index {
    1 - i
  }

  function Current(s: State): int {
    |s.published| - 1
  }

  ghost predicate Enabled(s: State, t: Id, a: Action) {
    && |s.conf| == 2 && |s.refcnt| == 2
    && match a
       case LoadIndex => (t !in s.readers || s.readers[t].Restart?) && t !in s.ec.wakes
       case Increment => t in s.readers && s.readers[t].Loaded?
       case Revalidate => t in s.readers && s.readers[t].Counted?
       case Undo => t in s.readers && s.readers[t].Undoing? && s.refcnt[s.readers[t].idx] > 0
       case Release => t in s.readers && s.readers[t].Holding? && s.refcnt[s.readers[t].idx] > 0
       case Notify => t in s.readers && s.readers[t].MustNotify? && E.Enabled(s.ec, t, E.Notify(E.One))
       case Lock => s.writer.Free?
       case WriteField(_, _) => s.writer.Loading? && t == s.owner
       case FailLoad => s.writer.Loading? && t == s.owner
       case Publish => s.writer.Loading? && t == s.owner
       case PrepareWait => s.writer.Preparing? && t == s.owner && E.Enabled(s.ec, t, E.Prepare)
       case LoadCount => s.writer.Checking? && t == s.owner
       case CancelWait => s.writer.Cancelling? && t == s.owner && E.Enabled(s.ec, t, E.Cancel)
       case WaitStep(ea) =>
         && s.writer.Waiting? && t == s.owner && E.Enabled(s.ec, t, ea)
         && (ea.TestEpoch? || ea.Block? || ea.Spurious? || ea.Leave?)
       case Unlock => s.writer.Unlocking? && t == s.owner
       case CallWake(who) => E.Enabled(s.ec, t, E.CallWake(who))
  }

  // atomic_fetch_sub on the reader's count: the last one out has to notify.
  function CountOut(s: State, t: Id, again: bool): State
    requires t in s.readers && (s.readers[t].Undoing? || s.readers[t].Holding?)
    requires |s.refcnt| == 2 && s.refcnt[s.readers[t].idx] > 0
  {
    var i := s.readers[t].idx;
    var left := s.refcnt[i] - 1;
    s.(refcnt := s.refcnt[i := left],
       readers := if left == 0 then s.readers[t := MustNotify(again)]
                  else if again then s.readers[t := Restart]
                  else s.readers - {t})
  }

  function SetField(c: Config, size: bool, value: int): Config {
    if size then c.(maxLogSize := value) else c.(maxBackup := value)
  }

  ghost function Next(s: State, t: Id, a: Action): State
    requires Enabled(s, t, a)
  {
    match a
    case LoadIndex => s.(readers := s.readers[t := Loaded(s.active)])
    case Increment =>
      var i := s.readers[t].idx;
      s.(refcnt := s.refcnt[i := s.refcnt[i] + 1], readers := s.readers[t := Counted(i)])
    case Revalidate => AfterRevalidate(s, t)
    case Undo => CountOut(s, t, true)
    case Release => CountOut(s, t, false)
    case Notify =>
      s.(ec := E.Next(s.ec, t, E.Notify(E.One)),
         readers := if s.readers[t].again then s.readers[t := Restart] else s.readers - {t})
    case Lock => s.(owner := t, writer := Loading(s.active))
    case WriteField(size, value) =>
      var i := Other(s.writer.was);
      s.(conf := s.conf[i := SetField(s.conf[i], size, value)])
    case FailLoad => s.(writer := Free)
    case Publish =>
      var i := Other(s.writer.was);
      s.(active := i, writer := Preparing(s.writer.was), published := s.published + [s.conf[i]])
    case PrepareWait => s.(ec := E.Next(s.ec, t, E.Prepare), writer := Checking(s.writer.was))
    case LoadCount =>
      s.(writer := if s.refcnt[s.writer.was] == 0 then Cancelling(s.writer.was) else Waiting(s.writer.was))
    case CancelWait => s.(ec := E.Next(s.ec, t, E.Cancel), writer := Unlocking(s.writer.was))
    case WaitStep(ea) =>
      s.(ec := E.Next(s.ec, t, ea), writer := if ea.Leave? then Preparing(s.writer.was) else s.writer)
    case Unlock => s.(writer := Free)
    case CallWake(who) => s.(ec := E.Next(s.ec, t, E.CallWake(who)))
  }

  function AfterRevalidate(s: State, t: Id): State
    requires t in s.readers && s.readers[t].Counted?
  {
    var i := s.readers[t].idx;
    if s.active == i && Current(s) >= 0 then
      s.(readers := s.readers[t := Holding(i, Current(s))], seen := s.seen[t := Current(s)])
    else
      s.(readers := s.readers[t := Undoing(i)])
  }

  // ------------------------------------------------- readers near one buffer

  // How many of its own steps a reader is from touching refcnt[i] for good.
  function Stage(r: Reader, i: Index): nat {
    match r
    case Loaded(idx) => if idx == i then 3 else 0
    case Counted(idx) => if idx == i then 2 else 0
    case Holding(idx, _) => if idx == i then 1 else 0
    case Undoing(idx) => if idx == i then 1 else 0
    case _ => 0
  }

  function Those(readers: map<Id, Reader>, i: Index, lo: nat, hi: nat): set<Id> {
    set t | t in readers && lo <= Stage(readers[t], i) <= hi
  }

  // The readers counted in refcnt[i].
  function Users(readers: map<Id, Reader>, i: Index): set<Id> {
    Those(readers, i, 1, 2)
  }

  function In(n: nat, lo: nat, hi: nat): nat {
    if lo <= n <= hi then 1 else 0
  }

  lemma ThoseUpdate(readers: map<Id, Reader>, t: Id, r: Reader, i: Index, lo: nat, hi: nat)
    requires lo >= 1
    ensures |Those(readers[t := r], i, lo, hi)|
            == |Those(readers, i, lo, hi)| + In(Stage(r, i), lo, hi)
               - (if t in readers then In(Stage(readers[t], i), lo, hi) else 0)
  {
    var before, after := Those(readers, i, lo, hi), Those(readers[t := r], i, lo, hi);
    SameBut(readers, t, r, i, lo, hi);
    hide Those;
    Without(before, t);
    Without(after, t);
  }

  lemma SameBut(readers: map<Id, Reader>, t: Id, r: Reader, i: Index, lo: nat, hi: nat)
    requires lo >= 1
    ensures Those(readers[t := r], i, lo, hi) - {t} == Those(readers, i, lo, hi) - {t}
    ensures t in Those(readers[t := r], i, lo, hi) <==> In(Stage(r, i), lo, hi) == 1
    ensures t in Those(readers, i, lo, hi) <==> t in readers && In(Stage(readers[t], i), lo, hi) == 1
  {
    hide Stage;
  }

  lemma ThoseRemove(readers: map<Id, Reader>, t: Id, i: Index, lo: nat, hi: nat)
    requires lo >= 1 && t in readers
    ensures |Those(readers - {t}, i, lo, hi)| == |Those(readers, i, lo, hi)| - In(Stage(readers[t], i), lo, hi)
  {
    var before, after := Those(readers, i, lo, hi), Those(readers - {t}, i, lo, hi);
    assert after == before - {t};
    Without(before, t);
  }

  lemma Without(a: set<Id>, t: Id)
    ensures |a - {t}| == |a| - (if t in a then 1 else 0)
  {
    if t !in a { assert a - {t} == a; }
  }

  // ---------------------------------------------------------------- invariant

  ghost predicate CountsOk(refcnt: seq<nat>, readers: map<Id, Reader>) {
    |refcnt| == 2 && forall i: Index :: refcnt[i] == |Users(readers, i)|
  }

  // Swapped and not yet found the old buffer unused.
  predicate Draining(w: Writer) {
    w.Preparing? || w.Checking? || w.Waiting?
  }

  predicate WaitRegistered(w: Writer) {
    w.Checking? || w.Cancelling? || w.Waiting?
  }

  // The version a holder of buffer i has.
  ghost predicate VersionOk(s: State, i: Index, version: nat) {
    || (i == s.active && version == Current(s))
    || (Draining(s.writer) && i == s.writer.was && version == Current(s) - 1)
  }

  ghost predicate BuffersOk(s: State) {
    && |s.conf| == 2 && |s.published| >= 1
    && s.conf[s.active] == s.published[Current(s)]
    && (s.writer.Loading? ==> s.active == s.writer.was)
    && (Draining(s.writer) || s.writer.Cancelling? || s.writer.Unlocking? ==> s.active == Other(s.writer.was))
    && (Draining(s.writer) ==> Current(s) >= 1 && s.conf[s.writer.was] == s.published[Current(s) - 1])
  }

  ghost predicate HoldersOk(s: State) {
    forall t :: t in s.readers && s.readers[t].Holding? ==> VersionOk(s, s.readers[t].idx, s.readers[t].version)
  }

  ghost predicate SeenOk(s: State) {
    forall t :: t in s.seen ==> s.seen[t] <= Current(s)
  }

  // Only the lock holder waits; a reader about to notify has no other wake-up
  // call outstanding.
  ghost predicate WaitsOk(s: State) {
    && E.Inv(s.ec)
    && s.ec.waiters.Keys == (if WaitRegistered(s.writer) then {s.owner} else {})
    && (WaitRegistered(s.writer) && !s.writer.Waiting? ==> s.ec.waiters[s.owner].Registered?)
    && (forall t :: t in s.readers && !s.readers[t].Restart? ==> t !in s.ec.wakes)
  }

  ghost predicate Told(s: State) {
    s.owner in s.ec.waiters && s.ec.notifies > s.ec.waiters[s.owner].key
  }

  ghost predicate SomeMustNotify(readers: map<Id, Reader>) {
    exists t :: t in readers && readers[t].MustNotify?
  }

  ghost predicate Alert(s: State) {
    s.writer.Waiting? && |s.refcnt| == 2 && s.refcnt[s.writer.was] == 0 ==> SomeMustNotify(s.readers) || Told(s)
  }

  ghost predicate Inv(s: State) {
    && CountsOk(s.refcnt, s.readers)
    && BuffersOk(s) && HoldersOk(s) && SeenOk(s) && WaitsOk(s) && Alert(s)
  }

  // ------------------------------------------------------------ preservation

  lemma CountsMove(refcnt: seq<nat>, readers: map<Id, Reader>, t: Id, r: Reader)
    requires CountsOk(refcnt, readers)
    requires forall i: Index :: In(Stage(r, i), 1, 2) == if t in readers then In(Stage(readers[t], i), 1, 2) else 0
    ensures CountsOk(refcnt, readers[t := r])
  {
    forall i: Index
      ensures |Users(readers[t := r], i)| == |Users(readers, i)|
    {
      ThoseUpdate(readers, t, r, i, 1, 2);
    }
  }

  lemma CountsUp(refcnt: seq<nat>, readers: map<Id, Reader>, t: Id, k: Index)
    requires CountsOk(refcnt, readers) && t in readers && readers[t] == Loaded(k)
    ensures CountsOk(refcnt[k := refcnt[k] + 1], readers[t := Counted(k)])
  {
    ThoseUpdate(readers, t, Counted(k), 0, 1, 2);
    ThoseUpdate(readers, t, Counted(k), 1, 1, 2);
  }

  lemma CountsDown(refcnt: seq<nat>, readers: map<Id, Reader>, t: Id, k: Index, r: Reader)
    requires CountsOk(refcnt, readers) && t in readers
    requires readers[t] == Undoing(k) || (readers[t].Holding? && readers[t].idx == k)
    requires refcnt[k] > 0 && (r.MustNotify? || r.Restart?)
    ensures CountsOk(refcnt[k := refcnt[k] - 1], readers[t := r])
    ensures CountsOk(refcnt[k := refcnt[k] - 1], readers - {t})
  {
    ThoseUpdate(readers, t, r, 0, 1, 2);
    ThoseUpdate(readers, t, r, 1, 1, 2);
    ThoseRemove(readers, t, 0, 1, 2);
    ThoseRemove(readers, t, 1, 1, 2);
  }

  lemma CountsGone(refcnt: seq<nat>, readers: map<Id, Reader>, t: Id)
    requires CountsOk(refcnt, readers) && t in readers && readers[t].MustNotify?
    ensures CountsOk(refcnt, readers - {t})
  {
    ThoseRemove(readers, t, 0, 1, 2);
    ThoseRemove(readers, t, 1, 1, 2);
  }

  // A reference count of zero: nobody holds the buffer.
  lemma ZeroCount(refcnt: seq<nat>, readers: map<Id, Reader>, i: Index)
    requires CountsOk(refcnt, readers)
    ensures refcnt[i] == 0 ==> forall t :: t in readers && readers[t].Holding? ==> readers[t].idx != i
    ensures forall t :: t in readers && (readers[t].Holding? || readers[t].Undoing?) && readers[t].idx == i ==>
              refcnt[i] > 0
  {
    forall t | t in readers && (readers[t].Holding? || readers[t].Undoing?) && readers[t].idx == i
      ensures refcnt[i] > 0
    {
      assert t in Users(readers, i);
    }
  }

  // At most t's entry differs, and t holds no buffer.
  ghost predicate LetGo(readers: map<Id, Reader>, readers': map<Id, Reader>, t: Id) {
    && (forall u :: u in readers' && u != t ==> u in readers && readers'[u] == readers[u])
    && (t in readers' ==> !readers'[t].Holding?)
  }

  lemma LetGoKeeps(s: State, n: State, t: Id)
    requires BuffersOk(s) && HoldersOk(s) && SeenOk(s) && WaitsOk(s)
    requires t !in s.ec.wakes && LetGo(s.readers, n.readers, t)
    requires n == s.(refcnt := n.refcnt, readers := n.readers)
    ensures BuffersOk(n) && HoldersOk(n) && SeenOk(n) && WaitsOk(n)
  {
    hide E.Inv;
  }

  lemma LoadIndexInv(s: State, t: Id)
    requires Inv(s) && Enabled(s, t, LoadIndex)
    ensures Inv(Next(s, t, LoadIndex))
  {
    CountsMove(s.refcnt, s.readers, t, Loaded(s.active));
    KeepMustNotify(s.readers, t, Loaded(s.active));
    LetGoKeeps(s, Next(s, t, LoadIndex), t);
    hide WaitsOk, CountsOk, SomeMustNotify, HoldersOk, BuffersOk, SeenOk, LetGo;
  }

  lemma KeepMustNotify(readers: map<Id, Reader>, t: Id, r: Reader)
    requires t in readers ==> !readers[t].MustNotify?
    ensures SomeMustNotify(readers) ==> SomeMustNotify(readers[t := r]) && SomeMustNotify(readers - {t})
  {
    if SomeMustNotify(readers) {
      var u :| u in readers && readers[u].MustNotify?;
      assert u in readers[t := r] && readers[t := r][u].MustNotify?;
      assert u in readers - {t} && (readers - {t})[u].MustNotify?;
    }
  }

  lemma IncrementInv(s: State, t: Id)
    requires Inv(s) && Enabled(s, t, Increment)
    ensures Inv(Next(s, t, Increment))
  {
    CountsUp(s.refcnt, s.readers, t, s.readers[t].idx);
    KeepMustNotify(s.readers, t, Counted(s.readers[t].idx));
    LetGoKeeps(s, Next(s, t, Increment), t);
    hide WaitsOk, CountsOk, SomeMustNotify, HoldersOk, BuffersOk, SeenOk, LetGo;
  }

  lemma RevalidateInv(s: State, t: Id)
    requires Inv(s) && Enabled(s, t, Revalidate)
    ensures Inv(AfterRevalidate(s, t))
  {
    var r := AfterRevalidate(s, t).readers[t];
    CountsMove(s.refcnt, s.readers, t, r);
    KeepMustNotify(s.readers, t, r);
    if r.Undoing? { LetGoKeeps(s, AfterRevalidate(s, t), t); }
    hide CountsOk, SomeMustNotify, E.Inv;
  }

  lemma CountOutInv(s: State, t: Id, again: bool)
    requires Inv(s) && t in s.readers && (s.readers[t].Undoing? || s.readers[t].Holding?)
    requires s.refcnt[s.readers[t].idx] > 0
    ensures Inv(CountOut(s, t, again))
  {
    var i := s.readers[t].idx;
    var left := s.refcnt[i] - 1;
    if left == 0 {
      CountedOut(s, t, left, MustNotify(again), s.readers[t := MustNotify(again)]);
    } else if again {
      CountedOut(s, t, left, Restart, s.readers[t := Restart]);
    } else {
      CountedOut(s, t, left, Restart, s.readers - {t});
    }
  }

  lemma CountedOut(s: State, t: Id, left: nat, r: Reader, readers: map<Id, Reader>)
    requires Inv(s) && t in s.readers && (s.readers[t].Undoing? || s.readers[t].Holding?)
    requires left + 1 == s.refcnt[s.readers[t].idx]
    requires readers == s.readers[t := r] || readers == s.readers - {t}
    requires if left == 0 then r.MustNotify? && readers == s.readers[t := r] else r.Restart?
    ensures Inv(s.(refcnt := s.refcnt[s.readers[t].idx := left], readers := readers))
  {
    CountsDown(s.refcnt, s.readers, t, s.readers[t].idx, r);
    KeepMustNotify(s.readers, t, r);
    if left == 0 { assert SomeMustNotify(readers) by { assert t in readers && readers[t].MustNotify?; } }
    LetGoKeeps(s, s.(refcnt := s.refcnt[s.readers[t].idx := left], readers := readers), t);
    hide WaitsOk, CountsOk, SomeMustNotify, HoldersOk, BuffersOk, SeenOk, LetGo;
  }

  lemma EcInv(s: State, t: Id, ea: E.Action)
    requires WaitsOk(s) && E.Enabled(s.ec, t, ea) && (ea.Prepare? ==> s.ec.waiters == map[])
    ensures E.Inv(E.Next(s.ec, t, ea))
  {
    assert |s.ec.waiters| == |s.ec.waiters.Keys|;
    E.NextInv(E.Use(1, false), s.ec, t, ea);
  }

  lemma NotifyInv(s: State, t: Id)
    requires Inv(s) && Enabled(s, t, Notify)
    ensures Inv(Next(s, t, Notify))
  {
    EcInv(s, t, E.Notify(E.One));
    if s.readers[t].again { CountsMove(s.refcnt, s.readers, t, Restart); } else { CountsGone(s.refcnt, s.readers, t); }
    hide CountsOk;
  }

  lemma CallWakeInv(s: State, t: Id, who: Id)
    requires Inv(s) && Enabled(s, t, CallWake(who))
    ensures Inv(Next(s, t, CallWake(who)))
  {
    EcInv(s, t, E.CallWake(who));
    hide CountsOk;
    assert Next(s, t, CallWake(who)).ec.waiters.Keys == s.ec.waiters.Keys;
  }

  lemma UpdateInv(s: State, t: Id, a: Action)
    requires Inv(s) && Enabled(s, t, a)
    requires a.Lock? || a.WriteField? || a.FailLoad? || a.Publish? || a.Unlock?
    ensures Inv(Next(s, t, a))
  {
    hide CountsOk, E.Inv;
  }

  lemma LoadCountInv(s: State, t: Id)
    requires Inv(s) && Enabled(s, t, LoadCount)
    ensures Inv(Next(s, t, LoadCount))
  {
    ZeroCount(s.refcnt, s.readers, s.writer.was);
    hide CountsOk, E.Inv;
  }

  lemma WaitInv(s: State, t: Id, a: Action)
    requires Inv(s) && Enabled(s, t, a) && (a.PrepareWait? || a.CancelWait? || a.WaitStep?)
    ensures Inv(Next(s, t, a))
  {
    hide CountsOk;
    match a
    case PrepareWait => assert s.ec.waiters == map[]; EcInv(s, t, E.Prepare);
    case CancelWait => EcInv(s, t, E.Cancel);
    case WaitStep(ea) => EcInv(s, t, ea);
  }

  lemma NextInv(s: State, t: Id, a: Action)
    requires Inv(s) && Enabled(s, t, a)
    ensures Inv(Next(s, t, a))
  {
    match a
    case LoadIndex => LoadIndexInv(s, t);
    case Increment => IncrementInv(s, t);
    case Revalidate => RevalidateInv(s, t);
    case Undo => CountOutInv(s, t, true);
    case Release => CountOutInv(s, t, false);
    case Notify => NotifyInv(s, t);
    case CallWake(who) => CallWakeInv(s, t, who);
    case PrepareWait => WaitInv(s, t, a);
    case CancelWait => WaitInv(s, t, a);
    case WaitStep(_) => WaitInv(s, t, a);
    case Lock => UpdateInv(s, t, a);
    case WriteField(_, _) => UpdateInv(s, t, a);
    case FailLoad => UpdateInv(s, t, a);
    case Publish => UpdateInv(s, t, a);
    case LoadCount => LoadCountInv(s, t);
    case Unlock => UpdateInv(s, t, a);
  }
}
