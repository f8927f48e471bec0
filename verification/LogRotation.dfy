// Writing, rotating and retaining the daemon's log files, over a file system
// that maps paths to contents.  Every system call that can fail takes its
// outcome as an argument.
module LogRotation {

  // A rotated file: its name and the pieces written to it.
  datatype Rotated = Rotated(name: string, pieces: seq<string>)

  // The logger with its disk.  `current`, `archive` and `unlinked` record history:
  // the pieces that make up the current file, the files rotated away, and the
  // names removed.
  datatype Log = Log(
    path: string, maxSize: nat, maxBackup: nat,
    disk: map<string, string>, size: nat, open: bool, backups: seq<string>,
    current: seq<string>, archive: seq<Rotated>, unlinked: seq<string>)

  // What the system calls of one write do: the time stamp a rotation would use,
  // whether rename and fopen succeed, how much fwrite writes.
  datatype Io = Io(time: string, renamed: bool, reopened: bool, accepted: nat)

  function BackupName(path: string, time: string): (name: string)
    ensures name != path
  {
    path + "_" + time
  }

  // strcmp
  predicate Before(a: string, b: string) {
    b != "" && (a == "" || a[0] < b[0] || (a[0] == b[0] && Before(a[1..], b[1..])))
  }

  lemma {:induction false} BeforeBehind(p: string, a: string, b: string)
    ensures Before(p + a, p + b) <==> Before(a, b)
  {
    if p == [] {
      assert p + a == a && p + b == b;
    } else {
      assert (p + a)[1..] == p[1..] + a && (p + b)[1..] == p[1..] + b;
      BeforeBehind(p[1..], a, b);
    }
  }

  lemma {:induction false} NeverBeforeItself(a: string)
    ensures !Before(a, a)
  {
    if a != "" { NeverBeforeItself(a[1..]); }
  }

  lemma {:induction false} BeforeOneWay(a: string, b: string)
    requires Before(a, b)
    ensures !Before(b, a)
  {
    if a != "" && a[0] == b[0] { BeforeOneWay(a[1..], b[1..]); }
  }

  // A rotated file's name tells its stamp, and the names sort as the stamps do.
  lemma NamesAsStamps(path: string, t: string, u: string)
    ensures BackupName(path, t) == BackupName(path, u) <==> t == u
    ensures Before(BackupName(path, t), BackupName(path, u)) <==> Before(t, u)
  {
    BeforeBehind(path + "_", t, u);
    assert BackupName(path, t)[|path| + 1..] == t && BackupName(path, u)[|path| + 1..] == u;
  }

  function Flat(pieces: seq<string>): string {
    if pieces == [] then "" else pieces[0] + Flat(pieces[1..])
  }

  lemma {:induction false} FlatAppend(a: seq<string>, b: seq<string>)
    ensures Flat(a + b) == Flat(a) + Flat(b)
  {
    if a == [] {
      assert a + b == b;
    } else {
      assert (a + b)[1..] == a[1..] + b;
      FlatAppend(a[1..], b);
    }
  }

  // ------------------------------------------------------------ the operations

  function Without(disk: map<string, string>, names: seq<string>): map<string, string> {
    disk - (set n | n in names)
  }

  // cleanup_old_backup_log_files
  function Cleanup(l: Log): Log {
    if |l.backups| <= l.maxBackup then l
    else
      var extra := |l.backups| - l.maxBackup;
      l.(disk := Without(l.disk, l.backups[..extra]), backups := l.backups[extra..],
         unlinked := l.unlinked + l.backups[..extra])
  }

  // rotate_log; a failed rename leaves everything as it was.
  function Rotate(l: Log, name: string, renamed: bool, init: bool): Log {
    if !renamed || l.path !in l.disk then l
    else
      var moved := l.(disk := (l.disk - {l.path})[name := l.disk[l.path]], size := 0,
                      current := [], archive := l.archive + [Rotated(name, l.current)]);
      if init || l.maxBackup == 0 then moved else Cleanup(moved.(backups := moved.backups + [name]))
  }

  function OpenFile(l: Log, reopened: bool): Log {
    if l.open || !reopened then l
    else l.(open := true, disk := if l.path in l.disk then l.disk else l.disk[l.path := ""])
  }

  // write_daemon_log for a formatted line
  function Write(l: Log, line: string, io: Io): Log {
    var r := if l.size + |line| <= l.maxSize then l
             else Rotate(l.(open := false), BackupName(l.path, io.time), io.renamed, false);
    Emit(OpenFile(r, io.reopened), line, io.accepted)
  }

  // fwrite, as far as the file takes it.
  function Emit(l: Log, line: string, accepted: nat): Log {
    if !l.open || l.path !in l.disk then l
    else
      var piece := if accepted < |line| then line[..accepted] else line;
      l.(disk := l.disk[l.path := l.disk[l.path] + piece], size := l.size + |piece|, current := l.current + [piece])
  }

  // --------------------------------------------------------------- invariants

  // The size the logger tracks is the size of the file, and the file consists of
  // the pieces written since the last rotation.
  predicate SizeOk(l: Log) {
    && l.size == |Flat(l.current)|
    && (l.open ==> l.path in l.disk)
    && (if l.path in l.disk then l.disk[l.path] == Flat(l.current) else l.current == [])
  }

  // A name not used before.
  predicate Fresh(l: Log, name: string) {
    name !in l.disk && name != l.path && name !in l.backups && name !in l.unlinked
    && forall i :: 0 <= i < |l.archive| ==> l.archive[i].name != name
  }

  lemma WriteSizeOk(l: Log, line: string, io: Io)
    requires SizeOk(l) && l.path !in l.backups
    ensures SizeOk(Write(l, line, io)) && l.path !in Write(l, line, io).backups
    ensures Write(l, line, io).path == l.path
  {
    var c := l.(open := false);
    RotateSizeOk(c, BackupName(l.path, io.time), io.renamed);
    var r := if l.size + |line| > l.maxSize then Rotate(c, BackupName(l.path, io.time), io.renamed, false) else l;
    assert SizeOk(r);
    var o := OpenFile(r, io.reopened);
    assert SizeOk(o);
    var piece := if io.accepted < |line| then line[..io.accepted] else line;
    FlatAppend(o.current, [piece]);
    assert Flat([piece]) == piece;
  }

  lemma RotateSizeOk(l: Log, name: string, renamed: bool)
    requires SizeOk(l) && !l.open && l.path !in l.backups && name != l.path
    ensures SizeOk(Rotate(l, name, renamed, false)) && !Rotate(l, name, renamed, false).open
    ensures l.path !in Rotate(l, name, renamed, false).backups
    ensures Rotate(l, name, renamed, false).path == l.path
  {
  }

  // ---------------------------------------------------------------------- runs

  datatype Entry = Entry(line: string, io: Io)

  function After(l: Log, run: seq<Entry>): Log
    decreases run
  {
    if run == [] then l else After(Write(l, run[0].line, run[0].io), run[1..])
  }

  // Whatever fails, the tracked size stays the size of the current file.
  lemma {:induction false} SizeAlwaysOk(l: Log, run: seq<Entry>)
    requires SizeOk(l) && l.path !in l.backups
    ensures SizeOk(After(l, run))
    decreases run
  {
    if run != [] {
      WriteSizeOk(l, run[0].line, run[0].io);
      SizeAlwaysOk(Write(l, run[0].line, run[0].io), run[1..]);
    }
  }

  // No system call fails, the name a rotation takes is new, and the line fits a
  // file.
  predicate Smooth(l: Log, line: string, io: Io) {
    && io.renamed && io.reopened && io.accepted >= |line|
    && (l.size + |line| > l.maxSize ==> Fresh(l, BackupName(l.path, io.time)))
    && |line| <= l.maxSize
  }

  predicate AllSmooth(l: Log, run: seq<Entry>)
    decreases run
  {
    run == [] ||
    (Smooth(l, run[0].line, run[0].io) && AllSmooth(Write(l, run[0].line, run[0].io), run[1..]))
  }

  // Every piece ever written, oldest file first.
  function Pieces(archive: seq<Rotated>): seq<string> {
    if archive == [] then [] else archive[0].pieces + Pieces(archive[1..])
  }

  function Everything(l: Log): seq<string> {
    Pieces(l.archive) + l.current
  }

  lemma {:induction false} PiecesAppend(archive: seq<Rotated>, r: Rotated)
    ensures Pieces(archive + [r]) == Pieces(archive) + r.pieces
  {
    if archive == [] {
      assert archive + [r] == [r];
      assert [r][1..] == [];
    } else {
      assert (archive + [r])[1..] == archive[1..] + [r];
      PiecesAppend(archive[1..], r);
    }
  }

  // A rotated file that was not removed is on disk with just its pieces; a
  // removed one is gone.
  predicate Intact(l: Log) {
    && (forall i :: 0 <= i < |l.archive| ==> l.archive[i].name != l.path)
    && (forall i :: 0 <= i < |l.archive| && l.archive[i].name !in l.unlinked ==>
          l.archive[i].name in l.disk && l.disk[l.archive[i].name] == Flat(l.archive[i].pieces))
    && (forall n :: n in l.unlinked ==> n !in l.disk && n != l.path)
  }

  lemma RotateIntact(l: Log, name: string)
    requires SizeOk(l) && Intact(l) && Fresh(l, name) && l.path !in l.backups
    ensures Intact(Rotate(l, name, true, false))
    ensures Everything(Rotate(l, name, true, false)) == Everything(l)
    ensures Rotate(l, name, true, false).maxSize == l.maxSize
  {
    var r := Rotate(l, name, true, false);
    if l.path in l.disk {
      PiecesAppend(l.archive, Rotated(name, l.current));
      assert r.archive == l.archive + [Rotated(name, l.current)];
      assert Everything(r) == Everything(l);
      MovedIntact(l, name);
    }
  }

  function Moved(l: Log, name: string): Log
    requires l.path in l.disk
  {
    l.(disk := (l.disk - {l.path})[name := l.disk[l.path]], size := 0, current := [],
       archive := l.archive + [Rotated(name, l.current)])
  }

  lemma MovedIntact(l: Log, name: string)
    requires SizeOk(l) && Intact(l) && Fresh(l, name) && l.path !in l.backups && l.path in l.disk
    ensures Intact(Moved(l, name)) && Intact(Cleanup(Moved(l, name).(backups := l.backups + [name])))
  {
    var m := Moved(l, name);
    assert Intact(m);
    CleanupIntact(m.(backups := l.backups + [name]));
  }

  lemma CleanupIntact(l: Log)
    requires Intact(l) && l.path !in l.backups
    ensures Intact(Cleanup(l))
  {
  }

  lemma WriteSmooth(l: Log, line: string, io: Io)
    requires SizeOk(l) && Intact(l) && l.path !in l.backups && l.size <= l.maxSize && Smooth(l, line, io)
    ensures var w := Write(l, line, io);
            && Intact(w) && Everything(w) == Everything(l) + [line]
            && w.size <= w.maxSize == l.maxSize
  {
    var c := l.(open := false);
    if l.size + |line| > l.maxSize { RotateIntact(c, BackupName(l.path, io.time)); }
    RotateSizeOk(c, BackupName(l.path, io.time), true);
    var r := if l.size + |line| > l.maxSize then Rotate(c, BackupName(l.path, io.time), true, false) else l;
    assert l.size + |line| > l.maxSize ==> l.path in l.disk;
    var o := OpenFile(r, true);
    assert Everything(o) == Everything(l) && Intact(o) && o.open && o.path in o.disk;
    EmitSmooth(o, line, io.accepted);
  }

  lemma EmitSmooth(l: Log, line: string, accepted: nat)
    requires Intact(l) && l.open && l.path in l.disk && accepted >= |line|
    ensures var w := Emit(l, line, accepted);
            && Intact(w) && Everything(w) == Everything(l) + [line]
            && w.size == l.size + |line| && w.maxSize == l.maxSize
  {
    var w := Emit(l, line, accepted);
    assert Everything(w) == Everything(l) + [line];
  }

  function Lines(run: seq<Entry>): seq<string> {
    if run == [] then [] else [run[0].line] + Lines(run[1..])
  }

  // Rotation loses nothing and splits no line: the rotated files in order and
  // then the current one hold what was there before and every line since, whole;
  // and no file outgrows the limit.
  lemma {:induction false} RotationConserves(l: Log, run: seq<Entry>)
    requires SizeOk(l) && Intact(l) && l.path !in l.backups && l.size <= l.maxSize
    requires AllSmooth(l, run)
    ensures Everything(After(l, run)) == Everything(l) + Lines(run)
    ensures Intact(After(l, run)) && SizeOk(After(l, run))
    ensures After(l, run).size <= After(l, run).maxSize
    decreases run
  {
    hide Write, SizeOk, Intact, Everything, Smooth;
    if run != [] {
      SmoothStep(l, run[0].line, run[0].io);
      RotationConserves(Write(l, run[0].line, run[0].io), run[1..]);
      assert Everything(l) + [run[0].line] + Lines(run[1..]) == Everything(l) + Lines(run);
    } else {
      assert Everything(l) + [] == Everything(l);
    }
  }

  lemma SmoothStep(l: Log, line: string, io: Io)
    requires SizeOk(l) && Intact(l) && l.path !in l.backups && l.size <= l.maxSize && Smooth(l, line, io)
    ensures var w := Write(l, line, io);
            && SizeOk(w) && Intact(w) && w.path !in w.backups && w.size <= w.maxSize
            && Everything(w) == Everything(l) + [line]
  {
    hide Write, Intact, Everything;
    WriteSizeOk(l, line, io);
    WriteSmooth(l, line, io);
  }

  // ------------------------------------------------------ while the clock ascends

  // No system call fails and the line fits a file.
  predicate Works(io: Io, line: string, maxSize: nat) {
    io.renamed && io.reopened && io.accepted >= |line| && |line| <= maxSize
  }

  predicate Unfailing(run: seq<Entry>, maxSize: nat) {
    forall i :: 0 <= i < |run| ==> Works(run[i].io, run[i].line, maxSize)
  }

  // The stamps of the rotations of a run, in order.
  function Stamps(l: Log, run: seq<Entry>): seq<string>
    decreases run
  {
    if run == [] then []
    else
      (if l.size + |run[0].line| > l.maxSize then [run[0].io.time] else [])
      + Stamps(Write(l, run[0].line, run[0].io), run[1..])
  }

  predicate Increasing(stamps: seq<string>) {
    forall i, j :: 0 <= i < j < |stamps| ==> Before(stamps[i], stamps[j])
  }

  predicate Used(l: Log, name: string) {
    name in l.disk || name in l.backups || name in l.unlinked
    || exists i :: 0 <= i < |l.archive| && l.archive[i].name == name
  }

  // Every rotated file there is, or was, has an earlier stamp.
  ghost predicate Earlier(l: Log, stamps: seq<string>) {
    forall t, i :: Used(l, BackupName(l.path, t)) && 0 <= i < |stamps| ==> Before(t, stamps[i])
  }

  lemma FreshOrUsed(l: Log, name: string)
    requires name != l.path
    ensures Fresh(l, name) <==> !Used(l, name)
  {
  }

  lemma NewlyUsed(l: Log, line: string, io: Io, name: string)
    requires Used(Write(l, line, io), name) && name != l.path
    ensures Used(l, name) || (l.size + |line| > l.maxSize && name == BackupName(l.path, io.time))
  {
    if l.size + |line| > l.maxSize {
      RotateUses(l.(open := false), BackupName(l.path, io.time), io.renamed, name);
    }
  }

  lemma RotateUses(l: Log, moved: string, renamed: bool, name: string)
    requires Used(Rotate(l, moved, renamed, false), name) && name != l.path
    ensures Used(l, name) || name == moved
  {
    var archive := l.archive + [Rotated(moved, l.current)];
    assert forall i :: 0 <= i < |l.archive| ==> archive[i] == l.archive[i];
  }

  lemma StaysEarlier(l: Log, line: string, io: Io, stamps: seq<string>)
    requires Earlier(l, stamps)
    requires l.size + |line| > l.maxSize ==> forall i :: 0 <= i < |stamps| ==> Before(io.time, stamps[i])
    ensures Write(l, line, io).path == l.path && Earlier(Write(l, line, io), stamps)
  {
    var w := Write(l, line, io);
    assert w.path == l.path;
    hide Write, Used;
    forall t, i | Used(w, BackupName(w.path, t)) && 0 <= i < |stamps|
      ensures Before(t, stamps[i])
    {
      NewlyUsed(l, line, io, BackupName(l.path, t));
      NamesAsStamps(l.path, t, io.time);
    }
  }

  lemma StampUnused(l: Log, stamps: seq<string>)
    requires Earlier(l, stamps) && stamps != []
    ensures Fresh(l, BackupName(l.path, stamps[0]))
  {
    NeverBeforeItself(stamps[0]);
    FreshOrUsed(l, BackupName(l.path, stamps[0]));
  }

  // As long as nothing fails and each rotation is stamped later than those before
  // it, no name is taken twice.
  lemma {:induction false} LaterIsSmooth(l: Log, run: seq<Entry>)
    requires Unfailing(run, l.maxSize) && Increasing(Stamps(l, run)) && Earlier(l, Stamps(l, run))
    ensures AllSmooth(l, run)
    decreases run
  {
    hide Write, Fresh, Used;
    if run != [] {
      var line, io, stamps := run[0].line, run[0].io, Stamps(l, run);
      var w := Write(l, line, io);
      var rest := Stamps(w, run[1..]);
      assert Works(io, line, l.maxSize);
      assert forall i :: 0 <= i < |run| - 1 ==> run[1..][i] == run[i + 1];
      KeepsLimit(l, line, io);
      if l.size + |line| > l.maxSize {
        assert stamps == [io.time] + rest;
        StampUnused(l, stamps);
        assert forall i :: 0 <= i < |rest| ==> rest[i] == stamps[i + 1];
      } else {
        assert stamps == rest;
      }
      StaysEarlier(l, line, io, rest);
      LaterIsSmooth(w, run[1..]);
    }
  }

  lemma KeepsLimit(l: Log, line: string, io: Io)
    ensures Write(l, line, io).maxSize == l.maxSize && Write(l, line, io).path == l.path
  {
  }

  // So with a clock that ascends from rotation to rotation nothing is lost and no
  // line is split.
  lemma LaterConserves(l: Log, run: seq<Entry>)
    requires SizeOk(l) && Intact(l) && l.path !in l.backups && l.size <= l.maxSize
    requires Unfailing(run, l.maxSize) && Increasing(Stamps(l, run)) && Earlier(l, Stamps(l, run))
    ensures Everything(After(l, run)) == Everything(l) + Lines(run)
    ensures Intact(After(l, run)) && SizeOk(After(l, run))
    ensures After(l, run).size <= After(l, run).maxSize
  {
    LaterIsSmooth(l, run);
    RotationConserves(l, run);
  }

  // With no backups configured nothing is ever removed: every rotated file stays.
  lemma {:induction false} NoLimitNoRemoval(l: Log, run: seq<Entry>)
    requires l.maxBackup == 0
    ensures After(l, run).unlinked == l.unlinked && After(l, run).backups == l.backups
    ensures l.archive <= After(l, run).archive
    decreases run
  {
    if run != [] {
      WriteRemovesNothing(l, run[0].line, run[0].io);
      hide Write;
      NoLimitNoRemoval(Write(l, run[0].line, run[0].io), run[1..]);
    }
  }

  lemma WriteRemovesNothing(l: Log, line: string, io: Io)
    requires l.maxBackup == 0
    ensures var w := Write(l, line, io);
            w.unlinked == l.unlinked && w.backups == l.backups && w.maxBackup == 0 && l.archive <= w.archive
  {
  }

  // The names a rotation takes off the list: those over the limit, oldest first.
  function Gone(l: Log, name: string): seq<string> {
    if l.maxBackup == 0 || |l.backups| < l.maxBackup then []
    else (l.backups + [name])[..|l.backups| + 1 - l.maxBackup]
  }

  // What a rotation under a name in use loses, at the backup limit and below it.
  // Of the files that were not to be removed, every one is as it was exactly when
  // the name was new or the two files held the same; and what was rotated away is
  // there under its name exactly when that name was not removed with them.
  lemma RotateOverwrites(l: Log, name: string)
    requires l.path in l.disk && name != l.path
    ensures var r, gone := Rotate(l, name, true, false), Gone(l, name);
            && r.unlinked == l.unlinked + gone
            && ((forall f :: f in l.disk && f != l.path && f !in gone ==> f in r.disk && r.disk[f] == l.disk[f])
                <==> name !in l.disk || name in gone || l.disk[name] == l.disk[l.path])
            && (name in r.disk && r.disk[name] == l.disk[l.path] <==> name !in gone)
  {
    var r, gone := Rotate(l, name, true, false), Gone(l, name);
    assert r.disk == Without((l.disk - {l.path})[name := l.disk[l.path]], gone);
    if name in l.disk && name !in gone { assert name in r.disk && r.disk[name] == l.disk[l.path]; }
  }

  // Three lines within one second, no two in a row fitting one file: the first is on
  // no file afterwards, and with a single backup the second is lost as well.
  lemma SameSecond(path: string, maxSize: nat, maxBackup: nat, io: Io, a: string, b: string, c: string)
    requires |a| <= maxSize < |a| + |b| && maxSize < |b| + |c|
    requires io.renamed && io.reopened && io.accepted >= |a| && io.accepted >= |b| && io.accepted >= |c|
    ensures var l := Log(path, maxSize, maxBackup, map[], 0, false, [], [], [], []);
            var n := After(l, [Entry(a, io), Entry(b, io), Entry(c, io)]);
            n.disk == if maxBackup == 1 then map[path := c] else map[path := c, BackupName(path, io.time) := b]
  {
    var l := Log(path, maxSize, maxBackup, map[], 0, false, [], [], [], []);
    var name := BackupName(path, io.time);
    var one := Write(l, a, io);
    assert "" + a == a && map[path := ""][path := a] == map[path := a];
    assert [] + [a] == [a];
    assert one == l.(disk := map[path := a], size := |a|, open := true, current := [a]);
    var two := Write(one, b, io);
    SecondLine(one, name, io, a, b, two);
    var three := Write(two, c, io);
    ThirdLine(two, name, io, a, b, c, three);
    var run := [Entry(a, io), Entry(b, io), Entry(c, io)];
    hide Write;
    assert run[1..] == [Entry(b, io), Entry(c, io)] && run[1..][1..] == [Entry(c, io)];
    assert After(two, [Entry(c, io)]) == three by { assert [Entry(c, io)][1..] == []; }
  }

  lemma SecondLine(l: Log, name: string, io: Io, a: string, b: string, n: Log)
    requires l.disk == map[l.path := a] && l.size == |a| && l.maxSize < |a| + |b| && l.backups == []
    requires io.renamed && io.reopened && io.accepted >= |b|
    requires name == BackupName(l.path, io.time) && n == Write(l, b, io)
    ensures n.path == l.path && n.maxSize == l.maxSize && n.size == |b| && n.maxBackup == l.maxBackup
    ensures n.disk == map[l.path := b, name := a] && n.backups == (if l.maxBackup == 0 then [] else [name])
  {
    assert (l.disk - {l.path})[name := a] == map[name := a];
    var r := Rotate(l.(open := false), name, true, false);
    assert r.disk == map[name := a] && r.size == 0;
    hide Rotate, BackupName;
    Emitted(r, b, io.accepted);
    assert map[name := a][l.path := b] == map[l.path := b, name := a];
  }

  // The first line of a new file.
  lemma Emitted(l: Log, line: string, accepted: nat)
    requires !l.open && l.path !in l.disk && l.size == 0 && accepted >= |line|
    ensures var n := Emit(OpenFile(l, true), line, accepted);
            && n.disk == l.disk[l.path := line] && n.size == |line|
            && n.path == l.path && n.maxSize == l.maxSize && n.maxBackup == l.maxBackup && n.backups == l.backups
  {
    assert "" + line == line;
  }

  lemma ThirdLine(l: Log, name: string, io: Io, a: string, b: string, c: string, n: Log)
    requires l.disk == map[l.path := b, name := a] && l.size == |b| && l.maxSize < |b| + |c|
    requires l.backups == (if l.maxBackup == 0 then [] else [name])
    requires io.renamed && io.reopened && io.accepted >= |c|
    requires name == BackupName(l.path, io.time) && n == Write(l, c, io)
    ensures n.disk == if l.maxBackup == 1 then map[l.path := c] else map[l.path := c, name := b]
  {
    RotatedTwice(l.(open := false), name, a, b);
    var r := Rotate(l.(open := false), name, true, false);
    hide Rotate, BackupName;
    Emitted(r, c, io.accepted);
  }

  lemma RotatedTwice(l: Log, name: string, a: string, b: string)
    requires name != l.path && l.disk == map[l.path := b, name := a] && !l.open
    requires l.backups == (if l.maxBackup == 0 then [] else [name])
    ensures var r := Rotate(l, name, true, false);
            && r.disk == (if l.maxBackup == 1 then map[] else map[name := b])
            && r.size == 0 && r.path == l.path && !r.open
  {
    assert (l.disk - {l.path})[name := b] == map[name := b];
    assert [name] + [name] == [name, name] && [name, name][..1] == [name];
    assert Without(map[name := b], [name]) == map[];
  }

  // ----------------------------------------------------------------- retention

  function Names(archive: seq<Rotated>): seq<string> {
    if archive == [] then [] else [archive[0].name] + Names(archive[1..])
  }

  lemma {:induction false} NamesAppend(archive: seq<Rotated>, r: Rotated)
    ensures Names(archive + [r]) == Names(archive) + [r.name]
  {
    if archive == [] {
      assert archive + [r] == [r];
      assert [r][1..] == [];
    } else {
      assert (archive + [r])[1..] == archive[1..] + [r];
      NamesAppend(archive[1..], r);
    }
  }

  // The names removed and the names kept are, in order, those found at start and
  // those of every rotation; names are removed only to stay at the limit.
  predicate Kept(l: Log, found: seq<string>) {
    && l.unlinked + l.backups == found + Names(l.archive)
    && |l.backups| <= l.maxBackup
    && (l.unlinked != [] ==> |l.backups| == l.maxBackup)
  }

  lemma RotateKept(l: Log, found: seq<string>, name: string, renamed: bool)
    requires Kept(l, found) && l.maxBackup > 0
    ensures Kept(Rotate(l, name, renamed, false), found) && Rotate(l, name, renamed, false).maxBackup == l.maxBackup
  {
    if renamed && l.path in l.disk {
      NamesAppend(l.archive, Rotated(name, l.current));
      assert l.unlinked + (l.backups + [name]) == l.unlinked + l.backups + [name];
      assert found + Names(l.archive) + [name] == found + (Names(l.archive) + [name]);
      var b := l.backups + [name];
      if |b| > l.maxBackup {
        assert b[..1] + b[1..] == b;
        assert l.unlinked + b[..1] + b[1..] == l.unlinked + b;
      }
    }
  }

  lemma WriteKept(l: Log, found: seq<string>, line: string, io: Io)
    requires Kept(l, found) && l.maxBackup > 0
    ensures Kept(Write(l, line, io), found) && Write(l, line, io).maxBackup == l.maxBackup
  {
    RotateKept(l.(open := false), found, BackupName(l.path, io.time), io.renamed);
    hide Rotate, Names;
  }

  lemma {:induction false} RunKept(l: Log, found: seq<string>, run: seq<Entry>)
    requires Kept(l, found) && l.maxBackup > 0
    ensures Kept(After(l, run), found) && After(l, run).maxBackup == l.maxBackup
    decreases run
  {
    hide Write, Kept;
    if run != [] {
      WriteKept(l, found, run[0].line, run[0].io);
      RunKept(Write(l, run[0].line, run[0].io), found, run[1..]);
    }
  }

  predicate Ascending(names: seq<string>) {
    forall i, j :: 0 <= i < j < |names| ==> !Before(names[j], names[i])
  }

  // The last n elements, or all if there are fewer.
  function Last(s: seq<string>, n: nat): seq<string> {
    if |s| <= n then s else s[|s| - n..]
  }

  // After any run, with or without failures, the list holds the newest files up
  // to the limit, and exactly the rest were removed: the older ones, if the names
  // ascend with time.
  lemma Retention(l: Log, found: seq<string>, run: seq<Entry>)
    requires Kept(l, found) && l.maxBackup > 0
    ensures var n := After(l, run); var all := found + Names(n.archive);
            && n.backups == Last(all, l.maxBackup)
            && n.unlinked + n.backups == all
            && (Ascending(all) ==> forall i, j :: 0 <= i < |n.unlinked| && 0 <= j < |n.backups| ==>
                  !Before(n.backups[j], n.unlinked[i]))
  {
    RunKept(l, found, run);
    var n := After(l, run);
    var all := found + Names(n.archive);
    assert n.unlinked + n.backups == all;
    if n.unlinked == [] { assert n.backups == all; }
    forall i, j | Ascending(all) && 0 <= i < |n.unlinked| && 0 <= j < |n.backups|
      ensures !Before(n.backups[j], n.unlinked[i])
    {
      assert n.unlinked[i] == all[i] && n.backups[j] == all[|n.unlinked| + j];
    }
  }

  function BackupNames(path: string, stamps: seq<string>): seq<string> {
    if stamps == [] then [] else [BackupName(path, stamps[0])] + BackupNames(path, stamps[1..])
  }

  lemma {:induction false} BackupNamesAt(path: string, stamps: seq<string>)
    ensures |BackupNames(path, stamps)| == |stamps|
    ensures forall i :: 0 <= i < |stamps| ==> BackupNames(path, stamps)[i] == BackupName(path, stamps[i])
  {
    if stamps != [] { BackupNamesAt(path, stamps[1..]); }
  }

  lemma {:induction false} BackupNamesConcat(path: string, a: seq<string>, b: seq<string>)
    ensures BackupNames(path, a + b) == BackupNames(path, a) + BackupNames(path, b)
  {
    if a == [] {
      assert a + b == b;
    } else {
      assert (a + b)[1..] == a[1..] + b;
      BackupNamesConcat(path, a[1..], b);
    }
  }

  lemma OneBackupName(path: string, time: string)
    ensures BackupNames(path, []) == [] && BackupNames(path, [time]) == [BackupName(path, time)]
  {
  }

  lemma Regroup(a: seq<string>, b: seq<string>, c: seq<string>)
    ensures a + b + c == a + (b + c)
  {
  }

  lemma WriteArchives(l: Log, line: string, io: Io)
    requires SizeOk(l) && |line| <= l.maxSize && io.renamed
    ensures Names(Write(l, line, io).archive)
            == Names(l.archive) + if l.size + |line| > l.maxSize then [BackupName(l.path, io.time)] else []
  {
    NamesAppend(l.archive, Rotated(BackupName(l.path, io.time), l.current));
    if l.size + |line| > l.maxSize { assert l.path in l.disk; }
  }

  lemma {:induction false} ArchivedUnder(l: Log, run: seq<Entry>)
    requires SizeOk(l) && l.path !in l.backups && Unfailing(run, l.maxSize)
    ensures Names(After(l, run).archive) == Names(l.archive) + BackupNames(l.path, Stamps(l, run))
    decreases run
  {
    hide Write, SizeOk, BackupName;
    if run == [] {
    } else {
      var line, io := run[0].line, run[0].io;
      var w := Write(l, line, io);
      assert Works(io, line, l.maxSize);
      assert forall i :: 0 <= i < |run| - 1 ==> run[1..][i] == run[i + 1];
      KeepsLimit(l, line, io);
      WriteSizeOk(l, line, io);
      WriteArchives(l, line, io);
      ArchivedUnder(w, run[1..]);
      var mine, rest := if l.size + |line| > l.maxSize then [io.time] else [], Stamps(w, run[1..]);
      OneBackupName(l.path, io.time);
      assert Names(w.archive) == Names(l.archive) + BackupNames(l.path, mine);
      assert Stamps(l, run) == mine + rest && After(l, run) == After(w, run[1..]);
      hide *;
      BackupNamesConcat(l.path, mine, rest);
      Regroup(Names(l.archive), BackupNames(l.path, mine), BackupNames(l.path, rest));
    }
  }

  lemma NamesAscend(path: string, stamps: seq<string>)
    requires Increasing(stamps)
    ensures Ascending(BackupNames(path, stamps))
  {
    BackupNamesAt(path, stamps);
    forall i, j | 0 <= i < j < |stamps|
      ensures !Before(BackupName(path, stamps[j]), BackupName(path, stamps[i]))
    {
      NamesAsStamps(path, stamps[j], stamps[i]);
      BeforeOneWay(stamps[i], stamps[j]);
    }
  }

  lemma LastNames(path: string, stamps: seq<string>, n: nat, removed: seq<string>, kept: seq<string>)
    requires removed + kept == BackupNames(path, stamps) && kept == Last(BackupNames(path, stamps), n)
    ensures kept == BackupNames(path, Last(stamps, n))
    ensures removed == BackupNames(path, stamps[..|stamps| - |Last(stamps, n)|])
  {
    var k := |stamps| - |Last(stamps, n)|;
    var older, newer := stamps[..k], stamps[k..];
    assert older + newer == stamps && newer == Last(stamps, n);
    BackupNamesConcat(path, older, newer);
    BackupNamesAt(path, older);
    BackupNamesAt(path, stamps);
    hide Last;
    assert |removed| == k;
    assert (removed + kept)[..k] == removed;
  }

  // Starting from rotated files with these stamps, a run without failures keeps
  // just the files with the newest stamps, up to the limit.
  lemma NewestStampsKept(l: Log, stamps: seq<string>, run: seq<Entry>)
    requires Kept(l, BackupNames(l.path, stamps)) && l.maxBackup > 0 && l.archive == []
    requires SizeOk(l) && l.path !in l.backups && Unfailing(run, l.maxSize)
    requires Increasing(stamps + Stamps(l, run))
    ensures var all, n := stamps + Stamps(l, run), After(l, run);
            && n.backups == BackupNames(l.path, Last(all, l.maxBackup))
            && n.unlinked == BackupNames(l.path, all[..|all| - |Last(all, l.maxBackup)|])
            && Ascending(n.unlinked + n.backups)
  {
    assert Names(l.archive) == [];
    hide *;
    var all, n := stamps + Stamps(l, run), After(l, run);
    ArchivedUnder(l, run);
    assert Names(n.archive) == BackupNames(l.path, Stamps(l, run));
    Retention(l, BackupNames(l.path, stamps), run);
    BackupNamesConcat(l.path, stamps, Stamps(l, run));
    LastNames(l.path, all, l.maxBackup, n.unlinked, n.backups);
    NamesAscend(l.path, all);
  }

  // ---------------------------------------------------------------- on disk

  // The names on the list are distinct files, none of them the log itself.
  predicate Held(l: Log) {
    && (forall i :: 0 <= i < |l.backups| ==> l.backups[i] in l.disk && l.backups[i] != l.path)
    && (forall i, j :: 0 <= i < j < |l.backups| ==> l.backups[i] != l.backups[j])
  }

  // Every file but the log is as it was, or was removed.
  predicate Preserved(l: Log, n: Log) {
    forall f :: f in l.disk && f != l.path ==> f in n.unlinked || (f in n.disk && n.disk[f] == l.disk[f])
  }

  predicate Follows(l: Log, n: Log) {
    n.path == l.path && (forall f :: f in l.unlinked ==> f in n.unlinked) && Preserved(l, n)
  }

  lemma CleanupHeld(l: Log)
    requires Held(l)
    ensures Held(Cleanup(l)) && Follows(l, Cleanup(l))
  {
    var n := Cleanup(l);
    if |l.backups| > l.maxBackup {
      var extra := |l.backups| - l.maxBackup;
      forall i | 0 <= i < |n.backups|
        ensures n.backups[i] in n.disk && n.backups[i] != l.path
      {
        assert n.backups[i] == l.backups[extra + i];
        assert n.backups[i] !in l.backups[..extra];
      }
    }
  }

  lemma RotateHeld(l: Log, name: string)
    requires Held(l) && Fresh(l, name)
    ensures Held(Rotate(l, name, true, false)) && Follows(l, Rotate(l, name, true, false))
  {
    if l.path in l.disk {
      var m := Moved(l, name);
      assert Held(m) && Follows(l, m);
      var k := m.(backups := m.backups + [name]);
      assert Held(k);
      CleanupHeld(k);
    }
  }

  lemma WriteHeld(l: Log, line: string, io: Io)
    requires Held(l) && Smooth(l, line, io)
    ensures Held(Write(l, line, io)) && Follows(l, Write(l, line, io))
  {
    var c := l.(open := false);
    if l.size + |line| > l.maxSize { RotateHeld(c, BackupName(l.path, io.time)); }
  }

  // Without failures, after any run, every name on the list is a file on disk; a
  // file that was there before and is not the log has the contents it had, or was
  // removed; and what was removed is gone.
  lemma {:induction false} RetainedOnDisk(l: Log, run: seq<Entry>)
    requires SizeOk(l) && Intact(l) && Held(l) && l.path !in l.backups && l.size <= l.maxSize
    requires AllSmooth(l, run)
    ensures var n := After(l, run);
            && Held(n) && Follows(l, n)
            && forall f :: f in n.unlinked ==> f !in n.disk
    decreases run
  {
    hide Write, SizeOk, Held, Everything, Smooth, Follows;
    if run == [] {
      FollowsItself(l);
    } else {
      var w := Write(l, run[0].line, run[0].io);
      SmoothStep(l, run[0].line, run[0].io);
      WriteHeld(l, run[0].line, run[0].io);
      RetainedOnDisk(w, run[1..]);
      FollowsOn(l, w, After(w, run[1..]));
    }
  }

  lemma FollowsItself(l: Log)
    ensures Follows(l, l)
  {
  }

  lemma FollowsOn(l: Log, m: Log, n: Log)
    requires Follows(l, m) && Follows(m, n)
    ensures Follows(l, n)
  {
  }
}
