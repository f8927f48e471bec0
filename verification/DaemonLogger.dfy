// The logger's file handling step by step: the array of backup names that grows
// by doubling and is shifted down, the scan at start, rotation and writing.
module DaemonLogger {
  import opened LogRotation

  const DEF_MAX_LOG_SIZE: nat := 10 * 1024 * 1024
  const LEVEL_MAX: nat := 5
  const TIME_DIGITS: nat := 14

  datatype Slot = Slot(timestampNs: nat, level: nat, msg: string)

  predicate Skipped(slot: Slot) {
    slot.timestampNs == 0 || slot.level >= LEVEL_MAX || slot.msg == ""
  }

  datatype Level = Debug | Info | Warn | Error | Fatal

  function Code(level: Level): nat {
    match level case Debug => 0 case Info => 1 case Warn => 2 case Error => 3 case Fatal => 4
  }

  // Every stamped message of one of the five levels is written, and nothing else.
  lemma SkippedIff(slot: Slot)
    ensures !Skipped(slot) <==>
            slot.timestampNs != 0 && slot.msg != "" && exists level :: slot.level == Code(level)
  {
    if !Skipped(slot) {
      var level := match slot.level case 0 => Debug case 1 => Info case 2 => Warn case 3 => Error case _ => Fatal;
      assert slot.level == Code(level);
    }
  }

  function MaxSize(mb: int): nat {
    if mb < 1 then DEF_MAX_LOG_SIZE else mb * 1024 * 1024
  }

  // ------------------------------------------------------------- the scan

  datatype DirEntry = DirEntry(regular: bool, name: string)

  predicate IsDigit(c: char) {
    '0' <= c <= '9'
  }

  // The test get_backup_log_files applies to a directory entry.
  predicate Accepted(e: DirEntry, filename: string) {
    && e.regular
    && |e.name| == |filename| + 15
    && e.name[..|filename|] == filename
    && forall i :: |filename| + 1 <= i < |e.name| ==> IsDigit(e.name[i])
  }

  function Join(dir: string, name: string): string
    requires dir != ""
  {
    dir + (if dir[|dir| - 1] != '/' then "/" else "") + name
  }

  function Found(entries: seq<DirEntry>, dir: string, filename: string): seq<string>
    requires dir != ""
  {
    if entries == [] then []
    else
      var rest := Found(entries[..|entries| - 1], dir, filename);
      var e := entries[|entries| - 1];
      if Accepted(e, filename) then rest + [Join(dir, e.name)] else rest
  }

  // The scan accepts a file exactly when its name is the log's name, any one
  // character, and fourteen digits.
  lemma AcceptedIff(name: string, filename: string)
    ensures Accepted(DirEntry(true, name), filename) <==>
            exists c: char, time: string :: |time| == TIME_DIGITS && AllDigits(time) && name == filename + [c] + time
  {
    if Accepted(DirEntry(true, name), filename) {
      var c, time := name[|filename|], name[|filename| + 1..];
      assert name == filename + [c] + time;
      assert |time| == TIME_DIGITS && AllDigits(time);
    }
  }

  // So the scan takes the file of every rotation, however far the stamp is from a
  // date; and what it takes for its path is the name the rotation gave it.
  lemma RotatedIsAccepted(dir: string, filename: string, time: string)
    requires dir != ""
    ensures Accepted(DirEntry(true, BackupName(filename, time)), filename) <==> |time| == 14 && AllDigits(time)
    ensures Join(dir, BackupName(filename, time)) == BackupName(Join(dir, filename), time)
  {
    var name := BackupName(filename, time);
    if Accepted(DirEntry(true, name), filename) {
      assert forall i :: 0 <= i < |time| ==> time[i] == name[|filename| + 1 + i];
    }
  }

  // The scan of a directory is the scans of its parts, in order, and of one entry
  // it takes the path under the directory, with one slash between.
  lemma {:induction false} FoundInOrder(a: seq<DirEntry>, b: seq<DirEntry>, dir: string, filename: string)
    requires dir != ""
    ensures Found(a + b, dir, filename) == Found(a, dir, filename) + Found(b, dir, filename)
    decreases b
  {
    if b == [] {
      assert a + b == a;
    } else {
      assert (a + b)[..|a + b| - 1] == a + b[..|b| - 1];
      FoundInOrder(a, b[..|b| - 1], dir, filename);
    }
  }

  lemma FoundOne(e: DirEntry, dir: string, filename: string)
    requires dir != ""
    ensures var slash := if dir[|dir| - 1] == '/' then "" else "/";
            Found([e], dir, filename) == if Accepted(e, filename) then [dir + slash + e.name] else []
  {
    hide Accepted;
    assert [e][..0] == [];
    assert Found([], dir, filename) == [];
    assert [] + [Join(dir, e.name)] == [Join(dir, e.name)];
  }

  lemma {:induction false} FoundIff(entries: seq<DirEntry>, dir: string, filename: string, path: string)
    requires dir != ""
    ensures path in Found(entries, dir, filename) <==>
            exists e :: e in entries && Accepted(e, filename) && path == Join(dir, e.name)
    decreases entries
  {
    if entries != [] {
      var rest, e := entries[..|entries| - 1], entries[|entries| - 1];
      assert entries == rest + [e];
      FoundIff(rest, dir, filename, path);
    }
  }

  // A rotated file in the directory is on the list after the next start.
  lemma RotatedIsFound(entries: seq<DirEntry>, dir: string, filename: string, time: string)
    requires dir != "" && |time| == 14 && AllDigits(time) && DirEntry(true, BackupName(filename, time)) in entries
    ensures BackupName(Join(dir, filename), time) in Found(entries, dir, filename)
  {
    RotatedIsAccepted(dir, filename, time);
    FoundIff(entries, dir, filename, BackupName(Join(dir, filename), time));
  }

  predicate AllDigits(v: string) {
    forall i :: 0 <= i < |v| ==> IsDigit(v[i])
  }

  lemma WithoutOneMore(disk: map<string, string>, unlinked: seq<string>, names: seq<string>, i: nat)
    requires i < |names|
    ensures Without(disk, names[..i + 1]) == Without(disk, names[..i]) - {names[i]}
    ensures unlinked + names[..i + 1] == unlinked + names[..i] + [names[i]]
  {
    assert names[..i + 1] == names[..i] + [names[i]];
  }

  // The disk when the backups are scanned: a full log was moved out of the way.
  function AtScan(l: Log, io: Io): map<string, string> {
    if l.path in l.disk && |l.disk[l.path]| >= l.maxSize
    then Rotate(l, BackupName(l.path, io.time), io.renamed, true).disk else l.disk
  }

  lemma Trimmed(l: Log, sorted: seq<string>)
    requires SizeOk(l) && !l.open && l.archive == [] && l.unlinked == [] && l.path !in sorted
    ensures var c := Cleanup(l.(backups := sorted));
            && SizeOk(c) && Intact(c) && Kept(c, sorted) && l.path !in c.backups
            && (Held(l.(backups := sorted)) ==> Held(c))
  {
    hide Flat;
    if Held(l.(backups := sorted)) { CleanupHeld(l.(backups := sorted)); }
    hide Held, Follows;
    TrimmedKept(l, sorted);
    hide Kept, Names;
  }

  lemma TrimmedKept(l: Log, sorted: seq<string>)
    requires l.archive == [] && l.unlinked == []
    ensures Kept(Cleanup(l.(backups := sorted)), sorted)
  {
    assert sorted + [] == sorted && [] + sorted == sorted;
    hide Without;
    if |sorted| > l.maxBackup {
      var extra := |sorted| - l.maxBackup;
      assert sorted[..extra] + sorted[extra..] == sorted && [] + sorted[..extra] == sorted[..extra];
    }
  }

  lemma NothingRemoved(disk: map<string, string>)
    ensures Without(disk, []) == disk
  {
  }

  // What is removed at start are backups, and nothing else changes on disk.
  lemma TrimmedDisk(l: Log, sorted: seq<string>)
    requires l.unlinked == [] && l.path !in sorted
    ensures var c := Cleanup(l.(backups := sorted));
            c.disk == Without(l.disk, c.unlinked) && l.path !in c.unlinked
  {
    hide Without;
    NothingRemoved(l.disk);
    if |sorted| > l.maxBackup { assert [] + sorted[..|sorted| - l.maxBackup] == sorted[..|sorted| - l.maxBackup]; }
  }

  lemma CleanupKeeps(l: Log)
    ensures var c := Cleanup(l); c == l.(disk := c.disk, backups := c.backups, unlinked := c.unlinked)
  {
  }

  lemma NewHistory(l: Log)
    requires SizeOk(l)
    ensures SizeOk(l.(archive := []))
  {
  }

  lemma NoHistory(l: Log)
    requires l.archive == [] && l.unlinked == []
    ensures Intact(l)
  {
  }

  lemma Reopened(l: Log, found: seq<string>)
    requires SizeOk(l) && Intact(l) && !l.open && l.path !in l.backups && l.path !in l.unlinked
    ensures var o := OpenFile(l, true);
            && SizeOk(o) && Intact(o) && o == l.(open := true, disk := o.disk)
            && (Kept(l, found) ==> Kept(o, found)) && (Held(l) ==> Held(o))
  {
  }

  lemma StartedDisk(l: Log, removed: seq<string>, reopened: bool)
    requires !l.open && l.path !in removed && reopened
    ensures OpenFile(l.(disk := Without(l.disk, removed)), reopened).disk
            == (l.disk - (set n | n in removed))[l.path := if l.path in l.disk then l.disk[l.path] else ""]
  {
  }

  lemma SameLength(a: seq<string>, b: seq<string>)
    requires multiset(a) == multiset(b)
    ensures |a| == |b|
  {
    assert |multiset(a)| == |a| && |multiset(b)| == |b|;
  }

  lemma FlatOne(l: Log)
    requires l.current == (if l.path in l.disk then [l.disk[l.path]] else [])
    ensures l.path in l.disk ==> Flat(l.current) == l.disk[l.path]
    ensures l.path !in l.disk ==> Flat(l.current) == ""
  {
  }

  // What basename makes of a path, as far as it matters here: the part behind the
  // last slash, or whatever it is if the path ends in one.
  predicate BaseOf(path: string, filename: string) {
    || (path != "" && path[|path| - 1] == '/')
    || (&& |filename| <= |path| && path[|path| - |filename|..] == filename
        && (|filename| == |path| || path[|path| - |filename| - 1] == '/'))
  }

  predicate NoSlashes(entries: seq<DirEntry>) {
    forall i :: 0 <= i < |entries| ==> '/' !in entries[i].name
  }

  // A name the scan accepts is never the path of the log itself.
  lemma OtherFile(dir: string, filename: string, e: DirEntry)
    requires dir != "" && Accepted(e, filename) && '/' !in e.name
    ensures !BaseOf(Join(dir, e.name), filename)
  {
    var j := Join(dir, e.name);
    assert j[|j| - |e.name|..] == e.name;
    assert IsDigit(e.name[|e.name| - 1]) && j[|j| - 1] == e.name[|e.name| - 1];
    assert j[|j| - |filename| - 1] == e.name[|e.name| - |filename| - 1];
  }

  lemma {:induction false} ScanMissesLog(path: string, dir: string, filename: string, entries: seq<DirEntry>)
    requires dir != "" && BaseOf(path, filename) && NoSlashes(entries)
    ensures path !in Found(entries, dir, filename)
    decreases entries
  {
    if entries != [] {
      var e := entries[|entries| - 1];
      ScanMissesLog(path, dir, filename, entries[..|entries| - 1]);
      if Accepted(e, filename) { OtherFile(dir, filename, e); }
    }
  }

  lemma SameNames(a: seq<string>, b: seq<string>, x: string)
    requires multiset(a) == multiset(b) && x !in b
    ensures x !in a
  {
    assert x in multiset(a) <==> x in a;
    assert x in multiset(b) <==> x in b;
  }

  class Logger {
    const path: string
    const maxSize: nat
    const maxBackup: nat
    var disk: map<string, string>
    var size: nat
    var open: bool
    var files: array<string>
    var count: nat
    ghost var current: seq<string>
    ghost var archive: seq<Rotated>
    ghost var unlinked: seq<string>

    ghost predicate Valid()
      reads this
    {
      count <= files.Length
    }

    ghost function View(): Log
      requires Valid()
      reads this, files
    {
      Log(path, maxSize, maxBackup, disk, size, open, files[..count], current, archive, unlinked)
    }

    constructor (path: string, maxLogSize: int, maxBackup: int, disk: map<string, string>)
      ensures Valid() && fresh(files)
      ensures var limit := if maxLogSize < 1 then 10_485_760 else maxLogSize * 1_048_576;
              View() == Log(path, limit, if maxBackup < 1 then 0 else maxBackup, disk,
                            0, false, [], if path in disk then [disk[path]] else [], [], [])
    {
      this.path := path;
      maxSize := MaxSize(maxLogSize);
      this.maxBackup := if maxBackup < 1 then 0 else maxBackup;
      this.disk := disk;
      size, open, count := 0, false, 0;
      files := new string[0];
      current, archive, unlinked := if path in disk then [disk[path]] else [], [], [];
    }

    // append_backup_log_file: doubles a full array.
    method Append(name: string)
      requires Valid()
      modifies this, files
      ensures Valid() && View() == old(View()).(backups := old(View()).backups + [name])
      ensures files == old(files) || fresh(files)
      ensures old(count < files.Length) ==> files == old(files)
      ensures old(count == files.Length) ==>
                files.Length == (if old(files.Length) == 0 then 16 else 2 * old(files.Length))
    {
      if count == files.Length {
        var newCap := if files.Length == 0 then 16 else files.Length * 2;
        var grown := new string[newCap];
        forall i | 0 <= i < count {
          grown[i] := files[i];
        }
        files := grown;
      }
      files[count] := name;
      count := count + 1;
    }

    // cleanup_old_backup_log_files: unlinks the oldest, shifts the rest down.
    method CleanupOld()
      requires Valid()
      modifies this, files
      ensures Valid() && View() == Cleanup(old(View())) && files == old(files)
    {
      if count <= maxBackup { return; }
      ghost var before, names := View(), files[..count];
      var extra := count - maxBackup;
      for i := 0 to extra
        invariant Valid() && files == old(files) && files[..count] == names
        invariant View() == before.(disk := Without(before.disk, names[..i]), unlinked := before.unlinked + names[..i])
      {
        WithoutOneMore(before.disk, before.unlinked, names, i);
        disk := disk - {files[i]};
        unlinked := unlinked + [files[i]];
      }
      ShiftDown(extra);
    }

    // The memmove that closes the gap.
    method ShiftDown(extra: nat)
      requires Valid() && count == extra + maxBackup
      modifies this`count, files
      ensures Valid() && View() == old(View()).(backups := old(View()).backups[extra..])
    {
      ghost var names := files[..count];
      forall i | 0 <= i < maxBackup {
        files[i] := files[extra + i];
      }
      count := maxBackup;
      assert files[..count] == names[extra..];
    }

    // rotate_log
    method RotateLog(time: string, renamed: bool, init: bool) returns (ok: bool)
      requires Valid()
      modifies this, files
      ensures Valid() && View() == Rotate(old(View()), BackupName(path, time), renamed, init)
      ensures files == old(files) || fresh(files)
      ensures ok <==> renamed && path in old(disk)
    {
      if !renamed || path !in disk { return false; }
      var name := BackupName(path, time);
      disk := (disk - {path})[name := disk[path]];
      archive := archive + [Rotated(name, current)];
      size, current := 0, [];
      if !init && maxBackup > 0 {
        Append(name);
        CleanupOld();
      }
      ok := true;
    }

    // write_daemon_log, given the formatted line.
    method WriteDaemonLog(slot: Slot, line: string, io: Io)
      requires Valid()
      requires open ==> path in disk
      modifies this, files
      ensures Valid() && View() == if Skipped(slot) then old(View()) else Write(old(View()), line, io)
      ensures files == old(files) || fresh(files)
    {
      if slot.timestampNs == 0 || slot.level >= LEVEL_MAX || slot.msg == "" { return; }
      if size + |line| > maxSize {
        open := false;
        var _ := RotateLog(io.time, io.renamed, false);
      }
      hide Rotate;
      if !open {
        Reopen(io.reopened);
        if !open { return; }
      }
      FileWrite(line, io.accepted);
    }

    // fopen of the log in append mode
    method Reopen(reopened: bool)
      requires Valid() && !open
      modifies this`disk, this`open
      ensures Valid() && View() == OpenFile(old(View()), reopened)
    {
      if !reopened { return; }
      if path !in disk { disk := disk[path := ""]; }
      open := true;
    }

    // fwrite and the size kept with it
    method FileWrite(line: string, accepted: nat)
      requires Valid() && open && path in disk
      modifies this`disk, this`size, this`current
      ensures Valid() && View() == Emit(old(View()), line, accepted)
    {
      var piece := if accepted < |line| then line[..accepted] else line;
      disk := disk[path := disk[path] + piece];
      size, current := size + |piece|, current + [piece];
    }

    // get_backup_log_files up to the sort.
    method Scan(entries: seq<DirEntry>, dir: string, filename: string)
      requires Valid() && dir != "" && count == 0
      modifies this, files
      ensures Valid() && View() == old(View()).(backups := Found(entries, dir, filename))
      ensures files == old(files) || fresh(files)
    {
      ghost var before := View();
      for i := 0 to |entries|
        invariant Valid() && View() == before.(backups := Found(entries[..i], dir, filename))
        invariant files == old(files) || fresh(files)
      {
        assert entries[..i + 1][..i] == entries[..i];
        var e := entries[i];
        if !e.regular { continue; }
        if |e.name| != |filename| + 15 || e.name[..|filename|] != filename { continue; }
        var valid := true;
        for p := |filename| + 1 to |e.name|
          invariant valid <==> forall k :: |filename| + 1 <= k < p ==> IsDigit(e.name[k])
        {
          if !IsDigit(e.name[p]) { valid := false; }
        }
        if !valid { continue; }
        Append(Join(dir, e.name));
      }
      assert entries[..|entries|] == entries;
    }

    // The first part of init_daemon_logger that touches the disk: an existing log
    // that is full is rotated away.
    method TakeOver(io: Io) returns (ok: bool)
      requires Valid() && count == 0 && !open && unlinked == []
      requires size == 0 && current == (if path in disk then [disk[path]] else [])
      modifies this, files
      ensures Valid() && count == 0 && !open && unlinked == []
      ensures files == old(files) || fresh(files)
      ensures ok <==> (path in old(disk) && |old(disk)[path]| >= maxSize ==> io.renamed)
      ensures ok ==> SizeOk(View()) && size <= maxSize && disk == AtScan(old(View()), io)
    {
      ok := true;
      FlatOne(View());
      if path in disk {
        if |disk[path]| >= maxSize {
          ok := RotateLog(io.time, io.renamed, true);
        } else {
          size := |disk[path]|;
        }
      }
    }

    // The scan, the sort and the first cleanup.  `sorted` is what qsort makes of
    // the scanned names.
    method LoadBackups(entries: seq<DirEntry>, dir: string, filename: string, sorted: seq<string>)
      requires Valid() && dir != "" && count == 0
      requires multiset(sorted) == multiset(Found(entries, dir, filename)) && Ascending(sorted)
      modifies this, files
      ensures Valid() && View() == Cleanup(old(View()).(backups := sorted))
      ensures files == old(files) || fresh(files)
    {
      Scan(entries, dir, filename);
      SameLength(sorted, files[..count]);
      forall i | 0 <= i < count {
        files[i] := sorted[i];
      }
      assert files[..count] == sorted;
      CleanupOld();
    }

    // The part of init_daemon_logger that touches the disk; `listed` says whether the
    // directory could be read.  The history that retention is about starts here.
    // `scanned` is the logger at the scan: from then on only backups are removed, and
    // the log keeps what it holds.
    method Start(entries: seq<DirEntry>, dir: string, filename: string, sorted: seq<string>, listed: bool, io: Io)
      returns (ok: bool, ghost scanned: Log)
      requires Valid() && dir != "" && count == 0 && !open && unlinked == []
      requires size == 0 && current == (if path in disk then [disk[path]] else [])
      requires BaseOf(path, filename) && NoSlashes(entries)
      requires multiset(sorted) == multiset(Found(entries, dir, filename)) && Ascending(sorted)
      modifies this, files
      ensures Valid()
      ensures ok <==>
              && (path in old(disk) && |old(disk)[path]| >= maxSize ==> io.renamed)
              && (maxBackup > 0 ==> listed) && io.reopened
      ensures ok ==> open && size <= maxSize && path !in View().backups && SizeOk(View()) && Intact(View())
      ensures ok && maxBackup > 0 ==> Kept(View(), sorted)
      ensures ok && maxBackup == 0 ==> unlinked == []
      ensures ok ==> scanned.path == path && scanned.disk == AtScan(old(View()), io)
      ensures ok ==> disk == (scanned.disk - (set n | n in unlinked))[
                               path := if path in scanned.disk then scanned.disk[path] else ""]
      ensures ok && maxBackup > 0 && Held(scanned.(backups := sorted)) ==> Held(View())
    {
      hide Cleanup, Found, Accepted, AtScan, Without, Kept, Ascending, Rotate, SizeOk, Intact, Held;
      scanned := View();
      ScanMissesLog(path, dir, filename, entries);
      SameNames(sorted, Found(entries, dir, filename), path);
      ok := TakeOver(io);
      if !ok { return; }
      NewHistory(View());
      archive := [];
      scanned := View();
      if maxBackup > 0 {
        if !listed { return false, scanned; }
        LoadBackups(entries, dir, filename, sorted);
        Trimmed(scanned, sorted);
        TrimmedDisk(scanned, sorted);
        CleanupKeeps(scanned.(backups := sorted));
      } else {
        NoHistory(View());
        NothingRemoved(disk);
      }
      hide OpenFile;
      Reopened(View(), sorted);
      if io.reopened { StartedDisk(scanned, unlinked, true); }
      Reopen(io.reopened);
      ok := open;
    }
  }
}
