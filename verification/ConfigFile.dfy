// From a configuration file to the configuration an update publishes: the
// daemon's own parser callback, and what of the result the file decides.
module ConfigFile {
  import opened IniLoader
  import P = ConfigProtocol
  import B = ConfigBuffer

  // netto_config_parser, for a given atoi.
  function NettoParser(atoi: string -> int): Parser {
    (cfg: Config, section: string, key: string, value: string) => (Assigned(cfg, section, key, value, atoi), true)
  }

  function Assigned(cfg: Config, section: string, key: string, value: string, atoi: string -> int): Config {
    if section != "log" then cfg
    else if key == "max_log_size" then cfg.(maxLogSize := atoi(value))
    else if key == "max_backup" then cfg.(maxBackup := atoi(value))
    else cfg
  }

  // The assignment one call of the callback makes.
  function Assignment(c: Call, atoi: string -> int): seq<B.Entry> {
    if c.section != "log" then []
    else if c.key == "max_log_size" then [B.Entry(true, atoi(c.value))]
    else if c.key == "max_backup" then [B.Entry(false, atoi(c.value))]
    else []
  }

  function Assignments(calls: seq<Call>, atoi: string -> int): seq<B.Entry> {
    if calls == [] then []
    else Assignments(calls[..|calls| - 1], atoi) + Assignment(calls[|calls| - 1], atoi)
  }

  lemma AssignmentsSnoc(calls: seq<Call>, c: Call, atoi: string -> int)
    ensures Assignments(calls + [c], atoi) == Assignments(calls, atoi) + Assignment(c, atoi)
  {
    assert (calls + [c])[..|calls|] == calls;
  }

  lemma FilledSnoc(c: Config, entries: seq<B.Entry>, e: B.Entry)
    ensures B.Filled(c, entries + [e]) == P.SetField(B.Filled(c, entries), e.size, e.value)
  {
    assert (entries + [e])[..|entries|] == entries;
  }

  // The configuration is the first one with the assignments so far applied.
  predicate Loaded(st: State, first: Config, atoi: string -> int) {
    !st.failed && st.cfg == B.Filled(first, Assignments(st.calls, atoi))
  }

  lemma CallFilled(st: State, c: Call, first: Config, atoi: string -> int)
    requires Loaded(st, first, atoi)
    ensures var cfg := Assigned(st.cfg, c.section, c.key, c.value, atoi);
            Loaded(State(st.section, cfg, st.calls + [c], false), first, atoi)
  {
    AssignmentsSnoc(st.calls, c, atoi);
    var before, a := Assignments(st.calls, atoi), Assignment(c, atoi);
    hide Assignments, B.Filled;
    if a == [] {
      assert before + a == before;
    } else {
      FilledSnoc(first, before, a[0]);
    }
  }

  lemma LineFilled(l: Line, st: State, first: Config, atoi: string -> int)
    requires Loaded(st, first, atoi)
    ensures Loaded(Obey(l, st, NettoParser(atoi)), first, atoi)
  {
    if l.Entry? && st.section != "" {
      CallFilled(st, Call(st.section, l.key, l.value), first, atoi);
    }
    hide Assignments, B.Filled, Assigned;
  }

  // The in-place loader and the buffer's update agree: what a file makes of a
  // configuration is its assignments applied in order, whatever was there before.
  lemma {:induction false} LoadedIsFilled(lines: seq<string>, st: State, first: Config, atoi: string -> int)
    requires Loaded(st, first, atoi)
    ensures Loaded(Run(lines, st, NettoParser(atoi)), first, atoi)
    decreases lines
  {
    hide Obey, ParseLine, NettoParser, Assignments, B.Filled;
    if lines == [] {
    } else {
      LineFilled(ParseLine(lines[0]), st, first, atoi);
      LoadedIsFilled(lines[1..], Obey(ParseLine(lines[0]), st, NettoParser(atoi)), first, atoi);
    }
  }

  predicate Sets(entries: seq<B.Entry>, size: bool) {
    exists i :: 0 <= i < |entries| && entries[i].size == size
  }

  function Field(c: Config, size: bool): int {
    if size then c.maxLogSize else c.maxBackup
  }

  // A field that is assigned gets the same value over any previous contents; one
  // that is not keeps what was there.
  lemma {:induction false} FieldDecided(c: Config, d: Config, entries: seq<B.Entry>, size: bool)
    ensures if Sets(entries, size) then Field(B.Filled(c, entries), size) == Field(B.Filled(d, entries), size)
            else Field(B.Filled(c, entries), size) == Field(c, size)
    decreases entries
  {
    if entries == [] {
    } else {
      var rest, e := entries[..|entries| - 1], entries[|entries| - 1];
      FieldDecided(c, d, rest, size);
      if Sets(rest, size) {
        var i :| 0 <= i < |rest| && rest[i].size == size;
        assert entries[i].size == size;
      } else if e.size != size {
        assert forall i :: 0 <= i < |entries| ==> entries[i] == (if i < |rest| then rest[i] else e);
      }
    }
  }

  lemma AllDecided(entries: seq<B.Entry>)
    ensures (forall c, d :: B.Filled(c, entries) == B.Filled(d, entries))
            <==> Sets(entries, true) && Sets(entries, false)
  {
    var c, d := P.Config(0, 0), P.Config(1, 1);
    FieldDecided(c, d, entries, true);
    FieldDecided(c, d, entries, false);
    FieldDecided(d, c, entries, true);
    FieldDecided(d, c, entries, false);
    forall c, d | Sets(entries, true) && Sets(entries, false)
      ensures B.Filled(c, entries) == B.Filled(d, entries)
    {
      FieldDecided(c, d, entries, true);
      FieldDecided(c, d, entries, false);
    }
  }

  // ------------------------------------------------- what the file decides

  // The calls a file leads to, whatever it is loaded into.
  function Calls(file: string): seq<Call> {
    Run(Pieces(file, 0), State("", P.ZERO, [], false), (c, section, key, value) => (c, true)).calls
  }

  lemma ItemsCalled(items: seq<Item>)
    requires Fits(items)
    ensures Calls(RenderFile(items)) == Trace(items)
  {
    AllCalled(items, P.ZERO, (c, section, key, value) => (c, true));
  }

  lemma {:induction false} SameCalls(lines: seq<string>, st: State, st': State, parser: Parser, parser': Parser)
    requires Accepts(parser) && Accepts(parser') && !st.failed && !st'.failed
    requires st.section == st'.section && st.calls == st'.calls
    ensures Run(lines, st, parser).calls == Run(lines, st', parser').calls
    decreases lines
  {
    if lines == [] {
    } else {
      var l := ParseLine(lines[0]);
      hide ParseLine, Shorten;
      SameCalls(lines[1..], Obey(l, st, parser), Obey(l, st', parser'), parser, parser');
    }
  }

  // load_config with the daemon's callback, over previous contents c.
  function LoadedOver(file: string, c: Config, atoi: string -> int): Config {
    Run(Pieces(file, 0), State("", c, [], false), NettoParser(atoi)).cfg
  }

  lemma LoadedFrom(file: string, c: Config, atoi: string -> int)
    ensures LoadedOver(file, c, atoi) == B.Filled(c, Assignments(Calls(file), atoi))
  {
    var first, zero := State("", c, [], false), State("", P.ZERO, [], false);
    var accept: Parser := (c, section, key, value) => (c, true);
    assert Accepts(accept) && Accepts(NettoParser(atoi));
    assert Assignments([], atoi) == [];
    LoadedIsFilled(Pieces(file, 0), first, c, atoi);
    SameCalls(Pieces(file, 0), first, zero, NettoParser(atoi), accept);
  }

  // The file has an entry for the key in its log section.
  predicate HasEntry(calls: seq<Call>, key: string) {
    exists i :: 0 <= i < |calls| && calls[i].section == "log" && calls[i].key == key
  }

  lemma {:induction false} SetsIff(calls: seq<Call>, atoi: string -> int)
    ensures Sets(Assignments(calls, atoi), true) <==> HasEntry(calls, "max_log_size")
    ensures Sets(Assignments(calls, atoi), false) <==> HasEntry(calls, "max_backup")
    decreases calls
  {
    if calls == [] {
    } else {
      var rest, c := calls[..|calls| - 1], calls[|calls| - 1];
      SetsIff(rest, atoi);
      SetsConcat(Assignments(rest, atoi), Assignment(c, atoi), true);
      SetsConcat(Assignments(rest, atoi), Assignment(c, atoi), false);
      EntrySnoc(rest, c, "max_log_size");
      EntrySnoc(rest, c, "max_backup");
      assert calls == rest + [c];
      hide HasEntry, Assignments;
      AssignmentSets(c, atoi);
    }
  }

  lemma AssignmentSets(c: Call, atoi: string -> int)
    ensures Sets(Assignment(c, atoi), true) <==> c.section == "log" && c.key == "max_log_size"
    ensures Sets(Assignment(c, atoi), false) <==> c.section == "log" && c.key == "max_backup"
  {
    var a := Assignment(c, atoi);
    assert a != [] ==> Sets(a, a[0].size) by { assert a != [] ==> a[0].size == a[0].size; }
  }

  lemma SetsConcat(a: seq<B.Entry>, b: seq<B.Entry>, size: bool)
    ensures Sets(a + b, size) <==> Sets(a, size) || Sets(b, size)
  {
    if Sets(a, size) {
      var i :| 0 <= i < |a| && a[i].size == size;
      assert (a + b)[i] == a[i];
    }
    if Sets(b, size) {
      var i :| 0 <= i < |b| && b[i].size == size;
      assert (a + b)[|a| + i] == b[i];
    }
  }

  lemma EntrySnoc(calls: seq<Call>, c: Call, key: string)
    ensures HasEntry(calls + [c], key) <==> HasEntry(calls, key) || (c.section == "log" && c.key == key)
  {
    if HasEntry(calls, key) {
      var i :| 0 <= i < |calls| && calls[i].section == "log" && calls[i].key == key;
      assert (calls + [c])[i] == calls[i];
    }
    assert (calls + [c])[|calls|] == c;
  }

  predicate Gives(c: Call, key: string) {
    c.section == "log" && c.key == key
  }

  // Call i is the last one that gives this key in the log section.
  predicate LastFor(calls: seq<Call>, key: string, i: nat) {
    i < |calls| && Gives(calls[i], key) && forall j :: i < j < |calls| ==> !Gives(calls[j], key)
  }

  lemma FilledByOne(c: Config, rest: seq<Call>, last: Call, atoi: string -> int)
    ensures var before := B.Filled(c, Assignments(rest, atoi));
            var n := B.Filled(c, Assignments(rest + [last], atoi));
            && n.maxLogSize == (if Gives(last, "max_log_size") then atoi(last.value) else before.maxLogSize)
            && n.maxBackup == (if Gives(last, "max_backup") then atoi(last.value) else before.maxBackup)
  {
    AssignmentsSnoc(rest, last, atoi);
    var before, a := Assignments(rest, atoi), Assignment(last, atoi);
    hide Assignments, B.Filled;
    if a == [] {
      assert before + a == before;
    } else {
      FilledSnoc(c, before, a[0]);
    }
  }

  lemma {:induction false} FilledByLast(c: Config, calls: seq<Call>, atoi: string -> int, i: nat)
    ensures var n := B.Filled(c, Assignments(calls, atoi));
            && (LastFor(calls, "max_log_size", i) ==> n.maxLogSize == atoi(calls[i].value))
            && (LastFor(calls, "max_backup", i) ==> n.maxBackup == atoi(calls[i].value))
    decreases calls
  {
    hide B.Filled, Assignments;
    if i < |calls| {
      var rest, last := calls[..|calls| - 1], calls[|calls| - 1];
      assert calls == rest + [last];
      FilledByOne(c, rest, last, atoi);
      FilledByLast(c, rest, atoi, i);
    }
  }

  // Each field is the number in the last entry for its key in the log section, and
  // without such an entry it is what it was.
  lemma LastEntryWins(file: string, c: Config, atoi: string -> int, i: nat)
    ensures var calls, n := Calls(file), LoadedOver(file, c, atoi);
            && (LastFor(calls, "max_log_size", i) ==> n.maxLogSize == atoi(calls[i].value))
            && (LastFor(calls, "max_backup", i) ==> n.maxBackup == atoi(calls[i].value))
            && (!HasEntry(calls, "max_log_size") ==> n.maxLogSize == c.maxLogSize)
            && (!HasEntry(calls, "max_backup") ==> n.maxBackup == c.maxBackup)
  {
    var calls := Calls(file);
    LoadedFrom(file, c, atoi);
    FilledByLast(c, calls, atoi, i);
    SetsIff(calls, atoi);
    FieldDecided(c, c, Assignments(calls, atoi), true);
    FieldDecided(c, c, Assignments(calls, atoi), false);
    hide LoadedOver, Calls, Assignments, HasEntry, Sets, B.Filled, LastFor;
  }

  // What load_config leaves depends on the file alone exactly when the file has an
  // entry for both keys: it writes over whatever the inactive buffer held.
  lemma FileAlone(file: string, atoi: string -> int)
    ensures (forall c, d :: LoadedOver(file, c, atoi) == LoadedOver(file, d, atoi))
            <==> HasEntry(Calls(file), "max_log_size") && HasEntry(Calls(file), "max_backup")
  {
    var entries := Assignments(Calls(file), atoi);
    AllDecided(entries);
    SetsIff(Calls(file), atoi);
    hide LoadedOver, Calls, Assignments, HasEntry, Sets;
    if forall c, d :: B.Filled(c, entries) == B.Filled(d, entries) {
      forall c, d
        ensures LoadedOver(file, c, atoi) == LoadedOver(file, d, atoi)
      {
        LoadedFrom(file, c, atoi);
        LoadedFrom(file, d, atoi);
      }
    } else {
      var c, d :| B.Filled(c, entries) != B.Filled(d, entries);
      LoadedFrom(file, c, atoi);
      LoadedFrom(file, d, atoi);
      assert LoadedOver(file, c, atoi) != LoadedOver(file, d, atoi);
    }
  }

  const ONE_FIELD := "[log]\nmax_log_size=5\n"

  lemma HeaderItem(it: Item)
    requires it == Header("", "", "log", "", "")
    ensures WellFormed(it) && Render(it) == "[log]"
  {
  }

  lemma SettingItem(it: Item)
    requires it == Setting("", "max_log_size", "", "", "5", "")
    ensures WellFormed(it) && Render(it) == "max_log_size=5"
  {
  }

  lemma OneFieldText(header: Item, setting: Item)
    requires Render(header) == "[log]" && Render(setting) == "max_log_size=5"
    ensures RenderFile([header, setting]) == ONE_FIELD
  {
    TwoLines(header, setting);
    hide Render, RenderFile;
    assert "[log]" + "\n" == "[log]\n" && "max_log_size=5" + "\n" == "max_log_size=5\n";
  }

  lemma TwoLines(a: Item, b: Item)
    ensures RenderFile([a, b]) == (Render(a) + "\n") + (Render(b) + "\n")
  {
    hide Render;
    assert [a, b][1..] == [b] && [b][1..] == [];
    assert RenderFile([b]) == Render(b) + "\n" + "";
  }

  lemma OneFieldMeaning(header: Item, setting: Item, c: Config, atoi: string -> int)
    requires Meaning(header) == Section("log") && Meaning(setting) == Entry("max_log_size", "5")
    ensures Carry([header, setting], State("", c, [], false), NettoParser(atoi)).cfg == c.(maxLogSize := atoi("5"))
  {
    hide Meaning;
    assert [header, setting][1..] == [setting] && [setting][1..] == [];
    var inLog := State("log", c, [], false);
    assert Carry([setting], inLog, NettoParser(atoi)).cfg == c.(maxLogSize := atoi("5"));
  }

  // A file that says nothing about backups: the number comes from whatever the
  // buffer held two updates before.
  lemma OneFieldFile(atoi: string -> int, held: int)
    ensures LoadedOver(ONE_FIELD, P.Config(0, held), atoi) == P.Config(atoi("5"), held)
  {
    var header, setting := Header("", "", "log", "", ""), Setting("", "max_log_size", "", "", "5", "");
    var c := P.Config(0, held);
    HeaderItem(header);
    SettingItem(setting);
    OneFieldMeaning(header, setting, c, atoi);
    OneFieldText(header, setting);
    hide Render, RenderFile, WellFormed, Carry, Pieces, Run;
    FileRead([header, setting], State("", c, [], false), NettoParser(atoi));
  }
}
