// load_config: reads a configuration file line by line into one buffer, cuts and
// trims each line in place, and hands every entry to a callback.
module IniLoader {
  import opened NtString
  import C = ConfigProtocol

  type Config = C.Config

  // The callback: the updated configuration and whether it accepts the entry.
  type Parser = (Config, string, string, string) -> (Config, bool)

  const LINE_SIZE := 8192
  const SECTION_SIZE := 64

  // ------------------------------------------------------------ the meaning

  datatype Line = Skip | Section(name: string) | Entry(key: string, value: string)

  // The first occurrence, or the length.
  function Find(v: string, c: char): (i: nat)
    ensures i <= |v| && c !in v[..i] && (i < |v| ==> v[i] == c)
  {
    if v == "" || v[0] == c then 0
    else
      var i := 1 + Find(v[1..], c);
      assert v[..i] == [v[0]] + v[1..][..i - 1];
      i
  }

  function ParseLine(line: string): Line {
    var t := Trim(line);
    if t == "" || t[0] == '#' then Skip
    else if t[0] == '[' then
      var e := Find(t, ']');
      if e < |t| then Section(Trim(t[1..e])) else Skip
    else
      ParseEntry(t)
  }

  function ParseEntry(t: string): Line {
    var d := Find(t, '=');
    if d == |t| then Skip
    else
      var key, value := Trim(t[..d]), Trim(t[d + 1..]);
      if key != "" && value != "" then Entry(key, value) else Skip
  }

  datatype Call = Call(section: string, key: string, value: string)

  datatype State = State(section: string, cfg: Config, calls: seq<Call>, failed: bool)

  function Shorten(name: string): string {
    if |name| < SECTION_SIZE then name else name[..SECTION_SIZE - 1]
  }

  function Obey(l: Line, st: State, parser: Parser): State {
    match l
    case Skip => st
    case Section(name) => st.(section := Shorten(name))
    case Entry(key, value) =>
      if st.section == "" then st
      else
        var (cfg, ok) := parser(st.cfg, st.section, key, value);
        State(st.section, cfg, st.calls + [Call(st.section, key, value)], !ok)
  }

  // Stops at the first entry the callback refuses.
  function Run(lines: seq<string>, st: State, parser: Parser): State {
    if lines == [] || st.failed then st
    else Run(lines[1..], Obey(ParseLine(lines[0]), st, parser), parser)
  }

  // ---------------------------------------------------------- reading lines

  // Where the piece fgets reads from `pos` on ends, with room for so many
  // characters.
  function PieceEnd(file: string, pos: nat, room: nat): (e: nat)
    requires pos <= |file|
    ensures pos <= e <= |file| && e - pos <= room
    ensures pos < |file| && room > 0 ==> pos < e
    decreases room
  {
    if room == 0 || pos == |file| then pos
    else if file[pos] == '\n' then pos + 1
    else PieceEnd(file, pos + 1, room - 1)
  }

  function CutAtNul(v: string): string {
    v[..Find(v, NUL)]
  }

  // The C strings fgets leaves in the buffer, one after the other.
  function Pieces(file: string, pos: nat): seq<string>
    requires pos <= |file|
    decreases |file| - pos
  {
    if pos == |file| then []
    else
      var e := PieceEnd(file, pos, LINE_SIZE - 1);
      [CutAtNul(file[pos..e])] + Pieces(file, e)
  }

  // fgets
  method GetLine(buf: array<char>, file: string, pos: nat) returns (more: bool, next: nat)
    requires buf.Length == LINE_SIZE && pos <= |file|
    modifies buf
    ensures more <==> pos < |file|
    ensures more ==>
              && next == PieceEnd(file, pos, LINE_SIZE - 1)
              && Terminated(buf[..], 0) && CStr(buf[..], 0) == CutAtNul(file[pos..next])
  {
    if pos == |file| { return false, pos; }
    more, next := true, pos;
    var n := 0;
    while n < LINE_SIZE - 1 && next < |file|
      invariant 0 <= n <= LINE_SIZE - 1 && next == pos + n <= |file|
      invariant buf[..n] == file[pos..next]
      invariant PieceEnd(file, pos, LINE_SIZE - 1) == PieceEnd(file, next, LINE_SIZE - 1 - n)
    {
      var c := file[next];
      buf[n] := c;
      n, next := n + 1, next + 1;
      if c == '\n' { break; }
    }
    buf[n] := NUL;
    assert buf[..n] == file[pos..next];
    PieceString(buf[..], file[pos..next]);
  }

  lemma PieceString(s: seq<char>, piece: string)
    requires |piece| < |s| && s[..|piece|] == piece && s[|piece|] == NUL
    ensures Terminated(s, 0) && CStr(s, 0) == CutAtNul(piece)
  {
    var k := Find(piece, NUL);
    forall i | 0 <= i < k
      ensures s[i] != NUL
    {
      assert s[i] == piece[i] && piece[i] in piece[..k];
    }
    StringAt(s, 0, k);
  }

  // ------------------------------------------------------ cutting up a line

  // Strings that end before a change do not see it.
  lemma SameString(s: seq<char>, s': seq<char>, p: nat)
    requires Terminated(s, p) && |s'| == |s|
    requires forall i :: p <= i <= p + StrLen(s, p) ==> s'[i] == s[i]
    ensures Terminated(s', p) && StrLen(s', p) == StrLen(s, p) && CStr(s', p) == CStr(s, p)
  {
    StringAt(s', p, StrLen(s, p));
  }

  lemma {:induction false} FindIs(v: string, c: char, k: nat)
    requires k < |v| && v[k] == c && c !in v[..k]
    ensures Find(v, c) == k
  {
    if k > 0 {
      assert v[0] in v[..k];
      assert forall i :: 0 <= i < k - 1 ==> v[1..][i] in v[..k];
      FindIs(v[1..], c, k - 1);
    }
  }

  lemma {:induction false} FindNone(v: string, c: char)
    requires c !in v
    ensures Find(v, c) == |v|
  {
    if v != "" { FindNone(v[1..], c); }
  }

  lemma StoreBefore(s: seq<char>, x: nat, p: nat)
    requires Terminated(s, p) && x < p
    ensures Terminated(s[x := NUL], p) && StrLen(s[x := NUL], p) == StrLen(s, p) && CStr(s[x := NUL], p) == CStr(s, p)
  {
    SameString(s, s[x := NUL], p);
  }

  lemma StoreAfter(s: seq<char>, x: nat, p: nat)
    requires Terminated(s, p) && p + StrLen(s, p) < x < |s|
    ensures Terminated(s[x := NUL], p) && StrLen(s[x := NUL], p) == StrLen(s, p) && CStr(s[x := NUL], p) == CStr(s, p)
  {
    SameString(s, s[x := NUL], p);
  }

  // Storing a NUL over the first c leaves the string before it and, after it,
  // the rest.
  lemma SplitAt(s: seq<char>, p: nat, at: nat, c: char)
    requires Terminated(s, p) && p <= at < p + StrLen(s, p) && s[at] == c && c !in s[p..at]
    ensures Find(CStr(s, p), c) == at - p
    ensures Terminated(s[at := NUL], p) && CStr(s[at := NUL], p) == CStr(s, p)[..at - p]
    ensures StrLen(s[at := NUL], p) == at - p
    ensures Terminated(s[at := NUL], at + 1) && CStr(s[at := NUL], at + 1) == CStr(s, p)[at - p + 1..]
  {
    var v := CStr(s, p);
    assert v[..at - p] == s[p..at];
    FindIs(v, c, at - p);
    hide Find, Terminated, StrLen;
    CutAt(s, p, at);
    StringFrom(s, p, at + 1);
    SameString(s, s[at := NUL], at + 1);
  }

  // strncpy of at most SECTION_SIZE - 1 characters into a cleared buffer.
  method CopySection(buf: array<char>, p: nat) returns (name: string)
    requires Terminated(buf[..], p)
    ensures name == Shorten(CStr(buf[..], p))
  {
    name := "";
    while |name| < SECTION_SIZE - 1 && buf[p + |name|] != NUL
      invariant |name| <= SECTION_SIZE - 1 && |name| <= StrLen(buf[..], p)
      invariant name == CStr(buf[..], p)[..|name|]
    {
      name := name + [buf[p + |name|]];
    }
  }

  // The line "[section]".
  method CutSection(buf: array<char>, line: nat, section: string) returns (name: string)
    requires Terminated(buf[..], line) && buf[line] == '['
    modifies buf
    ensures var t := old(CStr(buf[..], line)); var e := Find(t, ']');
            name == if e < |t| then Shorten(Trim(t[1..e])) else section
  {
    ghost var was, t := buf[..], CStr(buf[..], line);
    assert t[0] == '[';
    var found, end := StrChr(buf, line, ']');
    if !found {
      FindNone(t, ']');
      return section;
    }
    SplitAt(was, line, end, ']');
    buf[end] := NUL;
    assert buf[..] == was[end := NUL];
    assert CStr(buf[..], line) == t[..end - line];
    StringFrom(buf[..], line, line + 1);
    assert t[..end - line][1..] == t[1..end - line];
    var sec := TrimInPlace(buf, line + 1);
    name := CopySection(buf, sec);
  }

  // The line "key = value".
  method CutEntry(buf: array<char>, line: nat) returns (found: bool, key: nat, value: nat)
    requires Terminated(buf[..], line)
    modifies buf
    ensures var t := old(CStr(buf[..], line)); var d := Find(t, '=');
            && (found <==> d < |t|)
            && (found ==>
                  && Terminated(buf[..], key) && CStr(buf[..], key) == Trim(t[..d])
                  && Terminated(buf[..], value) && CStr(buf[..], value) == Trim(t[d + 1..]))
  {
    ghost var t := CStr(buf[..], line);
    var delim;
    found, delim := StrChr(buf, line, '=');
    key, value := 0, 0;
    if !found {
      FindNone(t, '=');
      return;
    }
    SplitAt(buf[..], line, delim, '=');
    hide Terminated, StrLen, Trim, Find, CStr;
    key, value := CutAround(buf, line, delim);
  }

  method CutAround(buf: array<char>, line: nat, delim: nat) returns (key: nat, value: nat)
    requires Terminated(buf[..], line) && line <= delim < line + StrLen(buf[..], line)
    requires buf[delim] == '=' && '=' !in buf[line..delim]
    modifies buf
    ensures Terminated(buf[..], key) && CStr(buf[..], key) == Trim(old(CStr(buf[..], line))[..delim - line])
    ensures Terminated(buf[..], value) && CStr(buf[..], value) == Trim(old(CStr(buf[..], line))[delim - line + 1..])
  {
    ghost var was := buf[..];
    SplitAt(was, line, delim, '=');
    hide Terminated, StrLen, Trim, Find, CStr;
    buf[delim] := NUL;
    assert buf[..] == was[delim := NUL];
    key, value := TrimBoth(buf, line, delim + 1);
  }

  // Trimming one string and then another that starts after it.
  method TrimBoth(buf: array<char>, first: nat, second: nat) returns (key: nat, value: nat)
    requires Terminated(buf[..], first) && Terminated(buf[..], second) && first + StrLen(buf[..], first) < second
    modifies buf
    ensures Terminated(buf[..], key) && CStr(buf[..], key) == Trim(old(CStr(buf[..], first)))
    ensures Terminated(buf[..], value) && CStr(buf[..], value) == Trim(old(CStr(buf[..], second)))
  {
    hide Terminated, StrLen, Trim, CStr;
    ghost var was := buf[..];
    key := TrimInPlace(buf, first);
    ghost var now := buf[..];
    StoreBefore(was, key + StrLen(now, key), second);
    value := TrimInPlace(buf, second);
    StoreAfter(now, value + StrLen(buf[..], value), key);
  }

  // One turn of the loop of load_config.
  method ObeyLine(buf: array<char>, st: State, parser: Parser) returns (n: State)
    requires Terminated(buf[..], 0) && !st.failed
    modifies buf
    ensures n == Obey(ParseLine(old(CStr(buf[..], 0))), st, parser)
  {
    hide Trim, Find, Shorten, StrLen, Terminated, CStr;
    var line := TrimInPlace(buf, 0);
    FirstChar(buf[..], line);
    if buf[line] == NUL || buf[line] == '#' { return st; }
    if buf[line] == '[' {
      var name := CutSection(buf, line, st.section);
      return st.(section := name);
    }
    n := st;
    if st.section == "" { return; }
    var found, key, value := CutEntry(buf, line);
    if found {
      FirstChar(buf[..], key);
      FirstChar(buf[..], value);
      if buf[key] != NUL && buf[value] != NUL {
        var k, v := CopyString(buf, key), CopyString(buf, value);
        var (cfg, ok) := parser(st.cfg, st.section, k, v);
        n := State(st.section, cfg, st.calls + [Call(st.section, k, v)], !ok);
      }
    }
  }

  lemma FirstChar(s: seq<char>, p: nat)
    requires Terminated(s, p)
    ensures p < |s| && (s[p] == NUL <==> CStr(s, p) == "")
    ensures s[p] != NUL ==> CStr(s, p)[0] == s[p]
  {
  }

  // What the callback sees of a string.
  function CopyString(buf: array<char>, p: nat): string
    requires Terminated(buf[..], p)
    reads buf
  {
    CStr(buf[..], p)
  }

  // load_config, given the file's contents if it could be opened.
  method LoadConfig(readable: bool, file: string, cfg: Config, parser: Parser) returns (ok: bool, st: State)
    ensures st == if readable then Run(Pieces(file, 0), State("", cfg, [], false), parser)
                  else State("", cfg, [], false)
    ensures ok <==> readable && !st.failed
  {
    st := State("", cfg, [], false);
    if !readable { return false, st; }
    var buf := new char[LINE_SIZE](_ => NUL);
    var pos := 0;
    ghost var all := Run(Pieces(file, 0), st, parser);
    while !st.failed
      invariant pos <= |file|
      invariant Run(Pieces(file, pos), st, parser) == all
      decreases |file| - pos, !st.failed
    {
      var more, next := GetLine(buf, file, pos);
      if !more { break; }
      st := ObeyLine(buf, st, parser);
      pos := next;
    }
    ok := !st.failed;
  }

  // ------------------------------------------------------------------- laws

  // White space around a line never matters.
  lemma PaddedLine(before: string, line: string, after: string)
    requires Blank(before) && Blank(after)
    ensures ParseLine(before + line + after) == ParseLine(line)
  {
    var b, a := TrimSplit(line);
    assert before + line + after == (before + b) + Trim(line) + (a + after);
    TrimPadded(before + b, Trim(line), a + after);
  }

  // A line without meaning can be put anywhere among the lines read.
  lemma {:induction false} SkippedLine(a: seq<string>, line: string, b: seq<string>, st: State, parser: Parser)
    requires ParseLine(line).Skip?
    ensures Run(a + [line] + b, st, parser) == Run(a + b, st, parser)
    decreases a
  {
    if a == [] {
      assert a + [line] + b == [line] + b && a + b == b;
      assert ([line] + b)[1..] == b;
    } else if !st.failed {
      assert (a + [line] + b)[1..] == a[1..] + [line] + b && (a + b)[1..] == a[1..] + b;
      SkippedLine(a[1..], line, b, Obey(ParseLine(a[0]), st, parser), parser);
    }
  }

  // White space alone, and anything behind a '#' that only white space precedes.
  lemma CommentOrBlank(pad: string, text: string)
    requires Blank(pad)
    ensures ParseLine(pad).Skip? && ParseLine(pad + "#" + text).Skip?
  {
    BlankGone(pad);
    TextBehind(pad, text);
  }

  lemma TextBehind(pad: string, text: string)
    requires Blank(pad)
    ensures Trim(pad + "#" + text) == "#" + RTrim(text)
  {
    var t := "#" + RTrim(text);
    var after := RTrimSplit(text);
    hide RTrim, LTrim, Trim;
    assert pad + "#" + text == pad + t + after;
    assert RTrim(text) != "" ==> t[|t| - 1] == RTrim(text)[|RTrim(text)| - 1];
    TrimPadded(pad, t, after);
  }

  // ------------------------------------------------- lines of a file

  // Nothing before this text is left in the middle of a line.
  predicate WholeLines(a: string) {
    a == "" || a[|a| - 1] == '\n'
  }

  lemma {:induction false} PieceEndWithin(a: string, rest: string, pos: nat, room: nat)
    requires pos < |a| && WholeLines(a)
    ensures PieceEnd(a + rest, pos, room) == PieceEnd(a, pos, room)
    decreases room
  {
    if room > 0 && a[pos] != '\n' { PieceEndWithin(a, rest, pos + 1, room - 1); }
  }

  // What follows whole lines does not change how they are read.
  lemma {:induction false} PiecesSplit(a: string, rest: string, pos: nat)
    requires pos <= |a| && WholeLines(a)
    ensures Pieces(a + rest, pos) == Pieces(a, pos) + Pieces(a + rest, |a|)
    decreases |a| - pos
  {
    hide PieceEnd, CutAtNul;
    if pos < |a| {
      PieceEndWithin(a, rest, pos, LINE_SIZE - 1);
      var e := PieceEnd(a, pos, LINE_SIZE - 1);
      assert (a + rest)[pos..e] == a[pos..e];
      PiecesSplit(a, rest, e);
    }
  }

  lemma {:induction false} PieceEndShift(a: string, b: string, pos: nat, room: nat)
    requires pos <= |b|
    ensures PieceEnd(a + b, |a| + pos, room) == |a| + PieceEnd(b, pos, room)
    decreases room
  {
    if room > 0 && pos < |b| && b[pos] != '\n' { PieceEndShift(a, b, pos + 1, room - 1); }
  }

  lemma {:induction false} PiecesShift(a: string, b: string, pos: nat)
    requires pos <= |b|
    ensures Pieces(a + b, |a| + pos) == Pieces(b, pos)
    decreases |b| - pos
  {
    hide PieceEnd, CutAtNul;
    if pos < |b| {
      PieceEndShift(a, b, pos, LINE_SIZE - 1);
      var e := PieceEnd(b, pos, LINE_SIZE - 1);
      SliceShift(a, b, pos, e);
      PiecesShift(a, b, e);
    }
  }

  lemma SliceShift(a: string, b: string, i: nat, j: nat)
    requires i <= j <= |b|
    ensures (a + b)[|a| + i..|a| + j] == b[i..j]
  {
  }

  // A file is read as its parts are, wherever it is cut between two lines.
  lemma PiecesConcat(a: string, b: string)
    requires WholeLines(a)
    ensures Pieces(a + b, 0) == Pieces(a, 0) + Pieces(b, 0)
  {
    PiecesSplit(a, b, 0);
    PiecesShift(a, b, 0);
  }

  lemma LineAlone(line: string)
    requires '\n' !in line && NUL !in line && |line| < LINE_SIZE - 1
    ensures Pieces(line + "\n", 0) == [line + "\n"]
  {
    var file := line + "\n";
    assert file[..|line|] == line;
    OnePiece(file, 0, line);
    assert Pieces(file, |file|) == [];
  }

  // Inserting a line without meaning between two lines of a file, of whatever
  // kind: the callback is called as before.
  lemma LineInserted(a: string, line: string, b: string, st: State, parser: Parser)
    requires WholeLines(a) && '\n' !in line && NUL !in line && |line| < LINE_SIZE - 1
    requires ParseLine(line).Skip?
    ensures Pieces(a + line + "\n" + b, 0) == Pieces(a, 0) + [line + "\n"] + Pieces(b, 0)
    ensures Run(Pieces(a + line + "\n" + b, 0), st, parser) == Run(Pieces(a + b, 0), st, parser)
  {
    hide Pieces, Run, ParseLine;
    PaddedLine("", line, "\n");
    assert "" + line + "\n" == line + "\n";
    LineAlone(line);
    PiecesConcat(line + "\n", b);
    PiecesConcat(a, line + "\n" + b);
    PiecesConcat(a, b);
    assert a + line + "\n" + b == a + (line + "\n" + b);
    assert Pieces(a, 0) + ([line + "\n"] + Pieces(b, 0)) == Pieces(a, 0) + [line + "\n"] + Pieces(b, 0);
    SkippedLine(Pieces(a, 0), line + "\n", Pieces(b, 0), st, parser);
  }

  // ------------------------------------------------- written and read back

  // An item of a configuration file, with the white space chosen by the writer.
  datatype Item =
    | Header(p0: string, p1: string, name: string, p2: string, rest: string)
    | Setting(p0: string, key: string, p1: string, p2: string, value: string, p3: string)
    | Note(p0: string, text: string)

  predicate Plain(v: string) {
    v != "" && v[0] !in WHITE && v[|v| - 1] !in WHITE && NUL !in v && '\n' !in v
  }

  // White space that does not end the line.
  predicate Space(v: string) {
    forall i :: 0 <= i < |v| ==> v[i] in WHITE && v[i] != '\n'
  }

  lemma SpaceIs(v: string)
    ensures Space(v) <==> Blank(v) && '\n' !in v
    ensures Plain(v) <==> v != "" && Tight(v) && NUL !in v && '\n' !in v
  {
    BlankIff(v);
    hide IsSpace;
  }

  // The strings of an item, as trimming sees them.
  lemma Parts(it: Item)
    requires WellFormed(it)
    ensures Blank(it.p0) && '\n' !in it.p0
    ensures it.Header? || it.Setting? ==> Blank(it.p1) && Blank(it.p2) && '\n' !in it.p1 && '\n' !in it.p2
    ensures it.Header? ==> Tight(it.name)
    ensures it.Setting? ==> Blank(it.p3) && '\n' !in it.p3 && Tight(it.key) && Tight(it.value)
  {
    hide Space, Plain, IsSpace, Blank, Tight;
    SpaceIs(it.p0);
    match it
    case Header(_, p1, name, p2, _) =>
      SpaceIs(p1);
      SpaceIs(p2);
      SpaceIs(name);
      TightEmpty();
    case Setting(_, key, p1, p2, value, p3) =>
      SpaceIs(p1);
      SpaceIs(p2);
      SpaceIs(p3);
      SpaceIs(key);
      SpaceIs(value);
    case Note(_, _) =>
  }

  lemma TightEmpty()
    ensures Tight("")
  {
  }

  predicate WellFormed(it: Item) {
    match it
    case Header(p0, p1, name, p2, rest) =>
      && Space(p0) && Space(p1) && Space(p2) && (name == "" || Plain(name)) && ']' !in name
      && NUL !in rest && '\n' !in rest
    case Setting(p0, key, p1, p2, value, p3) =>
      && Space(p0) && Space(p1) && Space(p2) && Space(p3) && Plain(key) && Plain(value)
      && '=' !in key && key[0] != '[' && key[0] != '#'
    case Note(p0, text) => Space(p0) && NUL !in text && '\n' !in text
  }

  // The item as text, without the line end.
  function Render(it: Item): string {
    match it
    case Header(p0, p1, name, p2, rest) => p0 + "[" + p1 + name + p2 + "]" + rest
    case Setting(p0, key, p1, p2, value, p3) => p0 + key + p1 + "=" + p2 + value + p3
    case Note(p0, text) => p0 + "#" + text
  }

  function Meaning(it: Item): Line {
    match it
    case Header(_, _, name, _, _) => Section(name)
    case Setting(_, key, _, _, value, _) => Entry(key, value)
    case Note(_, _) => Skip
  }

  lemma ReadSetting(it: Item)
    requires it.Setting? && WellFormed(it)
    ensures ParseLine(Render(it)) == Entry(it.key, it.value)
  {
    Parts(it);
    var head, tail := it.key + it.p1, it.p2 + it.value;
    var t := head + "=" + tail;
    assert Render(it) == it.p0 + t + it.p3;
    assert t[0] == it.key[0] && t[|t| - 1] == it.value[|it.value| - 1];
    TrimPadded(it.p0, t, it.p3);
    assert '=' !in it.p1 by { BlankHasNo(it.p1, '='); }
    assert t[..|head|] == head && t[|head|] == '=' && t[|head| + 1..] == tail;
    FindIs(t, '=', |head|);
    assert "" + it.key + it.p1 == head && it.p2 + it.value + "" == tail;
    TrimPadded("", it.key, it.p1);
    TrimPadded(it.p2, it.value, "");
  }

  lemma BlankHasNo(v: string, c: char)
    requires Blank(v) && !IsSpace(c)
    ensures c !in v
  {
  }

  lemma ReadHeader(it: Item)
    requires it.Header? && WellFormed(it)
    ensures ParseLine(Render(it)) == Section(it.name)
  {
    Parts(it);
    var inner := it.p1 + it.name + it.p2;
    var t := "[" + inner + "]" + RTrim(it.rest);
    HeaderText(it, inner, t);
    BlankHasNo(it.p1, ']');
    BlankHasNo(it.p2, ']');
    var e := 1 + |inner|;
    assert t[..e] == "[" + inner && t[e] == ']' && t[1..e] == inner;
    FindIs(t, ']', e);
    hide RTrim, LTrim;
    TrimPadded(it.p1, it.name, it.p2);
  }

  lemma HeaderText(it: Item, inner: string, t: string)
    requires it.Header? && WellFormed(it)
    requires inner == it.p1 + it.name + it.p2 && t == "[" + inner + "]" + RTrim(it.rest)
    ensures Trim(Render(it)) == t && t[0] == '['
  {
    Parts(it);
    var after := RTrimSplit(it.rest);
    hide RTrim, LTrim;
    var tail := "]" + RTrim(it.rest);
    assert t == ("[" + inner) + tail;
    HeaderConcat(it.p0, it.p1, it.name, it.p2, RTrim(it.rest), after);
    hide Render;
    TightEnds("[" + inner, tail);
    TrimPadded(it.p0, t, after);
  }

  lemma HeaderConcat(p0: string, p1: string, name: string, p2: string, core: string, after: string)
    ensures p0 + "[" + p1 + name + p2 + "]" + (core + after) == p0 + ("[" + (p1 + name + p2) + "]" + core) + after
  {
    Regroup(p0, "[", p1 + name + p2, "]" + core, after);
    assert p0 + "[" + p1 + name + p2 + "]" + (core + after) == p0 + "[" + (p1 + name + p2) + ("]" + core) + after;
    assert "[" + (p1 + name + p2) + ("]" + core) == "[" + (p1 + name + p2) + "]" + core;
  }

  lemma Regroup(a: string, b: string, c: string, d: string, e: string)
    ensures a + b + c + d + e == a + (b + c + d) + e
  {
  }

  lemma TightEnds(a: string, b: string)
    requires a != "" && b != "" && !IsSpace(a[0]) && !IsSpace(b[|b| - 1])
    ensures Tight(a + b) && (a + b)[0] == a[0]
  {
  }

  lemma ReadNote(it: Item)
    requires it.Note? && WellFormed(it)
    ensures ParseLine(Render(it)) == Skip
  {
    Parts(it);
    CommentOrBlank(it.p0, it.text);
  }

  lemma ReadItem(it: Item)
    requires WellFormed(it)
    ensures ParseLine(Render(it) + "\n") == Meaning(it)
  {
    PaddedLine("", Render(it), "\n");
    assert "" + Render(it) + "\n" == Render(it) + "\n";
    match it
    case Header(_, _, _, _, _) => ReadHeader(it);
    case Setting(_, _, _, _, _, _) => ReadSetting(it);
    case Note(_, _) => ReadNote(it);
  }

  // The file an editor would leave: one item per line.
  function RenderFile(items: seq<Item>): string {
    if items == [] then "" else Render(items[0]) + "\n" + RenderFile(items[1..])
  }

  function RenderLines(items: seq<Item>): seq<string> {
    if items == [] then [] else [Render(items[0]) + "\n"] + RenderLines(items[1..])
  }

  // Every line with its line end fits one fgets.
  predicate Fits(items: seq<Item>) {
    forall i :: 0 <= i < |items| ==> WellFormed(items[i]) && |Render(items[i])| + 1 <= 8191
  }

  function Carry(items: seq<Item>, st: State, parser: Parser): State {
    if items == [] || st.failed then st else Carry(items[1..], Obey(Meaning(items[0]), st, parser), parser)
  }

  lemma {:induction false} LineEnd(file: string, pos: nat, line: string, room: nat)
    requires pos + |line| < |file| && file[pos..pos + |line|] == line && file[pos + |line|] == '\n'
    requires '\n' !in line && |line| < room
    ensures PieceEnd(file, pos, room) == pos + |line| + 1
    decreases |line|
  {
    if line != "" {
      assert file[pos] == line[0];
      LineEnd(file, pos + 1, line[1..], room - 1);
    }
  }

  lemma RenderPlain(it: Item)
    requires WellFormed(it)
    ensures '\n' !in Render(it) && NUL !in Render(it)
  {
    Parts(it);
    match it
    case Header(p0, p1, _, p2, _) => BlankHasNo(p0, NUL); BlankHasNo(p1, NUL); BlankHasNo(p2, NUL);
    case Setting(p0, _, p1, p2, _, p3) =>
      BlankHasNo(p0, NUL); BlankHasNo(p1, NUL); BlankHasNo(p2, NUL); BlankHasNo(p3, NUL);
    case Note(p0, _) => BlankHasNo(p0, NUL);
  }

  lemma OnePiece(file: string, pos: nat, line: string)
    requires pos + |line| < |file| && file[pos..pos + |line|] == line && file[pos + |line|] == '\n'
    requires '\n' !in line && NUL !in line && |line| < LINE_SIZE - 1
    ensures Pieces(file, pos) == [line + "\n"] + Pieces(file, pos + |line| + 1)
  {
    LineEnd(file, pos, line, LINE_SIZE - 1);
    var v := line + "\n";
    assert file[pos..pos + |line| + 1] == v;
    FindNone(v, NUL);
    assert v[..|v|] == v;
  }

  lemma Lines(a: string, b: string, c: string)
    ensures a + (b + "\n" + c) == a + b + "\n" + c
    ensures (a + b + "\n" + c)[|a|..|a| + |b|] == b
    ensures (a + b + "\n" + c)[|a| + |b|] == '\n'
  {
  }

  lemma {:induction false} FilePieces(before: string, items: seq<Item>)
    requires Fits(items)
    ensures Pieces(before + RenderFile(items), |before|) == RenderLines(items)
    decreases items
  {
    if items != [] {
      var line, rest := Render(items[0]), RenderFile(items[1..]);
      RenderPlain(items[0]);
      OneLine(before, line, rest);
      FilePieces(before + line + "\n", items[1..]);
    }
  }

  lemma OneLine(before: string, line: string, rest: string)
    requires '\n' !in line && NUL !in line && |line| < LINE_SIZE - 1
    ensures Pieces(before + (line + "\n" + rest), |before|)
            == [line + "\n"] + Pieces(before + line + "\n" + rest, |before + line + "\n"|)
  {
    hide Pieces;
    Lines(before, line, rest);
    OnePiece(before + line + "\n" + rest, |before|, line);
  }

  lemma {:induction false} RunLines(items: seq<Item>, st: State, parser: Parser)
    requires Fits(items)
    ensures Run(RenderLines(items), st, parser) == Carry(items, st, parser)
    decreases items
  {
    if items != [] && !st.failed {
      ReadItem(items[0]);
      RunLines(items[1..], Obey(Meaning(items[0]), st, parser), parser);
    }
  }

  lemma FileRead(items: seq<Item>, st: State, parser: Parser)
    requires Fits(items)
    ensures Run(Pieces(RenderFile(items), 0), st, parser) == Carry(items, st, parser)
  {
    assert "" + RenderFile(items) == RenderFile(items);
    FilePieces("", items);
    RunLines(items, st, parser);
  }

  // ------------------------------------------------------ what a file says

  // The section a setting after these items is in: that of the last header, of
  // which 63 characters count, or none.
  function SectionAfter(items: seq<Item>): string {
    if items == [] then ""
    else match items[|items| - 1]
         case Header(_, _, name, _, _) => if |name| <= 63 then name else name[..63]
         case _ => SectionAfter(items[..|items| - 1])
  }

  // One call for every setting that is in a section.
  function Trace(items: seq<Item>): seq<Call> {
    if items == [] then []
    else
      var rest := items[..|items| - 1];
      match items[|items| - 1]
      case Setting(_, key, _, _, value, _) =>
        if SectionAfter(rest) == "" then Trace(rest) else Trace(rest) + [Call(SectionAfter(rest), key, value)]
      case _ => Trace(rest)
  }

  lemma {:induction false} LastHeaderCounts(items: seq<Item>, i: nat)
    requires i < |items| && items[i].Header? && forall j :: i < j < |items| ==> !items[j].Header?
    ensures |items[i].name| <= 63 ==> SectionAfter(items) == items[i].name
    ensures |items[i].name| > 63 ==> SectionAfter(items) == items[i].name[..63]
    decreases items
  {
    if i < |items| - 1 { LastHeaderCounts(items[..|items| - 1], i); }
  }

  // What the callback makes of a configuration, call by call.
  function Applied(parser: Parser, cfg: Config, calls: seq<Call>): Config {
    if calls == [] then cfg
    else
      var c := calls[|calls| - 1];
      parser(Applied(parser, cfg, calls[..|calls| - 1]), c.section, c.key, c.value).0
  }

  predicate AcceptsCall(parser: Parser, cfg: Config, calls: seq<Call>, k: nat)
    requires k < |calls|
  {
    parser(Applied(parser, cfg, calls[..k]), calls[k].section, calls[k].key, calls[k].value).1
  }

  // The calls are those of the trace up to the first one refused.
  predicate Follows(st: State, trace: seq<Call>, cfg: Config, parser: Parser) {
    && st.calls <= trace && st.cfg == Applied(parser, cfg, st.calls)
    && (forall k :: 0 <= k < |st.calls| - 1 ==> AcceptsCall(parser, cfg, st.calls, k))
    && (st.failed <==> st.calls != [] && !AcceptsCall(parser, cfg, st.calls, |st.calls| - 1))
    && (!st.failed ==> st.calls == trace)
  }

  lemma {:induction false} CarrySnoc(items: seq<Item>, it: Item, st: State, parser: Parser)
    ensures var m := Carry(items, st, parser);
            Carry(items + [it], st, parser) == if m.failed then m else Obey(Meaning(it), m, parser)
    decreases items
  {
    hide Obey, Meaning;
    if items == [] {
      assert items + [it] == [it] && [it][1..] == [];
    } else if !st.failed {
      assert (items + [it])[1..] == items[1..] + [it];
      CarrySnoc(items[1..], it, Obey(Meaning(items[0]), st, parser), parser);
    }
  }

  lemma OneCall(st: State, c: Call, cfg: Config, parser: Parser)
    requires Follows(st, st.calls, cfg, parser) && !st.failed
    ensures var (next, ok) := parser(st.cfg, c.section, c.key, c.value);
            Follows(State(st.section, next, st.calls + [c], !ok), st.calls + [c], cfg, parser)
  {
    var calls, n := st.calls + [c], |st.calls|;
    assert calls[..n] == st.calls;
    forall k | 0 <= k < n
      ensures AcceptsCall(parser, cfg, calls, k)
    {
      assert calls[..k] == st.calls[..k] && AcceptsCall(parser, cfg, st.calls, k);
    }
  }

  lemma {:induction false} CarryFollows(items: seq<Item>, cfg: Config, parser: Parser)
    ensures var n := Carry(items, State("", cfg, [], false), parser);
            Follows(n, Trace(items), cfg, parser) && (!n.failed ==> n.section == SectionAfter(items))
    decreases items
  {
    if items != [] {
      var rest, it := items[..|items| - 1], items[|items| - 1];
      assert items == rest + [it];
      CarryFollows(rest, cfg, parser);
      CarrySnoc(rest, it, State("", cfg, [], false), parser);
      var m := Carry(rest, State("", cfg, [], false), parser);
      if !m.failed && it.Setting? && m.section != "" { OneCall(m, Call(m.section, it.key, it.value), cfg, parser); }
    }
  }

  // Reading back a rendered file calls the callback for its settings, in order, each
  // under the last header before it, however they were padded and commented; and it
  // stops after the first call that is refused.
  lemma RoundTrip(items: seq<Item>, cfg: Config, parser: Parser)
    requires Fits(items)
    ensures Follows(Run(Pieces(RenderFile(items), 0), State("", cfg, [], false), parser), Trace(items), cfg, parser)
  {
    FileRead(items, State("", cfg, [], false), parser);
    CarryFollows(items, cfg, parser);
  }

  // A callback that refuses nothing.
  ghost predicate Accepts(parser: Parser) {
    forall c, section, key, value :: parser(c, section, key, value).1
  }

  // Such a callback is called for all of them.
  lemma AllCalled(items: seq<Item>, cfg: Config, parser: Parser)
    requires Fits(items) && Accepts(parser)
    ensures Run(Pieces(RenderFile(items), 0), State("", cfg, [], false), parser).calls == Trace(items)
  {
    RoundTrip(items, cfg, parser);
  }
}
