// In-place trimming of a NUL-terminated string held in a character buffer.
module NtString {

  // isspace in the C locale
  predicate IsSpace(c: char) {
    c == ' ' || c == '\t' || c == '\n' || c == '\r' || c == 11 as char || c == 12 as char
  }

  const NUL: char := '\0'

  // ------------------------------------------------------------ the values

  function LTrim(v: string): (r: string)
    ensures |r| <= |v|
  {
    if v != "" && IsSpace(v[0]) then LTrim(v[1..]) else v
  }

  function RTrim(v: string): (r: string)
    ensures |r| <= |v|
  {
    if v != "" && IsSpace(v[|v| - 1]) then RTrim(v[..|v| - 1]) else v
  }

  function Trim(v: string): (r: string) {
    RTrim(LTrim(v))
  }

  predicate Blank(v: string) {
    forall i :: 0 <= i < |v| ==> IsSpace(v[i])
  }

  // Neither starts nor ends with white space.
  predicate Tight(v: string) {
    v == "" || (!IsSpace(v[0]) && !IsSpace(v[|v| - 1]))
  }

  lemma LTrimStep(v: string, k: nat)
    requires k < |v| && IsSpace(v[k])
    ensures LTrim(v[k..]) == LTrim(v[k + 1..])
  {
    assert v[k..][1..] == v[k + 1..];
  }

  lemma LTrimStop(v: string)
    requires v == "" || !IsSpace(v[0])
    ensures LTrim(v) == v
  {
  }

  lemma NulIsNoSpace()
    ensures !IsSpace(NUL)
  {
  }

  lemma {:induction false} LTrimPad(pad: string, v: string)
    requires Blank(pad)
    ensures LTrim(pad + v) == LTrim(v)
  {
    if pad == "" {
      assert pad + v == v;
    } else {
      assert (pad + v)[1..] == pad[1..] + v;
      LTrimPad(pad[1..], v);
    }
  }

  lemma {:induction false} RTrimPad(v: string, pad: string)
    requires Blank(pad)
    ensures RTrim(v + pad) == RTrim(v)
  {
    if pad == "" {
      assert v + pad == v;
    } else {
      assert (v + pad)[..|v + pad| - 1] == v + pad[..|pad| - 1];
      RTrimPad(v, pad[..|pad| - 1]);
    }
  }

  lemma {:induction false} LTrimSplit(v: string) returns (pad: string)
    ensures v == pad + LTrim(v) && Blank(pad)
    ensures LTrim(v) == "" || !IsSpace(LTrim(v)[0])
  {
    if v != "" && IsSpace(v[0]) {
      pad := LTrimSplit(v[1..]);
      pad := [v[0]] + pad;
    } else {
      pad := "";
    }
  }

  lemma {:induction false} RTrimSplit(v: string) returns (pad: string)
    ensures v == RTrim(v) + pad && Blank(pad)
    ensures RTrim(v) == "" || !IsSpace(RTrim(v)[|RTrim(v)| - 1])
  {
    if v != "" && IsSpace(v[|v| - 1]) {
      pad := RTrimSplit(v[..|v| - 1]);
      pad := pad + [v[|v| - 1]];
    } else {
      pad := "";
    }
  }

  lemma TrimSplit(v: string) returns (before: string, after: string)
    ensures v == before + Trim(v) + after && Blank(before) && Blank(after) && Tight(Trim(v))
  {
    before := LTrimSplit(v);
    after := RTrimSplit(LTrim(v));
  }

  lemma TightFixed(v: string)
    requires Tight(v)
    ensures LTrim(v) == v && RTrim(v) == v && Trim(v) == v
  {
  }

  lemma {:induction false} BlankGone(v: string)
    requires Blank(v)
    ensures LTrim(v) == "" && RTrim(v) == ""
  {
    if v != "" {
      BlankGone(v[1..]);
      RTrimPad("", v);
      assert "" + v == v;
    }
  }

  // The six characters that get trimmed: blank, tab, line feed, vertical tab, form
  // feed and carriage return.
  const WHITE: seq<char> := [' ', '\t', '\n', 11 as char, 12 as char, '\r']

  lemma SpaceIff(c: char)
    ensures IsSpace(c) <==> c in WHITE
  {
  }

  lemma BlankIff(v: string)
    ensures Blank(v) <==> forall i :: 0 <= i < |v| ==> v[i] in WHITE
    ensures Tight(v) <==> v == "" || (v[0] !in WHITE && v[|v| - 1] !in WHITE)
  {
    forall c
      ensures IsSpace(c) <==> c in WHITE
    {
      SpaceIff(c);
    }
    hide IsSpace;
  }

  // Whatever white space surrounds a string that neither starts nor ends with any,
  // trimming finds the string.
  lemma TrimUnique(before: string, v: string, after: string)
    requires forall i :: 0 <= i < |before| ==> before[i] in WHITE
    requires forall i :: 0 <= i < |after| ==> after[i] in WHITE
    requires v != "" ==> v[0] !in WHITE && v[|v| - 1] !in WHITE
    ensures Trim(before + v + after) == v
  {
    BlankIff(before);
    BlankIff(v);
    BlankIff(after);
    hide IsSpace;
    TrimPadded(before, v, after);
  }

  lemma TrimPadded(before: string, v: string, after: string)
    requires Blank(before) && Blank(after) && Tight(v)
    ensures Trim(before + v + after) == v
  {
    assert before + v + after == before + (v + after);
    LTrimPad(before, v + after);
    if v == "" {
      assert v + after == after;
      BlankGone(after);
    } else {
      assert LTrim(v + after) == v + after;
      RTrimPad(v, after);
      TightFixed(v);
    }
  }

  // trim is idempotent, and the same as ltrim after rtrim.
  lemma TrimLaws(v: string)
    ensures Trim(Trim(v)) == Trim(v)
    ensures Trim(v) == LTrim(RTrim(v))
  {
    var before, after := TrimSplit(v);
    TightFixed(Trim(v));
    RTrimPad(before + Trim(v), after);
    if Trim(v) == "" {
      assert before + Trim(v) == before;
      BlankGone(before);
    } else {
      var w := before + Trim(v);
      assert RTrim(w) == w;
      LTrimPad(before, Trim(v));
    }
  }

  // ------------------------------------------------------ C strings in memory

  // A NUL ends the string that starts at p.
  predicate Terminated(s: seq<char>, p: nat)
    decreases |s| - p
  {
    p < |s| && (s[p] == NUL || Terminated(s, p + 1))
  }

  function StrLen(s: seq<char>, p: nat): (n: nat)
    requires Terminated(s, p)
    ensures p + n < |s| && s[p + n] == NUL
    ensures forall i :: p <= i < p + n ==> s[i] != NUL
    decreases |s| - p
  {
    if s[p] == NUL then 0 else 1 + StrLen(s, p + 1)
  }

  function CStr(s: seq<char>, p: nat): string
    requires Terminated(s, p)
  {
    s[p..p + StrLen(s, p)]
  }

  // Where the first NUL is decides the string.
  lemma {:induction false} StringAt(s: seq<char>, p: nat, n: nat)
    requires p + n < |s| && s[p + n] == NUL && forall i :: p <= i < p + n ==> s[i] != NUL
    ensures Terminated(s, p) && StrLen(s, p) == n && CStr(s, p) == s[p..p + n]
    decreases n
  {
    if n > 0 { StringAt(s, p + 1, n - 1); }
  }

  lemma StringFrom(s: seq<char>, p: nat, q: nat)
    requires Terminated(s, p) && p <= q <= p + StrLen(s, p)
    ensures Terminated(s, q) && q + StrLen(s, q) == p + StrLen(s, p)
    ensures CStr(s, q) == CStr(s, p)[q - p..]
  {
    StringAt(s, q, p + StrLen(s, p) - q);
  }

  // Storing a NUL inside a string cuts it there.
  lemma CutAt(s: seq<char>, p: nat, e: nat)
    requires Terminated(s, p) && p <= e <= p + StrLen(s, p)
    ensures Terminated(s[e := NUL], p) && StrLen(s[e := NUL], p) == e - p
    ensures CStr(s[e := NUL], p) == CStr(s, p)[..e - p]
  {
    StringAt(s[e := NUL], p, e - p);
  }

  // strlen
  method StrLenOf(buf: array<char>, p: nat) returns (n: nat)
    requires Terminated(buf[..], p)
    ensures n == StrLen(buf[..], p)
  {
    n := 0;
    while buf[p + n] != NUL
      invariant n <= StrLen(buf[..], p)
      decreases buf.Length - n
    {
      n := n + 1;
    }
  }

  // The forward scan of trim and ltrim.
  method SkipSpace(buf: array<char>, str: nat) returns (r: nat)
    requires Terminated(buf[..], str)
    ensures str <= r <= str + StrLen(buf[..], str)
    ensures Terminated(buf[..], r) && CStr(buf[..], r) == LTrim(CStr(buf[..], str))
    ensures r + StrLen(buf[..], r) == str + StrLen(buf[..], str)
    ensures !IsSpace(buf[r])
  {
    hide LTrim, IsSpace, Terminated, StrLen;
    ghost var v := CStr(buf[..], str);
    r := str;
    assert v[0..] == v;
    while IsSpace(buf[r])
      invariant str <= r <= str + |v|
      invariant LTrim(v[r - str..]) == LTrim(v)
      decreases buf.Length - r
    {
      NulIsNoSpace();
      assert v[r - str] == buf[r];
      LTrimStep(v, r - str);
      r := r + 1;
    }
    StringFrom(buf[..], str, r);
    assert r < str + |v| ==> v[r - str] == buf[r];
    LTrimStop(v[r - str..]);
  }

  // The backward scan of trim (down to its second character, the first being
  // known not to be white space) and of rtrim (down to its first).
  method SkipSpaceBack(buf: array<char>, str: nat, n: nat, floor: nat) returns (end: int)
    requires Terminated(buf[..], str) && n == StrLen(buf[..], str) > 0
    requires floor == str || (floor == str + 1 && !IsSpace(buf[str]))
    ensures str - 1 <= end < str + n
    ensures RTrim(CStr(buf[..], str)) == CStr(buf[..], str)[..end + 1 - str]
  {
    ghost var v := CStr(buf[..], str);
    assert v[..|v|] == v;
    end := str + n - 1;
    while end >= floor && IsSpace(buf[end])
      invariant floor - 1 <= end < str + n
      invariant RTrim(v[..end + 1 - str]) == RTrim(v)
    {
      assert v[..end + 1 - str][..end - str] == v[..end - str];
      end := end - 1;
    }
    assert end >= str ==> v[end - str] == buf[end];
  }

  // The end of trim and rtrim: scan back and cut.
  method CutBack(buf: array<char>, str: nat, floor: nat)
    requires Terminated(buf[..], str) && StrLen(buf[..], str) > 0
    requires floor == str || (floor == str + 1 && !IsSpace(buf[str]))
    modifies buf
    ensures Terminated(buf[..], str) && CStr(buf[..], str) == RTrim(old(CStr(buf[..], str)))
    ensures StrLen(buf[..], str) <= old(StrLen(buf[..], str))
    ensures buf[..] == old(buf[..])[str + StrLen(buf[..], str) := NUL]
  {
    ghost var was := buf[..];
    var n := StrLenOf(buf, str);
    var end := SkipSpaceBack(buf, str, n, floor);
    CutAt(was, str, end + 1);
    buf[end + 1] := NUL;
    assert buf[..] == was[end + 1 := NUL];
  }

  lemma EmptyAt(s: seq<char>, p: nat)
    requires p < |s| && s[p] == NUL
    ensures Terminated(s, p) && StrLen(s, p) == 0 && CStr(s, p) == ""
    ensures s[p := NUL] == s && LTrim("") == RTrim("") == Trim("") == ""
  {
  }

  // trim
  method TrimInPlace(buf: array<char>, str: nat) returns (r: nat)
    requires Terminated(buf[..], str)
    modifies buf
    ensures str <= r && Terminated(buf[..], r)
    ensures CStr(buf[..], r) == Trim(old(CStr(buf[..], str)))
    ensures r + StrLen(buf[..], r) <= str + old(StrLen(buf[..], str))
    ensures buf[..] == old(buf[..])[r + StrLen(buf[..], r) := NUL]
  {
    assert str + StrLen(buf[..], str) < buf.Length;
    hide Terminated, StrLen, LTrim, RTrim, IsSpace;
    if buf[str] == NUL {
      EmptyAt(buf[..], str);
      return str;
    }
    r := SkipSpace(buf, str);
    if buf[r] == NUL {
      EmptyAt(buf[..], r);
      return r;
    }
    CutBack(buf, r, r + 1);
  }

  // ltrim
  method LTrimInPlace(buf: array<char>, str: nat) returns (r: nat)
    requires Terminated(buf[..], str)
    ensures str <= r && Terminated(buf[..], r) && CStr(buf[..], r) == LTrim(CStr(buf[..], str))
  {
    if buf[str] == NUL { return str; }
    r := SkipSpace(buf, str);
  }

  // rtrim
  method RTrimInPlace(buf: array<char>, str: nat)
    requires Terminated(buf[..], str)
    modifies buf
    ensures Terminated(buf[..], str) && CStr(buf[..], str) == RTrim(old(CStr(buf[..], str)))
    ensures buf[..] == old(buf[..])[str + StrLen(buf[..], str) := NUL]
  {
    if buf[str] == NUL { return; }
    CutBack(buf, str, str);
  }

  // strchr
  method StrChr(buf: array<char>, p: nat, c: char) returns (found: bool, at: nat)
    requires Terminated(buf[..], p) && c != NUL
    ensures found <==> c in CStr(buf[..], p)
    ensures found ==> p <= at < p + StrLen(buf[..], p) && buf[at] == c && c !in buf[p..at]
  {
    at := p;
    while buf[at] != NUL
      invariant p <= at <= p + StrLen(buf[..], p)
      invariant c !in buf[p..at]
      decreases buf.Length - at
    {
      if buf[at] == c { assert buf[at] == CStr(buf[..], p)[at - p]; return true, at; }
      at := at + 1;
    }
    assert CStr(buf[..], p) == buf[p..at];
    found := false;
  }
}
