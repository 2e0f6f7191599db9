/**
  The Python string operations the checker relies on: rstrip() with no
  argument, universal-newline translation and readline() of a text file,
  line iteration over a text stream, "".join(s.splitlines()) and
  str.split / str.join on a one-character separator.
 */
module Text {

  const Blank: char := ' '

  /** Python's str.isspace(): the characters rstrip() removes by default. */
  predicate IsSpace(c: char): (space: bool)
    ensures c == Blank || c == '\t' || c == '\n' || c == '\r' ==> space
    ensures ('0' <= c <= '9') || ('a' <= c <= 'z') || ('A' <= c <= 'Z') ==> !space
  {
    var n := c as int;
    c == Blank || ('\t' <= c <= '\r') || (0x1c <= n <= 0x1f) ||
    n == 0x85 || n == 0xa0 || n == 0x1680 || (0x2000 <= n <= 0x200a) ||
    n == 0x2028 || n == 0x2029 || n == 0x202f || n == 0x205f || n == 0x3000
  }

  predicate AllSpace(s: string) {
    forall i :: 0 <= i < |s| ==> IsSpace(s[i])
  }

  /** The characters splitlines() treats as line boundaries. */
  predicate IsLineBreak(c: char) {
    var n := c as int;
    c == '\n' || c == '\r' || n == 0x0b || n == 0x0c || n == 0x1c || n == 0x1d ||
    n == 0x1e || n == 0x85 || n == 0x2028 || n == 0x2029
  }

  /** "\n" and "\r" are line boundaries; every boundary is whitespace, and neither the blank nor the comma is one. */
  lemma LineBreakCharacters(c: char)
    ensures IsLineBreak('\n') && IsLineBreak('\r')
    ensures IsLineBreak(c) ==> IsSpace(c) && c != Blank && c != ','
  {
  }

  /** s.rstrip(): the longest prefix of s that does not end in whitespace. */
  function RStrip(s: string): (r: string)
    ensures r <= s
    ensures r == [] || !IsSpace(r[|r| - 1])
    ensures AllSpace(s[|r|..])
    decreases |s|
  {
    if s == [] || !IsSpace(s[|s| - 1]) then s
    else
      var r := RStrip(s[..|s| - 1]);
      assert s[|r|..] == s[..|s| - 1][|r|..] + [s[|s| - 1]];
      r
  }

  /** The three properties in RStrip's contract determine its result. */
  lemma RStripUnique(s: string, p: string)
    requires p <= s
    requires p == [] || !IsSpace(p[|p| - 1])
    requires AllSpace(s[|p|..])
    ensures RStrip(s) == p
  {
  }

  /** Trailing whitespace never changes what rstrip() keeps. */
  lemma RStripAppendSpaces(s: string, w: string)
    requires AllSpace(w)
    ensures RStrip(s + w) == RStrip(s)
  {
    var r := RStrip(s);
    assert r <= s + w by {
      assert (s + w)[..|s|] == s;
    }
    assert (s + w)[|r|..] == s[|r|..] + w;
    RStripUnique(s + w, r);
  }

  lemma RStripIdempotent(s: string)
    ensures RStrip(RStrip(s)) == RStrip(s)
  {
  }

  /**
    Universal-newline translation done when a file is opened in text mode:
    "\r\n" and a lone "\r" both become "\n".
   */
  function Translate(s: string): (t: string)
    ensures '\r' !in t
    ensures t == [] <==> s == []
    decreases |s|
  {
    if s == [] then []
    else if s[0] == '\r' then "\n" + Translate(if |s| > 1 && s[1] == '\n' then s[2..] else s[1..])
    else [s[0]] + Translate(s[1..])
  }

  lemma {:induction false} TranslateIdentity(s: string)
    requires '\r' !in s
    ensures Translate(s) == s
    decreases |s|
  {
    if s != [] {
      assert '\r' !in s[1..] by {
        assert forall i :: 0 <= i < |s[1..]| ==> s[1..][i] == s[i + 1];
      }
      TranslateIdentity(s[1..]);
    }
  }

  /**
    The translation step by step: "\r\n" and a lone "\r" each become one
    "\n", and every other character is kept, in order.
   */
  lemma TranslateSteps(c: char, s: string)
    ensures Translate("\r\n" + s) == "\n" + Translate(s)
    ensures (s == [] || s[0] != '\n') ==> Translate("\r" + s) == "\n" + Translate(s)
    ensures c != '\r' ==> Translate([c] + s) == [c] + Translate(s)
  {
    assert ("\r\n" + s)[2..] == s;
    assert ("\r" + s)[1..] == s;
    assert ([c] + s)[1..] == s;
  }

  /** The first line of translated text, with its "\n" when it has one. */
  function FirstLine(t: string): (r: string)
    ensures r <= t
    ensures t != [] ==> r != []
    ensures forall i :: 0 <= i < |r| - 1 ==> r[i] != '\n'
    ensures r == t || r[|r| - 1] == '\n'
    decreases |t|
  {
    if t == [] then []
    else if t[0] == '\n' then "\n"
    else [t[0]] + FirstLine(t[1..])
  }

  /** A text without "\n" is its own first line. */
  lemma FirstLineWhole(t: string)
    requires '\n' !in t
    ensures FirstLine(t) == t
  {
  }

  /** A line with its "\n" is its own first line. */
  lemma FirstLineOfLine(s: string)
    requires '\n' !in s
    ensures FirstLine(s + "\n") == s + "\n"
  {
  }

  /** f.readline() on a file in text mode holding the given content. */
  function ReadLine(content: string): (line: string)
    ensures line <= Translate(content) && '\r' !in line
    ensures line == [] <==> content == []
    ensures forall i :: 0 <= i < |line| - 1 ==> line[i] != '\n'
    ensures line == Translate(content) || line[|line| - 1] == '\n'
  {
    FirstLine(Translate(content))
  }

  /** Iterating a text stream line by line, as `for line in stream` does. */
  function Lines(t: string): (ls: seq<string>)
    ensures ls == [] <==> t == []
    ensures forall i :: 0 <= i < |ls| ==> ls[i] != []
    ensures forall i :: 0 <= i < |ls| - 1 ==> ls[i][|ls[i]| - 1] == '\n'
    decreases |t|
  {
    if t == [] then [] else var l := FirstLine(t); [l] + Lines(t[|l|..])
  }

  function Concat(ls: seq<string>): string {
    if ls == [] then [] else ls[0] + Concat(ls[1..])
  }

  lemma {:induction false} ConcatSnoc(ls: seq<string>, l: string)
    ensures Concat(ls + [l]) == Concat(ls) + l
  {
    if ls != [] {
      assert (ls + [l])[1..] == ls[1..] + [l];
      ConcatSnoc(ls[1..], l);
    }
  }

  /** Line iteration loses and reorders nothing: the lines put back together are the stream. */
  lemma {:induction false} ConcatLines(t: string)
    ensures Concat(Lines(t)) == t
    decreases |t|
  {
    if t != [] {
      var l := FirstLine(t);
      ConcatLines(t[|l|..]);
      assert t == l + t[|l|..];
    }
  }

  /** "".join(s.splitlines()): s with every line-boundary character deleted. */
  function DeleteLineBreaks(s: string): (r: string)
    ensures forall i :: 0 <= i < |r| ==> !IsLineBreak(r[i])
    ensures |r| <= |s|
  {
    if s == [] then []
    else if IsLineBreak(s[0]) then DeleteLineBreaks(s[1..])
    else [s[0]] + DeleteLineBreaks(s[1..])
  }

  lemma {:induction false} DeleteLineBreaksAppend(a: string, b: string)
    ensures DeleteLineBreaks(a + b) == DeleteLineBreaks(a) + DeleteLineBreaks(b)
  {
    if a == [] {
      assert a + b == b;
    } else {
      assert (a + b)[0] == a[0] && (a + b)[1..] == a[1..] + b;
      DeleteLineBreaksAppend(a[1..], b);
    }
  }

  /** A line-boundary character on its own is deleted. */
  lemma DeleteLineBreaksDrops(c: char)
    requires IsLineBreak(c)
    ensures DeleteLineBreaks([c]) == []
  {
  }

  lemma {:induction false} DeleteLineBreaksIdentity(s: string)
    requires forall i :: 0 <= i < |s| ==> !IsLineBreak(s[i])
    ensures DeleteLineBreaks(s) == s
  {
    if s != [] {
      DeleteLineBreaksIdentity(s[1..]);
    }
  }

  /** s.split(sep) for a one-character separator: never empty, no piece holds sep. */
  function Split(s: string, sep: char): (parts: seq<string>)
    ensures |parts| >= 1
    ensures forall i :: 0 <= i < |parts| ==> sep !in parts[i]
  {
    if s == [] then [""]
    else
      var rest := Split(s[1..], sep);
      if s[0] == sep then [""] + rest else [[s[0]] + rest[0]] + rest[1..]
  }

  /** sep.join(parts). */
  function Join(parts: seq<string>, sep: char): (s: string)
    requires |parts| >= 1
    ensures |parts| == 1 ==> s == parts[0]
    ensures |parts| > 1 ==> |s| > |parts[0]| && s[|parts[0]|] == sep
  {
    if |parts| == 1 then parts[0] else parts[0] + [sep] + Join(parts[1..], sep)
  }

  /** Joining the pieces of a split gives back the string. */
  lemma {:induction false} JoinSplit(s: string, sep: char)
    ensures Join(Split(s, sep), sep) == s
  {
    if s != [] {
      var rest := Split(s[1..], sep);
      JoinSplit(s[1..], sep);
      if s[0] != sep {
        var parts := Split(s, sep);
        if |rest| == 1 {
          assert parts == [[s[0]] + rest[0]];
        } else {
          assert parts[1..] == rest[1..];
          assert Join(rest, sep) == rest[0] + [sep] + Join(rest[1..], sep);
        }
      }
    }
  }

  /** Split one character at a time. */
  lemma SplitStep(c: char, rest: string, sep: char)
    ensures c == sep ==> Split([c] + rest, sep) == [""] + Split(rest, sep)
    ensures c != sep ==> Split([c] + rest, sep) == [[c] + Split(rest, sep)[0]] + Split(rest, sep)[1..]
  {
    assert ([c] + rest)[1..] == rest;
  }

  /** Join one character at a time. */
  lemma JoinStep(parts: seq<string>, sep: char)
    requires |parts| >= 1
    ensures parts[0] == [] && |parts| > 1 ==> Join(parts, sep) == [sep] + Join(parts[1..], sep)
    ensures parts[0] != [] ==> Join(parts, sep) == [parts[0][0]] + Join([parts[0][1..]] + parts[1..], sep)
  {
    if parts[0] != [] {
      var tail := [parts[0][1..]] + parts[1..];
      if |parts| > 1 {
        assert tail[1..] == parts[1..];
      }
      assert [parts[0][0]] + parts[0][1..] == parts[0];
    }
  }

  /** Splitting a join of separator-free pieces gives back the pieces. */
  lemma {:induction false} SplitJoin(parts: seq<string>, sep: char)
    requires |parts| >= 1
    requires forall i :: 0 <= i < |parts| ==> sep !in parts[i]
    ensures Split(Join(parts, sep), sep) == parts
    decreases |parts|, |parts[0]|
  {
    var p := parts[0];
    JoinStep(parts, sep);
    if p == [] {
      if |parts| > 1 {
        SplitJoin(parts[1..], sep);
        SplitStep(sep, Join(parts[1..], sep), sep);
        assert [p] + parts[1..] == parts;
      }
    } else {
      var tail := [p[1..]] + parts[1..];
      assert sep !in p[1..] by {
        assert forall i :: 0 <= i < |p[1..]| ==> p[1..][i] == p[i + 1];
      }
      assert forall i :: 0 <= i < |tail| ==> sep !in tail[i] by {
        assert forall i :: 1 <= i < |tail| ==> tail[i] == parts[i];
      }
      SplitJoin(tail, sep);
      SplitStep(p[0], Join(tail, sep), sep);
      assert [p[0]] + p[1..] == p;
      assert [p] + parts[1..] == parts;
    }
  }

}
