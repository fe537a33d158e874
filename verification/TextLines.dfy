/** Lines of a text as Rust's `str::lines` yields them, and UTF-8 sizes. */
module TextLines {

  /** The position of the first line feed, or the length. */
  function Break(s: string): (i: nat)
    ensures i <= |s| && (forall j :: 0 <= j < i ==> s[j] != '\n') && (i < |s| ==> s[i] == '\n')
  {
    if s == "" || s[0] == '\n' then 0 else 1 + Break(s[1..])
  }

  /** A terminated line loses one carriage return before its line feed. */
  function StripCr(line: string): string
  {
    if line != "" && line[|line| - 1] == '\r' then line[..|line| - 1] else line
  }

  function Lines(s: string): seq<string>
    decreases |s|
  {
    if s == "" then []
    else
      var i := Break(s);
      if i == |s| then [s] else [StripCr(s[..i])] + Lines(s[i + 1..])
  }

  predicate OneLine(s: string)
  {
    forall i :: 0 <= i < |s| ==> s[i] != '\n'
  }

  function Utf8Len(s: string): nat
  {
    if s == "" then 0
    else
      var c := s[|s| - 1] as int;
      Utf8Len(s[..|s| - 1]) + if c < 0x80 then 1 else if c < 0x800 then 2 else if c < 0x10000 then 3 else 4
  }

  function Unlines(lines: seq<string>): string
  {
    if lines == [] then "" else lines[0] + "\n" + Unlines(lines[1..])
  }

  lemma {:induction false} BreakAt(line: string, rest: string)
    requires OneLine(line)
    ensures Break(line + "\n" + rest) == |line|
  {
    var s := line + "\n" + rest;
    assert s[|line|] == '\n';
    assert forall j :: 0 <= j < |line| ==> s[j] == line[j];
  }

  lemma LinesCons(line: string, rest: string)
    requires OneLine(line)
    ensures Lines(line + "\n" + rest) == [StripCr(line)] + Lines(rest)
  {
    var s := line + "\n" + rest;
    BreakAt(line, rest);
    assert s[..|line|] == line && s[|line| + 1..] == rest;
  }

  lemma {:induction false} LinesAreOneLine(s: string)
    ensures forall l <- Lines(s) :: OneLine(l)
    decreases |s|
  {
    if s != "" && Break(s) < |s| {
      LinesAreOneLine(s[Break(s) + 1..]);
    }
  }

  function Stripped(lines: seq<string>): (r: seq<string>)
    ensures |r| == |lines| && forall i :: 0 <= i < |r| ==> r[i] == StripCr(lines[i])
  {
    if lines == [] then [] else [StripCr(lines[0])] + Stripped(lines[1..])
  }

  /** Lines written and read back lose a carriage return at their end, and nothing else. */
  lemma {:induction false} LinesOfUnlines(lines: seq<string>)
    requires forall l <- lines :: OneLine(l)
    ensures Lines(Unlines(lines)) == Stripped(lines)
  {
    if lines != [] {
      assert lines[0] in lines && forall l <- lines[1..] :: l in lines;
      LinesOfUnlines(lines[1..]);
      LinesCons(lines[0], Unlines(lines[1..]));
    }
  }

  lemma Regroup(a: string, b: string, c: string)
    ensures a + "\n" + b + c == a + "\n" + (b + c)
  {
  }

  /** Any text: its terminated lines, each without its break, then what follows the last break as it is. */
  lemma {:induction false} LinesOfText(lines: seq<string>, last: string)
    requires (forall l <- lines :: OneLine(l)) && OneLine(last)
    ensures Lines(Unlines(lines) + last) == Stripped(lines) + if last == "" then [] else [last]
  {
    if lines == [] {
      assert Unlines(lines) + last == last;
    } else {
      assert lines[0] in lines && forall l <- lines[1..] :: l in lines;
      LinesOfText(lines[1..], last);
      Regroup(lines[0], Unlines(lines[1..]), last);
      LinesCons(lines[0], Unlines(lines[1..]) + last);
    }
  }
}
