/**
  The Exec key of the autostart desktop entry: quoting, the generated entry,
  reading the command back, and rewriting the key in an existing file.
*/
module DesktopExec {
  import opened Basics
  import opened TextLines

  /******* Printing *******/

  predicate SafeChar(c: char)
  {
    'a' <= c <= 'z' || 'A' <= c <= 'Z' || '0' <= c <= '9' || c in "-_/.:=+~"
  }

  predicate Safe(arg: string)
  {
    forall i :: 0 <= i < |arg| ==> SafeChar(arg[i])
  }

  /** `str::replace` of one character. */
  function Replace(s: string, c: char, with: string): string
  {
    if s == "" then "" else (if s[0] == c then with else [s[0]]) + Replace(s[1..], c, with)
  }

  function Escaped(arg: string): string
  {
    Replace(Replace(arg, '\\', "\\\\"), '"', "\\\"")
  }

  /** `quote_desktop_exec_arg` */
  function Quote(arg: string): string
  {
    if Safe(arg) then arg else "\"" + Escaped(arg) + "\""
  }

  /** The arguments after the command, each after one space. */
  function ArgList(args: seq<string>): string
  {
    if args == [] then "" else " " + Quote(args[0]) + ArgList(args[1..])
  }

  /** `linux_autostart_exec` */
  function AutostartExec(path: string, args: seq<string>): string
  {
    Quote(path) + ArgList(args)
  }

  /** `linux_desktop_entry`, line by line. */
  function DesktopEntry(name: string, path: string, args: seq<string>): string
  {
    Unlines(EntryHead(name)) + KEY + AutostartExec(path, args) + "\n" + Unlines(["StartupNotify=false", "Terminal=false"])
  }

  function EntryHead(name: string): seq<string>
  {
    ["[Desktop Entry]", "Type=Application", "Version=1.0", "Name=" + name, "Comment=" + name + "startup script"]
  }

  const KEY := "Exec="

  /******* Parsing *******/

  /** Unicode White_Space, as `char::is_whitespace` tests it. */
  predicate IsSpace(c: char)
  {
    var u := c as int;
    || 9 <= u <= 13 || u == 0x20 || u == 0x85 || u == 0xa0 || u == 0x1680 || 0x2000 <= u <= 0x200a
    || u == 0x2028 || u == 0x2029 || u == 0x202f || u == 0x205f || u == 0x3000
  }

  function TrimStart(s: string): string
  {
    if s != "" && IsSpace(s[0]) then TrimStart(s[1..]) else s
  }

  function TrimEnd(s: string): string
  {
    if s != "" && IsSpace(s[|s| - 1]) then TrimEnd(s[..|s| - 1]) else s
  }

  function Trim(s: string): string
  {
    TrimEnd(TrimStart(s))
  }

  function FirstWord(s: string): string
  {
    if s == "" || IsSpace(s[0]) then "" else [s[0]] + FirstWord(s[1..])
  }

  /** What follows the opening quote, up to an unescaped quote. */
  function Unquoted(s: string): string
  {
    if s == "" || s[0] == '"' then ""
    else if s[0] != '\\' then [s[0]] + Unquoted(s[1..])
    else if |s| == 1 then "" else [s[1]] + Unquoted(s[2..])
  }

  function FirstArg(exec: string): Option<string>
  {
    var s := Trim(exec);
    if s == "" then None else if s[0] == '"' then Some(Unquoted(s[1..])) else Some(FirstWord(s))
  }

  lemma UnquotedStep(s: string, i: nat)
    requires i < |s|
    ensures Unquoted(s[i..]) ==
            if s[i] == '"' then ""
            else if s[i] != '\\' then [s[i]] + Unquoted(s[i + 1..])
            else if i + 1 == |s| then Unquoted(s[i + 1..]) else [s[i + 1]] + Unquoted(s[i + 2..])
  {
    assert s[i..][1..] == s[i + 1..];
    assert i + 2 <= |s| ==> s[i..][2..] == s[i + 2..];
  }

  lemma Assoc(a: string, b: string, c: string)
    ensures a + b + c == a + (b + c)
  {
  }

  /** The loop of `parse_first_exec_arg` behind the opening quote. */
  method Unquote(rest: string) returns (out: string)
    ensures out == Unquoted(rest)
  {
    out := "";
    var i := 0;
    while i < |rest|
      invariant 0 <= i <= |rest| && Unquoted(rest) == out + Unquoted(rest[i..])
    {
      UnquotedStep(rest, i);
      var c := rest[i];
      i := i + 1;
      if c == '\\' {
        if i < |rest| {
          Assoc(out, [rest[i]], Unquoted(rest[i + 1..]));
          out := out + [rest[i]];
          i := i + 1;
        }
      } else if c == '"' {
        return;
      } else {
        Assoc(out, [c], Unquoted(rest[i..]));
        out := out + [c];
      }
    }
    assert rest[i..] == "";
  }

  /** `parse_first_exec_arg` */
  method ParseFirstExecArg(exec: string) returns (r: Option<string>)
    ensures r == FirstArg(exec)
  {
    var s := Trim(exec);
    if s == "" {
      return None;
    }
    if s[0] == '"' {
      var out := Unquote(s[1..]);
      return Some(out);
    }
    return Some(FirstWord(s));
  }

  predicate IsExec(line: string)
  {
    |line| >= 5 && line[..5] == KEY
  }

  function FindExec(lines: seq<string>): Option<string>
  {
    if lines == [] then None else if IsExec(lines[0]) then Some(lines[0][5..]) else FindExec(lines[1..])
  }

  /** `desktop_exec_command` */
  function ExecCommand(contents: string): Option<string>
  {
    var rest := FindExec(Lines(contents));
    if rest.None? then None else FirstArg(rest.value)
  }

  /******* Printing, then parsing *******/

  lemma EscapedStep(arg: string)
    requires arg != ""
    ensures Escaped(arg) == (if arg[0] == '\\' then "\\\\" else if arg[0] == '"' then "\\\"" else [arg[0]]) + Escaped(arg[1..])
  {
    var inner := Replace(arg[1..], '\\', "\\\\");
    if arg[0] == '\\' {
      var s := "\\\\" + inner;
      var t := "\\" + inner;
      assert s[1..] == t && t[1..] == inner;
      assert Replace(t, '"', "\\\"") == "\\" + Replace(inner, '"', "\\\"");
      assert Replace(s, '"', "\\\"") == "\\" + Replace(t, '"', "\\\"");
    } else {
      assert ([arg[0]] + inner)[1..] == inner;
    }
  }

  /** Unquoting undoes quoting, whatever follows the closing quote. */
  lemma {:induction false} UnquotedEscaped(arg: string, tail: string)
    ensures Unquoted(Escaped(arg) + "\"" + tail) == arg
  {
    var s := Escaped(arg) + "\"" + tail;
    if arg != "" {
      EscapedStep(arg);
      UnquotedEscaped(arg[1..], tail);
      var rest := Escaped(arg[1..]) + "\"" + tail;
      if arg[0] == '\\' || arg[0] == '"' {
        assert s[0] == '\\' && s[1] == arg[0] && s[2..] == rest;
      } else {
        assert s[0] == arg[0] && s[1..] == rest;
      }
      assert arg == [arg[0]] + arg[1..];
    } else {
      assert s[0] == '"';
    }
  }

  lemma {:induction false} FirstWordSafe(word: string, tail: string)
    requires Safe(word) && (tail == "" || IsSpace(tail[0]))
    ensures FirstWord(word + tail) == word
  {
    if word == "" {
      assert word + tail == tail;
    } else {
      assert SafeChar(word[0]);
      assert (word + tail)[1..] == word[1..] + tail;
      FirstWordSafe(word[1..], tail);
    }
  }

  lemma {:induction false} TrimEndStops(head: string, tail: string) returns (kept: string)
    requires head != "" && !IsSpace(head[|head| - 1]) && (tail == "" || tail[0] == ' ')
    ensures TrimEnd(head + tail) == head + kept && (kept == "" || kept[0] == ' ')
  {
    if tail != "" && IsSpace(tail[|tail| - 1]) {
      assert (head + tail)[..|head + tail| - 1] == head + tail[..|tail| - 1];
      kept := TrimEndStops(head, tail[..|tail| - 1]);
    } else {
      assert tail == "" ==> head + tail == head;
      kept := tail;
    }
  }

  /** A quoted argument neither starts nor ends with white space. */
  lemma QuoteIsSolid(arg: string)
    requires arg != ""
    ensures Quote(arg) != "" && !IsSpace(Quote(arg)[0]) && !IsSpace(Quote(arg)[|Quote(arg)| - 1])
    ensures Quote(arg)[0] == '"' <==> !Safe(arg)
  {
    assert Safe(arg) ==> SafeChar(arg[0]) && SafeChar(arg[|arg| - 1]);
  }

  lemma TrimQuoted(arg: string, tail: string) returns (kept: string)
    requires arg != "" && (tail == "" || tail[0] == ' ')
    ensures Trim(Quote(arg) + tail) == Quote(arg) + kept && (kept == "" || kept[0] == ' ')
  {
    QuoteIsSolid(arg);
    assert TrimStart(Quote(arg) + tail) == Quote(arg) + tail;
    kept := TrimEndStops(Quote(arg), tail);
  }

  lemma QuotedWord(arg: string, kept: string)
    requires !Safe(arg)
    ensures var s := Quote(arg) + kept; s[0] == '"' && Unquoted(s[1..]) == arg
  {
    UnquotedEscaped(arg, kept);
    assert (Quote(arg) + kept)[1..] == Escaped(arg) + "\"" + kept;
  }

  lemma SafeWord(arg: string, kept: string)
    requires arg != "" && Safe(arg) && (kept == "" || kept[0] == ' ')
    ensures var s := Quote(arg) + kept; s[0] != '"' && FirstWord(s) == arg
  {
    assert SafeChar(arg[0]);
    FirstWordSafe(arg, kept);
  }

  /** The first argument comes back, whatever arguments follow it. */
  lemma FirstArgRoundTrip(arg: string, tail: string)
    requires arg != "" && (tail == "" || tail[0] == ' ')
    ensures FirstArg(Quote(arg) + tail) == Some(arg)
  {
    var kept := TrimQuoted(arg, tail);
    if Safe(arg) {
      SafeWord(arg, kept);
    } else {
      QuotedWord(arg, kept);
    }
  }

  /** A line that does not hold the key is passed over. */
  lemma SkipLine(line: string, rest: string)
    requires OneLine(line) && !IsExec(line)
    ensures FindExec(Lines(line + "\n" + rest)) == FindExec(Lines(rest))
  {
    LinesCons(line, rest);
  }

  lemma {:induction false} SkipLines(lines: seq<string>, rest: string)
    requires forall l <- lines :: OneLine(l) && !IsExec(l)
    ensures FindExec(Lines(Unlines(lines) + rest)) == FindExec(Lines(rest))
  {
    if lines == [] {
      assert Unlines(lines) + rest == rest;
    } else {
      assert lines[0] in lines && forall l <- lines[1..] :: l in lines;
      SkipLine(lines[0], Unlines(lines[1..]) + rest);
      Regroup(lines[0], Unlines(lines[1..]), rest);
      SkipLines(lines[1..], rest);
    }
  }

  lemma HeadHasNoKey(name: string)
    requires OneLine(name)
    ensures forall l <- EntryHead(name) :: OneLine(l) && !IsExec(l)
  {
    var head := EntryHead(name);
    assert head[3] == "Name=" + name && head[4] == "Comment=" + name + "startup script";
    forall l <- head ensures OneLine(l) && !IsExec(l) {
      assert l == head[0] || l == head[1] || l == head[2] || l == head[3] || l == head[4];
      assert l[0] != 'E';
    }
  }

  lemma FindFirst(exec: string, rest: string)
    requires OneLine(exec) && (exec == "" || exec[|exec| - 1] != '\r')
    ensures FindExec(Lines(KEY + exec + "\n" + rest)) == Some(exec)
  {
    LinesCons(KEY + exec, rest);
    assert (KEY + exec)[..5] == KEY && (KEY + exec)[5..] == exec;
  }

  lemma {:induction false} ReplaceOneLine(s: string, c: char, with: string)
    requires OneLine(s) && OneLine(with)
    ensures OneLine(Replace(s, c, with))
  {
    if s != "" {
      ReplaceOneLine(s[1..], c, with);
    }
  }

  /** A quoted argument has no line break of its own, and never ends in a carriage return. */
  lemma QuoteOneLine(arg: string)
    requires OneLine(arg)
    ensures OneLine(Quote(arg)) && EndsWell(Quote(arg))
  {
    ReplaceOneLine(arg, '\\', "\\\\");
    ReplaceOneLine(Replace(arg, '\\', "\\\\"), '"', "\\\"");
    assert Safe(arg) && arg != "" ==> SafeChar(arg[|arg| - 1]);
  }

  predicate EndsWell(s: string)
  {
    s == "" || s[|s| - 1] != '\r'
  }

  lemma OneLineJoin(a: string, b: string)
    requires OneLine(a) && OneLine(b) && EndsWell(a) && EndsWell(b)
    ensures OneLine(a + b) && EndsWell(a + b)
  {
  }

  lemma {:induction false} ArgListOneLine(args: seq<string>)
    requires forall a <- args :: OneLine(a)
    ensures OneLine(ArgList(args)) && EndsWell(ArgList(args))
  {
    if args != [] {
      assert args[0] in args && forall a <- args[1..] :: a in args;
      QuoteOneLine(args[0]);
      ArgListOneLine(args[1..]);
      OneLineJoin(" ", Quote(args[0]));
      OneLineJoin(" " + Quote(args[0]), ArgList(args[1..]));
    }
  }

  lemma ExecOneLine(path: string, args: seq<string>)
    requires OneLine(path) && forall a <- args :: OneLine(a)
    ensures OneLine(AutostartExec(path, args)) && EndsWell(AutostartExec(path, args))
  {
    QuoteOneLine(path);
    ArgListOneLine(args);
    OneLineJoin(Quote(path), ArgList(args));
  }

  function FirstNonEmpty(args: seq<string>): Option<string>
  {
    if args == [] then None else if args[0] != "" then Some(args[0]) else FirstNonEmpty(args[1..])
  }

  lemma SpaceIsSkipped(s: string)
    ensures FirstArg(" " + s) == FirstArg(s)
  {
    assert (" " + s)[1..] == s;
  }

  lemma ArgListSpaced(args: seq<string>)
    ensures ArgList(args) == "" || ArgList(args)[0] == ' '
  {
  }

  lemma {:induction false} FirstOfArgs(args: seq<string>)
    ensures FirstArg(ArgList(args)) == FirstNonEmpty(args)
  {
    if args != [] {
      var tail := ArgList(args[1..]);
      SpaceIsSkipped(Quote(args[0]) + tail);
      Assoc(" ", Quote(args[0]), tail);
      ArgListSpaced(args[1..]);
      if args[0] == "" {
        assert Quote("") + tail == tail;
        FirstOfArgs(args[1..]);
      } else {
        FirstArgRoundTrip(args[0], tail);
      }
    }
  }

  /** What the first argument of a command line is: the path, or the first argument that is not empty. */
  lemma CommandOf(path: string, args: seq<string>)
    ensures FirstArg(AutostartExec(path, args)) == FirstNonEmpty([path] + args)
  {
    assert ([path] + args)[1..] == args;
    if path == "" {
      assert AutostartExec(path, args) == ArgList(args);
      FirstOfArgs(args);
    } else {
      FirstArgRoundTrip(path, ArgList(args));
    }
  }

  lemma EntryIsHeadAndKey(name: string, path: string, args: seq<string>)
    ensures DesktopEntry(name, path, args) ==
            Unlines(EntryHead(name)) + (KEY + AutostartExec(path, args) + "\n" + Unlines(["StartupNotify=false", "Terminal=false"]))
  {
    Regroup4(Unlines(EntryHead(name)), KEY, AutostartExec(path, args), "\n", Unlines(["StartupNotify=false", "Terminal=false"]));
  }

  lemma Regroup4(a: string, b: string, c: string, d: string, e: string)
    ensures a + b + c + d + e == a + (b + c + d + e)
  {
  }

  /** Reading a generated entry: the command is the path, unless that is empty. */
  lemma EntryRoundTrip(name: string, path: string, args: seq<string>)
    requires OneLine(name) && OneLine(path) && forall a <- args :: OneLine(a)
    ensures ExecCommand(DesktopEntry(name, path, args)) == FirstNonEmpty([path] + args)
    ensures ExecCommand(DesktopEntry(name, path, args)) == Some(path) <==> path != ""
  {
    var exec, foot := AutostartExec(path, args), Unlines(["StartupNotify=false", "Terminal=false"]);
    EntryIsHeadAndKey(name, path, args);
    HeadHasNoKey(name);
    SkipLines(EntryHead(name), KEY + exec + "\n" + foot);
    ExecOneLine(path, args);
    FindFirst(exec, foot);
    CommandOf(path, args);
    NonEmptyIsNonEmpty([path] + args);
  }

  lemma NonEmptyIsNonEmpty(args: seq<string>)
    ensures FirstNonEmpty(args) != Some("")
  {
  }

  /** A path with a line break comes back from no file at all: the key is read from a single line. */
  lemma BrokenPathIsLost(contents: string, path: string)
    requires !OneLine(path)
    ensures ExecCommand(contents) != Some(path)
  {
    LinesAreOneLine(contents);
    var rest := FindExec(Lines(contents));
    if rest.Some? {
      FoundIsOneLine(Lines(contents));
      FirstArgOneLine(rest.value);
    }
  }

  lemma {:induction false} FoundIsOneLine(lines: seq<string>)
    requires (forall l <- lines :: OneLine(l)) && FindExec(lines).Some?
    ensures OneLine(FindExec(lines).value)
  {
    assert lines[0] in lines && forall l <- lines[1..] :: l in lines;
    if IsExec(lines[0]) {
      assert forall i :: 0 <= i < |lines[0][5..]| ==> lines[0][5..][i] == lines[0][5 + i];
    } else {
      FoundIsOneLine(lines[1..]);
    }
  }

  lemma FirstArgOneLine(exec: string)
    requires OneLine(exec)
    ensures FirstArg(exec).Some? ==> OneLine(FirstArg(exec).value)
  {
    TrimOneLine(exec);
    var s := Trim(exec);
    if s != "" {
      UnquotedOneLine(s[1..]);
      WordOneLine(s);
    }
  }

  lemma TrimOneLine(s: string)
    requires OneLine(s)
    ensures OneLine(Trim(s))
  {
    StartOneLine(s);
    EndOneLine(TrimStart(s));
  }

  lemma StartOneLine(s: string)
    requires OneLine(s)
    ensures OneLine(TrimStart(s))
  {
  }

  lemma EndOneLine(s: string)
    requires OneLine(s)
    ensures OneLine(TrimEnd(s))
  {
  }

  lemma {:induction false} WordOneLine(s: string)
    requires OneLine(s)
    ensures OneLine(FirstWord(s))
  {
    if s != "" && !IsSpace(s[0]) {
      WordOneLine(s[1..]);
    }
  }

  lemma {:induction false} UnquotedOneLine(s: string)
    requires OneLine(s)
    ensures OneLine(Unquoted(s))
  {
    if s != "" && s[0] != '"' {
      if s[0] != '\\' {
        UnquotedOneLine(s[1..]);
      } else if |s| > 1 {
        UnquotedOneLine(s[2..]);
      }
    }
  }

  /******* Rewriting *******/

  /** The first line with the key becomes `exec`; without one, `exec` comes last. */
  function Replaced(lines: seq<string>, exec: string): seq<string>
  {
    if lines == [] then [exec]
    else if IsExec(lines[0]) then [exec] + lines[1..]
    else [lines[0]] + Replaced(lines[1..], exec)
  }

  lemma {:induction false} UnlinesAppend(a: seq<string>, b: seq<string>)
    ensures Unlines(a + b) == Unlines(a) + Unlines(b)
  {
    if a == [] {
      assert a + b == b;
    } else {
      UnlinesAppend(a[1..], b);
      assert (a + b)[1..] == a[1..] + b;
      Regroup(a[0], Unlines(a[1..]), Unlines(b));
    }
  }

  lemma UnlinesSnoc(a: seq<string>, l: string)
    ensures Unlines(a + [l]) == Unlines(a) + l + "\n"
  {
    UnlinesAppend(a, [l]);
    assert [l][1..] == [];
    assert Unlines([l]) == l + "\n";
  }

  /** No key so far, or the first one replaced. */
  predicate Rewriting(done: seq<string>, exec: string, found: bool, out: seq<string>)
  {
    if found then FindExec(done).Some? && out == Replaced(done, exec) else FindExec(done).None? && out == done
  }

  lemma {:induction false} ReplacedStep(done: seq<string>, exec: string, line: string)
    ensures FindExec(done).Some? ==> Replaced(done + [line], exec) == Replaced(done, exec) + [line] && FindExec(done + [line]).Some?
    ensures FindExec(done).None? && IsExec(line) ==> Replaced(done + [line], exec) == done + [exec] && FindExec(done + [line]).Some?
    ensures FindExec(done).None? && !IsExec(line) ==> FindExec(done + [line]).None?
    ensures FindExec(done).None? ==> Replaced(done, exec) == done + [exec]
  {
    if done != [] {
      assert (done + [line])[1..] == done[1..] + [line];
      ReplacedStep(done[1..], exec, line);
    }
  }

  /** `rewrite_desktop_exec` */
  method RewriteDesktopExec(contents: string, path: string, args: seq<string>) returns (out: string)
    ensures out == Rewritten(contents, AutostartExec(path, args))
  {
    var exec := KEY + AutostartExec(path, args);
    var found := false;
    var lines := Lines(contents);
    out := "";
    ghost var outLines: seq<string> := [];
    for i := 0 to |lines|
      invariant out == Unlines(outLines) && Rewriting(lines[..i], exec, found, outLines)
    {
      var line := lines[i];
      ReplacedStep(lines[..i], exec, line);
      assert lines[..i + 1] == lines[..i] + [line];
      if !found && IsExec(line) {
        UnlinesSnoc(outLines, exec);
        out := out + exec + "\n";
        outLines := outLines + [exec];
        found := true;
      } else {
        UnlinesSnoc(outLines, line);
        out := out + line + "\n";
        outLines := outLines + [line];
      }
    }
    assert lines[..|lines|] == lines;
    if !found {
      ReplacedStep(lines, exec, "");
      UnlinesEnds(outLines);
      if out != "" && out[|out| - 1] != '\n' {
        out := out + "\n";
      }
      UnlinesSnoc(outLines, exec);
      out := out + exec + "\n";
    }
  }

  lemma {:induction false} UnlinesEnds(lines: seq<string>)
    ensures Unlines(lines) != "" ==> Unlines(lines)[|Unlines(lines)| - 1] == '\n'
  {
    if lines != [] {
      UnlinesEnds(lines[1..]);
    }
  }

  function Rewritten(contents: string, exec: string): string
  {
    Unlines(Replaced(Lines(contents), KEY + exec))
  }

  /** All lines but the first with the key. */
  function Others(lines: seq<string>): seq<string>
  {
    if lines == [] then []
    else if IsExec(lines[0]) then lines[1..]
    else [lines[0]] + Others(lines[1..])
  }

  lemma {:induction false} ReplacedMembers(lines: seq<string>, x: string)
    ensures forall l :: l in Replaced(lines, x) <==> l == x || l in Others(lines)
    ensures forall l :: l in Others(lines) ==> l in lines
  {
    if lines != [] {
      assert lines == [lines[0]] + lines[1..];
      ReplacedMembers(lines[1..], x);
    }
  }

  lemma StripKeepsKey(line: string)
    requires IsExec(StripCr(line))
    ensures IsExec(line)
  {
    assert line[..5] == StripCr(line)[..5];
  }

  /** A replaced key stays where it is and is found first, with the other lines around it. */
  lemma {:induction false} ReplacedTwice(lines: seq<string>, x: string)
    requires IsExec(x) && EndsWell(x)
    ensures var again := Stripped(Replaced(lines, x));
            Replaced(again, x) == again && FindExec(again) == Some(x[5..]) && Others(again) == Stripped(Others(lines))
  {
    if lines == [] {
      assert Stripped([x]) == [x];
    } else if IsExec(lines[0]) {
      var again := [x] + Stripped(lines[1..]);
      assert Stripped([x] + lines[1..]) == again;
      assert again[1..] == Stripped(lines[1..]);
    } else {
      ReplacedTwice(lines[1..], x);
      assert !IsExec(StripCr(lines[0])) by {
        if IsExec(StripCr(lines[0])) {
          StripKeepsKey(lines[0]);
        }
      }
      var rest := Stripped(Replaced(lines[1..], x));
      assert Stripped([lines[0]] + Replaced(lines[1..], x)) == [StripCr(lines[0])] + rest;
      assert ([StripCr(lines[0])] + rest)[1..] == rest;
      assert Stripped([lines[0]] + Others(lines[1..])) == [StripCr(lines[0])] + Stripped(Others(lines[1..]));
    }
  }

  lemma KeyLine(exec: string)
    requires OneLine(exec) && EndsWell(exec)
    ensures OneLine(KEY + exec) && EndsWell(KEY + exec) && IsExec(KEY + exec) && (KEY + exec)[5..] == exec
  {
    assert (KEY + exec)[..5] == KEY;
  }

  /** What a reader of the rewritten file sees: the new key, and every other line in its old order. */
  lemma RewriteKeepsOthers(contents: string, exec: string)
    requires OneLine(exec) && EndsWell(exec)
    ensures var lines := Lines(Rewritten(contents, exec));
            && lines == Stripped(Replaced(Lines(contents), KEY + exec))
            && FindExec(lines) == Some(exec) && Others(lines) == Stripped(Others(Lines(contents)))
  {
    KeyLine(exec);
    LinesAreOneLine(contents);
    ReplacedMembers(Lines(contents), KEY + exec);
    LinesOfUnlines(Replaced(Lines(contents), KEY + exec));
    ReplacedTwice(Lines(contents), KEY + exec);
  }

  /** After a rewrite the command is the path that was asked for, whatever the file held before. */
  lemma RewriteRoundTrip(contents: string, path: string, args: seq<string>)
    requires OneLine(path) && path != "" && forall a <- args :: OneLine(a)
    ensures ExecCommand(Rewritten(contents, AutostartExec(path, args))) == Some(path)
  {
    ExecOneLine(path, args);
    RewriteKeepsOthers(contents, AutostartExec(path, args));
    CommandOf(path, args);
  }

  lemma {:induction false} StrippedIsShorter(lines: seq<string>)
    ensures |Unlines(Stripped(lines))| <= |Unlines(lines)|
    ensures |Unlines(Stripped(lines))| == |Unlines(lines)| ==> forall l <- lines :: EndsWell(l)
  {
    if lines != [] {
      assert lines == [lines[0]] + lines[1..];
      StrippedIsShorter(lines[1..]);
    }
  }

  lemma StrippedIsSame(lines: seq<string>)
    requires forall l <- lines :: EndsWell(l)
    ensures Stripped(lines) == lines
  {
    forall i | 0 <= i < |lines| ensures Stripped(lines)[i] == lines[i] {
      assert lines[i] in lines;
    }
  }

  /** Rewriting twice is rewriting once, if and only if no line that is kept ends in a carriage return. */
  lemma RewriteIdempotentIff(contents: string, exec: string)
    requires OneLine(exec) && EndsWell(exec)
    ensures Rewritten(Rewritten(contents, exec), exec) == Rewritten(contents, exec)
            <==> forall l <- Others(Lines(contents)) :: EndsWell(l)
  {
    var x, lines := KEY + exec, Replaced(Lines(contents), KEY + exec);
    KeyLine(exec);
    RewriteKeepsOthers(contents, exec);
    ReplacedTwice(Lines(contents), x);
    ReplacedMembers(Lines(contents), x);
    assert Rewritten(Rewritten(contents, exec), exec) == Unlines(Stripped(lines));
    StrippedIsShorter(lines);
    if forall l <- lines :: EndsWell(l) {
      StrippedIsSame(lines);
    }
    assert (forall l <- lines :: EndsWell(l)) <==> forall l <- Others(Lines(contents)) :: EndsWell(l);
  }

  lemma {:induction false} LinesAreParts(s: string, c: char)
    requires c !in s
    ensures forall l <- Lines(s) :: c !in l
    decreases |s|
  {
    if s != "" && Break(s) < |s| {
      LinesAreParts(s[Break(s) + 1..], c);
    }
  }

  /** On contents without carriage returns the rewrite is idempotent. */
  lemma RewriteIdempotent(contents: string, path: string, args: seq<string>)
    requires '\r' !in contents && OneLine(path) && forall a <- args :: OneLine(a)
    ensures var exec := AutostartExec(path, args);
            Rewritten(Rewritten(contents, exec), exec) == Rewritten(contents, exec)
  {
    ExecOneLine(path, args);
    LinesAreParts(contents, '\r');
    ReplacedMembers(Lines(contents), "");
    assert forall l <- Others(Lines(contents)) :: l != "" ==> l[|l| - 1] in l;
    RewriteIdempotentIff(contents, AutostartExec(path, args));
  }

  /** A kept line that ended in two carriage returns loses one more on the second rewrite. */
  lemma DoubledReturnIsUnstable(exec: string)
    requires OneLine(exec) && EndsWell(exec)
    ensures Rewritten(Rewritten("a\r\r\n", exec), exec) != Rewritten("a\r\r\n", exec)
  {
    LinesCons("a\r\r", "");
    assert "a\r\r" + "\n" + "" == "a\r\r\n";
    assert StripCr("a\r\r") == "a\r";
    assert Others(Lines("a\r\r\n")) == ["a\r"];
    assert "a\r" in Others(Lines("a\r\r\n"));
    RewriteIdempotentIff("a\r\r\n", exec);
  }
}
