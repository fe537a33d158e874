/**
  The Exec key as another program reads it: every argument of the generated
  command line comes back, the entry has the lines it must have, and a rewrite
  changes one line. The readers here are written from the format alone.
*/
module ExecLine {
  import opened Basics
  import opened TextLines
  import opened DesktopExec

  /******* A whole command line *******/

  /** A quoted argument from after its opening quote, and what follows the closing one. */
  function ReadQuoted(s: string): (r: (string, string))
    ensures |r.1| <= |s|
  {
    if s == "" then ("", "")
    else if s[0] == '"' then ("", s[1..])
    else if s[0] == '\\' && |s| > 1 then
      var (a, rest) := ReadQuoted(s[2..]);
      ([s[1]] + a, rest)
    else
      var (a, rest) := ReadQuoted(s[1..]);
      ([s[0]] + a, rest)
  }

  function ReadBare(s: string): (r: (string, string))
    ensures |r.0| + |r.1| == |s| && (s != "" && s[0] != ' ' ==> |r.1| < |s|)
  {
    if s == "" || s[0] == ' ' then ("", s)
    else
      var (a, rest) := ReadBare(s[1..]);
      ([s[0]] + a, rest)
  }

  /** The arguments of a command line: separated by spaces, quoted or bare. */
  function ReadArgs(s: string): seq<string>
    decreases |s|
  {
    if s == "" then []
    else if s[0] == ' ' then ReadArgs(s[1..])
    else if s[0] == '"' then
      var (a, rest) := ReadQuoted(s[1..]);
      [a] + ReadArgs(rest)
    else
      var (a, rest) := ReadBare(s);
      [a] + ReadArgs(rest)
  }

  function NonEmpty(args: seq<string>): seq<string>
  {
    if args == [] then [] else (if args[0] == "" then [] else [args[0]]) + NonEmpty(args[1..])
  }

  lemma {:induction false} QuotedReads(arg: string, tail: string)
    ensures ReadQuoted(Escaped(arg) + "\"" + tail) == (arg, tail)
  {
    var s := Escaped(arg) + "\"" + tail;
    if arg == "" {
      assert s[0] == '"' && s[1..] == tail;
    } else {
      EscapedStep(arg);
      QuotedReads(arg[1..], tail);
      var rest := Escaped(arg[1..]) + "\"" + tail;
      if arg[0] == '\\' || arg[0] == '"' {
        assert s[0] == '\\' && s[1] == arg[0] && s[2..] == rest;
      } else {
        assert s[0] == arg[0] && s[1..] == rest;
      }
      assert arg == [arg[0]] + arg[1..];
    }
  }

  lemma {:induction false} BareReads(arg: string, tail: string)
    requires Safe(arg) && (tail == "" || tail[0] == ' ')
    ensures ReadBare(arg + tail) == (arg, tail)
  {
    if arg == "" {
      assert arg + tail == tail;
    } else {
      assert SafeChar(arg[0]);
      assert (arg + tail)[1..] == arg[1..] + tail && arg == [arg[0]] + arg[1..];
      BareReads(arg[1..], tail);
    }
  }

  lemma QuotedArgReads(arg: string, tail: string)
    ensures ReadArgs("\"" + Escaped(arg) + "\"" + tail) == [arg] + ReadArgs(tail)
  {
    var body := Escaped(arg) + "\"" + tail;
    Regroup3("\"", Escaped(arg), "\"", tail);
    QuotedReads(arg, tail);
    assert ("\"" + body)[0] == '"' && ("\"" + body)[1..] == body;
  }

  lemma Regroup3(a: string, b: string, c: string, d: string)
    ensures a + b + c + d == a + (b + c + d)
  {
  }

  lemma BareArgReads(arg: string, tail: string)
    requires arg != "" && Safe(arg) && (tail == "" || tail[0] == ' ')
    ensures ReadArgs(arg + tail) == [arg] + ReadArgs(tail)
  {
    assert SafeChar(arg[0]) && (arg + tail)[0] == arg[0];
    BareReads(arg, tail);
  }

  lemma ArgReads(arg: string, tail: string)
    requires arg != "" && (tail == "" || tail[0] == ' ')
    ensures ReadArgs(Quote(arg) + tail) == [arg] + ReadArgs(tail)
  {
    if Safe(arg) {
      BareArgReads(arg, tail);
    } else {
      QuotedArgReads(arg, tail);
    }
  }

  lemma SpaceReads(s: string)
    ensures ReadArgs(" " + s) == ReadArgs(s)
  {
    assert (" " + s)[1..] == s;
  }

  lemma {:induction false} ArgListReads(args: seq<string>)
    ensures ReadArgs(ArgList(args)) == NonEmpty(args)
  {
    if args != [] {
      var tail := ArgList(args[1..]);
      ArgListReads(args[1..]);
      ArgListSpaced(args[1..]);
      Assoc(" ", Quote(args[0]), tail);
      SpaceReads(Quote(args[0]) + tail);
      if args[0] == "" {
        assert Quote("") + tail == tail;
      } else {
        ArgReads(args[0], tail);
      }
    }
  }

  /** Read as a command line, what is generated gives the path and all arguments in order; empty ones print as nothing. */
  lemma CommandLineRoundTrip(path: string, args: seq<string>)
    ensures ReadArgs(AutostartExec(path, args)) == NonEmpty([path] + args)
  {
    assert ([path] + args)[1..] == args;
    ArgListReads(args);
    ArgListSpaced(args);
    if path == "" {
      assert Quote("") + ArgList(args) == ArgList(args);
    } else {
      ArgReads(path, ArgList(args));
    }
  }

  predicate IsSafe(c: char)
  {
    || 'A' <= c <= 'Z' || 'a' <= c <= 'z' || '0' <= c <= '9'
    || c == '-' || c == '_' || c == '/' || c == '.' || c == ':' || c == '=' || c == '+' || c == '~'
  }

  /** An argument is left as it is exactly if nothing in it needs a quote; quoting adds the quotes and one backslash per escape. */
  lemma QuotedOnlyIfNeeded(arg: string)
    ensures Quote(arg) == arg <==> forall c <- arg :: IsSafe(c)
    ensures Quote(arg) != arg ==> |Quote(arg)| == |arg| + 2 + Escapes(arg) && Quote(arg)[0] == '"'
  {
    if forall c <- arg :: IsSafe(c) {
      assert forall i :: 0 <= i < |arg| ==> arg[i] in arg;
    } else {
      EscapedLength(arg);
    }
  }

  function Escapes(s: string): nat
  {
    if s == "" then 0 else (if s[0] == '\\' || s[0] == '"' then 1 else 0) + Escapes(s[1..])
  }

  lemma {:induction false} EscapedLength(arg: string)
    ensures |Escaped(arg)| == |arg| + Escapes(arg)
  {
    if arg != "" {
      EscapedStep(arg);
      EscapedLength(arg[1..]);
    }
  }

  /******* Reading any key *******/

  predicate AllSpace(s: string)
  {
    forall i :: 0 <= i < |s| ==> IsSpace(s[i])
  }

  lemma {:induction false} SpacesGo(pre: string, s: string)
    requires AllSpace(pre)
    ensures TrimStart(pre + s) == TrimStart(s)
  {
    if pre == "" {
      assert pre + s == s;
    } else {
      assert (pre + s)[1..] == pre[1..] + s;
      SpacesGo(pre[1..], s);
    }
  }

  lemma {:induction false} EndSpacesGo(s: string, post: string)
    requires AllSpace(post)
    ensures TrimEnd(s + post) == TrimEnd(s)
  {
    if post == "" {
      assert s + post == s;
    } else {
      assert (s + post)[..|s + post| - 1] == s + post[..|post| - 1];
      EndSpacesGo(s, post[..|post| - 1]);
    }
  }

  /** White space around a text is trimmed and nothing else is. */
  lemma TrimIs(pre: string, s: string, post: string)
    requires AllSpace(pre) && AllSpace(post) && (s == "" || (!IsSpace(s[0]) && !IsSpace(s[|s| - 1])))
    ensures Trim(pre + s + post) == s
  {
    Assoc(pre, s, post);
    SpacesGo(pre, s + post);
    if s == "" {
      assert s + post == post;
      SpacesGo(post, "");
      assert post + "" == post;
    } else {
      assert TrimStart(s + post) == s + post;
      EndSpacesGo(s, post);
    }
  }

  lemma {:induction false} WordEnds(word: string, tail: string)
    requires (forall i :: 0 <= i < |word| ==> !IsSpace(word[i])) && (tail == "" || IsSpace(tail[0]))
    ensures FirstWord(word + tail) == word
  {
    if word == "" {
      assert word + tail == tail;
    } else {
      assert (word + tail)[1..] == word[1..] + tail;
      WordEnds(word[1..], tail);
    }
  }

  lemma {:induction false} PlainUnquotes(s: string)
    requires '"' !in s && '\\' !in s
    ensures Unquoted(s) == s
  {
    if s != "" {
      assert s == [s[0]] + s[1..];
      PlainUnquotes(s[1..]);
    }
  }

  /**
    What an entry somebody else wrote is taken to start: nothing if the key
    holds only white space, the first bare word, or the quoted text, which
    need not be closed.
  */
  lemma AnyKeyReads(pre: string, word: string, tail: string, post: string)
    requires AllSpace(pre) && AllSpace(post)
    requires word != "" && word[0] != '"' && forall i :: 0 <= i < |word| ==> !IsSpace(word[i])
    requires tail == "" || (IsSpace(tail[0]) && !IsSpace(tail[|tail| - 1]))
    ensures FirstArg(pre + post) == None
    ensures FirstArg(pre + (word + tail) + post) == Some(word)
    ensures '"' !in word && '\\' !in word ==> FirstArg(pre + ("\"" + word) + post) == Some(word)
  {
    TrimIs(pre, "", post);
    assert pre + "" + post == pre + post;
    TrimIs(pre, word + tail, post);
    WordEnds(word, tail);
    TrimIs(pre, "\"" + word, post);
    assert ("\"" + word)[1..] == word;
    if '"' !in word && '\\' !in word {
      PlainUnquotes(word);
    }
  }

  /******* The entry and the rewrite *******/

  function EightLines(name: string, exec: string): seq<string>
  {
    ["[Desktop Entry]", "Type=Application", "Version=1.0", "Name=" + name, "Comment=" + name + "startup script",
     "Exec=" + exec, "StartupNotify=false", "Terminal=false"]
  }

  lemma EntryText(name: string, path: string, args: seq<string>)
    ensures DesktopEntry(name, path, args) == Unlines(EightLines(name, AutostartExec(path, args)))
  {
    var key, foot := KEY + AutostartExec(path, args), ["StartupNotify=false", "Terminal=false"];
    EntryIsHeadAndKey(name, path, args);
    UnlinesAppend(EntryHead(name), [key] + foot);
    assert ([key] + foot)[1..] == foot;
    assert EightLines(name, AutostartExec(path, args)) == EntryHead(name) + ([key] + foot);
  }

  lemma EightWell(name: string, exec: string, l: string)
    requires OneLine(name) && OneLine(exec) && EndsWell(name) && EndsWell(exec) && l in EightLines(name, exec)
    ensures OneLine(l) && EndsWell(l)
  {
    var all := EightLines(name, exec);
    KeyLine(exec);
    HeadHasNoKey(name);
    if l in EntryHead(name) {
      HeadEndsWell(name, l);
    } else {
      assert all[5] == KEY + exec;
      assert l == all[5] || l == all[6] || l == all[7];
    }
  }

  /** The generated entry, line by line, as any reader of lines sees it. */
  lemma EntryLines(name: string, path: string, args: seq<string>)
    requires OneLine(name) && OneLine(path) && (forall a <- args :: OneLine(a)) && EndsWell(name)
    ensures Lines(DesktopEntry(name, path, args)) == EightLines(name, AutostartExec(path, args))
  {
    var all := EightLines(name, AutostartExec(path, args));
    ExecOneLine(path, args);
    EntryText(name, path, args);
    forall l <- all ensures OneLine(l) && EndsWell(l) {
      EightWell(name, AutostartExec(path, args), l);
    }
    LinesOfUnlines(all);
    StrippedIsSame(all);
  }

  lemma HeadEndsWell(name: string, l: string)
    requires EndsWell(name) && l in EntryHead(name)
    ensures EndsWell(l)
  {
    var head := EntryHead(name);
    assert head[3] == "Name=" + name && head[4] == "Comment=" + name + "startup script";
    assert l == head[0] || l == head[1] || l == head[2] || l == head[3] || l == head[4];
  }

  /** The command is read from the first line with the key; without such a line there is none. */
  lemma {:induction false} FirstKeyCounts(lines: seq<string>, k: nat)
    requires k <= |lines| && (forall i :: 0 <= i < k ==> !IsExec(lines[i])) && (k < |lines| ==> IsExec(lines[k]))
    ensures FindExec(lines) == if k < |lines| then Some(lines[k][5..]) else None
  {
    if lines != [] && k > 0 {
      FirstKeyCounts(lines[1..], k - 1);
    }
  }

  /** The rewrite puts the new line in the place of the first one with the key, and last if there is none. */
  lemma {:induction false} ReplacedInPlace(lines: seq<string>, x: string, k: nat)
    requires k <= |lines| && (forall i :: 0 <= i < k ==> !IsExec(lines[i])) && (k < |lines| ==> IsExec(lines[k]))
    ensures Replaced(lines, x) == if k < |lines| then lines[k := x] else lines + [x]
  {
    if lines != [] && k > 0 {
      ReplacedInPlace(lines[1..], x, k - 1);
      assert lines == [lines[0]] + lines[1..];
    }
  }
}
