/**
  The generated `servers.*` surface. The generator's output is kept as its
  sequence of JavaScript statements with the literal texts it prints; running
  those statements on an object model gives the meaning of the prelude.
*/
module ServersPrelude {
  import opened Basics
  import opened TextOrder

  /******* String literals *******/

  function LiteralChar(c: char): string
  {
    if c == '\\' then "\\\\"
    else if c == '\'' then "\\'"
    else if c == '\n' then "\\n"
    else if c == '\r' then "\\r"
    else if c == '\U{2028}' then "\\u2028"
    else if c == '\U{2029}' then "\\u2029"
    else [c]
  }

  function LiteralBody(s: string): string
  {
    if s == [] then "" else LiteralChar(s[0]) + LiteralBody(s[1..])
  }

  /** `js_string_literal` */
  function JsLiteral(s: string): string
  {
    "'" + LiteralBody(s) + "'"
  }

  /** No line terminator may stand in a literal. */
  const LINE_TERMINATORS := {'\n', '\r', '\U{2028}', '\U{2029}'}

  /** How a JavaScript reader takes a single-quoted literal apart, from after the opening quote. */
  function ReadBody(t: string): Option<string>
    decreases |t|
  {
    if t == [] || t[0] in LINE_TERMINATORS then None
    else if t[0] == '\'' then if |t| == 1 then Some("") else None
    else if t[0] != '\\' then Prefix(t[0], ReadBody(t[1..]))
    else if |t| == 1 then None
    else if t[1] == 'n' then Prefix('\n', ReadBody(t[2..]))
    else if t[1] == 'r' then Prefix('\r', ReadBody(t[2..]))
    else if t[1] == 'u' then
      if |t| < 6 || Hex4(t[2..6]).None? then None else Prefix(Hex4(t[2..6]).value, ReadBody(t[6..]))
    else Prefix(t[1], ReadBody(t[2..]))
  }

  function Prefix(c: char, r: Option<string>): Option<string>
  {
    match r
    case None => None
    case Some(s) => Some([c] + s)
  }

  function ReadLiteral(t: string): Option<string>
  {
    if t == [] || t[0] != '\'' then None else ReadBody(t[1..])
  }

  lemma ReadChar(c: char, rest: string)
    ensures ReadBody(LiteralChar(c) + rest) == Prefix(c, ReadBody(rest))
  {
    var t := LiteralChar(c) + rest;
    if |LiteralChar(c)| == 1 {
      assert t[1..] == rest;
    } else if |LiteralChar(c)| == 2 {
      assert t[2..] == rest;
    } else {
      assert t[6..] == rest && t[2..6] == (if c == '\U{2028}' then "2028" else "2029");
    }
  }

  lemma {:induction false} ReadBodyOfLiteral(s: string)
    ensures ReadBody(LiteralBody(s) + "'") == Some(s)
  {
    if s == [] {
      assert LiteralBody(s) + "'" == "'";
    } else {
      assert LiteralBody(s) + "'" == LiteralChar(s[0]) + (LiteralBody(s[1..]) + "'");
      ReadChar(s[0], LiteralBody(s[1..]) + "'");
      ReadBodyOfLiteral(s[1..]);
      assert s == [s[0]] + s[1..];
    }
  }

  /** Reading back a printed literal gives the string, whatever it contains. */
  lemma LiteralRoundTrip(s: string)
    ensures ReadLiteral(JsLiteral(s)) == Some(s)
  {
    ReadBodyOfLiteral(s);
    assert JsLiteral(s)[1..] == LiteralBody(s) + "'";
  }

  /******* Exposed names *******/

  /** `split_once("__")` */
  function SplitExposed(s: string): Option<(string, string)>
  {
    if |s| < 2 then None
    else if s[0] == '_' && s[1] == '_' then Some(("", s[2..]))
    else
      match SplitExposed(s[1..])
      case None => None
      case Some(p) => Some(([s[0]] + p.0, p.1))
  }

  lemma {:induction false} SplitJoins(s: string)
    ensures SplitExposed(s).Some? ==> s == SplitExposed(s).value.0 + "__" + SplitExposed(s).value.1
  {
    if |s| >= 2 && !(s[0] == '_' && s[1] == '_') {
      SplitJoins(s[1..]);
      assert s == [s[0]] + s[1..];
    }
  }

  predicate SeparatorAt(s: string, i: int)
  {
    0 <= i < |s| - 1 && s[i] == '_' && s[i + 1] == '_'
  }

  /** The cut is at the first separator, and there is none if and only if the name has none. */
  lemma {:induction false} SplitsAtFirst(s: string)
    ensures match SplitExposed(s)
            case None => forall i :: !SeparatorAt(s, i)
            case Some((a, b)) => s == a + "__" + b && SeparatorAt(s, |a|) && forall i :: 0 <= i < |a| ==> !SeparatorAt(s, i)
  {
    if |s| >= 2 && !(s[0] == '_' && s[1] == '_') {
      var t := s[1..];
      SplitsAtFirst(t);
      SplitJoins(s);
      assert forall i :: i > 0 ==> (SeparatorAt(s, i) <==> SeparatorAt(t, i - 1));
    } else {
      SplitJoins(s);
    }
  }

  predicate Exposes(name: string, server: string, tool: string)
  {
    SplitExposed(name) == Some((server, tool)) && server != "" && tool != ""
  }

  predicate Splittable(name: string)
  {
    SplitExposed(name).Some? && SplitExposed(name).value.0 != "" && SplitExposed(name).value.1 != ""
  }

  /** A server and a tool come from one exposed name only. */
  lemma ExposesUnique(m: string, n: string, server: string, tool: string)
    requires Exposes(m, server, tool) && Exposes(n, server, tool)
    ensures m == n
  {
    SplitJoins(m);
    SplitJoins(n);
  }

  /******* The two-level map, in key order *******/

  function Servers(catalog: seq<string>): seq<Entry<()>>
  {
    if catalog == [] then []
    else
      var last, rest := catalog[|catalog| - 1], Servers(catalog[..|catalog| - 1]);
      if Splittable(last) then Insert(Entry(SplitExposed(last).value.0, ()), rest) else rest
  }

  function Tools(catalog: seq<string>, server: string): seq<Entry<string>>
  {
    if catalog == [] then []
    else
      var last, rest := catalog[|catalog| - 1], Tools(catalog[..|catalog| - 1], server);
      if Splittable(last) && SplitExposed(last).value.0 == server
      then Insert(Entry(SplitExposed(last).value.1, last), rest) else rest
  }

  lemma {:induction false} ServersOk(catalog: seq<string>)
    ensures Sorted(Servers(catalog))
    ensures forall s :: HasKey(Servers(catalog), s) <==> exists name <- catalog :: Splittable(name) && SplitExposed(name).value.0 == s
  {
    if catalog != [] {
      var n := |catalog| - 1;
      ServersOk(catalog[..n]);
      assert catalog == catalog[..n] + [catalog[n]];
      if Splittable(catalog[n]) {
        InsertOk(Entry(SplitExposed(catalog[n]).value.0, ()), Servers(catalog[..n]));
      }
    }
  }

  /** The inner map of a server holds exactly the names it exposes, each under its tool part. */
  lemma {:induction false} ToolsOk(catalog: seq<string>, server: string)
    ensures Sorted(Tools(catalog, server))
    ensures forall e :: e in Tools(catalog, server) <==> e.value in catalog && Exposes(e.value, server, e.key)
  {
    if catalog != [] {
      var n := |catalog| - 1;
      var last, rest := catalog[n], Tools(catalog[..n], server);
      ToolsOk(catalog[..n], server);
      assert catalog == catalog[..n] + [last];
      if Splittable(last) && SplitExposed(last).value.0 == server {
        var tool := SplitExposed(last).value.1;
        InsertOk(Entry(tool, last), rest);
        if HasKey(rest, tool) {
          var e :| e in rest && e.key == tool;
          ExposesUnique(e.value, last, server, tool);
        }
      }
    }
  }

  /******* Aliases *******/

  /** `snake_to_camel`; `upper` is Unicode upper-casing, which may give several characters. */
  function Camel(s: string, up: bool, upper: char -> string): string
  {
    if s == [] then ""
    else if s[0] == '_' then Camel(s[1..], true, upper)
    else (if up then upper(s[0]) else [s[0]]) + Camel(s[1..], false, upper)
  }

  /** The text between underscores: one word more than there are underscores. */
  function Words(s: string): (ws: seq<string>)
    ensures |ws| >= 1
  {
    if s == [] then [""]
    else
      var ws := Words(s[1..]);
      if s[0] == '_' then [""] + ws else [[s[0]] + ws[0]] + ws[1..]
  }

  function Joined(ws: seq<string>): string
    requires ws != []
  {
    if |ws| == 1 then ws[0] else ws[0] + "_" + Joined(ws[1..])
  }

  lemma {:induction false} WordsJoin(s: string)
    ensures Joined(Words(s)) == s && forall w <- Words(s) :: '_' !in w
  {
    if s != [] {
      WordsJoin(s[1..]);
      var ws, rest := Words(s), Words(s[1..]);
      assert s == [s[0]] + s[1..];
      if s[0] == '_' {
        assert ws[1..] == rest;
      } else {
        assert ws[1..] == rest[1..] && ws[0] == [s[0]] + rest[0];
        if |rest| > 1 {
          assert ws[0] + "_" + Joined(rest[1..]) == [s[0]] + (rest[0] + "_" + Joined(rest[1..]));
        }
      }
    }
  }

  function Capital(w: string, upper: char -> string): string
  {
    if w == "" then "" else upper(w[0]) + w[1..]
  }

  function Capitals(ws: seq<string>, upper: char -> string): string
  {
    if ws == [] then "" else Capital(ws[0], upper) + Capitals(ws[1..], upper)
  }

  /** camelCase: the first word as it is, every later one with its first letter raised. */
  function CamelWords(s: string, upper: char -> string): string
  {
    Words(s)[0] + Capitals(Words(s)[1..], upper)
  }

  lemma {:induction false} CamelByWords(s: string, up: bool, upper: char -> string)
    ensures Camel(s, up, upper) == (if up then Capital(Words(s)[0], upper) else Words(s)[0]) + Capitals(Words(s)[1..], upper)
  {
    if s != [] {
      var ws, rest := Words(s), Words(s[1..]);
      if s[0] == '_' {
        CamelByWords(s[1..], true, upper);
        assert ws[1..] == rest && ws[0] == "";
      } else {
        CamelByWords(s[1..], false, upper);
        assert ws[1..] == rest[1..] && ws[0] == [s[0]] + rest[0];
        assert ws[0][1..] == rest[0];
      }
    }
  }

  lemma CamelStep(s: string, i: nat, up: bool, upper: char -> string)
    requires i < |s|
    ensures Camel(s[i..], up, upper) ==
              if s[i] == '_' then Camel(s[i + 1..], true, upper)
              else (if up then upper(s[i]) else [s[i]]) + Camel(s[i + 1..], false, upper)
  {
    assert s[i..][0] == s[i] && s[i..][1..] == s[i + 1..];
  }

  lemma Regroup(a: string, b: string, c: string)
    ensures a + (b + c) == (a + b) + c
  {
  }

  /** `snake_to_camel`, character by character. */
  method SnakeToCamel(s: string, upper: char -> string) returns (out: string)
    ensures out == CamelWords(s, upper)
  {
    out := "";
    var up := false;
    assert s[0..] == s;
    for i := 0 to |s|
      invariant out + Camel(s[i..], up, upper) == Camel(s, false, upper)
    {
      CamelStep(s, i, up, upper);
      if s[i] == '_' {
        up := true;
        continue;
      }
      var piece := if up then upper(s[i]) else [s[i]];
      Regroup(out, piece, Camel(s[i + 1..], false, upper));
      out := out + piece;
      up := false;
    }
    assert s[|s|..] == "" && out + "" == out;
    CamelByWords(s, false, upper);
  }

  predicate Letter(c: char)
  {
    'a' <= c <= 'z' || 'A' <= c <= 'Z' || c == '_' || c == '$'
  }

  predicate IsIdent(s: string)
  {
    s != [] && Letter(s[0]) && forall c <- s[1..] :: Letter(c) || '0' <= c <= '9'
  }

  predicate Claimed(ts: seq<Entry<string>>, p: string)
  {
    exists t <- ts :: t.key == p
  }

  /** The extra property a tool asks for, if its camelCase form is new, an identifier and unclaimed. */
  function AliasOf(ts: seq<Entry<string>>, upper: char -> string, tool: string): Option<string>
  {
    var p := Camel(tool, false, upper);
    if p != tool && IsIdent(p) && !Claimed(ts, p) then Some(p) else None
  }

  function AliasesOf(ts: seq<Entry<string>>, upper: char -> string): seq<Option<string>>
  {
    seq(|ts|, j requires 0 <= j < |ts| => AliasOf(ts, upper, ts[j].key))
  }

  ghost predicate AliasFree(ts: seq<Entry<string>>, al: seq<Option<string>>)
  {
    |al| == |ts| && forall j, k :: 0 <= j < |ts| && 0 <= k < |ts| && al[j].Some? ==> al[j].value != ts[k].key
  }

  lemma AliasesAreFree(ts: seq<Entry<string>>, upper: char -> string)
    ensures AliasFree(ts, AliasesOf(ts, upper))
  {
    assert forall k :: 0 <= k < |ts| ==> ts[k] in ts;
  }

  /******* Statements and their meaning *******/

  datatype Stmt =
    | Ensure(server: string)
    | Assign(tool: string, exposed: string)
    | AliasIfUndefined(alias: string, tool: string)

  /** `globalThis.servers`, with every stub named by the tool it calls. */
  type Object = map<string, string>

  datatype Env = Env(servers: map<string, Object>, current: string)

  function Lit(t: string): string
  {
    match ReadLiteral(t)
    case Some(s) => s
    case None => ""
  }

  function Exec(env: Env, s: Stmt): Env
  {
    match s
    case Ensure(server) =>
      Env(if Lit(server) in env.servers then env.servers else env.servers[Lit(server) := map[]], Lit(server))
    case Assign(tool, exposed) =>
      Update(env, Assigned(CurrentObject(env), Lit(tool), Lit(exposed)))
    case AliasIfUndefined(alias, tool) =>
      Update(env, Aliased(CurrentObject(env), Lit(alias), Lit(tool)))
  }

  function CurrentObject(env: Env): Object
  {
    if env.current in env.servers then env.servers[env.current] else map[]
  }

  function Update(env: Env, o: Object): Env
  {
    env.(servers := env.servers[env.current := o])
  }

  function Assigned(o: Object, tool: string, exposed: string): Object
  {
    o[tool := exposed]
  }

  function Aliased(o: Object, alias: string, tool: string): Object
  {
    if alias in o || tool !in o then o else o[alias := o[tool]]
  }

  function Run(prog: seq<Stmt>): Env
  {
    if prog == [] then Env(map[], "") else Exec(Run(prog[..|prog| - 1]), prog[|prog| - 1])
  }

  lemma RunSnoc(prog: seq<Stmt>, s: Stmt)
    ensures Run(prog + [s]) == Exec(Run(prog), s)
  {
    assert (prog + [s])[..|prog|] == prog;
  }

  /******* What the prelude means *******/

  /** Tool `j` is the least one that asks for property `p`. */
  ghost predicate LeastAlias(al: seq<Option<string>>, j: nat, p: string)
    requires j < |al|
  {
    al[j] == Some(p) && forall k :: 0 <= k < j ==> al[k] != Some(p)
  }

  ghost predicate ToolName(ts: seq<Entry<string>>, i: nat, p: string)
    requires i <= |ts|
  {
    exists j :: 0 <= j < i && ts[j].key == p
  }

  ghost predicate AliasValue(ts: seq<Entry<string>>, al: seq<Option<string>>, i: nat, p: string, v: string)
    requires i <= |ts| == |al|
  {
    exists j :: 0 <= j < i && LeastAlias(al, j, p) && v == ts[j].value
  }

  /** After `i` tools: every tool under its own name, every alias to its least tool, nothing else. */
  ghost predicate ObjectOk(o: Object, ts: seq<Entry<string>>, al: seq<Option<string>>, i: nat)
    requires i <= |ts| == |al|
  {
    && (forall j :: 0 <= j < i ==> ts[j].key in o && o[ts[j].key] == ts[j].value)
    && (forall j :: 0 <= j < i && al[j].Some? ==> al[j].value in o)
    && (forall p <- o :: ToolName(ts, i, p) || AliasValue(ts, al, i, p, o[p]))
  }

  function ToolStep(o: Object, t: Entry<string>, alias: Option<string>): Object
  {
    var o1 := Assigned(o, t.key, t.value);
    if alias.Some? then Aliased(o1, alias.value, t.key) else o1
  }

  lemma StepProperty(o: Object, ts: seq<Entry<string>>, al: seq<Option<string>>, i: nat, p: string)
    requires i < |ts| && AliasFree(ts, al) && ObjectOk(o, ts, al, i) && p in ToolStep(o, ts[i], al[i])
    ensures ToolName(ts, i + 1, p) || AliasValue(ts, al, i + 1, p, ToolStep(o, ts[i], al[i])[p])
  {
    var o' := ToolStep(o, ts[i], al[i]);
    if p != ts[i].key {
      if p in o {
        assert o'[p] == o[p];
        assert ToolName(ts, i, p) || AliasValue(ts, al, i, p, o[p]);
      } else {
        assert al[i] == Some(p) && LeastAlias(al, i, p) && o'[p] == ts[i].value;
      }
    }
  }

  lemma StepKeepsTools(o: Object, ts: seq<Entry<string>>, al: seq<Option<string>>, i: nat, j: nat)
    requires Sorted(ts) && j <= i < |ts| && AliasFree(ts, al) && ObjectOk(o, ts, al, i)
    ensures var o' := ToolStep(o, ts[i], al[i]);
            && ts[j].key in o' && o'[ts[j].key] == ts[j].value
            && (al[j].Some? ==> al[j].value in o')
  {
    if j < i {
      LessTotal(ts[j].key, ts[i].key);
      assert ts[j].key in o && o[ts[j].key] == ts[j].value;
    }
  }

  lemma ToolStepOk(o: Object, ts: seq<Entry<string>>, al: seq<Option<string>>, i: nat)
    requires Sorted(ts) && i < |ts| && AliasFree(ts, al) && ObjectOk(o, ts, al, i)
    ensures ObjectOk(ToolStep(o, ts[i], al[i]), ts, al, i + 1)
  {
    var o' := ToolStep(o, ts[i], al[i]);
    forall j | 0 <= j < i + 1
      ensures ts[j].key in o' && o'[ts[j].key] == ts[j].value && (al[j].Some? ==> al[j].value in o')
    {
      StepKeepsTools(o, ts, al, i, j);
    }
    forall p <- o' ensures ToolName(ts, i + 1, p) || AliasValue(ts, al, i + 1, p, o'[p]) {
      StepProperty(o, ts, al, i, p);
    }
  }

  predicate NoDuplicates(xs: seq<string>)
  {
    forall i, j :: 0 <= i < j < |xs| ==> xs[i] != xs[j]
  }

  /** By server, then by tool. */
  predicate Before(x: string, y: string)
    requires Splittable(x) && Splittable(y)
  {
    var (p, q) := (SplitExposed(x).value, SplitExposed(y).value);
    Less(p.0, q.0) || (p.0 == q.0 && Less(p.1, q.1))
  }

  ghost predicate InKeyOrder(listed: seq<string>)
  {
    && (forall x <- listed :: Splittable(x))
    && forall i, j :: 0 <= i < j < |listed| ==> Before(listed[i], listed[j])
  }

  /** The next tool comes after every name listed so far. */
  lemma OrderStep(catalog: seq<string>, listed: seq<string>, done: set<string>, server: string, ts: seq<Entry<string>>, i: nat)
    requires i < |ts| && Sorted(ts) && ListOk(catalog, listed, done, server, KeySet(ts, i)) && InKeyOrder(listed)
    requires (forall d <- done :: Less(d, server)) && Exposes(ts[i].value, server, ts[i].key)
    ensures InKeyOrder(listed + [ts[i].value])
  {
    forall x <- listed ensures Before(x, ts[i].value) {
      assert Reached(x, done, server, KeySet(ts, i));
    }
  }

  predicate Reached(x: string, done: set<string>, server: string, tools: set<string>)
    requires Splittable(x)
  {
    var p := SplitExposed(x).value;
    p.0 in done || (p.0 == server && p.1 in tools)
  }

  /** The catalog list after the servers before `k` and the first `i` tools of server `k`. */
  ghost predicate ListOk(catalog: seq<string>, listed: seq<string>, done: set<string>, server: string, tools: set<string>)
  {
    && NoDuplicates(listed)
    && forall x :: x in listed <==> (x in catalog && Splittable(x) && Reached(x, done, server, tools))
  }

  lemma ListStep(catalog: seq<string>, listed: seq<string>, done: set<string>, server: string, tools: set<string>, e: Entry<string>)
    requires ListOk(catalog, listed, done, server, tools) && server !in done && e.key !in tools
    requires e.value in catalog && Exposes(e.value, server, e.key)
    ensures ListOk(catalog, listed + [e.value], done, server, tools + {e.key})
  {
    forall x | x in catalog && Splittable(x) && SplitExposed(x).value == (server, e.key) ensures x == e.value {
      ExposesUnique(x, e.value, server, e.key);
    }
  }

  function KeySet<V>(xs: seq<Entry<V>>, n: nat): set<string>
    requires n <= |xs|
  {
    set i | 0 <= i < n :: xs[i].key
  }

  /** One tool: its assignment, then its alias if it has one. */
  method EmitTool(t: Entry<string>, alias: Option<string>, server: string, prog0: seq<Stmt>) returns (prog: seq<Stmt>)
    requires Run(prog0).current == server && server in Run(prog0).servers
    ensures Run(prog) == Env(Run(prog0).servers[server := ToolStep(Run(prog0).servers[server], t, alias)], server)
  {
    var assign := Assign(JsLiteral(t.key), JsLiteral(t.value));
    LiteralRoundTrip(t.key);
    LiteralRoundTrip(t.value);
    RunSnoc(prog0, assign);
    prog := prog0 + [assign];
    if alias.Some? {
      var s := AliasIfUndefined(JsLiteral(alias.value), JsLiteral(t.key));
      LiteralRoundTrip(alias.value);
      RunSnoc(prog, s);
      prog := prog + [s];
    }
  }

  method EmitEnsure(server: string, prog0: seq<Stmt>) returns (prog: seq<Stmt>)
    requires server !in Run(prog0).servers
    ensures Run(prog) == Env(Run(prog0).servers[server := map[]], server)
  {
    LiteralRoundTrip(server);
    RunSnoc(prog0, Ensure(JsLiteral(server)));
    prog := prog0 + [Ensure(JsLiteral(server))];
  }

  /** The object of one server is new, and the others are as they were. */
  predicate OnlyAdds(before: map<string, Object>, after: map<string, Object>, server: string)
  {
    after.Keys == before.Keys + {server} && forall s <- before :: s != server ==> after[s] == before[s]
  }

  /** One server's block of assignments and aliases. */
  method EmitServer(catalog: seq<string>, upper: char -> string, server: string, ghost done: set<string>,
                    prog0: seq<Stmt>, listed0: seq<string>)
    returns (prog: seq<Stmt>, listed: seq<string>)
    requires server !in done && server !in Run(prog0).servers
    requires ListOk(catalog, listed0, done, server, {})
    requires InKeyOrder(listed0) && forall d <- done :: Less(d, server)
    ensures InKeyOrder(listed)
    ensures var ts := Tools(catalog, server);
            && OnlyAdds(Run(prog0).servers, Run(prog).servers, server)
            && ObjectOk(Run(prog).servers[server], ts, AliasesOf(ts, upper), |ts|)
            && ListOk(catalog, listed, done, server, KeySet(ts, |ts|))
  {
    var ts := Tools(catalog, server);
    ToolsOk(catalog, server);
    AliasesAreFree(ts, upper);
    listed := listed0;
    prog := EmitEnsure(server, prog0);
    var al := AliasesOf(ts, upper);
    var i := 0;
    while i < |ts|
      invariant 0 <= i <= |ts| && |al| == |ts|
      invariant Run(prog).current == server && OnlyAdds(Run(prog0).servers, Run(prog).servers, server)
      invariant ObjectOk(Run(prog).servers[server], ts, al, i)
      invariant ListOk(catalog, listed, done, server, KeySet(ts, i)) && InKeyOrder(listed)
    {
      ghost var o, before := Run(prog).servers[server], Run(prog).servers;
      prog := EmitTool(ts[i], al[i], server, prog);
      OnlyAddsAgain(Run(prog0).servers, before, server, ToolStep(o, ts[i], al[i]));
      ToolStepOk(o, ts, al, i);
      listed := ListTool(catalog, listed, done, server, ts, i);
      i := i + 1;
    }
  }

  lemma OnlyAddsAgain(before: map<string, Object>, after: map<string, Object>, server: string, o: Object)
    requires OnlyAdds(before, after, server)
    ensures OnlyAdds(before, after[server := o], server) && after[server := o][server] == o
  {
  }

  method ListTool(catalog: seq<string>, listed: seq<string>, ghost done: set<string>, server: string, ts: seq<Entry<string>>, i: nat)
    returns (more: seq<string>)
    requires ts == Tools(catalog, server) && i < |ts| && Sorted(ts) && server !in done
    requires ListOk(catalog, listed, done, server, KeySet(ts, i))
    requires InKeyOrder(listed) && forall d <- done :: Less(d, server)
    ensures ListOk(catalog, more, done, server, KeySet(ts, i + 1)) && more == listed + [ts[i].value] && InKeyOrder(more)
  {
    ToolsOk(catalog, server);
    FreshKey(ts, i);
    assert ts[i] in ts;
    OrderStep(catalog, listed, done, server, ts, i);
    ListStep(catalog, listed, done, server, KeySet(ts, i), ts[i]);
    more := listed + [ts[i].value];
  }

  lemma FreshKey<V(!new)>(xs: seq<Entry<V>>, i: nat)
    requires Sorted(xs) && i < |xs|
    ensures xs[i].key !in KeySet(xs, i) && KeySet(xs, i + 1) == KeySet(xs, i) + {xs[i].key}
  {
    forall j | 0 <= j < i ensures xs[j].key != xs[i].key {
      LessTotal(xs[j].key, xs[i].key);
    }
  }

  /** Server `s` of the prelude, complete. */
  ghost predicate ServerOk(catalog: seq<string>, upper: char -> string, s: string, o: Object)
  {
    ObjectOk(o, Tools(catalog, s), AliasesOf(Tools(catalog, s), upper), |Tools(catalog, s)|)
  }

  /**
    `build_servers_prelude`. Running the emitted statements gives one object
    per server, holding each tool under its segment, each alias for its least
    tool and nothing else; the listing has every splittable name once, by
    server and then by tool.
  */
  method BuildServersPrelude(catalog: seq<string>, upper: char -> string) returns (prog: seq<Stmt>, listed: seq<string>)
    ensures forall s :: s in Run(prog).servers <==> exists name <- catalog :: Splittable(name) && SplitExposed(name).value.0 == s
    ensures forall s <- Run(prog).servers :: ServerOk(catalog, upper, s, Run(prog).servers[s])
    ensures NoDuplicates(listed) && forall x :: x in listed <==> x in catalog && Splittable(x)
    ensures InKeyOrder(listed)
  {
    var servers := Servers(catalog);
    ServersOk(catalog);
    prog, listed := [], [];
    var k := 0;
    while k < |servers|
      invariant 0 <= k <= |servers|
      invariant Run(prog).servers.Keys == KeySet(servers, k)
      invariant forall s <- Run(prog).servers :: ServerOk(catalog, upper, s, Run(prog).servers[s])
      invariant ListOk(catalog, listed, KeySet(servers, k), "", {}) && InKeyOrder(listed)
    {
      var server := servers[k].key;
      FreshKey(servers, k);
      assert servers[k] in servers;
      ghost var done := KeySet(servers, k);
      prog, listed := EmitServer(catalog, upper, server, done, prog, listed);
      ServerDone(catalog, listed, done, server);
      k := k + 1;
    }
    forall x | x in catalog && Splittable(x) ensures SplitExposed(x).value.0 in KeySet(servers, |servers|) {
      assert HasKey(servers, SplitExposed(x).value.0);
    }
    forall s ensures s in Run(prog).servers <==> HasKey(servers, s) {
      if HasKey(servers, s) {
        var e :| e in servers && e.key == s;
        var i :| 0 <= i < |servers| && servers[i] == e;
      }
    }
  }

  lemma ServerDone(catalog: seq<string>, listed: seq<string>, done: set<string>, server: string)
    requires ListOk(catalog, listed, done, server, KeySet(Tools(catalog, server), |Tools(catalog, server)|))
    ensures ListOk(catalog, listed, done + {server}, "", {})
  {
    var ts := Tools(catalog, server);
    ToolsOk(catalog, server);
    forall x | x in catalog && Splittable(x) && SplitExposed(x).value.0 == server
      ensures SplitExposed(x).value.1 in KeySet(ts, |ts|)
    {
      assert Entry(SplitExposed(x).value.1, x) in ts;
    }
  }

  /** Read off for a caller: `servers[server][tool]` is the exposed name, for every splittable catalog name. */
  lemma ToolResolves(catalog: seq<string>, upper: char -> string, o: Object, name: string, server: string, tool: string)
    requires name in catalog && Exposes(name, server, tool) && ServerOk(catalog, upper, server, o)
    ensures tool in o && o[tool] == name
  {
    ToolsOk(catalog, server);
    var ts := Tools(catalog, server);
    assert Entry(tool, name) in ts;
    var j :| 0 <= j < |ts| && ts[j] == Entry(tool, name);
  }

  lemma LeastIsFirst(ts: seq<Entry<string>>, al: seq<Option<string>>, j: nat, p: string, u: Entry<string>)
    requires Sorted(ts) && |al| == |ts| && j < |ts| && LeastAlias(al, j, p)
    requires exists k :: 0 <= k < |ts| && ts[k] == u && al[k] == Some(p)
    ensures u == ts[j] || Less(ts[j].key, u.key)
  {
  }

  /** A property that is no tool's own name is there exactly if it is an identifier and some tool's camelCase form. */
  lemma AliasIff(catalog: seq<string>, upper: char -> string, o: Object, server: string, p: string)
    requires ServerOk(catalog, upper, server, o) && !Claimed(Tools(catalog, server), p)
    ensures p in o <==> IsIdent(p) && exists t <- Tools(catalog, server) :: CamelWords(t.key, upper) == p
  {
    var ts := Tools(catalog, server);
    var al := AliasesOf(ts, upper);
    assert !ToolName(ts, |ts|, p) by {
      assert forall j :: 0 <= j < |ts| ==> ts[j] in ts;
    }
    if p in o {
      var j :| 0 <= j < |ts| && LeastAlias(al, j, p);
      CamelByWords(ts[j].key, false, upper);
      assert ts[j] in ts;
    }
    if t :| t in ts && CamelWords(t.key, upper) == p && IsIdent(p) {
      CamelByWords(t.key, false, upper);
      var j :| 0 <= j < |ts| && ts[j] == t;
      assert al[j] == Some(p);
    }
  }

  lemma AliasSpelled(ts: seq<Entry<string>>, upper: char -> string, p: string, u: Entry<string>)
    requires u in ts && IsIdent(p) && !Claimed(ts, p)
    ensures AliasOf(ts, upper, u.key) == Some(p) <==> CamelWords(u.key, upper) == p
  {
    CamelByWords(u.key, false, upper);
  }

  /** Any other property is an alias: of the least tool whose camelCase form it is, and of no other. */
  lemma AliasResolves(catalog: seq<string>, upper: char -> string, o: Object, server: string, p: string) returns (t: Entry<string>)
    requires ServerOk(catalog, upper, server, o) && p in o && !Claimed(Tools(catalog, server), p)
    ensures t in Tools(catalog, server) && CamelWords(t.key, upper) == p && o[p] == t.value
    ensures forall u <- Tools(catalog, server) :: CamelWords(u.key, upper) == p ==> u == t || Less(t.key, u.key)
  {
    var ts := Tools(catalog, server);
    var al := AliasesOf(ts, upper);
    AliasIff(catalog, upper, o, server, p);
    assert !ToolName(ts, |ts|, p) by {
      assert forall j :: 0 <= j < |ts| ==> ts[j] in ts;
    }
    var j :| 0 <= j < |ts| && LeastAlias(al, j, p) && o[p] == ts[j].value;
    t := ts[j];
    AliasSpelled(ts, upper, p, t);
    forall u <- ts | CamelWords(u.key, upper) == p ensures u == t || Less(t.key, u.key) {
      ToolsOk(catalog, server);
      AliasSpelled(ts, upper, p, u);
      var k :| 0 <= k < |ts| && ts[k] == u;
      assert al[k] == Some(p);
      LeastIsFirst(ts, al, j, p, u);
    }
  }
}
