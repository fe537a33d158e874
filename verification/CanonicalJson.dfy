/**
  The canonical JSON text an approval binds to. Objects keep whatever field
  order they were built with; the writer sorts keys at every level.
*/
module CanonicalJson {
  import opened TextOrder

  /** A number is the text serde prints for it. */
  datatype Json =
    | Null
    | Bool(b: bool)
    | Num(text: string)
    | Str(text: string)
    | Arr(items: seq<Json>)
    | Obj(fields: seq<Entry<Json>>)

  predicate NumChar(c: char)
  {
    '0' <= c <= '9' || c == '-' || c == '+' || c == '.' || c == 'e' || c == 'E'
  }

  predicate NumText(t: string)
  {
    t != [] && ('0' <= t[0] <= '9' || t[0] == '-') && forall c <- t :: NumChar(c)
  }

  /** Numbers print as JSON numbers, and no object repeats a key. */
  ghost predicate WellFormed(v: Json)
  {
    match v
    case Num(t) => NumText(t)
    case Arr(items) => forall x <- items :: WellFormed(x)
    case Obj(fields) => Distinct(fields) && forall f <- fields :: WellFormed(f.value)
    case _ => true
  }

  /** Equal up to the order of object fields, at every level. */
  ghost predicate Same(a: Json, b: Json)
  {
    if a.Arr? && b.Arr? then
      |a.items| == |b.items| && forall i :: 0 <= i < |a.items| ==> Same(a.items[i], b.items[i])
    else if a.Obj? && b.Obj? then
      && (forall f <- a.fields :: HasKey(b.fields, f.key))
      && (forall g <- b.fields :: HasKey(a.fields, g.key))
      && forall m, n :: 0 <= m < |a.fields| && 0 <= n < |b.fields| && a.fields[m].key == b.fields[n].key ==>
           Same(a.fields[m].value, b.fields[n].value)
    else
      a == b
  }

  /******* Strings *******/

  function HexDigit(n: nat): char
    requires n < 16
  {
    if n < 10 then '0' + n as char else 'a' + (n - 10) as char
  }

  function Escape(c: char): string
  {
    if c == '\"' then "\\\""
    else if c == '\\' then "\\\\"
    else if c == 8 as char then "\\b"
    else if c == '\t' then "\\t"
    else if c == '\n' then "\\n"
    else if c == 12 as char then "\\f"
    else if c == '\r' then "\\r"
    else if c < ' ' then ['\\', 'u', '0', '0', HexDigit(c as int / 16), HexDigit(c as int % 16)]
    else [c]
  }

  function Escaped(s: string): string
  {
    if s == [] then [] else Escape(s[0]) + Escaped(s[1..])
  }

  function Quoted(s: string): string
  {
    "\"" + Escaped(s) + "\""
  }

  lemma HexInjective(m: nat, n: nat)
    requires m < 16 && n < 16 && HexDigit(m) == HexDigit(n)
    ensures m == n
  {
  }

  lemma HeadEscape(c: char, u: string)
    ensures (Escape(c) + u)[0] == Escape(c)[0] != '\"'
    ensures |Escape(c)| > 1 ==> Escape(c)[0] == '\\' && (Escape(c) + u)[1] == Escape(c)[1]
    ensures |Escape(c)| == 1 ==> Escape(c) == [c] && c != '\\' && c != '\"'
    ensures |Escape(c)| == 1 || |Escape(c)| == 2 || |Escape(c)| == 6
    ensures |Escape(c)| == 6 <==> |Escape(c)| > 1 && Escape(c)[1] == 'u'
  {
  }

  lemma EscapePrefixFree(c: char, d: char, u: string, w: string)
    requires Escape(c) + u == Escape(d) + w
    ensures c == d && u == w
  {
    HeadEscape(c, u);
    HeadEscape(d, w);
    var a, b := Escape(c), Escape(d);
    assert |a| == |b|;
    assert a == (a + u)[..|a|] && b == (b + w)[..|b|];
    assert u == (a + u)[|a|..] && w == (b + w)[|b|..];
    if |a| == 6 {
      HexInjective(c as int / 16, d as int / 16);
      HexInjective(c as int % 16, d as int % 16);
    }
  }

  /** What follows the opening quote. */
  function AfterQuote(s: string, x: string): string
  {
    Escaped(s) + "\"" + x
  }

  lemma AfterQuoteUnfolds(s: string, x: string)
    ensures s == [] ==> AfterQuote(s, x) == "\"" + x
    ensures s != [] ==> AfterQuote(s, x) == Escape(s[0]) + AfterQuote(s[1..], x)
    ensures AfterQuote(s, x) != [] && (s == [] <==> AfterQuote(s, x)[0] == '\"')
  {
    if s != [] {
      Assoc(Escape(s[0]), Escaped(s[1..]), "\"", x);
      HeadEscape(s[0], AfterQuote(s[1..], x));
    }
  }

  lemma Assoc(a: string, b: string, c: string, d: string)
    ensures a + b + c + d == a + (b + c + d) && a + b + (c + d) == a + (b + (c + d))
  {
  }

  /** A quoted string can be read back off the front of any text. */
  lemma {:induction false} EscapedUnique(s: string, t: string, x: string, y: string)
    requires AfterQuote(s, x) == AfterQuote(t, y)
    ensures s == t && x == y
  {
    AfterQuoteUnfolds(s, x);
    AfterQuoteUnfolds(t, y);
    if s == [] {
      assert x == ("\"" + x)[1..] && y == ("\"" + y)[1..];
    } else {
      EscapePrefixFree(s[0], t[0], AfterQuote(s[1..], x), AfterQuote(t[1..], y));
      EscapedUnique(s[1..], t[1..], x, y);
      assert s == [s[0]] + s[1..] && t == [t[0]] + t[1..];
    }
  }

  lemma QuotedUnique(s: string, t: string, x: string, y: string)
    requires Quoted(s) + x == Quoted(t) + y
    ensures s == t && x == y
  {
    assert (Quoted(s) + x)[1..] == Escaped(s) + "\"" + x;
    assert (Quoted(t) + y)[1..] == Escaped(t) + "\"" + y;
    EscapedUnique(s, t, x, y);
  }

  /******* Values *******/

  function JoinItems(texts: seq<string>): string
  {
    if texts == [] then "" else if |texts| == 1 then texts[0] else texts[0] + "," + JoinItems(texts[1..])
  }

  function Member(e: Entry<string>): string
  {
    Quoted(e.key) + ":" + e.value
  }

  function JoinFields(es: seq<Entry<string>>): string
  {
    if es == [] then "" else if |es| == 1 then Member(es[0]) else Member(es[0]) + "," + JoinFields(es[1..])
  }

  /** What `write_canonical_json` writes: object members in key order, everything else in place. */
  function Canonical(v: Json): string
  {
    match v
    case Null => "null"
    case Bool(b) => if b then "true" else "false"
    case Num(t) => t
    case Str(s) => Quoted(s)
    case Arr(items) => "[" + JoinItems(seq(|items|, i requires 0 <= i < |items| => Canonical(items[i]))) + "]"
    case Obj(fields) =>
      "{" + JoinFields(Sort(seq(|fields|, i requires 0 <= i < |fields| => Entry(fields[i].key, Canonical(fields[i].value))))) + "}"
  }

  function Texts(items: seq<Json>): seq<string>
  {
    seq(|items|, i requires 0 <= i < |items| => Canonical(items[i]))
  }

  function Rendered(fields: seq<Entry<Json>>): seq<Entry<string>>
  {
    seq(|fields|, i requires 0 <= i < |fields| => Entry(fields[i].key, Canonical(fields[i].value)))
  }

  /** A value is followed by nothing, a separator or a closing bracket. */
  predicate Stop(x: string)
  {
    x == [] || x[0] == ',' || x[0] == '}' || x[0] == ']'
  }

  /** The first character tells the kind of value. */
  predicate Starts(v: Json, c: char)
  {
    match v
    case Null => c == 'n'
    case Bool(b) => c == if b then 't' else 'f'
    case Num(_) => '0' <= c <= '9' || c == '-'
    case Str(_) => c == '\"'
    case Arr(_) => c == '['
    case Obj(_) => c == '{'
  }

  lemma FirstChar(v: Json, x: string)
    requires WellFormed(v)
    ensures Canonical(v) != [] && (Canonical(v) + x)[0] == Canonical(v)[0] && Starts(v, Canonical(v)[0])
  {
  }

  lemma SameKind(a: Json, b: Json, x: string, y: string)
    requires WellFormed(a) && WellFormed(b) && Canonical(a) + x == Canonical(b) + y
    ensures a.Null? == b.Null? && a.Num? == b.Num? && a.Str? == b.Str? && a.Arr? == b.Arr? && a.Obj? == b.Obj?
    ensures a.Bool? == b.Bool? && (a.Bool? ==> a == b)
  {
    FirstChar(a, x);
    FirstChar(b, y);
  }

  lemma NumUnique(s: string, t: string, x: string, y: string)
    requires NumText(s) && NumText(t) && Stop(x) && Stop(y) && s + x == t + y
    ensures s == t && x == y
  {
    assert forall k :: 0 <= k < |s| ==> NumChar((s + x)[k]);
    assert forall k :: 0 <= k < |t| ==> NumChar((t + y)[k]);
    assert x != [] ==> (s + x)[|s|] == x[0];
    assert y != [] ==> (t + y)[|t|] == y[0];
    assert |s| == |t|;
    assert s == (s + x)[..|s|] && t == (t + y)[..|t|];
    assert x == (s + x)[|s|..] && y == (t + y)[|t|..];
  }

  /** The text from item `i` on: items, closing bracket, rest. */
  function ItemsFrom(texts: seq<string>, i: nat, x: string): string
    requires i <= |texts|
  {
    JoinItems(texts[i..]) + "]" + x
  }

  function AfterItem(texts: seq<string>, i: nat, x: string): string
    requires i < |texts|
  {
    if i + 1 == |texts| then "]" + x else "," + ItemsFrom(texts, i + 1, x)
  }

  lemma JoinItemsUnfolds(texts: seq<string>, i: nat)
    requires i < |texts|
    ensures JoinItems(texts[i..]) == texts[i] + if i + 1 == |texts| then "" else "," + JoinItems(texts[i + 1..])
  {
    assert texts[i..][1..] == texts[i + 1..];
  }

  lemma ItemsFromUnfolds(texts: seq<string>, i: nat, x: string)
    requires i < |texts|
    ensures ItemsFrom(texts, i, x) == texts[i] + AfterItem(texts, i, x)
  {
    JoinItemsUnfolds(texts, i);
  }

  /** One array ends exactly where the other does. */
  lemma ItemsEnd(texts: seq<string>, i: nat, x: string)
    requires i <= |texts| && forall k :: 0 <= k < |texts| ==> texts[k] != [] && texts[k][0] != ']'
    ensures ItemsFrom(texts, i, x) != [] && (i == |texts| <==> ItemsFrom(texts, i, x)[0] == ']')
    ensures i == |texts| ==> ItemsFrom(texts, i, x)[1..] == x
  {
    if i < |texts| {
      ItemsFromUnfolds(texts, i, x);
    } else {
      assert ItemsFrom(texts, i, x) == "]" + x;
    }
  }

  lemma AfterItemUnique(ts: seq<string>, us: seq<string>, i: nat, x: string, y: string)
    requires i < |ts| && i < |us| && AfterItem(ts, i, x) == AfterItem(us, i, y)
    ensures i + 1 == |ts| <==> i + 1 == |us|
    ensures i + 1 == |ts| ==> x == y
    ensures i + 1 < |ts| ==> ItemsFrom(ts, i + 1, x) == ItemsFrom(us, i + 1, y)
  {
    Tail(']', x);
    Tail(']', y);
    if i + 1 < |ts| {
      Tail(',', ItemsFrom(ts, i + 1, x));
    }
    if i + 1 < |us| {
      Tail(',', ItemsFrom(us, i + 1, y));
    }
  }

  lemma TextsStart(items: seq<Json>)
    requires forall x <- items :: WellFormed(x)
    ensures forall k :: 0 <= k < |items| ==> Texts(items)[k] != [] && Texts(items)[k][0] != ']'
  {
    forall k | 0 <= k < |items| ensures Texts(items)[k] != [] && Texts(items)[k][0] != ']' {
      assert items[k] in items;
      FirstChar(items[k], []);
    }
  }

  function FieldsFrom(es: seq<Entry<string>>, i: nat, x: string): string
    requires i <= |es|
  {
    JoinFields(es[i..]) + "}" + x
  }

  lemma JoinFieldsUnfolds(es: seq<Entry<string>>, i: nat)
    requires i < |es|
    ensures JoinFields(es[i..]) == Member(es[i]) + if i + 1 == |es| then "" else "," + JoinFields(es[i + 1..])
  {
    assert es[i..][1..] == es[i + 1..];
  }

  /** The text after one member's value. */
  function AfterValue(es: seq<Entry<string>>, i: nat, x: string): string
    requires i < |es|
  {
    if i + 1 == |es| then "}" + x else "," + FieldsFrom(es, i + 1, x)
  }

  /** Concatenation regrouped, on plain strings so that no definition is unfolded. */
  lemma Regroup(a: string, b: string, c: string, d: string)
    ensures a + b + c + d == a + (b + (c + d))
    ensures a + (b + c) + d == a + (b + (c + d))
    ensures a + (b + (c + d)) == a + b + c + d
  {
  }

  lemma JoinStep(m: string, rest: string, more: bool, x: string)
    ensures (m + if more then "," + rest else "") + "}" + x == m + if more then "," + (rest + "}" + x) else "}" + x
  {
  }

  lemma FieldsFromMember(es: seq<Entry<string>>, i: nat, x: string)
    requires i < |es|
    ensures FieldsFrom(es, i, x) == Member(es[i]) + AfterValue(es, i, x)
  {
    JoinFieldsUnfolds(es, i);
    JoinStep(Member(es[i]), JoinFields(es[i + 1..]), i + 1 < |es|, x);
  }

  lemma FieldsFromUnfolds(es: seq<Entry<string>>, i: nat, x: string)
    requires i < |es|
    ensures FieldsFrom(es, i, x) == Quoted(es[i].key) + (":" + (es[i].value + AfterValue(es, i, x)))
  {
    FieldsFromMember(es, i, x);
    Regroup(Quoted(es[i].key), ":", es[i].value, AfterValue(es, i, x));
  }

  /** Some field of each object has this key, with the same value. */
  ghost predicate Matched(a: Json, b: Json, key: string)
    requires a.Obj? && b.Obj?
  {
    exists m, n :: 0 <= m < |a.fields| && 0 <= n < |b.fields| && a.fields[m].key == key == b.fields[n].key
                   && Same(a.fields[m].value, b.fields[n].value)
  }

  ghost predicate Renders(v: Json, es: seq<Entry<string>>)
  {
    v.Obj? && forall e <- es :: exists m :: 0 <= m < |v.fields| && e == Entry(v.fields[m].key, Canonical(v.fields[m].value))
  }

  lemma Tail(c: char, u: string)
    ensures ([c] + u)[0] == c && ([c] + u)[1..] == u
  {
  }

  lemma ArrText(items: seq<Json>, x: string)
    ensures Canonical(Arr(items)) + x == "[" + ItemsFrom(Texts(items), 0, x)
  {
    assert Texts(items)[0..] == Texts(items);
  }

  lemma ObjText(fields: seq<Entry<Json>>, x: string)
    ensures Canonical(Obj(fields)) + x == "{" + FieldsFrom(Sort(Rendered(fields)), 0, x)
  {
    assert Sort(Rendered(fields))[0..] == Sort(Rendered(fields));
  }

  /** A canonical text can be read back off the front of any text, giving the value up to field order. */
  lemma {:induction false} Unique(a: Json, b: Json, x: string, y: string)
    requires WellFormed(a) && WellFormed(b) && Stop(x) && Stop(y)
    requires Canonical(a) + x == Canonical(b) + y
    ensures Same(a, b) && x == y
    decreases a, 2, 0
  {
    SameKind(a, b, x, y);
    if a.Arr? {
      UniqueArr(a, b, x, y);
    } else if a.Obj? {
      UniqueObj(a, b, x, y);
    } else {
      UniqueScalar(a, b, x, y);
    }
  }

  lemma UniqueScalar(a: Json, b: Json, x: string, y: string)
    requires WellFormed(a) && WellFormed(b) && Stop(x) && Stop(y) && !a.Arr? && !a.Obj?
    requires Canonical(a) + x == Canonical(b) + y
    ensures a == b && x == y
  {
    SameKind(a, b, x, y);
    if a.Num? {
      NumUnique(a.text, b.text, x, y);
    } else if a.Str? {
      QuotedUnique(a.text, b.text, x, y);
    } else {
      var k := |Canonical(a)|;
      assert x == (Canonical(a) + x)[k..] && y == (Canonical(b) + y)[k..];
    }
  }

  lemma {:induction false} UniqueArr(a: Json, b: Json, x: string, y: string)
    requires WellFormed(a) && WellFormed(b) && a.Arr? && b.Arr?
    requires Canonical(a) + x == Canonical(b) + y
    ensures Same(a, b) && x == y
    decreases a, 1, 0
  {
    ArrText(a.items, x);
    ArrText(b.items, y);
    Tail('[', ItemsFrom(Texts(a.items), 0, x));
    Tail('[', ItemsFrom(Texts(b.items), 0, y));
    ItemsUnique(a, b, 0, x, y);
  }

  lemma {:induction false} UniqueObj(a: Json, b: Json, x: string, y: string)
    requires WellFormed(a) && WellFormed(b) && a.Obj? && b.Obj?
    requires Canonical(a) + x == Canonical(b) + y
    ensures Same(a, b) && x == y
    decreases a, 1, 0
  {
    var es, fs := Sort(Rendered(a.fields)), Sort(Rendered(b.fields));
    ObjText(a.fields, x);
    ObjText(b.fields, y);
    Tail('{', FieldsFrom(es, 0, x));
    Tail('{', FieldsFrom(fs, 0, y));
    SortRenders(a);
    SortRenders(b);
    FieldsUnique(a, b, es, fs, 0, x, y);
    MatchedIsSame(a, b, es, fs);
  }

  lemma SortRenders(v: Json)
    requires v.Obj? && Distinct(v.fields)
    ensures Renders(v, Sort(Rendered(v.fields)))
    ensures Sorted(Sort(Rendered(v.fields)))
    ensures forall m :: 0 <= m < |v.fields| ==> Entry(v.fields[m].key, Canonical(v.fields[m].value)) in Sort(Rendered(v.fields))
  {
    var r := Rendered(v.fields);
    assert Distinct(r);
    SortOk(r);
    forall m | 0 <= m < |v.fields| ensures Entry(v.fields[m].key, Canonical(v.fields[m].value)) in Sort(r) {
      assert r[m] in r;
    }
  }

  lemma MatchedHere(a: Json, b: Json, m: nat, n: nat)
    requires a.Obj? && b.Obj? && Distinct(a.fields) && Distinct(b.fields)
    requires m < |a.fields| && n < |b.fields| && a.fields[m].key == b.fields[n].key
    requires Matched(a, b, a.fields[m].key)
    ensures Same(a.fields[m].value, b.fields[n].value)
  {
    var m', n' :| 0 <= m' < |a.fields| && 0 <= n' < |b.fields| && a.fields[m'].key == a.fields[m].key == b.fields[n'].key
                  && Same(a.fields[m'].value, b.fields[n'].value);
    assert m' == m && n' == n;
  }

  lemma MatchedKeys(a: Json, b: Json, key: string)
    requires a.Obj? && b.Obj? && Matched(a, b, key)
    ensures HasKey(a.fields, key) && HasKey(b.fields, key)
  {
    var m, n :| 0 <= m < |a.fields| && 0 <= n < |b.fields| && a.fields[m].key == key == b.fields[n].key;
    assert a.fields[m] in a.fields && b.fields[n] in b.fields;
  }

  lemma KeyIsRendered(v: Json, f: Entry<Json>) returns (k: nat)
    requires v.Obj? && Distinct(v.fields) && f in v.fields
    ensures k < |Sort(Rendered(v.fields))| && Sort(Rendered(v.fields))[k] == Entry(f.key, Canonical(f.value))
  {
    SortRenders(v);
    var m :| 0 <= m < |v.fields| && v.fields[m] == f;
    var es := Sort(Rendered(v.fields));
    assert Entry(f.key, Canonical(f.value)) in es;
    k :| 0 <= k < |es| && es[k] == Entry(f.key, Canonical(f.value));
  }

  lemma MatchedIsSame(a: Json, b: Json, es: seq<Entry<string>>, fs: seq<Entry<string>>)
    requires WellFormed(a) && WellFormed(b) && a.Obj? && b.Obj?
    requires es == Sort(Rendered(a.fields)) && fs == Sort(Rendered(b.fields)) && |es| == |fs|
    requires forall k :: 0 <= k < |es| ==> es[k].key == fs[k].key && Matched(a, b, es[k].key)
    ensures Same(a, b)
  {
    forall f <- a.fields ensures HasKey(b.fields, f.key) {
      var k := KeyIsRendered(a, f);
      MatchedKeys(a, b, f.key);
    }
    forall g <- b.fields ensures HasKey(a.fields, g.key) {
      var k := KeyIsRendered(b, g);
      MatchedKeys(a, b, g.key);
    }
    forall m, n | 0 <= m < |a.fields| && 0 <= n < |b.fields| && a.fields[m].key == b.fields[n].key
      ensures Same(a.fields[m].value, b.fields[n].value)
    {
      var k := KeyIsRendered(a, a.fields[m]);
      MatchedHere(a, b, m, n);
    }
  }

  lemma {:induction false} ItemsUnique(a: Json, b: Json, i: nat, x: string, y: string)
    requires a.Arr? && b.Arr? && WellFormed(a) && WellFormed(b) && i <= |a.items| && i <= |b.items|
    requires ItemsFrom(Texts(a.items), i, x) == ItemsFrom(Texts(b.items), i, y)
    ensures |a.items| == |b.items| && x == y
    ensures forall k :: i <= k < |a.items| ==> Same(a.items[k], b.items[k])
    decreases a, 0, |a.items| - i
  {
    var ts, us := Texts(a.items), Texts(b.items);
    TextsStart(a.items);
    TextsStart(b.items);
    ItemsEnd(ts, i, x);
    ItemsEnd(us, i, y);
    if i < |ts| {
      ItemsFromUnfolds(ts, i, x);
      ItemsFromUnfolds(us, i, y);
      assert a.items[i] in a.items && b.items[i] in b.items;
      Unique(a.items[i], b.items[i], AfterItem(ts, i, x), AfterItem(us, i, y));
      AfterItemUnique(ts, us, i, x, y);
      if i + 1 < |ts| {
        ItemsUnique(a, b, i + 1, x, y);
      }
    }
  }

  lemma MemberUnique(es: seq<Entry<string>>, fs: seq<Entry<string>>, i: nat, x: string, y: string)
    requires i < |es| && i < |fs| && FieldsFrom(es, i, x) == FieldsFrom(fs, i, y)
    ensures es[i].key == fs[i].key
    ensures es[i].value + AfterValue(es, i, x) == fs[i].value + AfterValue(fs, i, y)
  {
    FieldsFromUnfolds(es, i, x);
    FieldsFromUnfolds(fs, i, y);
    var u, w := es[i].value + AfterValue(es, i, x), fs[i].value + AfterValue(fs, i, y);
    QuotedUnique(es[i].key, fs[i].key, ":" + u, ":" + w);
    Tail(':', u);
    Tail(':', w);
  }

  /** One object ends exactly where the other does. */
  lemma FieldsEnd(es: seq<Entry<string>>, i: nat, x: string)
    requires i <= |es|
    ensures FieldsFrom(es, i, x) != [] && (i == |es| <==> FieldsFrom(es, i, x)[0] == '}')
    ensures i == |es| ==> FieldsFrom(es, i, x)[1..] == x
  {
    if i < |es| {
      FieldsFromUnfolds(es, i, x);
      assert FieldsFrom(es, i, x)[0] == Quoted(es[i].key)[0] == '\"';
    } else {
      assert FieldsFrom(es, i, x) == "}" + x;
      Tail('}', x);
    }
  }

  lemma AfterValueUnique(es: seq<Entry<string>>, fs: seq<Entry<string>>, i: nat, x: string, y: string)
    requires i < |es| && i < |fs| && AfterValue(es, i, x) == AfterValue(fs, i, y)
    ensures i + 1 == |es| <==> i + 1 == |fs|
    ensures i + 1 == |es| ==> x == y
    ensures i + 1 < |es| ==> FieldsFrom(es, i + 1, x) == FieldsFrom(fs, i + 1, y)
  {
    Tail('}', x);
    Tail('}', y);
    if i + 1 < |es| {
      Tail(',', FieldsFrom(es, i + 1, x));
    }
    if i + 1 < |fs| {
      Tail(',', FieldsFrom(fs, i + 1, y));
    }
  }

  lemma {:induction false} FieldsUnique(a: Json, b: Json, es: seq<Entry<string>>, fs: seq<Entry<string>>, i: nat, x: string, y: string)
    requires WellFormed(a) && WellFormed(b) && Renders(a, es) && Renders(b, fs) && i <= |es| && i <= |fs|
    requires FieldsFrom(es, i, x) == FieldsFrom(fs, i, y)
    ensures |es| == |fs| && x == y
    ensures forall k :: i <= k < |es| ==> es[k].key == fs[k].key && Matched(a, b, es[k].key)
    decreases a, 0, |es| - i
  {
    FieldsEnd(es, i, x);
    FieldsEnd(fs, i, y);
    if i < |es| {
      MemberUnique(es, fs, i, x, y);
      assert es[i] in es && fs[i] in fs;
      var m :| 0 <= m < |a.fields| && es[i] == Entry(a.fields[m].key, Canonical(a.fields[m].value));
      var n :| 0 <= n < |b.fields| && fs[i] == Entry(b.fields[n].key, Canonical(b.fields[n].value));
      assert a.fields[m] in a.fields && b.fields[n] in b.fields;
      Unique(a.fields[m].value, b.fields[n].value, AfterValue(es, i, x), AfterValue(fs, i, y));
      assert Matched(a, b, es[i].key);
      AfterValueUnique(es, fs, i, x, y);
      if i + 1 < |es| {
        FieldsUnique(a, b, es, fs, i + 1, x, y);
      }
    }
  }

  /******* Both directions *******/

  lemma {:induction false} SameIsCanonical(a: Json, b: Json)
    requires WellFormed(a) && WellFormed(b) && Same(a, b)
    ensures Canonical(a) == Canonical(b)
    decreases a, 1
  {
    if a.Arr? && b.Arr? {
      forall i | 0 <= i < |a.items| ensures Canonical(a.items[i]) == Canonical(b.items[i]) {
        assert a.items[i] in a.items && b.items[i] in b.items;
        SameIsCanonical(a.items[i], b.items[i]);
      }
      assert Texts(a.items) == Texts(b.items);
      ArrText(a.items, []);
      ArrText(b.items, []);
      assert Canonical(a) + [] == Canonical(a) && Canonical(b) + [] == Canonical(b);
    } else if a.Obj? && b.Obj? {
      SameObj(a, b);
      ObjText(a.fields, []);
      ObjText(b.fields, []);
      assert Canonical(a) + [] == Canonical(a) && Canonical(b) + [] == Canonical(b);
    }
  }

  lemma SameFields(a: Json, b: Json, f: Entry<Json>, g: Entry<Json>)
    requires Same(a, b) && a.Obj? && b.Obj? && f in a.fields && g in b.fields && f.key == g.key
    ensures Same(f.value, g.value)
  {
    var m :| 0 <= m < |a.fields| && a.fields[m] == f;
    var n :| 0 <= n < |b.fields| && b.fields[n] == g;
  }

  lemma FieldOf(v: Json, e: Entry<string>) returns (f: Entry<Json>)
    requires v.Obj? && Distinct(v.fields) && e in Sort(Rendered(v.fields))
    ensures f in v.fields && e == Entry(f.key, Canonical(f.value))
  {
    SortRenders(v);
    var m :| 0 <= m < |v.fields| && e == Entry(v.fields[m].key, Canonical(v.fields[m].value));
    f := v.fields[m];
  }

  lemma SameKeysLeft(a: Json, b: Json, e: Entry<string>)
    requires a.Obj? && b.Obj? && Distinct(a.fields) && Distinct(b.fields) && Same(a, b)
    requires e in Sort(Rendered(a.fields))
    ensures HasKey(Sort(Rendered(b.fields)), e.key)
  {
    var f := FieldOf(a, e);
    var g :| g in b.fields && g.key == f.key;
    var k := KeyIsRendered(b, g);
    assert Sort(Rendered(b.fields))[k] in Sort(Rendered(b.fields));
  }

  lemma SameKeysRight(a: Json, b: Json, e: Entry<string>)
    requires a.Obj? && b.Obj? && Distinct(a.fields) && Distinct(b.fields) && Same(a, b)
    requires e in Sort(Rendered(b.fields))
    ensures HasKey(Sort(Rendered(a.fields)), e.key)
  {
    var g := FieldOf(b, e);
    var f :| f in a.fields && f.key == g.key;
    var k := KeyIsRendered(a, f);
    assert Sort(Rendered(a.fields))[k] in Sort(Rendered(a.fields));
  }

  lemma {:induction false} SameObj(a: Json, b: Json)
    requires WellFormed(a) && WellFormed(b) && Same(a, b) && a.Obj? && b.Obj?
    ensures Sort(Rendered(a.fields)) == Sort(Rendered(b.fields))
    decreases a, 0
  {
    var es, fs := Sort(Rendered(a.fields)), Sort(Rendered(b.fields));
    SortRenders(a);
    SortRenders(b);
    forall e <- es ensures HasKey(fs, e.key) { SameKeysLeft(a, b, e); }
    forall e <- fs ensures HasKey(es, e.key) { SameKeysRight(a, b, e); }
    SortedKeysUnique(es, fs);
    forall k | 0 <= k < |es| ensures es[k] == fs[k] {
      var f := FieldOf(a, es[k]);
      var h := FieldOf(b, fs[k]);
      SameFields(a, b, f, h);
      SameIsCanonical(f.value, h.value);
    }
  }

  /** Two calls have the same canonical text exactly when they are the same call up to field order. */
  lemma CanonicalIffSame(a: Json, b: Json)
    requires WellFormed(a) && WellFormed(b)
    ensures Canonical(a) == Canonical(b) <==> Same(a, b)
  {
    if Canonical(a) == Canonical(b) {
      assert Canonical(a) + [] == Canonical(b) + [];
      Unique(a, b, [], []);
    }
    if Same(a, b) {
      SameIsCanonical(a, b);
    }
  }

  /******* The writer *******/

  /** Stands for the digest writer: bytes go in, in order. */
  class Sink {
    var text: string

    constructor ()
      ensures text == ""
    {
      text := "";
    }

    method Write(s: string)
      modifies this
      ensures text == old(text) + s
    {
      text := text + s;
    }

    /** `write_canonical_json`: streams, never builds a value's text separately. */
    method WriteCanonical(v: Json)
      requires WellFormed(v)
      modifies this
      ensures text == old(text) + Canonical(v)
      decreases v, 2
    {
      match v {
        case Null => Write("null");
        case Bool(b) => Write(if b then "true" else "false");
        case Num(t) => Write(t);
        case Str(s) => Write(Quoted(s));
        case Arr(items) =>
          WriteItems(v);
        case Obj(fields) =>
          WriteFields(v);
      }
    }

    method WriteItems(v: Json)
      requires WellFormed(v) && v.Arr?
      modifies this
      ensures text == old(text) + Canonical(v)
      decreases v, 0
    {
      ghost var ts := Texts(v.items);
      ghost var goal := ItemsGoal(old(text) + "[", ts, 0);
      ArrGoal(old(text), v);
      Write("[");
      var i := 0;
      while i < |v.items|
        invariant 0 <= i <= |v.items|
        invariant goal == ItemsGoal(text, ts, i)
      {
        ItemStep(text, ts, i);
        if i > 0 {
          Write(",");
        }
        assert v.items[i] in v.items;
        WriteCanonical(v.items[i]);
        i := i + 1;
      }
      Write("]");
    }

    method WriteMember(f: Entry<Json>, v: Json)
      requires WellFormed(v) && v.Obj? && f in v.fields
      modifies this
      ensures text == old(text) + Member(Entry(f.key, Canonical(f.value)))
      decreases v, 0
    {
      Write(Quoted(f.key));
      Write(":");
      WriteCanonical(f.value);
      MemberText(old(text), Quoted(f.key), Canonical(f.value));
    }

    method WriteFields(v: Json)
      requires WellFormed(v) && v.Obj?
      modifies this
      ensures text == old(text) + Canonical(v)
      decreases v, 1
    {
      var order := Sort(seq(|v.fields|, m requires 0 <= m < |v.fields| => Entry(v.fields[m].key, m)));
      ghost var es := Sort(Rendered(v.fields));
      ghost var goal := FieldsGoal(old(text) + "{", es, 0);
      OrderMatches(v, order);
      ObjGoal(old(text), v);
      Write("{");
      var i := 0;
      while i < |order|
        invariant 0 <= i <= |order| == |es|
        invariant goal == FieldsGoal(text, es, i)
      {
        FieldStep(text, es, i);
        if i > 0 {
          Write(",");
        }
        WriteMember(v.fields[order[i].value], v);
        i := i + 1;
      }
      Write("}");
    }
  }

  lemma ArrGoal(pre: string, v: Json)
    requires v.Arr?
    ensures ItemsGoal(pre + "[", Texts(v.items), 0) == pre + Canonical(v)
  {
    assert Texts(v.items)[0..] == Texts(v.items);
    Regroup(pre, "[", JoinItems(Texts(v.items)), "]");
  }

  lemma ObjGoal(pre: string, v: Json)
    requires v.Obj?
    ensures FieldsGoal(pre + "{", Sort(Rendered(v.fields)), 0) == pre + Canonical(v)
  {
    assert Sort(Rendered(v.fields))[0..] == Sort(Rendered(v.fields));
    Regroup(pre, "{", JoinFields(Sort(Rendered(v.fields))), "}");
  }

  /** The finished text, when `pre` is written and item `i` is next. */
  function ItemsGoal(pre: string, ts: seq<string>, i: nat): string
    requires i <= |ts|
  {
    pre + (if 0 < i < |ts| then "," else "") + JoinItems(ts[i..]) + "]"
  }

  lemma ItemStep(pre: string, ts: seq<string>, i: nat)
    requires i < |ts|
    ensures ItemsGoal(pre, ts, i) == ItemsGoal((if i > 0 then pre + "," else pre) + ts[i], ts, i + 1)
  {
    JoinItemsUnfolds(ts, i);
    var p := if i > 0 then pre + "," else pre;
    if i + 1 < |ts| {
      var rest := JoinItems(ts[i + 1..]);
      Regroup(p, ts[i], "," + rest, "]");
      Regroup(p + ts[i], ",", rest, "]");
    }
    assert pre + "" == pre;
  }

  function FieldsGoal(pre: string, es: seq<Entry<string>>, i: nat): string
    requires i <= |es|
  {
    pre + (if 0 < i < |es| then "," else "") + JoinFields(es[i..]) + "}"
  }

  lemma FieldStep(pre: string, es: seq<Entry<string>>, i: nat)
    requires i < |es|
    ensures FieldsGoal(pre, es, i) == FieldsGoal((if i > 0 then pre + "," else pre) + Member(es[i]), es, i + 1)
  {
    JoinFieldsUnfolds(es, i);
    var p, m := if i > 0 then pre + "," else pre, Member(es[i]);
    if i + 1 < |es| {
      var rest := JoinFields(es[i + 1..]);
      Regroup(p, m, "," + rest, "}");
      Regroup(p + m, ",", rest, "}");
    }
    assert pre + "" == pre;
  }

  lemma OrderAt(v: Json, o: Entry<int>, e: Entry<string>)
    requires v.Obj? && Distinct(v.fields) && o.key == e.key && 0 <= o.value < |v.fields| && o.key == v.fields[o.value].key
    requires exists m :: 0 <= m < |v.fields| && e == Entry(v.fields[m].key, Canonical(v.fields[m].value))
    ensures e == Entry(v.fields[o.value].key, Canonical(v.fields[o.value].value))
  {
  }

  lemma MemberText(pre: string, key: string, value: string)
    ensures pre + key + ":" + value == pre + (key + ":" + value)
  {
  }

  /** Sorting the keys and then looking each one up visits the members in canonical order. */
  lemma OrderMatches(v: Json, order: seq<Entry<int>>)
    requires v.Obj? && Distinct(v.fields)
    requires order == Sort(seq(|v.fields|, m requires 0 <= m < |v.fields| => Entry(v.fields[m].key, m)))
    ensures |order| == |Sort(Rendered(v.fields))|
    ensures forall i :: 0 <= i < |order| ==>
              && 0 <= order[i].value < |v.fields|
              && Sort(Rendered(v.fields))[i] == Entry(v.fields[order[i].value].key, Canonical(v.fields[order[i].value].value))
  {
    var keyed := seq(|v.fields|, m requires 0 <= m < |v.fields| => Entry(v.fields[m].key, m));
    var es := Sort(Rendered(v.fields));
    assert Distinct(keyed);
    SortOk(keyed);
    SortRenders(v);
    forall e <- es ensures HasKey(order, e.key) {
      var m :| 0 <= m < |v.fields| && e == Entry(v.fields[m].key, Canonical(v.fields[m].value));
      assert keyed[m] in order;
    }
    forall o <- order ensures HasKey(es, o.key) && 0 <= o.value < |v.fields| && o.key == v.fields[o.value].key {
      assert o in keyed;
      assert Entry(v.fields[o.value].key, Canonical(v.fields[o.value].value)) in es;
    }
    SortedKeysUnique(order, es);
    forall i | 0 <= i < |order| ensures 0 <= order[i].value < |v.fields|
      ensures es[i] == Entry(v.fields[order[i].value].key, Canonical(v.fields[order[i].value].value))
    {
      assert order[i] in order && es[i] in es;
      OrderAt(v, order[i], es[i]);
    }
  }
}
