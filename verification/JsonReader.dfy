/**
  A reader for JSON text without insignificant whitespace, after the grammar
  in RFC 8259, written without reference to the writer. The canonical text of
  a value reads back as that value with every object's members in key order.
*/
module JsonReader {
  import opened Basics
  import opened TextOrder
  import opened CanonicalJson

  /******* The reader *******/

  /** The character a two-character escape stands for. */
  function ShortEscape(c: char): Option<char>
  {
    match c
    case '\"' => Some('\"')
    case '\\' => Some('\\')
    case '/' => Some('/')
    case 'b' => Some(8 as char)
    case 'f' => Some(12 as char)
    case 'n' => Some(10 as char)
    case 'r' => Some(13 as char)
    case 't' => Some(9 as char)
    case _ => None
  }

  /** One character of a string and the rest, or `None` at a quote or an error. */
  function ReadChar(t: string): (r: Option<(char, string)>)
    ensures r.Some? ==> |r.value.1| < |t|
  {
    if t == "" || t[0] == '\"' || t[0] < ' ' then None
    else if t[0] != '\\' then Some((t[0], t[1..]))
    else if |t| < 2 then None
    else if t[1] == 'u' then
      if |t| < 6 || Hex4(t[2..6]).None? then None else Some((Hex4(t[2..6]).value, t[6..]))
    else if ShortEscape(t[1]).None? then None
    else Some((ShortEscape(t[1]).value, t[2..]))
  }

  /** A string from after its opening quote, and what follows its closing one. */
  function ReadString(t: string): (r: Option<(string, string)>)
    ensures r.Some? ==> |r.value.1| < |t|
    decreases |t|
  {
    if t != "" && t[0] == '\"' then Some(("", t[1..]))
    else
      match ReadChar(t)
      case None => None
      case Some((c, rest)) =>
        match ReadString(rest)
        case None => None
        case Some((s, end)) => Some(([c] + s, end))
  }

  /** How many characters of a number `t` starts with. */
  function NumLength(t: string): (n: nat)
    ensures n <= |t|
  {
    if t == "" || !NumChar(t[0]) then 0 else 1 + NumLength(t[1..])
  }

  function ReadWord(t: string, word: string, v: Json): (r: Option<(Json, string)>)
    requires word != ""
    ensures r.Some? ==> |r.value.1| < |t|
  {
    if word <= t then Some((v, t[|word|..])) else None
  }

  /** A value and what follows it. */
  function ReadValue(t: string): (r: Option<(Json, string)>)
    ensures r.Some? ==> |r.value.1| < |t|
    decreases |t|, 0
  {
    if t == "" then None
    else if t[0] == 'n' then ReadWord(t, "null", Null)
    else if t[0] == 't' then ReadWord(t, "true", Bool(true))
    else if t[0] == 'f' then ReadWord(t, "false", Bool(false))
    else if t[0] == '\"' then
      var s := ReadString(t[1..]);
      if s.Some? then Some((Str(s.value.0), s.value.1)) else None
    else if t[0] == '[' then ReadArray(t[1..])
    else if t[0] == '{' then ReadObject(t[1..])
    else if '0' <= t[0] <= '9' || t[0] == '-' then Some((Num(t[..NumLength(t)]), t[NumLength(t)..]))
    else None
  }

  function ReadArray(t: string): (r: Option<(Json, string)>)
    ensures r.Some? ==> |r.value.1| < |t|
    decreases |t|, 2
  {
    if t != "" && t[0] == ']' then Some((Arr([]), t[1..]))
    else
      var items := ReadItems(t);
      if items.Some? then Some((Arr(items.value.0), items.value.1)) else None
  }

  function ReadObject(t: string): (r: Option<(Json, string)>)
    ensures r.Some? ==> |r.value.1| < |t|
    decreases |t|, 2
  {
    if t != "" && t[0] == '}' then Some((Obj([]), t[1..]))
    else
      var fields := ReadFields(t);
      if fields.Some? then Some((Obj(fields.value.0), fields.value.1)) else None
  }

  /** One or more items up to the closing bracket. */
  function ReadItems(t: string): (r: Option<(seq<Json>, string)>)
    ensures r.Some? ==> |r.value.1| < |t|
    decreases |t|, 1
  {
    match ReadValue(t)
    case None => None
    case Some((v, rest)) =>
      if rest == "" then None
      else if rest[0] == ']' then Some(([v], rest[1..]))
      else if rest[0] != ',' then None
      else
        var more := ReadItems(rest[1..]);
        if more.Some? then Some(([v] + more.value.0, more.value.1)) else None
  }

  function ReadMember(t: string): (r: Option<(Entry<Json>, string)>)
    ensures r.Some? ==> |r.value.1| < |t|
    decreases |t|, 0
  {
    if t == "" || t[0] != '\"' then None
    else
      match ReadString(t[1..])
      case None => None
      case Some((key, rest)) =>
        if rest == "" || rest[0] != ':' then None
        else
          var v := ReadValue(rest[1..]);
          if v.Some? then Some((Entry(key, v.value.0), v.value.1)) else None
  }

  /** One or more members up to the closing brace. */
  function ReadFields(t: string): (r: Option<(seq<Entry<Json>>, string)>)
    ensures r.Some? ==> |r.value.1| < |t|
    decreases |t|, 1
  {
    match ReadMember(t)
    case None => None
    case Some((f, rest)) =>
      if rest == "" then None
      else if rest[0] == '}' then Some(([f], rest[1..]))
      else if rest[0] != ',' then None
      else
        var more := ReadFields(rest[1..]);
        if more.Some? then Some(([f] + more.value.0, more.value.1)) else None
  }

  /******* Strings and numbers *******/

  lemma HexRead(n: nat)
    requires n < 16
    ensures HexValue(HexDigit(n)) == Some(n)
  {
  }

  lemma LowHex(n: nat)
    requires n < 32
    ensures Hex4(['0', '0', HexDigit(n / 16), HexDigit(n % 16)]) == Some(n as char)
  {
    HexRead(n / 16);
    HexRead(n % 16);
    assert HexValue('0') == Some(0);
  }

  lemma EscapeReads(c: char, rest: string)
    ensures ReadChar(Escape(c) + rest) == Some((c, rest))
    ensures (Escape(c) + rest)[0] != '\"'
  {
    var t := Escape(c) + rest;
    HeadEscape(c, rest);
    if |Escape(c)| == 1 {
      assert t[1..] == rest;
    } else if |Escape(c)| == 2 {
      assert t[2..] == rest;
    } else {
      var n := c as int;
      assert t[6..] == rest && t[2..6] == ['0', '0', HexDigit(n / 16), HexDigit(n % 16)];
      LowHex(n);
    }
  }

  /**
    The writer escapes nothing it need not and takes the short form where
    there is one: a character stands for itself unless it is a quote, a
    backslash or a control character, and only control characters without a
    letter of their own are written with four lower-case digits.
  */
  lemma EscapesAreShortest(c: char)
    ensures Escape(c) == [c] <==> c >= ' ' && c != '\"' && c != '\\'
    ensures |Escape(c)| == 2 <==> Escape(c) != [c] && exists e :: ShortEscape(e) == Some(c)
    ensures |Escape(c)| != 1 && |Escape(c)| != 2 ==> |Escape(c)| == 6 && forall d <- Escape(c) :: !('A' <= d <= 'F')
  {
    assert ShortEscape('\"') == Some('\"') && ShortEscape('\\') == Some('\\');
    assert ShortEscape('b') == Some(8 as char) && ShortEscape('t') == Some('\t') && ShortEscape('n') == Some('\n');
    assert ShortEscape('f') == Some(12 as char) && ShortEscape('r') == Some('\r');
  }

  lemma {:induction false} StringReads(s: string, x: string)
    ensures ReadString(AfterQuote(s, x)) == Some((s, x))
  {
    AfterQuoteUnfolds(s, x);
    if s == "" {
      assert ("\"" + x)[1..] == x;
    } else {
      EscapeReads(s[0], AfterQuote(s[1..], x));
      StringReads(s[1..], x);
      assert s == [s[0]] + s[1..];
    }
  }

  lemma QuotedReads(s: string, x: string)
    ensures (Quoted(s) + x)[0] == '\"' && ReadString((Quoted(s) + x)[1..]) == Some((s, x))
  {
    assert (Quoted(s) + x)[1..] == AfterQuote(s, x);
    StringReads(s, x);
  }

  lemma {:induction false} NumberEnds(t: string, x: string)
    requires (forall c <- t :: NumChar(c)) && Stop(x)
    ensures NumLength(t + x) == |t|
  {
    if t == "" {
      assert t + x == x;
    } else {
      assert (t + x)[1..] == t[1..] + x;
      NumberEnds(t[1..], x);
    }
  }

  /******* Values *******/

  /** Every object in it lists its members by strictly increasing key. */
  ghost predicate KeysInOrder(v: Json)
  {
    match v
    case Arr(items) => forall x <- items :: KeysInOrder(x)
    case Obj(fields) => Sorted(fields) && forall f <- fields :: KeysInOrder(f.value)
    case _ => true
  }

  /** What a value must read back as. */
  ghost predicate ReadsAs(t: string, v: Json, w: Json, x: string)
  {
    ReadValue(t) == Some((w, x)) && Same(v, w) && KeysInOrder(w)
  }

  lemma ScalarReads(v: Json, x: string)
    requires WellFormed(v) && Stop(x) && !v.Arr? && !v.Obj?
    ensures ReadsAs(Canonical(v) + x, v, v, x)
  {
    var t := Canonical(v) + x;
    match v
    case Null => assert t[..4] == "null" && t[4..] == x;
    case Bool(b) => assert if b then t[..4] == "true" && t[4..] == x else t[..5] == "false" && t[5..] == x;
    case Num(text) =>
      NumberEnds(text, x);
      assert t[..|text|] == text && t[|text|..] == x && t[0] == text[0];
    case Str(s) => QuotedReads(s, x);
  }

  /** A canonical text, with a separator or nothing behind it, reads back as the value it was written for. */
  lemma {:induction false} CanonicalReads(v: Json, x: string) returns (w: Json)
    requires WellFormed(v) && Stop(x)
    ensures ReadsAs(Canonical(v) + x, v, w, x)
    decreases v, 2, 0
  {
    if v.Arr? {
      w := ArrReads(v, x);
    } else if v.Obj? {
      w := ObjReads(v, x);
    } else {
      w := v;
      ScalarReads(v, x);
    }
  }

  lemma BracketReads(t: string)
    ensures ReadValue("[" + t) == ReadArray(t)
  {
    assert ("[" + t)[1..] == t;
  }

  lemma BraceReads(t: string)
    ensures ReadValue("{" + t) == ReadObject(t)
  {
    assert ("{" + t)[1..] == t;
  }

  lemma LastItem(t: string, w: Json, x: string)
    requires ReadValue(t) == Some((w, "]" + x))
    ensures ReadItems(t) == Some(([w] + [], x))
  {
    assert [w] + [] == [w];
    assert ("]" + x)[1..] == x;
  }

  lemma MoreItems(t: string, w: Json, u: string, ws: seq<Json>, x: string)
    requires ReadValue(t) == Some((w, "," + u)) && ReadItems(u) == Some((ws, x))
    ensures ReadItems(t) == Some(([w] + ws, x))
  {
    assert ("," + u)[1..] == u;
  }

  lemma LastField(t: string, g: Entry<Json>, x: string)
    requires ReadMember(t) == Some((g, "}" + x))
    ensures ReadFields(t) == Some(([g] + [], x))
  {
    assert [g] + [] == [g];
    assert ("}" + x)[1..] == x;
  }

  lemma MoreFields(t: string, g: Entry<Json>, u: string, gs: seq<Entry<Json>>, x: string)
    requires ReadMember(t) == Some((g, "," + u)) && ReadFields(u) == Some((gs, x))
    ensures ReadFields(t) == Some(([g] + gs, x))
  {
    assert ("," + u)[1..] == u;
  }

  lemma {:induction false} ArrReads(v: Json, x: string) returns (w: Json)
    requires WellFormed(v) && v.Arr?
    ensures ReadsAs(Canonical(v) + x, v, w, x)
    decreases v, 1, 0
  {
    var ts := Texts(v.items);
    ArrText(v.items, x);
    TextsStart(v.items);
    ItemsEnd(ts, 0, x);
    var ws: seq<Json> := [];
    if v.items != [] {
      ws := ItemsRead(v, 0, x);
    }
    w := Arr(ws);
    BracketReads(ItemsFrom(ts, 0, x));
    assert ItemsAre(v.items, 0, ws);
  }

  /** Item by item, the same values, in order inside. */
  ghost predicate ItemsAre(items: seq<Json>, i: nat, ws: seq<Json>)
    requires i <= |items|
  {
    |ws| == |items| - i && forall k :: 0 <= k < |ws| ==> Same(items[i + k], ws[k]) && KeysInOrder(ws[k])
  }

  lemma ItemsPrepend(items: seq<Json>, i: nat, w: Json, more: seq<Json>)
    requires i < |items| && Same(items[i], w) && KeysInOrder(w) && ItemsAre(items, i + 1, more)
    ensures ItemsAre(items, i, [w] + more)
  {
    var ws := [w] + more;
    forall k | 0 <= k < |ws| ensures Same(items[i + k], ws[k]) && KeysInOrder(ws[k]) {
      assert k > 0 ==> ws[k] == more[k - 1] && items[i + k] == items[i + 1 + (k - 1)];
    }
  }

  lemma {:induction false} ItemsRead(v: Json, i: nat, x: string) returns (ws: seq<Json>)
    requires WellFormed(v) && v.Arr? && i < |v.items|
    ensures ReadItems(ItemsFrom(Texts(v.items), i, x)) == Some((ws, x)) && ItemsAre(v.items, i, ws)
    decreases v, 0, |v.items| - i
  {
    var ts := Texts(v.items);
    assert v.items[i] in v.items;
    var w := CanonicalReads(v.items[i], AfterItem(ts, i, x));
    ItemsFromUnfolds(ts, i, x);
    var more: seq<Json> := [];
    if i + 1 == |ts| {
      LastItem(ItemsFrom(ts, i, x), w, x);
    } else {
      more := ItemsRead(v, i + 1, x);
      MoreItems(ItemsFrom(ts, i, x), w, ItemsFrom(ts, i + 1, x), more, x);
    }
    ws := [w] + more;
    ItemsPrepend(v.items, i, w, more);
  }

  /** Member by member, the keys of `es` with the same values as the fields they stand for. */
  ghost predicate FieldsAre(v: Json, es: seq<Entry<string>>, i: nat, gs: seq<Entry<Json>>)
    requires v.Obj? && i <= |es|
  {
    |gs| == |es| - i && forall k :: 0 <= k < |gs| ==> gs[k].key == es[i + k].key && FieldIs(v, gs[k])
  }

  ghost predicate FieldIs(v: Json, g: Entry<Json>)
    requires v.Obj?
  {
    KeysInOrder(g.value) && exists f <- v.fields :: f.key == g.key && Same(f.value, g.value)
  }

  lemma {:induction false} ObjReads(v: Json, x: string) returns (w: Json)
    requires WellFormed(v) && v.Obj?
    ensures ReadsAs(Canonical(v) + x, v, w, x)
    decreases v, 1, 0
  {
    var es := Sort(Rendered(v.fields));
    ObjText(v.fields, x);
    SortRenders(v);
    FieldsEnd(es, 0, x);
    var gs: seq<Entry<Json>> := [];
    if es != [] {
      gs := FieldsRead(v, es, 0, x);
    }
    w := Obj(gs);
    BraceReads(FieldsFrom(es, 0, x));
    FieldsAreSame(v, es, gs);
  }

  lemma FieldsPrepend(v: Json, es: seq<Entry<string>>, i: nat, g: Entry<Json>, more: seq<Entry<Json>>)
    requires v.Obj? && i < |es| && g.key == es[i].key && FieldIs(v, g) && FieldsAre(v, es, i + 1, more)
    ensures FieldsAre(v, es, i, [g] + more)
  {
    var gs := [g] + more;
    forall k | 0 <= k < |gs| ensures gs[k].key == es[i + k].key && FieldIs(v, gs[k]) {
      assert k > 0 ==> gs[k] == more[k - 1] && es[i + k] == es[i + 1 + (k - 1)];
    }
  }

  /** The member that stands at `i`, read with the value of its field. */
  lemma {:induction false} FieldRead(v: Json, es: seq<Entry<string>>, i: nat, x: string) returns (g: Entry<Json>)
    requires WellFormed(v) && Renders(v, es) && i < |es|
    ensures ReadMember(FieldsFrom(es, i, x)) == Some((g, AfterValue(es, i, x))) && g.key == es[i].key && FieldIs(v, g)
    decreases v, 0, |es| - i, 0
  {
    assert es[i] in es;
    var m :| 0 <= m < |v.fields| && es[i] == Entry(v.fields[m].key, Canonical(v.fields[m].value));
    assert v.fields[m] in v.fields;
    var w := CanonicalReads(v.fields[m].value, AfterValue(es, i, x));
    g := Entry(es[i].key, w);
    MemberReads(es, i, x, w, AfterValue(es, i, x));
  }

  lemma {:induction false} FieldsRead(v: Json, es: seq<Entry<string>>, i: nat, x: string) returns (gs: seq<Entry<Json>>)
    requires WellFormed(v) && Renders(v, es) && i < |es|
    ensures ReadFields(FieldsFrom(es, i, x)) == Some((gs, x)) && FieldsAre(v, es, i, gs)
    decreases v, 0, |es| - i, 1
  {
    var g := FieldRead(v, es, i, x);
    var more: seq<Entry<Json>> := [];
    if i + 1 == |es| {
      LastField(FieldsFrom(es, i, x), g, x);
    } else {
      more := FieldsRead(v, es, i + 1, x);
      MoreFields(FieldsFrom(es, i, x), g, FieldsFrom(es, i + 1, x), more, x);
    }
    gs := [g] + more;
    FieldsPrepend(v, es, i, g, more);
  }

  lemma MemberReads(es: seq<Entry<string>>, i: nat, x: string, w: Json, rest: string)
    requires i < |es| && rest == AfterValue(es, i, x) && ReadValue(es[i].value + rest) == Some((w, rest))
    ensures ReadMember(FieldsFrom(es, i, x)) == Some((Entry(es[i].key, w), rest))
  {
    FieldsFromUnfolds(es, i, x);
    QuotedReads(es[i].key, ":" + (es[i].value + rest));
    Tail(':', es[i].value + rest);
  }

  lemma FieldsAreSame(v: Json, es: seq<Entry<string>>, gs: seq<Entry<Json>>)
    requires WellFormed(v) && v.Obj? && es == Sort(Rendered(v.fields)) && FieldsAre(v, es, 0, gs)
    ensures Same(v, Obj(gs)) && KeysInOrder(Obj(gs))
  {
    SortRenders(v);
    assert Sorted(gs);
    forall g <- gs ensures KeysInOrder(g.value) && HasKey(v.fields, g.key) {
      var k :| 0 <= k < |gs| && gs[k] == g;
      assert FieldIs(v, gs[k]);
    }
    forall f <- v.fields ensures HasKey(gs, f.key) {
      var k := KeyIsRendered(v, f);
      assert gs[k] in gs && gs[k].key == f.key;
    }
    forall m, n | 0 <= m < |v.fields| && 0 <= n < |gs| && v.fields[m].key == gs[n].key
      ensures Same(v.fields[m].value, gs[n].value)
    {
      assert FieldIs(v, gs[n]);
      var f :| f in v.fields && f.key == gs[n].key && Same(f.value, gs[n].value);
      OneField(v.fields, v.fields[m], f);
    }
  }

  lemma OneField(fields: seq<Entry<Json>>, f: Entry<Json>, g: Entry<Json>)
    requires Distinct(fields) && f in fields && g in fields && f.key == g.key
    ensures f == g
  {
  }

  /**
    The text an approval binds to is JSON and says the approved call: read
    whole, it is the value up to field order, with the keys of every object
    in order and nothing left over.
  */
  lemma CanonicalIsJson(v: Json) returns (w: Json)
    requires WellFormed(v)
    ensures ReadValue(Canonical(v)) == Some((w, "")) && Same(v, w) && KeysInOrder(w)
  {
    w := CanonicalReads(v, "");
    assert Canonical(v) + "" == Canonical(v);
  }
}
