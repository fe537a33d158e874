/**
  Aggregation of audit rows into per-server and per-tool statistics, and the
  cache that keeps the statistics of one exact log content.

  The incremental tallies of the aggregation loop are proved against plain
  definitions on the list of call rows: how many, how many failed, which
  durations, the latest time stamp.
*/
module AuditStats {
  import opened Basics
  import opened TextLines

  /** An audit row as the aggregation reads it: a field is `None` when missing or of another JSON type. */
  datatype Row = Row(
    ok: Option<bool>, kind: Option<string>, server: Option<string>, tool: Option<string>,
    ts: Option<nat>, dur: Option<nat>, dropped: Option<nat>)

  const GOVERNANCE := {"approval", "routine", "advisor", "suggestion", "candidate", "telemetry_gap", "internal", "session"}

  /** `tool_call_ok` */
  function ToolCallOk(r: Row): Option<bool>
  {
    if r.ok.None? then None
    else if r.tool == Some("sync_environment_refused") then None
    else if r.kind.Some? && r.kind.value in GOVERNANCE then None
    else r.ok
  }

  predicate IsGap(r: Row)
  {
    r.kind == Some("telemetry_gap")
  }

  predicate IsCall(r: Row)
  {
    ToolCallOk(r).Some?
  }

  function ServerName(r: Row): string
  {
    if r.server.Some? then r.server.value else "?"
  }

  function ToolName(r: Row): string
  {
    if r.tool.Some? then r.tool.value else "?"
  }

  /******* Plain definitions *******/

  /** What `pick` takes from each row, in order. */
  function Collect<T>(rows: seq<Row>, pick: Row -> seq<T>): seq<T>
  {
    if rows == [] then [] else Collect(rows[..|rows| - 1], pick) + pick(rows[|rows| - 1])
  }

  function IfCall(r: Row): seq<Row>
  {
    if IsCall(r) then [r] else []
  }

  function IfFailed(r: Row): seq<Row>
  {
    if ToolCallOk(r) == Some(false) then [r] else []
  }

  function IfTimed(r: Row): seq<nat>
  {
    if r.dur.Some? then [r.dur.value] else []
  }

  function IfKey(key: Row -> string, k: string): Row -> seq<Row>
  {
    r => if key(r) == k then [r] else []
  }

  function CallRows(rows: seq<Row>): seq<Row>
  {
    Collect(rows, IfCall)
  }

  function Failed(rows: seq<Row>): seq<Row>
  {
    Collect(rows, IfFailed)
  }

  function Durations(rows: seq<Row>): seq<nat>
  {
    Collect(rows, IfTimed)
  }

  function Latest(rows: seq<Row>): nat
  {
    if rows == [] then 0
    else
      var (init, last) := (rows[..|rows| - 1], rows[|rows| - 1]);
      Max(Latest(init), if last.ts.Some? then last.ts.value else 0)
  }

  /** The rows whose key is `k`; the key is the server name or the tool name. */
  function KeyRows(rows: seq<Row>, key: Row -> string, k: string): seq<Row>
  {
    Collect(rows, IfKey(key, k))
  }

  function Keys(rows: seq<Row>, key: Row -> string): set<string>
  {
    set r <- rows :: key(r)
  }

  function Dropped(rows: seq<Row>): nat
  {
    if rows == [] then 0
    else
      var (init, last) := (rows[..|rows| - 1], rows[|rows| - 1]);
      SaturatingAdd(Dropped(init), if IsGap(last) && last.dropped.Some? then last.dropped.value else 0)
  }

  function Sum(xs: seq<nat>): nat
  {
    if xs == [] then 0 else Sum(xs[..|xs| - 1]) + xs[|xs| - 1]
  }

  /******* Latency *******/

  predicate Ascending(xs: seq<nat>)
  {
    |xs| <= 1 || (Ascending(xs[..|xs| - 1]) && xs[|xs| - 2] <= xs[|xs| - 1])
  }

  function InsertNat(xs: seq<nat>, x: nat): (r: seq<nat>)
    requires Ascending(xs)
    ensures |r| == |xs| + 1 && Ascending(r) && r[|xs|] == if xs == [] then x else Max(x, xs[|xs| - 1])
  {
    if xs == [] || xs[|xs| - 1] <= x then
      var r := xs + [x];
      assert r[..|xs|] == xs;
      r
    else
      var init := InsertNat(xs[..|xs| - 1], x);
      var r := init + [xs[|xs| - 1]];
      assert r[..|xs|] == init;
      r
  }

  lemma Cancel<T>(a: multiset<T>, b: multiset<T>, x: T)
    requires a + multiset{x} == b + multiset{x}
    ensures a == b
  {
    assert a == (a + multiset{x}) - multiset{x};
    assert b == (b + multiset{x}) - multiset{x};
  }

  lemma DropLast<T>(xs: seq<T>)
    requires xs != []
    ensures multiset(xs) == multiset(xs[..|xs| - 1]) + multiset{xs[|xs| - 1]}
  {
    assert xs == xs[..|xs| - 1] + [xs[|xs| - 1]];
  }

  lemma {:induction false} InsertKeepsAll(xs: seq<nat>, x: nat)
    requires Ascending(xs)
    ensures multiset(InsertNat(xs, x)) == multiset(xs) + multiset{x}
  {
    if xs != [] && xs[|xs| - 1] > x {
      InsertKeepsAll(xs[..|xs| - 1], x);
      DropLast(xs);
    }
  }

  /** The durations in order. */
  function SortNats(xs: seq<nat>): (r: seq<nat>)
    ensures |r| == |xs| && Ascending(r)
  {
    if xs == [] then [] else InsertNat(SortNats(xs[..|xs| - 1]), xs[|xs| - 1])
  }

  lemma {:induction false} SortKeepsAll(xs: seq<nat>)
    ensures multiset(SortNats(xs)) == multiset(xs)
  {
    if xs != [] {
      SortKeepsAll(xs[..|xs| - 1]);
      InsertKeepsAll(SortNats(xs[..|xs| - 1]), xs[|xs| - 1]);
      DropLast(xs);
    }
  }

  lemma {:induction false} LastIsGreatest(xs: seq<nat>, i: nat)
    requires Ascending(xs) && i < |xs|
    ensures xs[i] <= xs[|xs| - 1]
  {
    if i < |xs| - 1 {
      LastIsGreatest(xs[..|xs| - 1], i);
    }
  }

  lemma GreatestIsLast(xs: seq<nat>, x: nat)
    requires Ascending(xs) && x in multiset(xs)
    ensures xs != [] && x <= xs[|xs| - 1]
  {
    var i :| 0 <= i < |xs| && xs[i] == x;
    LastIsGreatest(xs, i);
  }

  lemma LastAgrees(xs: seq<nat>, ys: seq<nat>)
    requires Ascending(xs) && Ascending(ys) && multiset(xs) == multiset(ys) && xs != [] && ys != []
    ensures xs[|xs| - 1] == ys[|ys| - 1]
  {
    assert xs[|xs| - 1] in multiset(xs) && ys[|ys| - 1] in multiset(ys);
    GreatestIsLast(ys, xs[|xs| - 1]);
    GreatestIsLast(xs, ys[|ys| - 1]);
  }

  /** A multiset of numbers is in order in only one way. */
  lemma {:induction false} AscendingUnique(xs: seq<nat>, ys: seq<nat>)
    requires Ascending(xs) && Ascending(ys) && multiset(xs) == multiset(ys)
    ensures xs == ys
  {
    SameSize(xs, ys);
    if xs != [] {
      var n := |xs| - 1;
      LastAgrees(xs, ys);
      DropLast(xs);
      DropLast(ys);
      Cancel(multiset(xs[..n]), multiset(ys[..n]), xs[n]);
      AscendingPrefix(xs);
      AscendingPrefix(ys);
      AscendingUnique(xs[..n], ys[..n]);
      assert xs == xs[..n] + [xs[n]] && ys == ys[..n] + [ys[n]];
    }
  }

  lemma AscendingPrefix(xs: seq<nat>)
    requires xs != [] && Ascending(xs)
    ensures Ascending(xs[..|xs| - 1])
  {
  }

  lemma SameSize<T>(xs: seq<T>, ys: seq<T>)
    requires multiset(xs) == multiset(ys)
    ensures |xs| == |ys|
  {
    assert |multiset(xs)| == |xs| && |multiset(ys)| == |ys|;
  }

  datatype Lat = Lat(avg: Option<nat>, p95: Option<nat>)

  function Rank(rank: nat -> nat, n: nat): nat
    requires n > 0
  {
    Min(if rank(n) > 0 then rank(n) - 1 else 0, n - 1)
  }

  /** Mean of the saturated sum, and the value at the rank. The rank is a float computation on the size: any function. */
  function LatencyOf(durs: seq<nat>, rank: nat -> nat): Lat
  {
    if durs == [] then Lat(None, None)
    else Lat(Some(Min(U64_MAX, Sum(durs)) / |durs|), Some(SortNats(durs)[Rank(rank, |durs|)]))
  }

  method Latency(durs: seq<nat>, rank: nat -> nat) returns (l: Lat)
    ensures l == LatencyOf(durs, rank)
  {
    if durs == [] {
      return Lat(None, None);
    }
    var sum := 0;
    for i := 0 to |durs|
      invariant sum == Min(U64_MAX, Sum(durs[..i]))
    {
      assert durs[..i + 1][..i] == durs[..i];
      sum := SaturatingAdd(sum, durs[i]);
    }
    assert durs[..|durs|] == durs;
    l := Lat(Some(sum / |durs|), Some(SortNats(durs)[Rank(rank, |durs|)]));
  }

  /** The 95th percentile is one of the samples, and as many are at most as great as its rank says. */
  lemma {:induction false} PercentileIsSample(durs: seq<nat>, rank: nat -> nat)
    requires durs != []
    ensures var p := LatencyOf(durs, rank).p95;
            && p.Some? && p.value in durs && multiset(SortNats(durs)) == multiset(durs)
            && forall i :: 0 <= i <= Rank(rank, |durs|) ==> SortNats(durs)[i] <= p.value
  {
    SortKeepsAll(durs);
    var sorted, at := SortNats(durs), Rank(rank, |durs|);
    assert sorted[at] in multiset(sorted);
    NoneAbove(sorted, at);
  }

  lemma NoneAbove(xs: seq<nat>, at: nat)
    requires Ascending(xs) && at < |xs|
    ensures forall i :: 0 <= i <= at ==> xs[i] <= xs[at]
  {
    AscendingPrefixes(xs, at + 1);
    forall i | 0 <= i <= at ensures xs[i] <= xs[at] {
      LastIsGreatest(xs[..at + 1], i);
    }
  }

  lemma {:induction false} AscendingPrefixes(xs: seq<nat>, n: nat)
    requires Ascending(xs) && n <= |xs|
    ensures Ascending(xs[..n])
    decreases |xs| - n
  {
    if n < |xs| {
      AscendingPrefixes(xs, n + 1);
      AscendingPrefix(xs[..n + 1]);
      assert xs[..n + 1][..n] == xs[..n];
    } else {
      assert xs[..n] == xs;
    }
  }

  /******* The order of rows does not matter *******/

  /** Equal contents in any order: the last element of one list stands somewhere in the other. */
  lemma {:induction false} Locate<T>(xs: seq<T>, ys: seq<T>) returns (a: seq<T>, b: seq<T>)
    requires xs != [] && multiset(xs) == multiset(ys)
    ensures ys == a + [xs[|xs| - 1]] + b && multiset(xs[..|xs| - 1]) == multiset(a + b)
  {
    var last := xs[|xs| - 1];
    assert last in multiset(ys);
    var i :| 0 <= i < |ys| && ys[i] == last;
    a, b := ys[..i], ys[i + 1..];
    assert ys == a + [last] + b;
    DropLast(xs);
    assert multiset(ys) == multiset(a + b) + multiset{last};
    Cancel(multiset(xs[..|xs| - 1]), multiset(a + b), last);
  }

  lemma {:induction false} CollectSplit<T>(a: seq<Row>, b: seq<Row>, pick: Row -> seq<T>)
    ensures Collect(a + b, pick) == Collect(a, pick) + Collect(b, pick)
  {
    if b == [] {
      assert a + b == a;
    } else {
      assert (a + b)[..|a + b| - 1] == a + b[..|b| - 1];
      CollectSplit(a, b[..|b| - 1], pick);
    }
  }

  lemma {:induction false} LatestSplit(a: seq<Row>, b: seq<Row>)
    ensures Latest(a + b) == Max(Latest(a), Latest(b))
  {
    if b == [] {
      assert a + b == a;
    } else {
      assert (a + b)[..|a + b| - 1] == a + b[..|b| - 1];
      LatestSplit(a, b[..|b| - 1]);
    }
  }

  lemma {:induction false} DroppedSplit(a: seq<Row>, b: seq<Row>)
    ensures Dropped(a + b) == SaturatingAdd(Dropped(a), Dropped(b))
  {
    if b == [] {
      assert a + b == a;
    } else {
      assert (a + b)[..|a + b| - 1] == a + b[..|b| - 1];
      DroppedSplit(a, b[..|b| - 1]);
    }
  }

  lemma {:induction false} SumSplit(a: seq<nat>, b: seq<nat>)
    ensures Sum(a + b) == Sum(a) + Sum(b)
  {
    if b == [] {
      assert a + b == a;
    } else {
      assert (a + b)[..|a + b| - 1] == a + b[..|b| - 1];
      SumSplit(a, b[..|b| - 1]);
    }
  }

  lemma {:induction false} SumPermuted(xs: seq<nat>, ys: seq<nat>)
    requires multiset(xs) == multiset(ys)
    ensures Sum(xs) == Sum(ys)
  {
    SameSize(xs, ys);
    if xs != [] {
      var a, b := Locate(xs, ys);
      SumPermuted(xs[..|xs| - 1], a + b);
      SumSplit(a, b);
      SumSplit(a + [xs[|xs| - 1]], b);
      SumSplit(a, [xs[|xs| - 1]]);
    }
  }

  lemma {:induction false} DroppedPermuted(xs: seq<Row>, ys: seq<Row>)
    requires multiset(xs) == multiset(ys)
    ensures Dropped(xs) == Dropped(ys)
  {
    SameSize(xs, ys);
    if xs != [] {
      var a, b := Locate(xs, ys);
      var last := [xs[|xs| - 1]];
      assert xs == xs[..|xs| - 1] + last;
      DroppedPermuted(xs[..|xs| - 1], a + b);
      DroppedSplit(xs[..|xs| - 1], last);
      DroppedSplit(a, b);
      DroppedSplit(a + last, b);
      DroppedSplit(a, last);
    }
  }

  /** Whatever is collected row by row, the order of rows only orders it. */
  lemma {:induction false} CollectPermuted<T>(xs: seq<Row>, ys: seq<Row>, pick: Row -> seq<T>)
    requires multiset(xs) == multiset(ys)
    ensures multiset(Collect(xs, pick)) == multiset(Collect(ys, pick))
  {
    SameSize(xs, ys);
    if xs != [] {
      var a, b := Locate(xs, ys);
      var last := [xs[|xs| - 1]];
      assert xs == xs[..|xs| - 1] + last;
      CollectPermuted(xs[..|xs| - 1], a + b, pick);
      CollectSplit(xs[..|xs| - 1], last, pick);
      CollectSplit(a, b, pick);
      CollectSplit(a + last, b, pick);
      CollectSplit(a, last, pick);
    }
  }

  lemma {:induction false} LatestPermuted(xs: seq<Row>, ys: seq<Row>)
    requires multiset(xs) == multiset(ys)
    ensures Latest(xs) == Latest(ys)
  {
    SameSize(xs, ys);
    if xs != [] {
      var a, b := Locate(xs, ys);
      var last := [xs[|xs| - 1]];
      LatestPermuted(xs[..|xs| - 1], a + b);
      LatestSplit(a, b);
      LatestSplit(a + last, b);
      LatestSplit(a, last);
    }
  }

  lemma RowsPermuted(xs: seq<Row>, ys: seq<Row>)
    requires multiset(xs) == multiset(ys)
    ensures |Failed(xs)| == |Failed(ys)| && Latest(xs) == Latest(ys)
    ensures multiset(Durations(xs)) == multiset(Durations(ys))
  {
    LatestPermuted(xs, ys);
    CollectPermuted(xs, ys, IfFailed);
    SameSize(Failed(xs), Failed(ys));
    CollectPermuted(xs, ys, IfTimed);
  }

  lemma {:induction false} LatencyPermuted(xs: seq<nat>, ys: seq<nat>, rank: nat -> nat)
    requires multiset(xs) == multiset(ys)
    ensures LatencyOf(xs, rank) == LatencyOf(ys, rank)
  {
    SameSize(xs, ys);
    SumPermuted(xs, ys);
    SortKeepsAll(xs);
    SortKeepsAll(ys);
    AscendingUnique(SortNats(xs), SortNats(ys));
  }

  /******* Statistics *******/

  datatype Stat = Stat(calls: nat, errors: nat, rate: real, latency: Lat, lastTs: nat)

  /** A tool with nothing below it, or a server with its tools. */
  datatype Entry<T> = Entry(name: string, stat: Stat, detail: T)

  type ToolStat = Entry<()>

  type ServerStat = Entry<seq<ToolStat>>

  datatype Stats = Stats(total: nat, dropped: nat, errors: nat, rate: real, servers: seq<ServerStat>)

  function ErrorRate(errors: nat, calls: nat): real
  {
    if calls > 0 then errors as real / calls as real else 0.0
  }

  /** What is reported about a set of call rows. */
  function StatOf(rows: seq<Row>, rank: nat -> nat): Stat
  {
    Stat(|rows|, |Failed(rows)|, ErrorRate(|Failed(rows)|, |rows|), LatencyOf(Durations(rows), rank), Latest(rows))
  }

  lemma {:induction false} StatPermuted(xs: seq<Row>, ys: seq<Row>, rank: nat -> nat)
    requires multiset(xs) == multiset(ys)
    ensures StatOf(xs, rank) == StatOf(ys, rank)
  {
    SameSize(xs, ys);
    RowsPermuted(xs, ys);
    LatencyPermuted(Durations(xs), Durations(ys), rank);
  }

  /** One entry per name, busiest first. */
  predicate Ranked<T(!new)>(xs: seq<Entry<T>>)
  {
    forall i, j :: 0 <= i < j < |xs| ==> xs[i].name != xs[j].name && xs[i].stat.calls >= xs[j].stat.calls
  }

  function Names<T>(xs: seq<Entry<T>>): seq<string>
  {
    seq(|xs|, i requires 0 <= i < |xs| => xs[i].name)
  }

  /** One entry per key that occurs, each with the statistics of that key's rows. */
  ghost predicate Covers<T(!new)>(rows: seq<Row>, key: Row -> string, xs: seq<Entry<T>>, rank: nat -> nat)
  {
    && Ranked(xs)
    && (forall k :: k in Names(xs) <==> k in Keys(rows, key))
    && (forall i :: 0 <= i < |xs| ==> xs[i].stat == StatOf(KeyRows(rows, key, xs[i].name), rank))
  }

  ghost predicate ServersMeet(calls: seq<Row>, servers: seq<ServerStat>, rank: nat -> nat)
  {
    && Covers(calls, ServerName, servers, rank)
    && (forall i :: 0 <= i < |servers| ==> Covers(KeyRows(calls, ServerName, servers[i].name), ToolName, servers[i].detail, rank))
  }

  /** The statistics of a log: what every aggregation of these rows must report. */
  ghost predicate Meets(rows: seq<Row>, st: Stats, rank: nat -> nat)
  {
    var calls := CallRows(rows);
    && st.total == |calls| && st.errors == |Failed(calls)| && st.rate == ErrorRate(st.errors, st.total)
    && st.dropped == Dropped(rows)
    && ServersMeet(calls, st.servers, rank)
  }

  /******* Conservation *******/

  function CallsIn<T>(xs: seq<Entry<T>>): nat
  {
    if xs == [] then 0 else CallsIn(xs[..|xs| - 1]) + xs[|xs| - 1].stat.calls
  }

  function ErrorsIn<T>(xs: seq<Entry<T>>): nat
  {
    if xs == [] then 0 else ErrorsIn(xs[..|xs| - 1]) + xs[|xs| - 1].stat.errors
  }

  function CountOver(rows: seq<Row>, key: Row -> string, names: seq<string>): nat
  {
    if names == [] then 0
    else CountOver(rows, key, names[..|names| - 1]) + |KeyRows(rows, key, names[|names| - 1])|
  }

  predicate Distinct(names: seq<string>)
  {
    forall i, j :: 0 <= i < j < |names| ==> names[i] != names[j]
  }

  lemma {:induction false} CountOverStep(rows: seq<Row>, r: Row, key: Row -> string, names: seq<string>)
    requires Distinct(names)
    ensures CountOver(rows + [r], key, names) == CountOver(rows, key, names) + if key(r) in names then 1 else 0
  {
    if names != [] {
      var init := names[..|names| - 1];
      CountOverStep(rows, r, key, init);
      assert names == init + [names[|names| - 1]];
      assert (rows + [r])[..|rows|] == rows;
    }
  }

  /** Rows counted name by name are rows counted. */
  lemma {:induction false} PartitionCounts(rows: seq<Row>, key: Row -> string, names: seq<string>)
    requires Distinct(names) && forall r <- rows :: key(r) in names
    ensures CountOver(rows, key, names) == |rows|
  {
    if rows == [] {
      NothingToCount(key, names);
    } else {
      var init, last := rows[..|rows| - 1], rows[|rows| - 1];
      assert rows == init + [last] && last in rows;
      PartitionCounts(init, key, names);
      CountOverStep(init, last, key, names);
    }
  }

  lemma NothingToCount(key: Row -> string, names: seq<string>)
    ensures CountOver([], key, names) == 0
  {
  }

  lemma {:induction false} FailedOfKey(rows: seq<Row>, key: Row -> string, k: string)
    ensures Failed(KeyRows(rows, key, k)) == KeyRows(Failed(rows), key, k)
  {
    if rows != [] {
      var init, last := rows[..|rows| - 1], [rows[|rows| - 1]];
      assert rows == init + last && last[..0] == [];
      FailedOfKey(init, key, k);
      CollectSplit(init, last, IfKey(key, k));
      CollectSplit(init, last, IfFailed);
      CollectSplit(KeyRows(init, key, k), KeyRows(last, key, k), IfFailed);
      CollectSplit(Failed(init), Failed(last), IfKey(key, k));
      assert Failed(last) == [] || Failed(last) == last;
      assert KeyRows(last, key, k) == [] || KeyRows(last, key, k) == last;
    }
  }

  lemma {:induction false} FailedAreRows(rows: seq<Row>)
    ensures forall r <- Failed(rows) :: r in rows
  {
    if rows != [] {
      FailedAreRows(rows[..|rows| - 1]);
      assert rows == rows[..|rows| - 1] + [rows[|rows| - 1]];
    }
  }

  /** What the entries say they count. */
  predicate Counted<T(!new)>(rows: seq<Row>, key: Row -> string, xs: seq<Entry<T>>)
  {
    forall i :: 0 <= i < |xs| ==>
      && xs[i].stat.calls == |KeyRows(rows, key, xs[i].name)|
      && xs[i].stat.errors == |KeyRows(Failed(rows), key, xs[i].name)|
  }

  lemma {:induction false} EntriesCount<T(!new)>(rows: seq<Row>, key: Row -> string, xs: seq<Entry<T>>)
    requires Counted(rows, key, xs)
    ensures CallsIn(xs) == CountOver(rows, key, Names(xs))
    ensures ErrorsIn(xs) == CountOver(Failed(rows), key, Names(xs))
  {
    if xs != [] {
      var init := xs[..|xs| - 1];
      EntriesCount(rows, key, init);
      assert Names(xs)[..|xs| - 1] == Names(init);
    }
  }

  lemma {:induction false} CoversConserves<T(!new)>(rows: seq<Row>, key: Row -> string, xs: seq<Entry<T>>, rank: nat -> nat)
    requires Covers(rows, key, xs, rank)
    ensures CallsIn(xs) == |rows| && ErrorsIn(xs) == |Failed(rows)|
  {
    forall i | 0 <= i < |xs| ensures xs[i].stat.errors == |KeyRows(Failed(rows), key, xs[i].name)| {
      FailedOfKey(rows, key, xs[i].name);
    }
    EntriesCount(rows, key, xs);
    assert forall r <- rows :: key(r) in Keys(rows, key);
    PartitionCounts(rows, key, Names(xs));
    FailedAreRows(rows);
    PartitionCounts(Failed(rows), key, Names(xs));
  }

  /** Totals are the sums over servers, and each server's the sums over its tools. */
  lemma {:induction false} AggregateConserves(rows: seq<Row>, st: Stats, rank: nat -> nat)
    requires Meets(rows, st, rank)
    ensures st.total == CallsIn(st.servers) && st.errors == ErrorsIn(st.servers)
    ensures forall s <- st.servers :: s.stat.calls == CallsIn(s.detail) && s.stat.errors == ErrorsIn(s.detail)
  {
    var calls := CallRows(rows);
    CoversConserves(calls, ServerName, st.servers, rank);
    forall s <- st.servers ensures s.stat.calls == CallsIn(s.detail) && s.stat.errors == ErrorsIn(s.detail) {
      CoversConserves(KeyRows(calls, ServerName, s.name), ToolName, s.detail, rank);
    }
  }

  /******* Determinacy *******/

  /** The same names with the same statistics; ties may stand in any order. */
  ghost predicate SameEntries<T(!new)>(a: seq<Entry<T>>, b: seq<Entry<T>>)
  {
    && |a| == |b|
    && (forall k :: k in Names(a) <==> k in Names(b))
    && (forall i, j :: 0 <= i < |a| && 0 <= j < |b| && a[i].name == b[j].name ==> a[i].stat == b[j].stat)
  }

  ghost predicate SameStats(a: Stats, b: Stats)
  {
    && a.total == b.total && a.errors == b.errors && a.rate == b.rate && SameEntries(a.servers, b.servers)
    && (forall i, j :: 0 <= i < |a.servers| && 0 <= j < |b.servers| && a.servers[i].name == b.servers[j].name ==>
          SameEntries(a.servers[i].detail, b.servers[j].detail))
  }

  lemma {:induction false} DistinctCount(xs: seq<string>, ys: seq<string>)
    requires Distinct(xs) && forall x <- xs :: x in ys
    ensures |xs| <= |ys|
  {
    if xs != [] {
      var last := xs[|xs| - 1];
      assert last in xs;
      var i :| 0 <= i < |ys| && ys[i] == last;
      var rest := ys[..i] + ys[i + 1..];
      forall x <- xs[..|xs| - 1] ensures x in rest {
        assert x in xs && x in ys && x != last;
        var j :| 0 <= j < |ys| && ys[j] == x;
        assert x == if j < i then rest[j] else rest[j - 1];
      }
      DistinctCount(xs[..|xs| - 1], rest);
    }
  }

  lemma {:induction false} CoversAgree<T(!new)>(xs: seq<Row>, ys: seq<Row>, key: Row -> string, a: seq<Entry<T>>, b: seq<Entry<T>>, rank: nat -> nat)
    requires multiset(xs) == multiset(ys) && Covers(xs, key, a, rank) && Covers(ys, key, b, rank)
    ensures SameEntries(a, b)
  {
    assert forall r :: r in xs <==> r in multiset(xs);
    assert forall r :: r in ys <==> r in multiset(ys);
    assert Keys(xs, key) == Keys(ys, key);
    DistinctCount(Names(a), Names(b));
    DistinctCount(Names(b), Names(a));
    forall i, j | 0 <= i < |a| && 0 <= j < |b| && a[i].name == b[j].name ensures a[i].stat == b[j].stat {
      CollectPermuted(xs, ys, IfKey(key, a[i].name));
      StatPermuted(KeyRows(xs, key, a[i].name), KeyRows(ys, key, a[i].name), rank);
    }
  }

  /**
    Neither the order of the rows nor rows that are not calls matter, whatever
    order hash maps are walked in: logs with the same calls have the same
    statistics, apart from the count of dropped records.
  */
  lemma {:induction false} AggregateOrderFree(xs: seq<Row>, ys: seq<Row>, a: Stats, b: Stats, rank: nat -> nat)
    requires Meets(xs, a, rank) && Meets(ys, b, rank)
    requires multiset(CallRows(xs)) == multiset(CallRows(ys))
    ensures SameStats(a, b)
  {
    var cs, ds := CallRows(xs), CallRows(ys);
    SameSize(cs, ds);
    RowsPermuted(cs, ds);
    CoversAgree(cs, ds, ServerName, a.servers, b.servers, rank);
    forall i, j | 0 <= i < |a.servers| && 0 <= j < |b.servers| && a.servers[i].name == b.servers[j].name
      ensures SameEntries(a.servers[i].detail, b.servers[j].detail)
    {
      var k := a.servers[i].name;
      CollectPermuted(cs, ds, IfKey(ServerName, k));
      CoversAgree(KeyRows(cs, ServerName, k), KeyRows(ds, ServerName, k), ToolName, a.servers[i].detail, b.servers[j].detail, rank);
    }
  }

  /** Any permutation of a log has the same statistics, dropped records included. */
  lemma {:induction false} PermutedLog(xs: seq<Row>, ys: seq<Row>, a: Stats, b: Stats, rank: nat -> nat)
    requires Meets(xs, a, rank) && Meets(ys, b, rank) && multiset(xs) == multiset(ys)
    ensures SameStats(a, b) && a.dropped == b.dropped
  {
    CollectPermuted(xs, ys, IfCall);
    DroppedPermuted(xs, ys);
    AggregateOrderFree(xs, ys, a, b, rank);
  }

  /** Rows that are not calls change nothing, except that a gap row adds to the dropped records. */
  lemma {:induction false} NonCallsAdded(xs: seq<Row>, extra: seq<Row>, a: Stats, b: Stats, rank: nat -> nat)
    requires Meets(xs, a, rank) && Meets(xs + extra, b, rank) && forall r <- extra :: !IsCall(r)
    ensures SameStats(a, b) && b.dropped == SaturatingAdd(a.dropped, Dropped(extra))
    ensures (forall r <- extra :: !IsGap(r)) ==> b.dropped == a.dropped
  {
    NoCalls(extra);
    CollectSplit(xs, extra, IfCall);
    DroppedSplit(xs, extra);
    DroppedBound(xs);
    AggregateOrderFree(xs, xs + extra, a, b, rank);
  }

  lemma {:induction false} NoCalls(rows: seq<Row>)
    requires forall r <- rows :: !IsCall(r)
    ensures CallRows(rows) == [] && ((forall r <- rows :: !IsGap(r)) ==> Dropped(rows) == 0)
  {
    if rows != [] {
      assert rows == rows[..|rows| - 1] + [rows[|rows| - 1]];
      NoCalls(rows[..|rows| - 1]);
    }
  }

  lemma DroppedBound(rows: seq<Row>)
    ensures Dropped(rows) <= U64_MAX
  {
  }

  /******* The aggregation loop *******/

  /** The running counters of `ToolAgg`, and of `Agg` without its tools. */
  datatype Tally = Tally(calls: nat, errors: nat, durs: seq<nat>, lastTs: nat)

  datatype Agg = Agg(tally: Tally, tools: map<string, Tally>)

  const EMPTY: Tally := Tally(0, 0, [], 0)

  function Bump(t: Tally, r: Row): Tally
  {
    Tally(t.calls + 1,
          t.errors + (if ToolCallOk(r) == Some(false) then 1 else 0),
          t.durs + (if r.dur.Some? then [r.dur.value] else []),
          Max(t.lastTs, if r.ts.Some? then r.ts.value else 0))
  }

  predicate TallyOk(rows: seq<Row>, t: Tally)
  {
    t == Tally(|rows|, |Failed(rows)|, Durations(rows), Latest(rows))
  }

  lemma BumpOk(rows: seq<Row>, t: Tally, r: Row)
    requires TallyOk(rows, t)
    ensures TallyOk(rows + [r], Bump(t, r))
  {
    assert (rows + [r])[..|rows|] == rows;
  }

  predicate Grouped(rows: seq<Row>, key: Row -> string, m: map<string, Tally>)
  {
    && m.Keys == Keys(rows, key)
    && forall k <- m :: TallyOk(KeyRows(rows, key, k), m[k])
  }

  predicate AggOk(rows: seq<Row>, a: Agg)
  {
    TallyOk(rows, a.tally) && Grouped(rows, ToolName, a.tools)
  }

  predicate GroupedTwice(rows: seq<Row>, m: map<string, Agg>)
  {
    && m.Keys == Keys(rows, ServerName)
    && forall k <- m :: AggOk(KeyRows(rows, ServerName, k), m[k])
  }

  lemma KeyRowsStep(rows: seq<Row>, r: Row, key: Row -> string, k: string)
    ensures KeyRows(rows + [r], key, k) == if key(r) == k then KeyRows(rows, key, k) + [r] else KeyRows(rows, key, k)
    ensures Keys(rows + [r], key) == Keys(rows, key) + {key(r)}
  {
    assert (rows + [r])[..|rows|] == rows;
  }

  lemma {:induction false} NoKeyNoRows(rows: seq<Row>, key: Row -> string, k: string)
    requires k !in Keys(rows, key)
    ensures KeyRows(rows, key, k) == []
  {
    if rows != [] {
      assert rows[|rows| - 1] in rows && forall r <- rows[..|rows| - 1] :: r in rows;
      NoKeyNoRows(rows[..|rows| - 1], key, k);
    }
  }

  /** `entry(..).or_default()`, then the counters. */
  function BumpAt(m: map<string, Tally>, k: string, r: Row): map<string, Tally>
  {
    m[k := Bump(if k in m then m[k] else EMPTY, r)]
  }

  lemma TallyAfter(rows: seq<Row>, r: Row, key: Row -> string, m: map<string, Tally>, k: string)
    requires Grouped(rows, key, m) && (k in m || k == key(r))
    ensures k in BumpAt(m, key(r), r) && TallyOk(KeyRows(rows + [r], key, k), BumpAt(m, key(r), r)[k])
  {
    KeyRowsStep(rows, r, key, k);
    if k == key(r) {
      if k !in m {
        NoKeyNoRows(rows, key, k);
      }
      BumpOk(KeyRows(rows, key, k), if k in m then m[k] else EMPTY, r);
    }
  }

  lemma GroupStep(rows: seq<Row>, r: Row, key: Row -> string, m: map<string, Tally>, m': map<string, Tally>)
    requires Grouped(rows, key, m) && m' == BumpAt(m, key(r), r)
    ensures Grouped(rows + [r], key, m')
  {
    KeyRowsStep(rows, r, key, key(r));
    assert m'.Keys == m.Keys + {key(r)};
    forall k <- m' ensures TallyOk(KeyRows(rows + [r], key, k), m'[k]) {
      TallyAfter(rows, r, key, m, k);
    }
  }

  function BumpAgg(a: Agg, r: Row): Agg
  {
    Agg(Bump(a.tally, r), BumpAt(a.tools, ToolName(r), r))
  }

  lemma AggStep(rows: seq<Row>, a: Agg, r: Row)
    requires AggOk(rows, a)
    ensures AggOk(rows + [r], BumpAgg(a, r))
  {
    BumpOk(rows, a.tally, r);
    GroupStep(rows, r, ToolName, a.tools, BumpAt(a.tools, ToolName(r), r));
  }

  lemma FreshAgg(rows: seq<Row>, s: string)
    requires s !in Keys(rows, ServerName)
    ensures AggOk(KeyRows(rows, ServerName, s), Agg(EMPTY, map[]))
  {
    NoKeyNoRows(rows, ServerName, s);
  }

  lemma AggKept(rows: seq<Row>, r: Row, k: string, a: Agg)
    requires k != ServerName(r) && AggOk(KeyRows(rows, ServerName, k), a)
    ensures AggOk(KeyRows(rows + [r], ServerName, k), a)
  {
    KeyRowsStep(rows, r, ServerName, k);
  }

  lemma AggBumped(rows: seq<Row>, r: Row, a: Agg)
    requires AggOk(KeyRows(rows, ServerName, ServerName(r)), a)
    ensures AggOk(KeyRows(rows + [r], ServerName, ServerName(r)), BumpAgg(a, r))
  {
    AggStep(KeyRows(rows, ServerName, ServerName(r)), a, r);
    KeyRowsStep(rows, r, ServerName, ServerName(r));
  }

  /** `entry(server).or_default()` is the server's aggregate so far. */
  function AggAt(m: map<string, Agg>, s: string): Agg
  {
    if s in m then m[s] else Agg(EMPTY, map[])
  }

  lemma AggAtOk(rows: seq<Row>, m: map<string, Agg>, s: string)
    requires GroupedTwice(rows, m)
    ensures AggOk(KeyRows(rows, ServerName, s), AggAt(m, s))
  {
    if s !in m {
      FreshAgg(rows, s);
    }
  }

  lemma AggAfter(rows: seq<Row>, r: Row, m: map<string, Agg>, k: string)
    requires GroupedTwice(rows, m) && (k in m || k == ServerName(r))
    ensures AggOk(KeyRows(rows + [r], ServerName, k), if k == ServerName(r) then BumpAgg(AggAt(m, k), r) else m[k])
  {
    if k == ServerName(r) {
      AggAtOk(rows, m, k);
      AggBumped(rows, r, AggAt(m, k));
    } else {
      AggKept(rows, r, k, m[k]);
    }
  }

  lemma GroupTwiceStep(rows: seq<Row>, r: Row, m: map<string, Agg>, m': map<string, Agg>)
    requires GroupedTwice(rows, m)
    requires m' == m[ServerName(r) := BumpAgg(AggAt(m, ServerName(r)), r)]
    ensures GroupedTwice(rows + [r], m')
  {
    KeyRowsStep(rows, r, ServerName, ServerName(r));
    assert m'.Keys == Keys(rows + [r], ServerName);
    forall k <- m' ensures AggOk(KeyRows(rows + [r], ServerName, k), m'[k]) {
      AggAfter(rows, r, m, k);
    }
  }

  /******* Listing a hash map, busiest first *******/

  /** Stable insertion by falling call count. */
  function InsertBusy<T>(xs: seq<Entry<T>>, x: Entry<T>): seq<Entry<T>>
  {
    if xs == [] || xs[|xs| - 1].stat.calls >= x.stat.calls then xs + [x]
    else InsertBusy(xs[..|xs| - 1], x) + [xs[|xs| - 1]]
  }

  lemma RankedAppend<T(!new)>(xs: seq<Entry<T>>, x: Entry<T>)
    requires Ranked(xs) && (xs != [] ==> xs[|xs| - 1].stat.calls >= x.stat.calls) && forall y <- xs :: y.name != x.name
    ensures Ranked(xs + [x])
  {
  }

  lemma {:induction false} InsertBusyOk<T(!new)>(xs: seq<Entry<T>>, x: Entry<T>)
    requires Ranked(xs) && forall y <- xs :: y.name != x.name
    ensures Ranked(InsertBusy(xs, x))
    ensures forall y :: y in InsertBusy(xs, x) <==> y in xs || y == x
  {
    if xs == [] || xs[|xs| - 1].stat.calls >= x.stat.calls {
      RankedAppend(xs, x);
    } else {
      var init, last := xs[..|xs| - 1], xs[|xs| - 1];
      assert xs == init + [last];
      InsertBusyOk(init, x);
      var r := InsertBusy(init, x);
      forall y <- r ensures y.name != last.name && y.stat.calls >= last.stat.calls {
        if y in init {
          var i :| 0 <= i < |init| && init[i] == y;
          assert xs[i] == y;
        }
      }
      RankedAppend(r, last);
    }
  }

  /** What the entries made so far, from the names in `done`, must be. */
  ghost predicate Listed<T(!new)>(rows: seq<Row>, key: Row -> string, done: set<string>, xs: seq<Entry<T>>, rank: nat -> nat)
  {
    && (forall y <- xs :: y.name in done && y.stat == StatOf(KeyRows(rows, key, y.name), rank))
    && (forall k <- done :: k in Names(xs))
  }

  lemma ListedCovers<T(!new)>(rows: seq<Row>, key: Row -> string, done: set<string>, xs: seq<Entry<T>>, rank: nat -> nat)
    requires Ranked(xs) && Listed(rows, key, done, xs, rank) && done == Keys(rows, key)
    ensures Covers(rows, key, xs, rank)
  {
    forall k | k in Names(xs) ensures k in Keys(rows, key) {
      var i :| 0 <= i < |xs| && Names(xs)[i] == k;
      assert xs[i] in xs;
    }
  }

  lemma HasName<T(!new)>(xs: seq<Entry<T>>, y: Entry<T>)
    requires y in xs
    ensures y.name in Names(xs)
  {
    var j :| 0 <= j < |xs| && xs[j] == y;
    assert Names(xs)[j] == y.name;
  }

  lemma NameOf<T(!new)>(xs: seq<Entry<T>>, k: string) returns (y: Entry<T>)
    requires k in Names(xs)
    ensures y in xs && y.name == k
  {
    var i :| 0 <= i < |xs| && Names(xs)[i] == k;
    y := xs[i];
  }

  lemma ListOne<T(!new)>(rows: seq<Row>, key: Row -> string, done: set<string>, xs: seq<Entry<T>>, x: Entry<T>, rank: nat -> nat)
    requires Ranked(xs) && Listed(rows, key, done, xs, rank) && x.name !in done
    requires x.stat == StatOf(KeyRows(rows, key, x.name), rank)
    ensures Ranked(InsertBusy(xs, x)) && Listed(rows, key, done + {x.name}, InsertBusy(xs, x), rank)
  {
    InsertBusyOk(xs, x);
    var r := InsertBusy(xs, x);
    forall k <- done + {x.name} ensures k in Names(r) {
      if k == x.name {
        HasName(r, x);
      } else {
        var y := NameOf(xs, k);
        HasName(r, y);
      }
    }
  }

  method MakeEntry<T>(name: string, t: Tally, detail: T, rank: nat -> nat, ghost rows: seq<Row>) returns (e: Entry<T>)
    requires TallyOk(rows, t)
    ensures e.name == name && e.detail == detail && e.stat == StatOf(rows, rank)
  {
    var latency := Latency(t.durs, rank);
    e := Entry(name, Stat(t.calls, t.errors, ErrorRate(t.errors, t.calls), latency, t.lastTs), detail);
  }

  /** Walks the map in any order. Inserting each entry at its place is the stable sort of the collected list. */
  method WalkTools(m: map<string, Tally>, rank: nat -> nat, ghost rows: seq<Row>) returns (tools: seq<ToolStat>)
    requires forall k <- m :: TallyOk(KeyRows(rows, ToolName, k), m[k])
    ensures Ranked(tools) && Listed(rows, ToolName, m.Keys, tools, rank)
  {
    tools := [];
    var todo := m.Keys;
    ghost var done: set<string> := {};
    while todo != {}
      invariant done + todo == m.Keys && done !! todo
      invariant Ranked(tools) && Listed(rows, ToolName, done, tools, rank)
    {
      var name :| name in todo;
      var entry := MakeEntry(name, m[name], (), rank, KeyRows(rows, ToolName, name));
      ListOne(rows, ToolName, done, tools, entry, rank);
      tools := InsertBusy(tools, entry);
      todo, done := todo - {name}, done + {name};
    }
    assert done == m.Keys;
  }

  /** A server's tools. */
  method ListTools(m: map<string, Tally>, rank: nat -> nat, ghost rows: seq<Row>) returns (tools: seq<ToolStat>)
    requires Grouped(rows, ToolName, m)
    ensures Covers(rows, ToolName, tools, rank)
  {
    tools := WalkTools(m, rank, rows);
    ListedCovers(rows, ToolName, m.Keys, tools, rank);
  }

  ghost predicate DetailsMeet(rows: seq<Row>, servers: seq<ServerStat>, rank: nat -> nat)
  {
    forall s <- servers :: Covers(KeyRows(rows, ServerName, s.name), ToolName, s.detail, rank)
  }

  lemma ListServer(rows: seq<Row>, done: set<string>, servers: seq<ServerStat>, s: ServerStat, rank: nat -> nat)
    requires Ranked(servers) && Listed(rows, ServerName, done, servers, rank) && DetailsMeet(rows, servers, rank)
    requires s.name !in done && s.stat == StatOf(KeyRows(rows, ServerName, s.name), rank)
    requires Covers(KeyRows(rows, ServerName, s.name), ToolName, s.detail, rank)
    ensures Ranked(InsertBusy(servers, s)) && Listed(rows, ServerName, done + {s.name}, InsertBusy(servers, s), rank)
    ensures DetailsMeet(rows, InsertBusy(servers, s), rank)
  {
    ListOne(rows, ServerName, done, servers, s, rank);
    InsertBusyOk(servers, s);
  }

  lemma ListedMeets(rows: seq<Row>, done: set<string>, servers: seq<ServerStat>, rank: nat -> nat)
    requires done == Keys(rows, ServerName)
    requires Ranked(servers) && Listed(rows, ServerName, done, servers, rank) && DetailsMeet(rows, servers, rank)
    ensures ServersMeet(rows, servers, rank)
  {
    ListedCovers(rows, ServerName, done, servers, rank);
    assert forall i :: 0 <= i < |servers| ==> servers[i] in servers;
  }

  method MakeServer(name: string, a: Agg, rank: nat -> nat, ghost rows: seq<Row>) returns (s: ServerStat)
    requires AggOk(rows, a)
    ensures s.name == name && s.stat == StatOf(rows, rank) && Covers(rows, ToolName, s.detail, rank)
  {
    var tools := ListTools(a.tools, rank, rows);
    s := MakeEntry(name, a.tally, tools, rank, rows);
  }

  /** The servers made so far, from the names in `done`. */
  ghost predicate Listing(rows: seq<Row>, done: set<string>, servers: seq<ServerStat>, rank: nat -> nat)
  {
    Ranked(servers) && Listed(rows, ServerName, done, servers, rank) && DetailsMeet(rows, servers, rank)
  }

  method AddServer(
    name: string, a: Agg, servers: seq<ServerStat>, rank: nat -> nat, ghost rows: seq<Row>, ghost done: set<string>)
    returns (more: seq<ServerStat>)
    requires AggOk(KeyRows(rows, ServerName, name), a) && Listing(rows, done, servers, rank) && name !in done
    ensures Listing(rows, done + {name}, more, rank)
  {
    var entry := MakeServer(name, a, rank, KeyRows(rows, ServerName, name));
    ListServer(rows, done, servers, entry, rank);
    more := InsertBusy(servers, entry);
  }

  /** Walks the map in any order. */
  method WalkServers(m: map<string, Agg>, rank: nat -> nat, ghost rows: seq<Row>) returns (servers: seq<ServerStat>)
    requires forall k <- m :: AggOk(KeyRows(rows, ServerName, k), m[k])
    ensures Listing(rows, m.Keys, servers, rank)
  {
    servers := [];
    var todo := m.Keys;
    ghost var done: set<string> := {};
    while todo != {}
      invariant done + todo == m.Keys && done !! todo
      invariant Listing(rows, done, servers, rank)
    {
      var name :| name in todo;
      servers := AddServer(name, m[name], servers, rank, rows, done);
      todo, done := todo - {name}, done + {name};
    }
    assert done == m.Keys;
  }

  method ListServers(m: map<string, Agg>, rank: nat -> nat, ghost rows: seq<Row>) returns (servers: seq<ServerStat>)
    requires GroupedTwice(rows, m)
    ensures ServersMeet(rows, servers, rank)
  {
    servers := WalkServers(m, rank, rows);
    ListedMeets(rows, m.Keys, servers, rank);
  }

  /** The accumulators after these rows. */
  predicate Aggregated(rows: seq<Row>, total: nat, errors: nat, dropped: nat, byServer: map<string, Agg>)
  {
    var calls := CallRows(rows);
    total == |calls| && errors == |Failed(calls)| && dropped == Dropped(rows) && GroupedTwice(calls, byServer)
  }

  lemma CallRowsStep(rows: seq<Row>, r: Row)
    ensures CallRows(rows + [r]) == if IsCall(r) then CallRows(rows) + [r] else CallRows(rows)
    ensures Dropped(rows + [r]) == SaturatingAdd(Dropped(rows), if IsGap(r) && r.dropped.Some? then r.dropped.value else 0)
    ensures IsGap(r) ==> !IsCall(r)
    ensures !IsGap(r) ==> Dropped(rows + [r]) == Dropped(rows)
  {
    assert (rows + [r])[..|rows|] == rows;
    DroppedBound(rows);
  }

  /** One more call row: how the counts move. */
  lemma CountsStep(calls: seq<Row>, r: Row)
    requires IsCall(r)
    ensures |calls + [r]| == |calls| + 1
    ensures |Failed(calls + [r])| == |Failed(calls)| + if ToolCallOk(r).value then 0 else 1
  {
    assert (calls + [r])[..|calls|] == calls;
  }

  lemma AggregateCall(rows: seq<Row>, r: Row, total: nat, errors: nat, dropped: nat, m: map<string, Agg>, m': map<string, Agg>)
    requires Aggregated(rows, total, errors, dropped, m) && IsCall(r) && !IsGap(r)
    requires m' == m[ServerName(r) := BumpAgg(AggAt(m, ServerName(r)), r)]
    ensures Aggregated(rows + [r], total + 1, errors + (if ToolCallOk(r).value then 0 else 1), dropped, m')
  {
    var calls := CallRows(rows);
    CallRowsStep(rows, r);
    CountsStep(calls, r);
    GroupTwiceStep(calls, r, m, m');
    AggregatedBy(rows + [r], calls + [r], total + 1, errors + (if ToolCallOk(r).value then 0 else 1), dropped, m');
  }

  lemma AggregatedBy(rows: seq<Row>, calls: seq<Row>, total: nat, errors: nat, dropped: nat, m: map<string, Agg>)
    requires CallRows(rows) == calls && total == |calls| && errors == |Failed(calls)| && dropped == Dropped(rows)
    requires GroupedTwice(calls, m)
    ensures Aggregated(rows, total, errors, dropped, m)
  {
  }

  /** `aggregate_rows` */
  method AggregateRows(rows: seq<Row>, rank: nat -> nat) returns (st: Stats)
    ensures Meets(rows, st, rank)
  {
    var byServer: map<string, Agg> := map[];
    var total, errors, dropped := 0, 0, 0;
    for i := 0 to |rows|
      invariant Aggregated(rows[..i], total, errors, dropped, byServer)
    {
      var r := rows[i];
      assert rows[..i + 1] == rows[..i] + [r];
      CallRowsStep(rows[..i], r);
      if IsGap(r) {
        dropped := SaturatingAdd(dropped, if r.dropped.Some? then r.dropped.value else 0);
        continue;
      }
      var ok := ToolCallOk(r);
      if ok.None? {
        continue;
      }
      var bumped := byServer[ServerName(r) := BumpAgg(AggAt(byServer, ServerName(r)), r)];
      AggregateCall(rows[..i], r, total, errors, dropped, byServer, bumped);
      total, errors := total + 1, errors + if ok.value then 0 else 1;
      byServer := bumped;
    }
    assert rows[..|rows|] == rows;
    var servers := ListServers(byServer, rank, CallRows(rows));
    st := Stats(total, dropped, errors, ErrorRate(errors, total), servers);
  }

  /******* The cache *******/

  const MAX_AUDIT_BYTES: nat := 4 * 1024 * 1024

  /** The rows of a log, newest first; lines that do not parse are skipped. */
  function ParsedRows(lines: seq<string>, parse: string -> Option<Row>): seq<Row>
  {
    if lines == [] then []
    else ParsedRows(lines[1..], parse) + if parse(lines[0]).Some? then [parse(lines[0]).value] else []
  }

  class StatsCache {
    const parse: string -> Option<Row>
    const rank: nat -> nat
    var content: Option<string>
    var stats: Option<Stats>

    /** What is retained is one content within the cap, with the statistics of its rows. */
    ghost predicate Valid()
      reads this
    {
      match content
      case None => stats.None?
      case Some(c) => Utf8Len(c) <= MAX_AUDIT_BYTES && stats.Some? && Meets(ParsedRows(Lines(c), parse), stats.value, rank)
    }

    constructor (parse: string -> Option<Row>, rank: nat -> nat)
      ensures Valid() && content.None? && this.parse == parse && this.rank == rank
    {
      this.parse, this.rank := parse, rank;
      content, stats := None, None;
    }

    /** Whatever was asked before, the answer is an aggregation of this content. */
    method Get(c: string) returns (st: Stats)
      requires Valid()
      modifies this
      ensures Valid()
      ensures Meets(ParsedRows(Lines(c), parse), st, rank)
      ensures content == (if Utf8Len(c) <= MAX_AUDIT_BYTES then Some(c) else None)
      ensures content.Some? ==> stats == Some(st)
      ensures old(content) == Some(c) ==> Some(st) == old(stats)
    {
      if content == Some(c) {
        return stats.value;
      }
      content, stats := None, None;
      st := AggregateRows(ParsedRows(Lines(c), parse), rank);
      if Utf8Len(c) <= MAX_AUDIT_BYTES {
        content, stats := Some(c), Some(st);
      } else {
        content, stats := None, None;
      }
    }
  }
}
